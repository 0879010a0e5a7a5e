/** Users and directory: `list_users` and `get_user`. */
module Directory {
  import opened Wrappers
  import opened Errors
  import opened Records

  /** `list_users`: every user of the response, in order. The `limit` is
      passed on to Graph as `$top` and is not applied again here. */
  function ListUsers(page: Page<GraphUser>): (r: seq<User>)
    ensures |r| == |Items(page)|
    ensures forall i :: 0 <= i < |r| ==> r[i] == ToUser(Items(page)[i])
  {
    var users := Items(page);
    seq(|users|, i requires 0 <= i < |users| => ToUser(users[i]))
  }

  /** `get_user`: raises when Graph returns no user. */
  function GetUser(userId: string, found: Option<GraphUser>): (r: Result<User, ValueError>)
    ensures r.Failure? <==> found.None?
    ensures r.Failure? ==> r.error == UserNotFound(userId)
    ensures r.Success? ==> r.value == ToUser(found.value)
  {
    match found
    case None => Failure(UserNotFound(userId))
    case Some(u) => Success(ToUser(u))
  }
}
