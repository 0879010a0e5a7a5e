/** Outlook: `send_email` chooses the mailbox it sends from. */
module Mail {
  import opened Wrappers
  import opened Errors
  import opened Records
  import opened Directory

  /** The sending mailbox: `from_user` when given, else the first user that
      `list_users(limit=1)` returns; raises when that list is empty. */
  function SenderMailbox(fromUser: Option<string>, listed: Page<GraphUser>): (r: Result<string, ValueError>)
    ensures Truthy(fromUser) ==> r == Success(fromUser.value)
    ensures !Truthy(fromUser) && Items(listed) == [] ==> r == Failure(NoUsersToSendFrom)
    ensures !Truthy(fromUser) && Items(listed) != [] ==> r == Success(ToUser(Items(listed)[0]).id)
  {
    if Truthy(fromUser) then Success(fromUser.value)
    else
      var users := ListUsers(listed);
      if users == [] then Failure(NoUsersToSendFrom) else Success(users[0].id)
  }

  /** `send_email` reports success whenever it gets as far as sending; the
      only failure it raises itself is the missing sender. */
  function SendEmail(fromUser: Option<string>, listed: Page<GraphUser>): (r: Result<bool, ValueError>)
    ensures r.Success? ==> r.value
    ensures r.Failure? <==> !Truthy(fromUser) && Items(listed) == []
    ensures r.Failure? ==> r.error == NoUsersToSendFrom
  {
    match SenderMailbox(fromUser, listed)
    case Failure(e) => Failure(e)
    case Success(_) => Success(true)
  }
}
