/**
 * The vendor shapes the adapter reads (Microsoft Graph objects, with every
 * attribute optional) and the five domain records it returns, with the
 * field-by-field mapping between them.
 */
module Records {
  import opened Wrappers

  /** A Graph collection response; `result.value or []` reads its items. */
  datatype Page<T> = Page(value: Option<seq<T>>)

  function Items<T>(p: Page<T>): (r: seq<T>)
    ensures p.value.Some? ==> r == p.value.value
    ensures p.value.None? ==> r == []
  {
    p.value.GetOr([])
  }

  // ---------------------------------------------------------------------
  // Vendor shapes

  datatype GraphUser = GraphUser(
    id: Option<string>,
    displayName: Option<string>,
    mail: Option<string>,
    userPrincipalName: Option<string>,
    department: Option<string>)

  datatype GraphTeam = GraphTeam(id: Option<string>, displayName: Option<string>)

  datatype GraphChannel = GraphChannel(
    id: Option<string>,
    displayName: Option<string>,
    description: Option<string>)

  datatype Identity = Identity(displayName: Option<string>)
  datatype IdentitySet = IdentitySet(user: Option<Identity>)
  datatype ItemBody = ItemBody(content: Option<string>)

  /** A chat message; `createdDateTime` is already rendered as text. */
  datatype ChatMessage = ChatMessage(
    id: Option<string>,
    from: Option<IdentitySet>,
    body: Option<ItemBody>,
    createdDateTime: Option<string>)

  datatype FolderFacet = FolderFacet(childCount: Option<int>)

  datatype DriveItem = DriveItem(
    id: Option<string>,
    name: Option<string>,
    webUrl: Option<string>,
    size: Option<int>,
    folder: Option<FolderFacet>)

  datatype Site = Site(id: Option<string>)

  /** A Planner task; `dueDateTime` is already rendered as text. */
  datatype PlannerTask = PlannerTask(
    id: Option<string>,
    title: Option<string>,
    percentComplete: Option<int>,
    dueDateTime: Option<string>)

  // ---------------------------------------------------------------------
  // Domain records

  datatype User = User(id: string, displayName: string, email: Option<string>, department: Option<string>)

  datatype Channel = Channel(
    id: string,
    name: string,
    description: Option<string>,
    teamId: Option<string>,
    teamName: Option<string>)

  datatype Message = Message(id: string, content: string, sender: string, timestamp: string, channelId: string)

  datatype Document = Document(
    id: string,
    name: string,
    path: string,
    webUrl: Option<string>,
    size: Option<int>,
    isFolder: bool)

  datatype Task = Task(id: string, title: string, status: string, dueDate: Option<string>)

  const UnknownSender := "Unknown"
  const StatusComplete := "complete"
  const StatusInProgress := "in_progress"

  // ---------------------------------------------------------------------
  // Users

  /** `user.mail or user.user_principal_name`. */
  function EmailOf(u: GraphUser): (r: Option<string>)
    ensures Truthy(u.mail) ==> r == u.mail
    ensures !Truthy(u.mail) ==> r == u.userPrincipalName
  {
    if Truthy(u.mail) then u.mail else u.userPrincipalName
  }

  function ToUser(u: GraphUser): (r: User)
    ensures r.id == u.id.GetOr("") && r.displayName == u.displayName.GetOr("")
    ensures Truthy(u.mail) ==> r.email == u.mail
    ensures !Truthy(u.mail) ==> r.email == u.userPrincipalName
    ensures r.email.None? <==> !Truthy(u.mail) && u.userPrincipalName.None?
    ensures r.department == u.department
  {
    User(OrElse(u.id, ""), OrElse(u.displayName, ""), EmailOf(u), u.department)
  }

  // ---------------------------------------------------------------------
  // Channels

  function ToChannel(ch: GraphChannel, teamId: string, teamName: Option<string>): (r: Channel)
    ensures r.id == ch.id.GetOr("") && r.name == ch.displayName.GetOr("")
    ensures r.description == ch.description
    ensures r.teamId == Some(teamId) && r.teamName == teamName
  {
    Channel(OrElse(ch.id, ""), OrElse(ch.displayName, ""), ch.description, Some(teamId), teamName)
  }

  // ---------------------------------------------------------------------
  // Messages

  /** The author's display name, when the message names one. */
  function AuthorName(m: ChatMessage): Option<string> {
    if m.from.Some? && m.from.value.user.Some? then m.from.value.user.value.displayName else None
  }

  /** The sender shown for a message: its author's name, else "Unknown". */
  function SenderOf(m: ChatMessage): (r: string)
    ensures r != ""
    ensures Truthy(AuthorName(m)) ==> r == AuthorName(m).value
    ensures !Truthy(AuthorName(m)) ==> r == UnknownSender
  {
    if m.from.Some? && m.from.value.user.Some? then
      OrElse(m.from.value.user.value.displayName, UnknownSender)
    else UnknownSender
  }

  /** `msg.body.content if msg.body else ""`, as written: a body without
      content gives no string at all. */
  function ContentAsWritten(body: Option<ItemBody>): (r: Option<string>)
    ensures body.None? ==> r == Some("")
    ensures body.Some? ==> r == body.value.content
  {
    if body.Some? then body.value.content else Some("")
  }

  /** The same choice with the empty string also for a body without content. */
  function ContentOf(body: Option<ItemBody>): (r: string)
    ensures ContentAsWritten(body).Some? ==> r == ContentAsWritten(body).value
    ensures ContentAsWritten(body).None? ==> r == ""
  {
    if body.Some? then body.value.content.GetOr("") else ""
  }

  /** A body that is present but has no content. */
  lemma ContentCanBeAbsent()
    ensures ContentAsWritten(Some(ItemBody(None))) == None
    ensures ContentOf(Some(ItemBody(None))) == ""
  {
  }

  function ToMessage(m: ChatMessage, channelId: string): (r: Message)
    ensures r.id == m.id.GetOr("")
    ensures r.content == ContentOf(m.body) && (m.body.None? ==> r.content == "")
    ensures r.sender == SenderOf(m)
    ensures r.timestamp == m.createdDateTime.GetOr("")
    ensures r.channelId == channelId
  {
    Message(OrElse(m.id, ""), ContentOf(m.body), SenderOf(m), OrElse(m.createdDateTime, ""), channelId)
  }

  // ---------------------------------------------------------------------
  // Documents

  /** `folder_path or "/"`: never empty. */
  function ListedPath(folderPath: Option<string>): (r: string)
    ensures r != ""
    ensures Truthy(folderPath) ==> r == folderPath.value
    ensures !Truthy(folderPath) ==> r == "/"
  {
    OrElse(folderPath, "/")
  }

  function ToDocument(item: DriveItem, folderPath: Option<string>): (r: Document)
    ensures r.id == item.id.GetOr("") && r.name == item.name.GetOr("")
    ensures r.path == ListedPath(folderPath)
    ensures r.webUrl == item.webUrl && r.size == item.size
    ensures r.isFolder <==> item.folder.Some?
  {
    Document(OrElse(item.id, ""), OrElse(item.name, ""), ListedPath(folderPath),
             item.webUrl, item.size, item.folder.Some?)
  }

  // ---------------------------------------------------------------------
  // Tasks

  /** The binary status rule: complete exactly at 100 percent. */
  function StatusOf(percentComplete: Option<int>): (r: string)
    ensures r == StatusComplete <==> percentComplete == Some(100)
    ensures r == StatusComplete || r == StatusInProgress
  {
    if percentComplete == Some(100) then StatusComplete else StatusInProgress
  }

  function ToTask(t: PlannerTask): (r: Task)
    ensures r.id == t.id.GetOr("") && r.title == t.title.GetOr("")
    ensures r.status == StatusOf(t.percentComplete)
    ensures r.dueDate == t.dueDateTime
  {
    Task(OrElse(t.id, ""), OrElse(t.title, ""), StatusOf(t.percentComplete), t.dueDateTime)
  }
}
