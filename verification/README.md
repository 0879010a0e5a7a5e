# Microsoft 365 collaboration provider — decision and normalisation model

This project models the core of `M365Provider`, the Microsoft 365 / Microsoft
Graph back end of the collaboration tool, and proves properties of it in Dafny.
The model covers:

- `M365Config.from_env`: which required variables are missing, and how the
  `M365_TEAMS_WEBHOOKS` string `name=url,name=url` becomes an
  insertion-ordered dictionary.
- The provider constructor, which ignores its `config` argument.
- The mappers that turn Graph objects (every attribute optional) into the
  `User`, `Channel`, `Message`, `Document` and `Task` records.
- `list_channels`:
  - with a team id, it lists that team's channels;
  - without one, it walks the first five teams, skipping teams that have no
    id or whose fetch raises.
- `get_messages`: the required team id, Python's `[:limit]` slice, and the
  sender and content defaults.
- `post_message`: the webhook lookup and the payload shape.
- The SharePoint default-site rule that `list_documents`,
  `upload_document` and `download_document` share, and the upload path.
- `list_tasks` and the binary task status.
- The sender fallback of `send_email`.

Modelling choices:

- Every failure the adapter raises itself is a Python `ValueError`. It is
  modelled as the one datatype `Errors.ValueError`. Each constructor says
  which check raised the error and carries the facts its message reports.
- Graph responses are inputs. A collection response is
  `Page(value: Option<seq<T>>)`, read as `result.value or []`.
- A per-team channel fetch is a function from team id to `Option<Page>`;
  `None` stands for the exception the fetch raised.
- The environment is a `map<string, string>`.
- Python truthiness of an optional string is `Wrappers.Truthy` (present and
  non-empty).
- Python's `str.split`, `str.split(sep, 1)` and `str.strip()` are written
  out in `Strings`, with round-trip lemmas.

The three loops of the source are methods proved against specification
functions:

| loop | method | specification function |
|---|---|---|
| building the webhook dictionary | `Config.ParseWebhooks` | `Config.ParsedWebhooks` |
| appending channels over the first five teams | `Channels.VisitTeams` | `Channels.Aggregate` |
| appending messages | `Channels.GetMessages` | pointwise `Records.ToMessage` |

## Model

| member | source | states |
|---|---|---|
| Strings.IndexOf | amplifier_module_tool_m365/providers/m365.py:65-66 | the index of the first occurrence of a character, or the length when it is absent; the character is not in the prefix before it |
| Strings.Split | amplifier_module_tool_m365/providers/m365.py:64 | `str.split(sep)`: at least one piece, and no piece contains the separator |
| Strings.JoinSplit | amplifier_module_tool_m365/providers/m365.py:64 | joining the pieces of a split with the separator gives back the string |
| Strings.SplitJoin | amplifier_module_tool_m365/providers/m365.py:64 | splitting a join of separator-free pieces gives back exactly those pieces |
| Strings.IndexOfJoined | amplifier_module_tool_m365/providers/m365.py:66 | in `k + sep + v` with `sep` not in `k`, the first separator sits right after `k` |
| Strings.SplitOnce | amplifier_module_tool_m365/providers/m365.py:66 | `split(sep, 1)`: the string is head + sep + tail, and the head holds no separator |
| Strings.SplitOnceJoin | amplifier_module_tool_m365/providers/m365.py:66 | splitting `k + sep + v` once, with `sep` not in `k`, gives `(k, v)`, whatever separators `v` holds |
| Strings.TrimStart | amplifier_module_tool_m365/providers/m365.py:67 | the result is a suffix; what was removed is whitespace; the result is empty or starts with non-whitespace |
| Strings.TrimEnd | amplifier_module_tool_m365/providers/m365.py:67 | the result is a prefix; what was removed is whitespace; the result is empty or ends with non-whitespace |
| Strings.Strip | amplifier_module_tool_m365/providers/m365.py:67 | `str.strip()`: no whitespace is left at either end and the result is no longer than the input; with `StripInfix` it is a contiguous slice of the input, and with `StripPadded`, the result is exactly the text between a whitespace prefix and a whitespace suffix |
| Strings.StripInfix | amplifier_module_tool_m365/providers/m365.py:67 | the stripped string is a contiguous slice of the input, so stripping only removes characters |
| Strings.StripKeeps | amplifier_module_tool_m365/providers/m365.py:67 | stripping a string with no surrounding whitespace leaves it unchanged |
| Strings.StripIdempotent | amplifier_module_tool_m365/providers/m365.py:67 | stripping twice is stripping once |
| Strings.StripPadded | amplifier_module_tool_m365/providers/m365.py:67 | stripping whitespace padding around a stripped string recovers that string |
| Strings.StripAllSpace | amplifier_module_tool_m365/providers/m365.py:67 | a string of whitespace only strips to the empty string |
| Strings.TrimStartPadded | amplifier_module_tool_m365/providers/m365.py:67 | leading whitespace before a string that starts with non-whitespace is removed exactly |
| Strings.TrimEndPadded | amplifier_module_tool_m365/providers/m365.py:67 | trailing whitespace after a string that ends with non-whitespace is removed exactly |
| Wrappers.OrElse | amplifier_module_tool_m365/providers/m365.py:115-116 | `x or default`: the value when it is present and non-empty, else the default |
| Config.Lookup | amplifier_module_tool_m365/providers/m365.py:42-44 | `os.environ.get(key)`: present exactly when the variable is set, and then its value |
| Config.Missing | amplifier_module_tool_m365/providers/m365.py:46-55 | a name is listed exactly when it is one of the three required variables and is absent or empty; listed in the order tenant, client, secret; empty exactly when all three are set |
| Config.Webhooks.Set | amplifier_module_tool_m365/providers/m365.py:67 | dict assignment: the mapping is updated; a new key is appended to the key order, an existing key keeps its place; keys stay unique |
| Config.Webhooks.Get | amplifier_module_tool_m365/providers/m365.py:232 | `dict.get(name)`: present exactly when the name is mapped, and then its url |
| Config.PieceBinding | amplifier_module_tool_m365/providers/m365.py:65-67 | a piece binds a name exactly when it contains `=`; pieces without `=` contribute nothing |
| Config.Record | amplifier_module_tool_m365/providers/m365.py:65-67 | one loop turn keeps the dictionary well formed (keys unique, listed keys are the mapped ones); a piece that binds nothing is skipped |
| Config.Collect | amplifier_module_tool_m365/providers/m365.py:64-67 | the dictionary built from any run of bindings is well formed |
| Config.ParsedWebhooks | amplifier_module_tool_m365/providers/m365.py:61-67 | the table parsed from the variable is well formed; an empty string gives the empty table |
| Config.ParseWebhooks | amplifier_module_tool_m365/providers/m365.py:61-67 | the loop builds exactly `ParsedWebhooks` of the variable: each comma-separated piece in order, recorded through its binding |
| Config.CollectStep | amplifier_module_tool_m365/providers/m365.py:64-67 | the table after one more piece is the table before it with that piece's binding recorded |
| Config.LoadedConfig | amplifier_module_tool_m365/providers/m365.py:40-74 | loading succeeds exactly when no required variable is missing; otherwise the error names exactly the missing ones; a loaded configuration carries the three credentials as read from the environment and the webhook table parsed from `M365_TEAMS_WEBHOOKS` (the empty string when it is absent) |
| Config.FromEnv | amplifier_module_tool_m365/providers/m365.py:40-74 | returns or raises exactly what `LoadedConfig` describes |
| Config.LoadedConfigSucceeds | amplifier_module_tool_m365/providers/m365.py:42-74 | success exactly when the three variables are present and non-empty, and the loaded credentials are their values unchanged |
| Config.LoadedWebhookNames | amplifier_module_tool_m365/providers/m365.py:61-67 | a loaded configuration maps a channel name exactly when `M365_TEAMS_WEBHOOKS` is non-empty and one of its comma-separated pieces binds that name |
| Config.OnlySecretMissing | amplifier_module_tool_m365/providers/m365.py:46-58 | an environment that lacks only the client secret raises naming only `M365_CLIENT_SECRET` |
| Config.RecordName | amplifier_module_tool_m365/providers/m365.py:65-67 | after one binding, a name is bound exactly when it was already bound or the binding binds it; a binding that binds it sets its url, and other urls are kept |
| Config.BoundBySomeLast | amplifier_module_tool_m365/providers/m365.py:64-67 | some piece binds a name exactly when an earlier piece or the last one does |
| Config.CollectNames | amplifier_module_tool_m365/providers/m365.py:64-67 | a name is in the table exactly when some piece binds it |
| Config.CollectLastWins | amplifier_module_tool_m365/providers/m365.py:64-67 | for a repeated name, the last piece that binds it decides its url |
| Config.NoWebhookVariable | amplifier_module_tool_m365/providers/m365.py:61-63 | an absent or empty `M365_TEAMS_WEBHOOKS` gives an empty table |
| Config.PieceBindingSplit | amplifier_module_tool_m365/providers/m365.py:65-67 | a piece `head=tail` with no `=` in `head` binds `head`, stripped, to `tail`, stripped, whatever `=` the tail holds |
| Config.PieceBinds | amplifier_module_tool_m365/providers/m365.py:65-67 | a piece `name=url` with no surrounding whitespace binds exactly `name` to `url` |
| Config.ParsedPieces | amplifier_module_tool_m365/providers/m365.py:63-64 | a non-empty table string joined from comma-free pieces is parsed piece by piece |
| Config.SinglePiece | amplifier_module_tool_m365/providers/m365.py:61-67 | `name=url` parses to the one-entry table `{name: url}`, so `a=x=y` maps `a` to `x=y` |
| Config.NoCommaPiece | amplifier_module_tool_m365/providers/m365.py:64 | a piece built from comma-free name and url is comma-free |
| Config.TwoPiecesParse | amplifier_module_tool_m365/providers/m365.py:63-67 | two comma-free pieces are recorded in order, each through its binding |
| Config.SetTwo | amplifier_module_tool_m365/providers/m365.py:67 | two assignments give two keys in order, or one key with the second value when the names coincide |
| Config.TwoPieces | amplifier_module_tool_m365/providers/m365.py:61-67 | `a=u,b=v` with distinct names parses to `{a: u, b: v}` in that key order |
| Config.RepeatedPiece | amplifier_module_tool_m365/providers/m365.py:61-67 | `a=u,a=v` parses to the one-entry table `{a: v}`: the last duplicate wins |
| Provider.NewProvider | amplifier_module_tool_m365/providers/m365.py:80-86 | the `config` argument is ignored; construction succeeds exactly when the environment has the three variables, and then holds `from_env`'s configuration; otherwise it raises `from_env`'s error |
| Records.EmailOf | amplifier_module_tool_m365/providers/m365.py:117 | `mail or user_principal_name` |
| Records.Items | amplifier_module_tool_m365/providers/m365.py:121 | `result.value or []`: the listed items when the response has a value, else the empty list |
| Records.ToUser | amplifier_module_tool_m365/providers/m365.py:113-121 | missing id and display name become `""`; the email is the mail when it is present and non-empty, else the principal name, and absent only when the mail is not truthy and the principal name is absent; the department is copied |
| Records.ToChannel | amplifier_module_tool_m365/providers/m365.py:144-182 | missing id and name become `""`; the description is copied; the channel is tagged with the team id and team name |
| Records.SenderOf | amplifier_module_tool_m365/providers/m365.py:207-209 | the sender is never empty: the author's display name when present and non-empty, else `"Unknown"` |
| Records.ContentAsWritten | amplifier_module_tool_m365/providers/m365.py:214 | `body.content if body else ""` as written: `""` without a body, else the body's content, which may be absent |
| Records.ContentOf | amplifier_module_tool_m365/providers/m365.py:214 | agrees with the source whenever the source gives a string, and gives `""` where it gives none |
| Records.ContentCanBeAbsent | amplifier_module_tool_m365/providers/m365.py:214 | a body without content makes the source's content absent, while the corrected content is `""` |
| Records.ToMessage | amplifier_module_tool_m365/providers/m365.py:211-221 | missing id and timestamp become `""`; content is `""` without a body; sender follows `SenderOf`; the channel id is the argument |
| Records.ListedPath | amplifier_module_tool_m365/providers/m365.py:289 | `folder_path or "/"`: never empty |
| Records.ToDocument | amplifier_module_tool_m365/providers/m365.py:285-295 | missing id and name become `""`; the path follows `ListedPath`; url and size are copied; `is_folder` exactly when a folder facet is present |
| Records.StatusOf | amplifier_module_tool_m365/providers/m365.py:374 | `"complete"` exactly when percent complete is 100, `"in_progress"` otherwise, and nothing else |
| Records.ToTask | amplifier_module_tool_m365/providers/m365.py:370-378 | missing id and title become `""`; the status follows `StatusOf`; the due date is copied |
| Directory.ListUsers | amplifier_module_tool_m365/providers/m365.py:113-121 | one user per Graph user, in order, each mapped by `ToUser`; an absent collection gives `[]` |
| Directory.GetUser | amplifier_module_tool_m365/providers/m365.py:125-133 | raises `User not found` exactly when Graph returns no user; otherwise the mapped user |
| Mail.SenderMailbox | amplifier_module_tool_m365/providers/m365.py:392-397 | `from_user` when given and non-empty; else the id of the first listed user; raises when no user is listed |
| Mail.SendEmail | amplifier_module_tool_m365/providers/m365.py:392-412 | raises exactly when there is no sender and no listed user; otherwise returns true |
| Planner.ListTasks | amplifier_module_tool_m365/providers/m365.py:360-378 | `[]` without a plan id; otherwise one task per Planner task, in order, mapped by `ToTask` |
| Documents.DefaultSite | amplifier_module_tool_m365/providers/m365.py:305-312 | the first listed site's id when there is a first site with a non-empty id; otherwise it names the reason: no sites, or a site without an id |
| Documents.SiteFor | amplifier_module_tool_m365/providers/m365.py:305-312 | `site_id` when given and non-empty, else the default site |
| Documents.ListedFolder | amplifier_module_tool_m365/providers/m365.py:274-283 | the drive root exactly when `folder_path` is absent, empty or `"root"`, else that path |
| Documents.ListingRequest | amplifier_module_tool_m365/providers/m365.py:264-283 | no request exactly when no site can be resolved; otherwise the resolved site and the listed folder |
| Documents.ListDocuments | amplifier_module_tool_m365/providers/m365.py:264-295 | `[]` without raising when no site can be resolved; otherwise one document per child, in order, mapped by `ToDocument` |
| Documents.UploadPath | amplifier_module_tool_m365/providers/m365.py:317-319 | `folder_path/name` when `folder_path` is non-empty and not `"root"`, else `name`; the name always ends the path |
| Documents.UploadedIdAsWritten | amplifier_module_tool_m365/providers/m365.py:328 | `result.id if result else ""` as written: `""` without a created item, else its id, which may be absent |
| Documents.UploadedId | amplifier_module_tool_m365/providers/m365.py:328 | agrees with the source whenever the source gives a string, and gives `""` where it gives none |
| Documents.UploadedIdCanBeAbsent | amplifier_module_tool_m365/providers/m365.py:328 | a created item without an id makes the source's document id absent, while the corrected id is `""` |
| Documents.UploadDocument | amplifier_module_tool_m365/providers/m365.py:305-332 | raises exactly when no site can be resolved, with that reason; otherwise the document is named `name`, lies at `UploadPath`, and carries the created item's id and url |
| Documents.DownloadDocument | amplifier_module_tool_m365/providers/m365.py:340-354 | raises exactly when no site can be resolved, with that reason; otherwise the returned content, or no bytes |
| Documents.SiteRuleShared | amplifier_module_tool_m365/providers/m365.py:264-347 | for a non-empty folder, listing is empty exactly where upload raises, and upload raises exactly where download does |
| Documents.UploadPathExamples | amplifier_module_tool_m365/providers/m365.py:317-319 | `f.txt` into `docs` goes to `docs/f.txt`; into `"root"` or no folder it goes to `f.txt` |
| Channels.FirstTeams | amplifier_module_tool_m365/providers/m365.py:167 | `teams[:5]`: a prefix of at most five teams, and all of them when there are at most five |
| Channels.TeamChannelList | amplifier_module_tool_m365/providers/m365.py:144-152 | one channel record per Graph channel, in order, each mapped by `ToChannel` and tagged with the given team id and name |
| Channels.TeamContribution | amplifier_module_tool_m365/providers/m365.py:168-185 | a team adds channels only when it has an id and its fetch succeeded |
| Channels.Aggregate | amplifier_module_tool_m365/providers/m365.py:166-187 | the specification of the team walk: every channel it collects carries a non-empty team id (with `AggregateAround`, `SkippedTeam` and `AggregateOrigin` characterising it team by team) |
| Channels.ContributionTagged | amplifier_module_tool_m365/providers/m365.py:174-183 | every channel a team adds carries that team's id and name |
| Channels.QueriedIds | amplifier_module_tool_m365/providers/m365.py:167-173 | at most one fetched id per visited team, and never an empty id |
| Channels.ListChannels | amplifier_module_tool_m365/providers/m365.py:139-187 | with a team id, that team's channels tagged with the id, and a failed fetch propagates; without one, the aggregate over the first five teams, which never fails; at most five teams are ever fetched |
| Channels.VisitTeams | amplifier_module_tool_m365/providers/m365.py:166-187 | the loop produces exactly the aggregate of the visited teams and fetches exactly the ids of the teams that have one |
| Channels.VisitStep | amplifier_module_tool_m365/providers/m365.py:167-185 | one more visited team adds its contribution to the aggregate and, when it has an id, that id to the fetched ids |
| Channels.AppendChannels | amplifier_module_tool_m365/providers/m365.py:174-183 | appends one team's channels, mapped and tagged, to the running list |
| Channels.AggregateAppend | amplifier_module_tool_m365/providers/m365.py:166-187 | the aggregate of two runs of teams is the concatenation of their aggregates |
| Channels.AggregateSingle | amplifier_module_tool_m365/providers/m365.py:168-185 | the aggregate of one team is its contribution |
| Channels.AggregateAround | amplifier_module_tool_m365/providers/m365.py:166-187 | each team's channels appear whole and in place, between those of the teams before and after it |
| Channels.SkippedTeam | amplifier_module_tool_m365/providers/m365.py:169-185 | a team without an id, or whose fetch raised, leaves the result as if it were not listed |
| Channels.AggregateOrigin | amplifier_module_tool_m365/providers/m365.py:166-187 | every aggregated channel comes from a visited team that has an id and whose fetch succeeded, and carries that team's id and name |
| Channels.AtMostFiveQueried | amplifier_module_tool_m365/providers/m365.py:167 | at most five teams are fetched, whatever the listing |
| Channels.LaterTeamsIgnored | amplifier_module_tool_m365/providers/m365.py:167 | teams after the fifth change nothing |
| Channels.SliceLength | amplifier_module_tool_m365/providers/m365.py:206 | Python's `[:limit]` keeps `min(limit, n)` items for a non-negative limit and all but the last `-limit` for a negative one, never below zero |
| Channels.Take | amplifier_module_tool_m365/providers/m365.py:206 | `items[:limit]` is a prefix of that length |
| Channels.GetMessages | amplifier_module_tool_m365/providers/m365.py:190-223 | `limit` defaults to 20; raises exactly when no team id is given; otherwise the first messages in Graph's order, as many as the slice keeps, each mapped by `ToMessage` with the channel id asked for |
| Channels.PayloadFor | amplifier_module_tool_m365/providers/m365.py:241-248 | the card shape exactly when the title is non-empty, with summary = title and one section (title, message); otherwise `{"text": message}` |
| Channels.WebhookUrl | amplifier_module_tool_m365/providers/m365.py:232-238 | fails exactly when the name is unmapped or maps to an empty url, listing every configured name in insertion order; otherwise the mapped url |
| Channels.PostRequest | amplifier_module_tool_m365/providers/m365.py:232-251 | the POST goes to the looked-up url with `PayloadFor`'s payload, and fails exactly where the lookup fails |
| Channels.PostMessage | amplifier_module_tool_m365/providers/m365.py:232-252 | raises exactly where the lookup fails; otherwise reports success exactly for status code 200 |
| Channels.PostToParsedName | amplifier_module_tool_m365/providers/m365.py:232-238 | a name bound last by a piece with a non-empty url posts to that url |
| Channels.PostToUnboundName | amplifier_module_tool_m365/providers/m365.py:232-238 | a name no piece binds is refused, and the refusal lists exactly the names the pieces bind |
| Channels.PostToLoadedName | amplifier_module_tool_m365/providers/m365.py:61-67 | a configuration loaded with `M365_TEAMS_WEBHOOKS` set to the single piece `name=url` posts to `name` at exactly `url` |

## Left out

- Graph SDK and HTTP calls are not modelled. Every `await self._client...` response, the
  `ClientSecretCredential` and `GraphServiceClient` construction, and the
  webhook `httpx` POST all stay outside the model. Their results are inputs:
  pages, optional objects, a channel-fetch function and a status code.
- The `limit` of `list_users` is passed to Graph as `$top` and is not
  applied again by the adapter, so `Directory.ListUsers` does not take it.
- async scheduling is not modelled. Exceptions from the transport are
  modelled only for channel fetches, through `Channels.ChannelFetch`; a
  failure of any other request is not modelled.
- Strings.Strip: its own contract states only that no whitespace is left at
  either end and that the result is no longer than the input;
  `Strings.StripInfix` adds that it is a contiguous slice of the input.
  `Strings.StripPadded` pins the result
  for every input written as whitespace, stripped text and whitespace. The
  existence of that decomposition for an arbitrary string is not stated.
- Channels.ListChannels: in the team-id branch, a failed fetch is returned as
  `None` rather than as the raised exception.
- The message text of each `ValueError` is not rendered. In particular, the
  Python `repr` of the list of available channels is not rendered. Each
  error carries the facts its text reports.
- The UTF-8 encoding of string upload content is library behaviour.
  `upload_document` does not return the content, so the model does not take
  it.
- `str()` of the datetime values of messages and tasks is library
  behaviour. Those values arrive as already-rendered text.
- Mail.SendEmail does not model how the Outlook message is built (subject,
  body, recipients, `save_to_sent_items`), since that only wraps SDK model
  types. The model decides only the sending mailbox and the result.
- The `name` property of the provider is the constant
  `Provider.ProviderName`.
- `amplifier_module_tool_m365/__init__.py` is not part of this model. It
  registers the provider at import time and holds no logic.
- The record classes `User`, `Channel`, `Message`, `Document` and `Task`
  come from the shared collaboration core, which is not part of this model.
  The model assumes their defaults: a channel's `team_name` and a document's
  `size` absent, and `is_folder` false.
- A Graph response whose collection object itself is absent (`result` being
  `None`) is not modelled. A page always exists, and only its `value` may be
  absent.

## Findings

| source | as written | input that shows it | evidently intended | confidence | as-written member | corrected member |
|---|---|---|---|---|---|---|
| amplifier_module_tool_m365/providers/m365.py:328 | `id=result.id if result else ""` only defaults when no item comes back | Graph returns a created item whose `id` is absent: the document's id is `None`, although every other mapper makes a missing id `""` | an absent id becomes `""` | not executed | Documents.UploadedIdAsWritten | Documents.UploadedId |
| amplifier_module_tool_m365/providers/m365.py:214 | `content=msg.body.content if msg.body else ""` only defaults when there is no body | a message whose body is present with `content` absent: the message content is `None` | an absent content becomes `""` | not executed | Records.ContentAsWritten | Records.ContentOf |

The two lemmas `Documents.UploadedIdCanBeAbsent` and
`Records.ContentCanBeAbsent` exhibit these inputs. `Documents.UploadDocument`
and `Records.ToMessage` use the corrected definitions.
