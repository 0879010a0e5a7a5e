/**
 * Teams channels and messaging: `list_channels` (one team, or a bounded,
 * fault-tolerant walk over the first five teams), `get_messages` and the
 * webhook `post_message`.
 */
module Channels {
  import opened Wrappers
  import opened Errors
  import opened Records
  import opened Config
  import opened Strings

  /** How many teams `list_channels` visits when no team is named. */
  const MaxTeams := 5

  /** The channel fetch for a team id; `None` stands for the exception it
      raised (access denied, transport failure, ...). */
  type ChannelFetch = string -> Option<Page<GraphChannel>>

  /** Channel records for the channels of one team, in order. */
  function TeamChannelList(channels: seq<GraphChannel>, teamId: string, teamName: Option<string>): (r: seq<Channel>)
    ensures |r| == |channels|
    ensures forall k :: 0 <= k < |r| ==> r[k] == ToChannel(channels[k], teamId, teamName)
    ensures forall k :: 0 <= k < |r| ==> r[k].teamId == Some(teamId) && r[k].teamName == teamName
  {
    seq(|channels|, i requires 0 <= i < |channels| => ToChannel(channels[i], teamId, teamName))
  }

  /** The teams visited: the first `MaxTeams` of the group listing. */
  function FirstTeams(teams: seq<GraphTeam>): (r: seq<GraphTeam>)
    ensures |r| <= MaxTeams && |r| <= |teams| && r == teams[..|r|]
    ensures |teams| <= MaxTeams ==> r == teams
  {
    if |teams| <= MaxTeams then teams else teams[..MaxTeams]
  }

  /** What one visited team adds: nothing when it has no id or its fetch
      raised, else its channels tagged with its id and name. */
  function TeamContribution(team: GraphTeam, fetch: ChannelFetch): (r: seq<Channel>)
    ensures r != [] ==> Truthy(team.id) && fetch(team.id.value).Some?
  {
    if !Truthy(team.id) then []
    else match fetch(team.id.value)
      case None => []
      case Some(page) => TeamChannelList(Items(page), team.id.value, team.displayName)
  }

  /** Each channel a team contributes is tagged with that team's id and name. */
  lemma ContributionTagged(team: GraphTeam, fetch: ChannelFetch, k: nat)
    requires k < |TeamContribution(team, fetch)|
    ensures TeamContribution(team, fetch)[k].teamId == team.id
    ensures TeamContribution(team, fetch)[k].teamName == team.displayName
  {
  }

  /** The concatenation, in team order, of every team's contribution. */
  function Aggregate(teams: seq<GraphTeam>, fetch: ChannelFetch): (r: seq<Channel>)
    ensures forall k :: 0 <= k < |r| ==> r[k].teamId.Some? && r[k].teamId.value != ""
    decreases |teams|
  {
    if teams == [] then []
    else TeamContribution(teams[0], fetch) + Aggregate(teams[1..], fetch)
  }

  /** The team ids whose channels are fetched, in order. */
  function QueriedIds(teams: seq<GraphTeam>): (r: seq<string>)
    ensures |r| <= |teams|
    ensures forall k :: 0 <= k < |r| ==> r[k] != ""
    decreases |teams|
  {
    if teams == [] then []
    else
      var last := teams[|teams| - 1];
      QueriedIds(teams[..|teams| - 1]) + (if Truthy(last.id) then [last.id.value] else [])
  }

  /** `list_channels`. With a team id, that team's channels, and a failed
      fetch propagates (`None`); without one, the aggregate over the first
      five teams, which never fails. `queried` lists the team ids whose
      channels were fetched. */
  method ListChannels(teamId: Option<string>, groups: Page<GraphTeam>, fetch: ChannelFetch)
    returns (r: Option<seq<Channel>>, queried: seq<string>)
    ensures Truthy(teamId) ==> queried == [teamId.value]
    ensures Truthy(teamId) && fetch(teamId.value).None? ==> r.None?
    ensures Truthy(teamId) && fetch(teamId.value).Some? ==>
      r == Some(TeamChannelList(Items(fetch(teamId.value).value), teamId.value, None))
    ensures !Truthy(teamId) ==> r == Some(Aggregate(FirstTeams(Items(groups)), fetch))
    ensures !Truthy(teamId) ==> queried == QueriedIds(FirstTeams(Items(groups)))
    ensures |queried| <= MaxTeams
  {
    if Truthy(teamId) {
      queried := [teamId.value];
      var result := fetch(teamId.value);
      if result.None? {
        return None, queried;
      }
      return Some(TeamChannelList(Items(result.value), teamId.value, None)), queried;
    }
    var all;
    all, queried := VisitTeams(FirstTeams(Items(groups)), fetch);
    r := Some(all);
  }

  /** The loop over the visited teams: a team without an id is passed over,
      and a team whose fetch raised adds nothing. */
  method VisitTeams(teams: seq<GraphTeam>, fetch: ChannelFetch) returns (all: seq<Channel>, queried: seq<string>)
    ensures all == Aggregate(teams, fetch)
    ensures queried == QueriedIds(teams)
  {
    all, queried := [], [];
    var i := 0;
    while i < |teams|
      invariant 0 <= i <= |teams|
      invariant all == Aggregate(teams[..i], fetch)
      invariant queried == QueriedIds(teams[..i])
    {
      var team := teams[i];
      VisitStep(teams, i, fetch);
      if Truthy(team.id) {
        queried := queried + [team.id.value];
        var channels := fetch(team.id.value);
        if channels.Some? {
          all := AppendChannels(all, Items(channels.value), team.id.value, team.displayName);
        }
      }
      i := i + 1;
    }
    assert teams[..i] == teams;
  }

  /** One more visited team adds its contribution and, when it has an id,
      that id. */
  lemma VisitStep(teams: seq<GraphTeam>, i: nat, fetch: ChannelFetch)
    requires i < |teams|
    ensures Aggregate(teams[..i + 1], fetch) == Aggregate(teams[..i], fetch) + TeamContribution(teams[i], fetch)
    ensures QueriedIds(teams[..i + 1])
      == QueriedIds(teams[..i]) + (if Truthy(teams[i].id) then [teams[i].id.value] else [])
  {
    assert teams[..i + 1][..i] == teams[..i];
    assert teams[..i + 1] == teams[..i] + [teams[i]];
    AggregateAppend(teams[..i], [teams[i]], fetch);
    AggregateSingle(teams[i], fetch);
  }

  /** `all_channels.append(...)` for each channel of one team. */
  method AppendChannels(all: seq<Channel>, items: seq<GraphChannel>, teamId: string, teamName: Option<string>)
    returns (extended: seq<Channel>)
    ensures extended == all + TeamChannelList(items, teamId, teamName)
  {
    extended := all;
    var j := 0;
    while j < |items|
      invariant 0 <= j <= |items|
      invariant extended == all + TeamChannelList(items[..j], teamId, teamName)
    {
      assert TeamChannelList(items[..j + 1], teamId, teamName)
        == TeamChannelList(items[..j], teamId, teamName) + [ToChannel(items[j], teamId, teamName)];
      extended := extended + [ToChannel(items[j], teamId, teamName)];
      j := j + 1;
    }
    assert items[..j] == items;
  }

  // ---------------------------------------------------------------------
  // Properties of the aggregate

  /** The aggregate of two runs of teams is the concatenation of theirs. */
  lemma {:induction false} AggregateAppend(a: seq<GraphTeam>, b: seq<GraphTeam>, fetch: ChannelFetch)
    ensures Aggregate(a + b, fetch) == Aggregate(a, fetch) + Aggregate(b, fetch)
    decreases |a|
  {
    if a == [] {
      assert a + b == b;
    } else {
      assert (a + b)[0] == a[0];
      assert (a + b)[1..] == a[1..] + b;
      AggregateAppend(a[1..], b, fetch);
    }
  }

  lemma AggregateSingle(team: GraphTeam, fetch: ChannelFetch)
    ensures Aggregate([team], fetch) == TeamContribution(team, fetch)
  {
    assert [team][1..] == [];
  }

  /** Each team's contribution sits, whole and in place, between those of
      the teams before it and after it. */
  lemma AggregateAround(before: seq<GraphTeam>, team: GraphTeam, after: seq<GraphTeam>, fetch: ChannelFetch)
    ensures Aggregate(before + [team] + after, fetch)
      == Aggregate(before, fetch) + TeamContribution(team, fetch) + Aggregate(after, fetch)
  {
    AggregateAppend(before + [team], after, fetch);
    AggregateAppend(before, [team], fetch);
    AggregateSingle(team, fetch);
  }

  /** A team without an id, or whose fetch raised, is skipped without a
      trace: the result is as if it were not listed. */
  lemma SkippedTeam(before: seq<GraphTeam>, team: GraphTeam, after: seq<GraphTeam>, fetch: ChannelFetch)
    requires !Truthy(team.id) || fetch(team.id.value).None?
    ensures Aggregate(before + [team] + after, fetch) == Aggregate(before + after, fetch)
  {
    var contribution := TeamContribution(team, fetch);
    assert contribution == [];
    AggregateAround(before, team, after, fetch);
    AggregateAppend(before, after, fetch);
    assert Aggregate(before, fetch) + contribution == Aggregate(before, fetch);
  }

  /** Every aggregated channel comes from a visited team that has an id and
      whose fetch succeeded, and carries that team's id and name. */
  lemma {:induction false} AggregateOrigin(teams: seq<GraphTeam>, fetch: ChannelFetch, k: nat)
    requires k < |Aggregate(teams, fetch)|
    ensures exists i ::
      && 0 <= i < |teams| && Truthy(teams[i].id) && fetch(teams[i].id.value).Some?
      && Aggregate(teams, fetch)[k].teamId == teams[i].id
      && Aggregate(teams, fetch)[k].teamName == teams[i].displayName
    decreases |teams|
  {
    var first := TeamContribution(teams[0], fetch);
    var rest := Aggregate(teams[1..], fetch);
    assert Aggregate(teams, fetch) == first + rest;
    if k < |first| {
      ContributionTagged(teams[0], fetch, k);
      assert Aggregate(teams, fetch)[k] == first[k];
    } else {
      AggregateOrigin(teams[1..], fetch, k - |first|);
      var i :| && 0 <= i < |teams[1..]| && Truthy(teams[1..][i].id) && fetch(teams[1..][i].id.value).Some?
        && rest[k - |first|].teamId == teams[1..][i].id
        && rest[k - |first|].teamName == teams[1..][i].displayName;
      assert teams[i + 1] == teams[1..][i];
      assert Aggregate(teams, fetch)[k] == rest[k - |first|];
    }
  }

  /** At most `MaxTeams` teams are ever queried, whatever the listing. */
  lemma AtMostFiveQueried(teams: seq<GraphTeam>)
    ensures |QueriedIds(FirstTeams(teams))| <= MaxTeams
  {
  }

  /** Teams after the fifth change nothing. */
  lemma LaterTeamsIgnored(teams: seq<GraphTeam>, more: seq<GraphTeam>, fetch: ChannelFetch)
    requires |teams| >= MaxTeams
    ensures Aggregate(FirstTeams(teams + more), fetch) == Aggregate(FirstTeams(teams), fetch)
  {
    assert (teams + more)[..MaxTeams] == teams[..MaxTeams];
  }

  // ---------------------------------------------------------------------
  // get_messages

  /** The length Python's `items[:limit]` keeps: `limit` items counted
      from the front, or, for a negative `limit`, all but the last
      `-limit`; never more than there are. */
  function SliceLength(n: nat, limit: int): (k: nat)
    ensures k <= n
    ensures 0 <= limit ==> k == (if limit < n then limit else n)
    ensures limit < 0 ==> k == (if n + limit < 0 then 0 else n + limit)
  {
    if 0 <= limit then (if limit < n then limit else n)
    else if n + limit < 0 then 0 else n + limit
  }

  /** `items[:limit]`: a prefix of `items`. */
  function Take<T>(items: seq<T>, limit: int): (r: seq<T>)
    ensures |r| == SliceLength(|items|, limit)
    ensures r == items[..|r|]
  {
    items[..SliceLength(|items|, limit)]
  }

  /** The number of messages `get_messages` keeps when no limit is given. */
  const DefaultMessageLimit := 20

  /** `get_messages`: raises before any fetch when no team id is given;
      otherwise the first `limit` messages in Graph's order, each tagged
      with the channel asked for. */
  method GetMessages(channelId: string, limit: int := DefaultMessageLimit, teamId: Option<string>, page: Page<ChatMessage>)
    returns (r: Result<seq<Message>, ValueError>)
    ensures r.Failure? <==> !Truthy(teamId)
    ensures r.Failure? ==> r.error == TeamIdRequired
    ensures r.Success? ==> |r.value| == SliceLength(|Items(page)|, limit)
    ensures r.Success? ==> forall i :: 0 <= i < |r.value| ==> r.value[i] == ToMessage(Items(page)[i], channelId)
  {
    if !Truthy(teamId) {
      return Failure(TeamIdRequired);
    }
    var source := Take(Items(page), limit);
    var messages: seq<Message> := [];
    var i := 0;
    while i < |source|
      invariant 0 <= i <= |source|
      invariant |messages| == i
      invariant forall k :: 0 <= k < i ==> messages[k] == ToMessage(source[k], channelId)
    {
      messages := messages + [ToMessage(source[i], channelId)];
      i := i + 1;
    }
    r := Success(messages);
  }

  // ---------------------------------------------------------------------
  // post_message

  datatype CardSection = CardSection(activityTitle: string, text: string)

  /** The JSON body of the webhook POST: a `MessageCard` or `{"text": ...}`. */
  datatype Payload =
    | MessageCard(summary: string, sections: seq<CardSection>)
    | PlainText(text: string)

  /** The card shape exactly when a non-empty title is given; the message
      is carried in both shapes. */
  function PayloadFor(message: string, title: Option<string>): (p: Payload)
    ensures p.PlainText? <==> !Truthy(title)
    ensures p.PlainText? ==> p.text == message
    ensures p.MessageCard? ==> p.summary == title.value && p.sections == [CardSection(title.value, message)]
  {
    if Truthy(title) then MessageCard(title.value, [CardSection(title.value, message)]) else PlainText(message)
  }

  /** The configured url for a channel name; raises, listing every
      configured name in insertion order, when it is unmapped or empty. */
  function WebhookUrl(webhooks: Webhooks, channelName: string): (r: Result<string, ValueError>)
    ensures r.Success? <==> channelName in webhooks.urls && webhooks.urls[channelName] != ""
    ensures r.Success? ==> r.value == webhooks.urls[channelName]
    ensures r.Failure? ==> r.error == NoWebhook(channelName, webhooks.names)
  {
    var url := webhooks.Get(channelName);
    if !Truthy(url) then Failure(NoWebhook(channelName, webhooks.names)) else Success(url.value)
  }

  /** The POST that `post_message` sends. */
  datatype WebhookPost = WebhookPost(url: string, payload: Payload)

  function PostRequest(config: M365Config, channelName: string, message: string, title: Option<string>)
    : (r: Result<WebhookPost, ValueError>)
    ensures r.Failure? <==> WebhookUrl(config.webhooks, channelName).Failure?
    ensures r.Failure? ==> r.error == WebhookUrl(config.webhooks, channelName).error
    ensures r.Success? ==> r.value.url == WebhookUrl(config.webhooks, channelName).value
    ensures r.Success? ==> r.value.payload == PayloadFor(message, title)
  {
    match WebhookUrl(config.webhooks, channelName)
    case Failure(e) => Failure(e)
    case Success(url) => Success(WebhookPost(url, PayloadFor(message, title)))
  }

  /** `post_message`: the lookup may raise; once the POST is answered, the
      result is whether the status code is exactly 200. */
  function PostMessage(config: M365Config, channelName: string, message: string, title: Option<string>,
                       statusCode: int): (r: Result<bool, ValueError>)
    ensures r.Failure? <==> PostRequest(config, channelName, message, title).Failure?
    ensures r.Failure? ==> r.error == NoWebhook(channelName, config.webhooks.names)
    ensures r.Success? ==> (r.value <==> statusCode == 200)
  {
    match PostRequest(config, channelName, message, title)
    case Failure(e) => Failure(e)
    case Success(_) => Success(statusCode == 200)
  }

  /** A name bound, last, by a piece of the webhook string with a non-empty
      url posts to that url. */
  lemma PostToParsedName(config: M365Config, bs: seq<Binding>, i: nat)
    requires config.webhooks == Collect(bs)
    requires i < |bs| && bs[i].Binding? && bs[i].url != ""
    requires forall j :: i < j < |bs| ==> !Binds(bs[j], bs[i].name)
    ensures WebhookUrl(config.webhooks, bs[i].name) == Success(bs[i].url)
  {
    CollectLastWins(bs, i);
  }

  /** A loaded configuration whose webhook variable is the single piece
      `name=url` posts to `name` at exactly `url`. */
  lemma PostToLoadedName(env: Env, name: string, url: string)
    requires LoadedConfig(env).Success?
    requires Lookup(env, WebhooksVar) == Some(name + "=" + url)
    requires '=' !in name && ',' !in name + url && IsStripped(name) && IsStripped(url) && url != ""
    ensures WebhookUrl(LoadedConfig(env).value.webhooks, name) == Success(url)
  {
    SinglePiece(name, url);
  }

  /** A name that no piece binds is refused, and the refusal lists exactly
      the names the pieces bind. */
  lemma PostToUnboundName(config: M365Config, bs: seq<Binding>, name: string)
    requires config.webhooks == Collect(bs)
    requires !BoundBySome(bs, name)
    ensures WebhookUrl(config.webhooks, name).Failure?
    ensures forall n :: n in WebhookUrl(config.webhooks, name).error.available <==> BoundBySome(bs, n)
  {
    CollectNames(bs, name);
    forall n ensures n in config.webhooks.names <==> BoundBySome(bs, n) {
      CollectNames(bs, n);
    }
  }
}
