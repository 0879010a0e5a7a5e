/**
 * `M365Config.from_env`: the three required credentials are checked, then
 * the webhook table `name=url,name=url` is parsed into a dictionary that
 * keeps Python's insertion order.
 */
module Config {
  import opened Wrappers
  import opened Strings
  import opened Errors

  const TenantVar := "M365_TENANT_ID"
  const ClientVar := "M365_CLIENT_ID"
  const SecretVar := "M365_CLIENT_SECRET"
  const WebhooksVar := "M365_TEAMS_WEBHOOKS"

  /** The required variables, in the order the error names them. */
  const RequiredVars: seq<string> := [TenantVar, ClientVar, SecretVar]

  /** The process environment. */
  type Env = map<string, string>

  /** `os.environ.get(key)`. */
  function Lookup(env: Env, key: string): (r: Option<string>)
    ensures r.Some? <==> key in env
    ensures r.Some? ==> r.value == env[key]
  {
    if key in env then Some(env[key]) else None
  }

  /** A required variable counts as missing when it is absent or empty. */
  predicate Unset(env: Env, key: string) {
    !Truthy(Lookup(env, key))
  }

  /** Position of a required variable in `RequiredVars`. */
  function Rank(name: string): nat {
    if name == TenantVar then 0 else if name == ClientVar then 1 else 2
  }

  /** The missing required variables, in the fixed order. */
  function Missing(env: Env): (r: seq<string>)
    ensures forall n :: n in r <==> n in RequiredVars && Unset(env, n)
    ensures forall i, j :: 0 <= i < j < |r| ==> Rank(r[i]) < Rank(r[j])
    ensures r == [] <==> !Unset(env, TenantVar) && !Unset(env, ClientVar) && !Unset(env, SecretVar)
  {
    (if Unset(env, TenantVar) then [TenantVar] else [])
    + (if Unset(env, ClientVar) then [ClientVar] else [])
    + (if Unset(env, SecretVar) then [SecretVar] else [])
  }

  /** A `dict[str, str]`: the keys in insertion order and the mapping. */
  datatype Webhooks = Webhooks(names: seq<string>, urls: map<string, string>) {

    /** Each key is listed once, and the listed keys are the mapped ones. */
    ghost predicate Valid() {
      && (forall i, j :: 0 <= i < j < |names| ==> names[i] != names[j])
      && (forall n :: n in urls <==> n in names)
    }

    /** `d[name] = url`: a new key goes to the end, an existing key keeps
        its place and takes the new value. */
    function Set(name: string, url: string): (w: Webhooks)
      requires Valid()
      ensures w.Valid()
      ensures w.urls == urls[name := url]
      ensures name in names ==> w.names == names
      ensures name !in names ==> w.names == names + [name]
    {
      if name in names then Webhooks(names, urls[name := url])
      else Webhooks(names + [name], urls[name := url])
    }

    /** `d.get(name)`. */
    function Get(name: string): (r: Option<string>)
      ensures r.Some? <==> name in urls
      ensures r.Some? ==> r.value == urls[name]
    {
      if name in urls then Some(urls[name]) else None
    }
  }

  const NoWebhooks := Webhooks([], map[])

  /** What one comma-separated piece of the table string contributes. */
  datatype Binding = NoBinding | Binding(name: string, url: string)

  /** A piece without `=` binds nothing; otherwise the text before its first
      `=`, stripped, is bound to the rest, stripped. */
  function PieceBinding(piece: string): (b: Binding)
    ensures b.Binding? <==> '=' in piece
  {
    if '=' in piece then
      var (name, url) := SplitOnce(piece, '=');
      Binding(Strip(name), Strip(url))
    else NoBinding
  }

  /** The bindings of the pieces, in order. */
  function PieceBindings(pieces: seq<string>): seq<Binding> {
    seq(|pieces|, i requires 0 <= i < |pieces| => PieceBinding(pieces[i]))
  }

  /** The binding binds `name`. */
  predicate Binds(b: Binding, name: string) {
    b.Binding? && b.name == name
  }

  /** One turn of the loop: a piece that binds nothing is skipped. */
  function Record(w: Webhooks, b: Binding): (r: Webhooks)
    requires w.Valid()
    ensures r.Valid()
  {
    if b.Binding? then w.Set(b.name, b.url) else w
  }

  /** The dictionary the loop has built after the given bindings. */
  function Collect(bs: seq<Binding>): (w: Webhooks)
    ensures w.Valid()
    decreases |bs|
  {
    if bs == [] then NoWebhooks
    else Record(Collect(bs[..|bs| - 1]), bs[|bs| - 1])
  }

  /** The table parsed from the value of `M365_TEAMS_WEBHOOKS`. */
  function ParsedWebhooks(s: string): (w: Webhooks)
    ensures w.Valid()
    ensures s == "" ==> w == NoWebhooks
  {
    if s == "" then NoWebhooks else Collect(PieceBindings(Split(s, ',')))
  }

  /** The parsing loop of `from_env`. */
  method ParseWebhooks(s: string) returns (webhooks: Webhooks)
    ensures webhooks == ParsedWebhooks(s)
  {
    webhooks := NoWebhooks;
    if s != "" {
      var pieces := Split(s, ',');
      var i := 0;
      while i < |pieces|
        invariant 0 <= i <= |pieces|
        invariant webhooks == Collect(PieceBindings(pieces[..i]))
      {
        var pair := pieces[i];
        if '=' in pair {
          var (name, url) := SplitOnce(pair, '=');
          webhooks := webhooks.Set(Strip(name), Strip(url));
        }
        CollectStep(pieces, i);
        i := i + 1;
      }
      assert pieces[..|pieces|] == pieces;
    }
  }

  /** The table after one more piece is the table before it with that
      piece's binding recorded. */
  lemma CollectStep(pieces: seq<string>, i: nat)
    requires i < |pieces|
    ensures Collect(PieceBindings(pieces[..i + 1]))
      == Record(Collect(PieceBindings(pieces[..i])), PieceBinding(pieces[i]))
  {
    var bs := PieceBindings(pieces[..i + 1]);
    assert bs[..i] == PieceBindings(pieces[..i]);
    assert bs[i] == PieceBinding(pieces[i]);
  }

  datatype M365Config = M365Config(
    tenantId: string,
    clientId: string,
    clientSecret: string,
    webhooks: Webhooks)

  /** What `from_env` returns or raises for a given environment. */
  function LoadedConfig(env: Env): (r: Result<M365Config, ValueError>)
    ensures r.Success? <==> Missing(env) == []
    ensures r.Failure? ==> r.error == MissingEnvironmentVariables(Missing(env))
    ensures r.Success? ==>
      Lookup(env, TenantVar) == Some(r.value.tenantId) &&
      Lookup(env, ClientVar) == Some(r.value.clientId) &&
      Lookup(env, SecretVar) == Some(r.value.clientSecret)
    ensures r.Success? ==> r.value.webhooks == ParsedWebhooks(Lookup(env, WebhooksVar).GetOr(""))
  {
    if Missing(env) != [] then Failure(MissingEnvironmentVariables(Missing(env)))
    else Success(M365Config(env[TenantVar], env[ClientVar], env[SecretVar],
                            ParsedWebhooks(Lookup(env, WebhooksVar).GetOr(""))))
  }

  /** `M365Config.from_env`. */
  method FromEnv(env: Env) returns (r: Result<M365Config, ValueError>)
    ensures r == LoadedConfig(env)
  {
    var tenantId := Lookup(env, TenantVar);
    var clientId := Lookup(env, ClientVar);
    var clientSecret := Lookup(env, SecretVar);
    if !Truthy(tenantId) || !Truthy(clientId) || !Truthy(clientSecret) {
      return Failure(MissingEnvironmentVariables(Missing(env)));
    }
    var webhooks := ParseWebhooks(Lookup(env, WebhooksVar).GetOr(""));
    r := Success(M365Config(tenantId.value, clientId.value, clientSecret.value, webhooks));
  }

  // ---------------------------------------------------------------------
  // Properties of loading

  /** Loading succeeds exactly when the three credentials are non-empty,
      and then carries them unchanged. */
  lemma LoadedConfigSucceeds(env: Env)
    ensures LoadedConfig(env).Success? <==>
      (TenantVar in env && env[TenantVar] != "" && ClientVar in env && env[ClientVar] != ""
       && SecretVar in env && env[SecretVar] != "")
    ensures LoadedConfig(env).Success? ==>
      var c := LoadedConfig(env).value;
      c.tenantId == env[TenantVar] && c.clientId == env[ClientVar] && c.clientSecret == env[SecretVar]
  {
  }

  /** An environment that lacks only the client secret names only it. */
  lemma OnlySecretMissing(env: Env)
    requires TenantVar in env && env[TenantVar] != ""
    requires ClientVar in env && env[ClientVar] != ""
    requires SecretVar !in env || env[SecretVar] == ""
    ensures LoadedConfig(env) == Failure(MissingEnvironmentVariables([SecretVar]))
  {
    assert !Unset(env, TenantVar) && !Unset(env, ClientVar) && Unset(env, SecretVar);
    assert Missing(env) == [SecretVar];
  }

  // ---------------------------------------------------------------------
  // Properties of the webhook table

  /** What one turn of the loop does to a name: it is bound afterwards
      when it was before or the binding binds it, and the binding decides
      its url when it binds it. */
  lemma RecordName(w: Webhooks, b: Binding, name: string)
    requires w.Valid()
    ensures name in Record(w, b).urls <==> name in w.urls || Binds(b, name)
    ensures Binds(b, name) ==> Record(w, b).urls[name] == b.url
    ensures !Binds(b, name) && name in w.urls ==> Record(w, b).urls[name] == w.urls[name]
  {
    if b.Binding? {
      assert Record(w, b).urls == w.urls[b.name := b.url];
    }
  }

  /** Some binding binds `name`. */
  predicate BoundBySome(bs: seq<Binding>, name: string) {
    exists i :: 0 <= i < |bs| && Binds(bs[i], name)
  }

  /** Some binding binds a name exactly when an earlier one or the last one does. */
  lemma BoundBySomeLast(bs: seq<Binding>, name: string)
    requires bs != []
    ensures BoundBySome(bs, name) <==> BoundBySome(bs[..|bs| - 1], name) || Binds(bs[|bs| - 1], name)
  {
    var last := |bs| - 1;
    var init := bs[..last];
    if BoundBySome(bs, name) {
      var i :| 0 <= i < |bs| && Binds(bs[i], name);
      if i < last {
        assert init[i] == bs[i];
      }
    }
    if BoundBySome(init, name) {
      var i :| 0 <= i < |init| && Binds(init[i], name);
      assert bs[i] == init[i];
    }
  }

  /** A name is in the table exactly when some piece binds it. */
  lemma {:induction false} CollectNames(bs: seq<Binding>, name: string)
    ensures name in Collect(bs).urls <==> BoundBySome(bs, name)
    decreases |bs|
  {
    if bs != [] {
      var last := |bs| - 1;
      var init := bs[..last];
      CollectNames(init, name);
      RecordName(Collect(init), bs[last], name);
      BoundBySomeLast(bs, name);
    }
  }

  /** For a repeated name the last piece that binds it decides its url. */
  lemma {:induction false} CollectLastWins(bs: seq<Binding>, i: nat)
    requires i < |bs| && bs[i].Binding?
    requires forall j :: i < j < |bs| ==> !Binds(bs[j], bs[i].name)
    ensures bs[i].name in Collect(bs).urls
    ensures Collect(bs).urls[bs[i].name] == bs[i].url
    decreases |bs|
  {
    var last := |bs| - 1;
    var init := bs[..last];
    RecordName(Collect(init), bs[last], bs[i].name);
    if i < last {
      assert init[i] == bs[i];
      forall j | i < j < |init| ensures !Binds(init[j], bs[i].name) {
        assert init[j] == bs[j];
      }
      CollectLastWins(init, i);
    }
  }

  /** The table is empty when the variable is absent or empty. */
  lemma NoWebhookVariable(env: Env)
    requires WebhooksVar !in env || env[WebhooksVar] == ""
    ensures ParsedWebhooks(Lookup(env, WebhooksVar).GetOr("")) == NoWebhooks
  {
  }

  /** A loaded configuration maps a channel name exactly when some piece of
      the `M365_TEAMS_WEBHOOKS` variable binds it. */
  lemma LoadedWebhookNames(env: Env, name: string)
    requires LoadedConfig(env).Success?
    ensures var s := Lookup(env, WebhooksVar).GetOr("");
      name in LoadedConfig(env).value.webhooks.urls <==> s != "" && BoundBySome(PieceBindings(Split(s, ',')), name)
  {
    var s := Lookup(env, WebhooksVar).GetOr("");
    if s != "" {
      CollectNames(PieceBindings(Split(s, ',')), name);
    }
  }

  /** Every piece that contains `=` is `head=tail` with no `=` in `head`;
      it binds `head`, stripped, to `tail`, stripped, whatever `=` the tail
      contains. */
  lemma PieceBindingSplit(head: string, tail: string)
    requires '=' !in head
    ensures PieceBinding(head + "=" + tail) == Binding(Strip(head), Strip(tail))
  {
    var piece := head + ['='] + tail;
    assert head + "=" + tail == piece;
    SplitOnceJoin(head, '=', tail);
  }

  /** A piece `name=url` whose parts carry no surrounding whitespace binds
      exactly `name` to `url`. */
  lemma PieceBinds(name: string, url: string)
    requires '=' !in name && IsStripped(name) && IsStripped(url)
    ensures PieceBinding(name + "=" + url) == Binding(name, url)
  {
    PieceBindingSplit(name, url);
    StripKeeps(name);
    StripKeeps(url);
  }

  /** A non-empty table string joined from comma-free pieces is parsed
      piece by piece. */
  lemma ParsedPieces(pieces: seq<string>, s: string)
    requires |pieces| >= 1 && s == Join(pieces, ',') && s != ""
    requires forall k :: 0 <= k < |pieces| ==> ',' !in pieces[k]
    ensures ParsedWebhooks(s) == Collect(PieceBindings(pieces))
  {
    SplitJoin(pieces, ',');
  }

  /** A single piece `name=url` binds `name` to the whole of `url`: only the
      first `=` separates, so `a=x=y` binds `a` to `x=y`. */
  lemma SinglePiece(name: string, url: string)
    requires '=' !in name && ',' !in name + url && IsStripped(name) && IsStripped(url)
    ensures ParsedWebhooks(name + "=" + url) == Webhooks([name], map[name := url])
  {
    var p := name + "=" + url;
    assert Join([p], ',') == p;
    ParsedPieces([p], p);
    PieceBinds(name, url);
    var bs := PieceBindings([p]);
    assert bs == [Binding(name, url)];
    assert bs[..0] == [];
  }

  lemma NoCommaPiece(name: string, url: string)
    requires ',' !in name + url
    ensures ',' !in name + "=" + url
  {
    var s := name + "=" + url;
    forall k | 0 <= k < |s| ensures s[k] != ',' {
      if k < |name| { assert s[k] == (name + url)[k]; }
      else if k > |name| { assert s[k] == (name + url)[k - 1]; }
    }
  }

  lemma TwoPiecesParse(p: string, q: string)
    requires ',' !in p && ',' !in q
    ensures ParsedWebhooks(p + "," + q) == Record(Record(NoWebhooks, PieceBinding(p)), PieceBinding(q))
  {
    assert Join([p, q], ',') == p + "," + q;
    ParsedPieces([p, q], p + "," + q);
    var bs := PieceBindings([p, q]);
    assert bs == [PieceBinding(p), PieceBinding(q)];
    assert bs[..1] == [PieceBinding(p)];
    assert bs[..1][..0] == [];
    assert Collect(bs[..1]) == Record(NoWebhooks, PieceBinding(p));
    assert Collect(bs) == Record(Collect(bs[..1]), PieceBinding(q));
  }

  lemma SetTwo(name1: string, url1: string, name2: string, url2: string)
    ensures name1 != name2 ==>
      NoWebhooks.Set(name1, url1).Set(name2, url2) == Webhooks([name1, name2], map[name1 := url1, name2 := url2])
    ensures name1 == name2 ==>
      NoWebhooks.Set(name1, url1).Set(name2, url2) == Webhooks([name1], map[name1 := url2])
  {
    var w1 := NoWebhooks.Set(name1, url1);
    assert w1 == Webhooks([name1], map[name1 := url1]);
    if name1 != name2 {
      assert name2 !in w1.names;
      assert w1.names + [name2] == [name1, name2];
    } else {
      assert map[name1 := url1][name2 := url2] == map[name1 := url2];
    }
  }

  /** Two pieces with distinct names give a two-entry table, in their order. */
  lemma TwoPieces(name1: string, url1: string, name2: string, url2: string)
    requires '=' !in name1 && ',' !in name1 + url1 && IsStripped(name1) && IsStripped(url1)
    requires '=' !in name2 && ',' !in name2 + url2 && IsStripped(name2) && IsStripped(url2)
    requires name1 != name2
    ensures ParsedWebhooks((name1 + "=" + url1) + "," + (name2 + "=" + url2))
      == Webhooks([name1, name2], map[name1 := url1, name2 := url2])
  {
    NoCommaPiece(name1, url1);
    NoCommaPiece(name2, url2);
    TwoPiecesParse(name1 + "=" + url1, name2 + "=" + url2);
    PieceBinds(name1, url1);
    PieceBinds(name2, url2);
    SetTwo(name1, url1, name2, url2);
  }

  /** A name given twice keeps one entry and takes the second url. */
  lemma RepeatedPiece(name: string, url1: string, url2: string)
    requires '=' !in name && ',' !in name + url1 && ',' !in name + url2
    requires IsStripped(name) && IsStripped(url1) && IsStripped(url2)
    ensures ParsedWebhooks((name + "=" + url1) + "," + (name + "=" + url2))
      == Webhooks([name], map[name := url2])
  {
    NoCommaPiece(name, url1);
    NoCommaPiece(name, url2);
    TwoPiecesParse(name + "=" + url1, name + "=" + url2);
    PieceBinds(name, url1);
    PieceBinds(name, url2);
    SetTwo(name, url1, name, url2);
  }
}
