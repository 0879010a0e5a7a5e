/**
 * The three Python string operations the configuration loader relies on:
 * `s.split(sep)`, `s.split(sep, 1)` and `s.strip()`, each given a contract
 * that determines its result, and the round trips that connect them.
 */
module Strings {

  /** Python's `str.isspace()` for one character: the characters whose
      bidirectional class is WS, B or S, or whose category is Zs. */
  predicate IsSpace(c: char) {
    var n := c as int;
    n == 0x20 || 0x09 <= n <= 0x0D || 0x1C <= n <= 0x1F || n == 0x85 || n == 0xA0
    || n == 0x1680 || 0x2000 <= n <= 0x200A || n == 0x2028 || n == 0x2029
    || n == 0x202F || n == 0x205F || n == 0x3000
  }

  predicate AllSpace(s: string) {
    forall i :: 0 <= i < |s| ==> IsSpace(s[i])
  }

  /** Neither end of `s` is whitespace. */
  predicate IsStripped(s: string) {
    s == [] || (!IsSpace(s[0]) && !IsSpace(s[|s| - 1]))
  }

  /** Position of the first `c` in `s`, or `|s|` when there is none. */
  function IndexOf(s: string, c: char): (i: nat)
    ensures i <= |s|
    ensures c !in s[..i]
    ensures i < |s| ==> s[i] == c
    ensures i == |s| <==> c !in s
  {
    if s == [] then 0
    else if s[0] == c then 0
    else
      var j := IndexOf(s[1..], c);
      assert s[1..][..j] == s[1..j + 1];
      assert s[..j + 1] == [s[0]] + s[1..j + 1];
      1 + j
  }

  /** `s.split(sep)`: the pieces between the separators, in order. */
  function Split(s: string, sep: char): (r: seq<string>)
    ensures |r| >= 1
    ensures forall k :: 0 <= k < |r| ==> sep !in r[k]
    decreases |s|
  {
    var i := IndexOf(s, sep);
    if i == |s| then [s] else [s[..i]] + Split(s[i + 1..], sep)
  }

  /** `sep.join(pieces)`. */
  function Join(pieces: seq<string>, sep: char): string
    decreases |pieces|
  {
    if pieces == [] then []
    else if |pieces| == 1 then pieces[0]
    else pieces[0] + [sep] + Join(pieces[1..], sep)
  }

  /** Joining the pieces of a split gives back the original string. */
  lemma {:induction false} JoinSplit(s: string, sep: char)
    ensures Join(Split(s, sep), sep) == s
    decreases |s|
  {
    var i := IndexOf(s, sep);
    if i < |s| {
      var tail := s[i + 1..];
      var rest := Split(tail, sep);
      assert Split(s, sep) == [s[..i]] + rest;
      JoinSplit(tail, sep);
      assert Join([s[..i]] + rest, sep) == s[..i] + [sep] + Join(rest, sep);
      assert s == s[..i] + [sep] + tail;
    }
  }

  /** The first separator of `k + [sep] + v` is the one after `k`. */
  lemma IndexOfJoined(k: string, sep: char, v: string)
    requires sep !in k
    ensures IndexOf(k + [sep] + v, sep) == |k|
  {
    var s := k + [sep] + v;
    assert s[|k|] == sep;
  }

  /** Splitting a join of separator-free pieces gives back the pieces. */
  lemma {:induction false} SplitJoin(pieces: seq<string>, sep: char)
    requires |pieces| >= 1
    requires forall k :: 0 <= k < |pieces| ==> sep !in pieces[k]
    ensures Split(Join(pieces, sep), sep) == pieces
    decreases |pieces|
  {
    var head := pieces[0];
    if |pieces| == 1 {
      assert Join(pieces, sep) == head;
      assert IndexOf(head, sep) == |head|;
    } else {
      var tail := pieces[1..];
      var rest := Join(tail, sep);
      var s := head + [sep] + rest;
      assert Join(pieces, sep) == s;
      IndexOfJoined(head, sep, rest);
      assert s[..|head|] == head;
      assert s[|head| + 1..] == rest;
      assert Split(s, sep) == [head] + Split(rest, sep);
      assert forall k :: 0 <= k < |tail| ==> sep !in tail[k] by {
        forall k | 0 <= k < |tail| ensures sep !in tail[k] {
          assert tail[k] == pieces[k + 1];
        }
      }
      SplitJoin(tail, sep);
      assert pieces == [head] + tail;
    }
  }

  /** `s.split(sep, 1)` on a string that holds `sep`: the text before the
      first separator and everything after it, later separators included. */
  function SplitOnce(s: string, sep: char): (r: (string, string))
    requires sep in s
    ensures s == r.0 + [sep] + r.1
    ensures sep !in r.0
  {
    var i := IndexOf(s, sep);
    assert s == s[..i] + [sep] + s[i + 1..];
    (s[..i], s[i + 1..])
  }

  /** The split on the first separator undoes a join of a separator-free
      head with any tail. */
  lemma SplitOnceJoin(k: string, sep: char, v: string)
    requires sep !in k
    ensures sep in k + [sep] + v
    ensures SplitOnce(k + [sep] + v, sep) == (k, v)
  {
    var s := k + [sep] + v;
    assert s[|k|] == sep;
    IndexOfJoined(k, sep, v);
    assert s[..|k|] == k;
    assert s[|k| + 1..] == v;
  }

  /** A whitespace character followed by `k` more whitespace characters is a
      whitespace prefix of length `k + 1`. */
  lemma SpacePrefix(s: string, k: nat)
    requires k < |s| && IsSpace(s[0]) && AllSpace(s[1..][..k])
    ensures AllSpace(s[..k + 1])
  {
    var p := s[..k + 1];
    forall i | 0 <= i < |p| ensures IsSpace(p[i]) {
      if i > 0 { assert p[i] == s[1..][..k][i - 1]; }
    }
  }

  /** `s.lstrip()`. */
  function TrimStart(s: string): (r: string)
    ensures |r| <= |s| && r == s[|s| - |r|..]
    ensures AllSpace(s[..|s| - |r|])
    ensures r == [] || !IsSpace(r[0])
  {
    if s != [] && IsSpace(s[0]) then
      var t := s[1..];
      var r := TrimStart(t);
      var k := |t| - |r|;
      assert s[k + 1..] == t[k..];
      SpacePrefix(s, k);
      r
    else s
  }

  /** `s.rstrip()`. */
  function TrimEnd(s: string): (r: string)
    ensures |r| <= |s| && r == s[..|r|]
    ensures AllSpace(s[|r|..])
    ensures r == [] || !IsSpace(r[|r| - 1])
  {
    if s != [] && IsSpace(s[|s| - 1]) then
      var r := TrimEnd(s[..|s| - 1]);
      assert s[|r|..] == s[..|s| - 1][|r|..] + [s[|s| - 1]];
      r
    else s
  }

  /** `s.strip()`: `s` without its leading and trailing whitespace. */
  /** The stripped string is a contiguous slice of the input: stripping
      only removes characters at the two ends. */
  lemma StripInfix(s: string)
    ensures exists i :: 0 <= i <= |s| && Strip(s) <= s[i..]
  {
    var t := TrimStart(s);
    var r := Strip(s);
    var i := |s| - |t|;
    assert r == TrimEnd(t);
    assert r == t[..|r|];
    assert t == s[i..];
  }

  function Strip(s: string): (r: string)
    ensures IsStripped(r) && |r| <= |s|
  {
    var t := TrimStart(s);
    var r := TrimEnd(t);
    assert r == [] || !IsSpace(r[0]) by {
      if r != [] { assert r[0] == t[0]; }
    }
    r
  }

  /** Stripping a string with no whitespace at either end changes nothing. */
  lemma StripKeeps(s: string)
    requires IsStripped(s)
    ensures Strip(s) == s
  {
    assert TrimStart(s) == s;
    assert TrimEnd(s) == s;
  }

  /** Stripping twice is stripping once. */
  lemma StripIdempotent(s: string)
    ensures Strip(Strip(s)) == Strip(s)
  {
    StripKeeps(Strip(s));
  }

  /** Whitespace around a stripped string is exactly what `strip` removes,
      so `strip` has one possible result. */
  lemma StripPadded(pre: string, m: string, post: string)
    requires AllSpace(pre) && AllSpace(post) && IsStripped(m)
    ensures Strip(pre + m + post) == m
  {
    if m == [] {
      assert pre + m + post == pre + post;
      StripAllSpace(pre, post);
    } else {
      var body := m + post;
      assert body[0] == m[0];
      assert pre + m + post == pre + body;
      TrimStartPadded(pre, body);
      TrimEndPadded(m, post);
      assert Strip(pre + body) == TrimEnd(TrimStart(pre + body));
    }
  }

  /** Whitespace alone strips to nothing. */
  lemma StripAllSpace(pre: string, post: string)
    requires AllSpace(pre) && AllSpace(post)
    ensures Strip(pre + post) == []
  {
    var s := pre + post;
    forall i | 0 <= i < |s| ensures IsSpace(s[i]) {
      if i < |pre| { assert s[i] == pre[i]; } else { assert s[i] == post[i - |pre|]; }
    }
    TrimStartPadded(s, []);
    assert s + [] == s;
  }

  lemma {:induction false} TrimStartPadded(pre: string, rest: string)
    requires AllSpace(pre)
    requires rest == [] || !IsSpace(rest[0])
    ensures TrimStart(pre + rest) == rest
    decreases |pre|
  {
    if pre != [] {
      var s := pre + rest;
      assert s[1..] == pre[1..] + rest;
      TrimStartPadded(pre[1..], rest);
    } else {
      assert pre + rest == rest;
    }
  }

  lemma {:induction false} TrimEndPadded(m: string, post: string)
    requires AllSpace(post)
    requires m == [] || !IsSpace(m[|m| - 1])
    ensures TrimEnd(m + post) == m
    decreases |post|
  {
    if post != [] {
      var s := m + post;
      assert s[..|s| - 1] == m + post[..|post| - 1];
      TrimEndPadded(m, post[..|post| - 1]);
    } else {
      assert m + post == m;
    }
  }
}
