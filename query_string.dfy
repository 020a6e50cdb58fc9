/**
 * Reading a URL's query string the way `URLSearchParams.get` does, for
 * URLs whose values need no percent-decoding: the query is what follows
 * the first `?`, pairs are separated by `&`, and a pair's name ends at
 * its first `=`. The first pair with the asked name wins.
 */
module QueryString {
  import opened Wrappers

  /** Position of the first `c` in `s`. */
  function IndexOf(s: string, c: char): (i: nat)
    requires c in s
    ensures i < |s| && s[i] == c && c !in s[..i]
  {
    if s[0] == c then 0
    else
      var i := IndexOf(s[1..], c) + 1;
      assert s[..i] == [s[0]] + s[1..][..i - 1];
      i
  }

  /** `s` cut at every `sep`; the pieces hold no `sep`. */
  function Split(s: string, sep: char): (parts: seq<string>)
    ensures |parts| >= 1
    ensures forall k :: 0 <= k < |parts| ==> sep !in parts[k]
    decreases |s|
  {
    if sep in s then
      var i := IndexOf(s, sep);
      [s[..i]] + Split(s[i + 1..], sep)
    else [s]
  }

  /** The first `sep` of `a + [sep] + b` is the one after `a`. */
  lemma IndexOfAfter(a: string, sep: char, b: string)
    requires sep !in a
    ensures IndexOf(a + [sep] + b, sep) == |a|
  {
    var s := a + [sep] + b;
    var i := IndexOf(s, sep);
    assert s[|a|] == sep;
    assert s[..|a|] == a;
    assert forall k :: 0 <= k < i ==> s[..i][k] == s[k];
  }

  /** Splitting at a `sep` that follows a `sep`-free head. */
  lemma SplitAfter(a: string, sep: char, b: string)
    requires sep !in a
    ensures Split(a + [sep] + b, sep) == [a] + Split(b, sep)
  {
    var s := a + [sep] + b;
    IndexOfAfter(a, sep, b);
    assert s[..|a|] == a;
    assert s[|a| + 1..] == b;
  }

  /** Three `&`-free pairs joined by `&` split back into those pairs. */
  lemma SplitThree(a: string, b: string, c: string)
    requires '&' !in a && '&' !in b && '&' !in c
    ensures Split(a + "&" + b + "&" + c, '&') == [a, b, c]
  {
    assert a + "&" + b + "&" + c == a + "&" + (b + "&" + c);
    SplitAfter(a, '&', b + "&" + c);
    SplitAfter(b, '&', c);
  }

  /** The query string of a URL (empty when it has none). */
  function Query(url: string): string {
    if '?' in url then url[IndexOf(url, '?') + 1..] else ""
  }

  function ParamName(pair: string): string {
    if '=' in pair then pair[..IndexOf(pair, '=')] else pair
  }

  function ParamValue(pair: string): string {
    if '=' in pair then pair[IndexOf(pair, '=') + 1..] else ""
  }

  /** The value of the first pair named `name`, if any. */
  function Lookup(pairs: seq<string>, name: string): (v: Option<string>)
    ensures v.None? <==> forall k :: 0 <= k < |pairs| ==> ParamName(pairs[k]) != name
    ensures v.Some? ==> exists k :: 0 <= k < |pairs| && ParamName(pairs[k]) == name && v.value == ParamValue(pairs[k])
  {
    if |pairs| == 0 then None
    else if ParamName(pairs[0]) == name then Some(ParamValue(pairs[0]))
    else
      var v := Lookup(pairs[1..], name);
      assert forall k :: 0 < k < |pairs| ==> pairs[k] == pairs[1..][k - 1];
      v
  }

  /** `new URL(url).searchParams.get(name)`, for values without escapes. */
  function Param(url: string, name: string): Option<string> {
    Lookup(Split(Query(url), '&'), name)
  }

  /** A pair written as `name=value` reads back as that name and value. */
  lemma PairParts(name: string, value: string)
    requires '=' !in name
    ensures ParamName(name + "=" + value) == name
    ensures ParamValue(name + "=" + value) == value
  {
    IndexOfAfter(name, '=', value);
    assert (name + "=" + value)[..|name|] == name;
    assert (name + "=" + value)[|name| + 1..] == value;
  }

  /** A query of three distinct `name=value` pairs yields each value by its name, and nothing for another name. */
  lemma ThreePairs(n1: string, v1: string, n2: string, v2: string, n3: string, v3: string, other: string)
    requires '&' !in n1 && '&' !in v1 && '&' !in n2 && '&' !in v2 && '&' !in n3 && '&' !in v3
    requires '=' !in n1 && '=' !in n2 && '=' !in n3
    requires n1 != n2 && n1 != n3 && n2 != n3
    requires other != n1 && other != n2 && other != n3
    ensures var pairs := Split(n1 + "=" + v1 + ("&" + n2 + "=" + v2 + "&" + n3 + "=" + v3), '&');
      Lookup(pairs, n1) == Some(v1) && Lookup(pairs, n2) == Some(v2) && Lookup(pairs, n3) == Some(v3)
      && Lookup(pairs, other) == None
  {
    var p1, p2, p3 := n1 + "=" + v1, n2 + "=" + v2, n3 + "=" + v3;
    NoSeparator(n1, v1);
    NoSeparator(n2, v2);
    NoSeparator(n3, v3);
    assert n1 + "=" + v1 + ("&" + n2 + "=" + v2 + "&" + n3 + "=" + v3) == p1 + "&" + p2 + "&" + p3;
    SplitThree(p1, p2, p3);
    PairParts(n1, v1);
    PairParts(n2, v2);
    PairParts(n3, v3);
    LookupThree([p1, p2, p3], n1, n2, n3, other);
  }
  /** Lookup in three pairs with distinct names. */
  lemma LookupThree(pairs: seq<string>, n1: string, n2: string, n3: string, other: string)
    requires |pairs| == 3
    requires ParamName(pairs[0]) == n1 && ParamName(pairs[1]) == n2 && ParamName(pairs[2]) == n3
    requires n1 != n2 && n1 != n3 && n2 != n3
    requires other != n1 && other != n2 && other != n3
    ensures Lookup(pairs, n1) == Some(ParamValue(pairs[0]))
    ensures Lookup(pairs, n2) == Some(ParamValue(pairs[1]))
    ensures Lookup(pairs, n3) == Some(ParamValue(pairs[2]))
    ensures Lookup(pairs, other) == None
  {
    var rest := pairs[1..];
    var last := rest[1..];
    assert last == [pairs[2]];
    assert Lookup(last, n3) == Some(ParamValue(pairs[2]));
    assert Lookup(last, other) == None;
    assert Lookup(rest, n3) == Lookup(last, n3);
    assert Lookup(rest, other) == Lookup(last, other);
  }
  /** A pair built from `&`-free parts holds no `&`. */
  lemma NoSeparator(n: string, v: string)
    requires '&' !in n && '&' !in v
    ensures '&' !in n + "=" + v
  {
    assert forall k :: 0 <= k < |n + "=" + v| ==> (n + "=" + v)[k] in n || (n + "=" + v)[k] == '=' || (n + "=" + v)[k] in v;
  }
}
