/** The few Python `str` methods the core relies on, over `seq<char>`. */
module Strings {

  /** `s.lstrip(c)`: every leading `c` is removed, nothing else. */
  function LStrip(s: string, c: char): (r: string)
    ensures |r| <= |s| && r == s[|s| - |r|..]
    ensures r == [] || r[0] != c
    ensures forall i :: 0 <= i < |s| - |r| ==> s[i] == c
  {
    if s != [] && s[0] == c then LStrip(s[1..], c) else s
  }

  /** `s.rstrip(c)`: every trailing `c` is removed, nothing else. */
  function RStrip(s: string, c: char): (r: string)
    ensures |r| <= |s| && r == s[..|r|]
    ensures r == [] || r[|r| - 1] != c
    ensures forall i :: |r| <= i < |s| ==> s[i] == c
  {
    if s != [] && s[|s| - 1] == c then RStrip(s[..|s| - 1], c) else s
  }

  /** Neither the first nor the last character of `s` is `c`. */
  predicate NoEdge(s: string, c: char) {
    s == [] || (s[0] != c && s[|s| - 1] != c)
  }

  /** `s.strip(c)`: the slice of `s` left once every leading and trailing
      `c` is removed; only `c` is dropped on either side. */
  function Strip(s: string, c: char): (r: string)
    ensures NoEdge(r, c)
    ensures NoEdge(s, c) ==> r == s
    ensures var lo := |s| - |LStrip(s, c)|;
      && lo + |r| <= |s|
      && r == s[lo..lo + |r|]
      && (forall i :: 0 <= i < lo ==> s[i] == c)
      && (forall i :: lo + |r| <= i < |s| ==> s[i] == c)
  {
    var l := LStrip(s, c);
    var r := RStrip(l, c);
    assert forall i :: |s| - |l| + |r| <= i < |s| ==> s[i] == l[i - (|s| - |l|)];
    r
  }

  /** `sep.join(parts)`: no parts join to the empty string, one part to
      itself; `JoinSnoc` gives the rest. */
  function Join(sep: string, parts: seq<string>): (r: string)
    ensures parts == [] ==> r == ""
    ensures |parts| == 1 ==> r == parts[0]
    decreases |parts|
  {
    if |parts| == 0 then ""
    else if |parts| == 1 then parts[0]
    else parts[0] + sep + Join(sep, parts[1..])
  }

  /** Joining one more part appends the separator and that part: the
      parts appear in the joined text in their original order. */
  lemma {:induction false} JoinSnoc(sep: string, parts: seq<string>, last: string)
    requires |parts| > 0
    ensures Join(sep, parts + [last]) == Join(sep, parts) + sep + last
    decreases |parts|
  {
    if |parts| == 1 {
      assert parts + [last] == [parts[0], last];
      assert [parts[0], last][1..] == [last];
    } else {
      assert (parts + [last])[1..] == parts[1..] + [last];
      JoinSnoc(sep, parts[1..], last);
    }
  }

  /** Index of the first character of `s` lying in `cs`, or `|s|` when
      there is none (Python's `find`, with -1 reported as `|s|`). */
  function FirstIndexIn(s: string, cs: set<char>): (i: nat)
    ensures i <= |s|
    ensures i < |s| ==> s[i] in cs
    ensures forall j :: 0 <= j < i ==> s[j] !in cs
  {
    if s == [] then 0
    else if s[0] in cs then 0
    else 1 + FirstIndexIn(s[1..], cs)
  }
}
