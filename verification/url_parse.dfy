/** A simplified `urllib.parse.urlparse`: the scheme, the `//`-introduced
    network location, the fragment and the query are split off in the
    order the library splits them; what remains is the path. */
module UrlParse {
  import opened Strings

  datatype ParsedUrl = ParsedUrl(
    scheme: string,
    netloc: string,
    path: string,
    query: string,
    fragment: string)

  predicate IsAsciiLetter(c: char) {
    'a' <= c <= 'z' || 'A' <= c <= 'Z'
  }

  /** Characters allowed in a URL scheme. */
  predicate IsSchemeChar(c: char) {
    IsAsciiLetter(c) || '0' <= c <= '9' || c == '+' || c == '-' || c == '.'
  }

  function LowerChar(c: char): char {
    if 'A' <= c <= 'Z' then (c as int + 32) as char else c
  }

  function Lower(s: string): (r: string)
    ensures |r| == |s|
  {
    seq(|s|, i requires 0 <= i < |s| => LowerChar(s[i]))
  }

  /** The text before the first `:` is a scheme when it is non-empty, starts
      with an ASCII letter and holds only scheme characters. */
  predicate HasScheme(url: string) {
    var i := FirstIndexIn(url, {':'});
    && 0 < i < |url|
    && IsAsciiLetter(url[0])
    && forall j :: 0 <= j < i ==> IsSchemeChar(url[j])
  }

  /** Splits `url` into (lower-cased scheme, rest). */
  function SplitScheme(url: string): (r: (string, string))
    ensures HasScheme(url) ==>
      && 0 < |r.0| < |url|
      && url == url[..|r.0|] + [':'] + r.1
      && r.0 == Lower(url[..|r.0|])
      && ':' !in url[..|r.0|]
    ensures !HasScheme(url) ==> r == ("", url)
  {
    if HasScheme(url) then
      var i := FirstIndexIn(url, {':'});
      assert url == url[..i] + [':'] + url[i + 1..];
      (Lower(url[..i]), url[i + 1..])
    else ("", url)
  }

  /** After a leading `//` the network location runs up to the first of
      `/`, `?` or `#`; returns (netloc, rest). */
  function SplitNetloc(rest: string): (r: (string, string))
    ensures r.0 + r.1 == (if |rest| >= 2 && rest[..2] == "//" then rest[2..] else rest)
    ensures forall j :: 0 <= j < |r.0| ==> r.0[j] !in {'/', '?', '#'}
    ensures |rest| < 2 || rest[..2] != "//" ==> r.0 == ""
  {
    if |rest| >= 2 && rest[..2] == "//" then
      var tail := rest[2..];
      var d := FirstIndexIn(tail, {'/', '?', '#'});
      (tail[..d], tail[d..])
    else ("", rest)
  }

  /** Splits `s` at the first `c`; (s, "") when `c` does not occur. */
  function SplitAt(s: string, c: char): (r: (string, string))
    ensures c !in r.0
    ensures c in s ==> s == r.0 + [c] + r.1
    ensures c !in s ==> r == (s, "")
  {
    var i := FirstIndexIn(s, {c});
    if i < |s| then
      assert s == s[..i] + [c] + s[i + 1..];
      (s[..i], s[i + 1..])
    else (s, "")
  }

  function Parse(url: string): (p: ParsedUrl)
    ensures forall j :: 0 <= j < |p.netloc| ==> p.netloc[j] !in {'/', '?', '#'}
    ensures '?' !in p.path && '#' !in p.path
  {
    var (scheme, rest) := SplitScheme(url);
    var (netloc, rest') := SplitNetloc(rest);
    var (withQuery, fragment) := SplitAt(rest', '#');
    var (path, query) := SplitAt(withQuery, '?');
    assert '#' !in path by {
      assert withQuery == path + ['?'] + query || path == withQuery;
    }
    ParsedUrl(scheme, netloc, path, query, fragment)
  }

  /** A character that ends a network location or a path. */
  predicate IsDelimiter(c: char) {
    c == '/' || c == '?' || c == '#'
  }

  /** `s3:` is recognised as the scheme. */
  lemma SchemeS3(rest: string)
    ensures SplitScheme("s3:" + rest) == ("s3", rest)
  {
    var url := "s3:" + rest;
    assert url[0] == 's' && url[1] == '3' && url[2] == ':';
    assert FirstIndexIn(url, {':'}) == 2 by {
      assert url[0] !in {':'} && url[1] !in {':'};
    }
    assert HasScheme(url);
    assert url[..2] == "s3";
    assert Lower(url[..2]) == "s3" by {
      assert LowerChar('s') == 's' && LowerChar('3') == '3';
    }
    assert url[3..] == rest;
  }

  /** After `//`, a delimiter-free host followed by `/` is the netloc. */
  lemma NetlocBeforeSlash(host: string, path: string)
    requires forall j :: 0 <= j < |host| ==> !IsDelimiter(host[j])
    ensures SplitNetloc("//" + host + "/" + path) == (host, "/" + path)
  {
    var rest := "//" + host + "/" + path;
    assert rest[..2] == "//";
    var tail := rest[2..];
    assert tail == host + "/" + path;
    assert FirstIndexIn(tail, {'/', '?', '#'}) == |host| by {
      assert tail[|host|] == '/';
      forall j | 0 <= j < |host| ensures tail[j] !in {'/', '?', '#'} {
        assert tail[j] == host[j];
      }
    }
    assert tail[..|host|] == host;
    assert tail[|host|..] == "/" + path;
  }

  /** `s3://<host>/<path>` parses back into exactly that host and path,
      provided the host holds no delimiter and the path no `?` or `#`. */
  lemma ParseS3Form(host: string, path: string)
    requires forall j :: 0 <= j < |host| ==> !IsDelimiter(host[j])
    requires '?' !in path && '#' !in path
    ensures Parse("s3://" + host + "/" + path) == ParsedUrl("s3", host, "/" + path, "", "")
  {
    var rest := "//" + host + "/" + path;
    assert "s3://" + host + "/" + path == "s3:" + rest;
    SchemeS3(rest);
    NetlocBeforeSlash(host, path);
    assert '#' !in "/" + path;
    assert '?' !in "/" + path;
  }
}
