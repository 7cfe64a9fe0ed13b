/** The S3 location of an ML2P project: a bucket plus a key prefix (`S3URL`
    in ml2p/core.py). */
module S3Url {
  import opened Strings
  import UrlParse

  /** A key prefix with its leading and trailing `/` stripped. */
  type Root = s: string | NoEdge(s, '/')

  /** `bucket` is what `bucket()` returns: the URL's network location. */
  datatype S3URL = S3URL(bucket: string, root: Root)

  /** `path(suffix)`: the object key for `suffix` under the prefix. Leading
      slashes of the suffix are insignificant, the key never starts with `/`,
      and prefix and suffix meet at exactly one `/`. */
  function Path(u: S3URL, suffix: string): (p: string)
    ensures p == [] || p[0] != '/'
    ensures u.root == [] ==> p == LStrip(suffix, '/')
    ensures u.root != [] ==> p == u.root + "/" + LStrip(suffix, '/')
  {
    var joined := u.root + "/" + LStrip(suffix, '/');
    if u.root == [] then
      assert joined[1..] == LStrip(suffix, '/');
      LStrip(joined, '/')
    else
      assert joined[0] == u.root[0];
      LStrip(joined, '/')
  }

  /** `url(suffix)`: `s3://`, the bucket, one `/`, then the key of `suffix`. */
  function Url(u: S3URL, suffix: string): (r: string)
    ensures |r| == 6 + |u.bucket| + |Path(u, suffix)|
    ensures r[..5] == "s3://"
    ensures r[5..5 + |u.bucket|] == u.bucket && r[5 + |u.bucket|] == '/'
    ensures r[6 + |u.bucket|..] == Path(u, suffix)
  {
    var head := "s3://" + u.bucket;
    var key := Path(u, suffix);
    var r := head + ("/" + key);
    assert r[..|head|] == head && r[|head|..] == "/" + key;
    assert head[..5] == "s3://" && head[5..] == u.bucket;
    r
  }

  /** The bucket holds no URL delimiter and the prefix no `?` or `#`, so the
      URL of a key parses back into the same bucket and prefix. */
  predicate RoundTrips(u: S3URL) {
    && (forall j :: 0 <= j < |u.bucket| ==> !UrlParse.IsDelimiter(u.bucket[j]))
    && '?' !in u.root && '#' !in u.root
  }

  /** `S3URL(s3folder)`: the bucket is the parsed host, unchanged, and the
      prefix is the parsed path with every leading and trailing `/` gone. */
  function FromFolder(s3folder: string): (u: S3URL)
    ensures u.bucket == UrlParse.Parse(s3folder).netloc
    ensures NoEdge(UrlParse.Parse(s3folder).path, '/') ==> u.root == UrlParse.Parse(s3folder).path
    ensures |u.root| <= |UrlParse.Parse(s3folder).path|
  {
    var parsed := UrlParse.Parse(s3folder);
    S3URL(parsed.netloc, Strip(parsed.path, '/'))
  }

  /** Where the prefix is non-empty, exactly one `/` separates it from the
      (non-empty) suffix in a key. */
  lemma {:induction false} SingleSlashAtJoin(u: S3URL, suffix: string)
    requires u.root != [] && LStrip(suffix, '/') != []
    ensures Path(u, suffix)[..|u.root|] == u.root
    ensures Path(u, suffix)[|u.root|] == '/'
    ensures Path(u, suffix)[|u.root| + 1] != '/'
  {
    var p := Path(u, suffix);
    assert p == u.root + "/" + LStrip(suffix, '/');
    assert p[|u.root| + 1] == LStrip(suffix, '/')[0];
  }

  /** Leading slashes on a suffix do not change the key. */
  lemma {:induction false} PathIgnoresLeadingSlash(u: S3URL, suffix: string)
    ensures Path(u, "/" + suffix) == Path(u, suffix)
  {
    assert ("/" + suffix)[1..] == suffix;
    assert LStrip("/" + suffix, '/') == LStrip(suffix, '/');
  }

  /** A suffix written with one leading `/` lands directly under the prefix. */
  lemma {:induction false} PathOfRooted(u: S3URL, tail: string)
    requires tail == [] || tail[0] != '/'
    ensures Path(u, "/" + tail) == (if u.root == [] then "" else u.root + "/") + tail
  {
    PathIgnoresLeadingSlash(u, tail);
    assert LStrip(tail, '/') == tail;
  }

  /** `/`-stripping a path that starts with one `/` before a non-`/`
      character leaves only its trailing slashes to remove. */
  lemma StripAfterSlash(p: string)
    requires p == [] || p[0] != '/'
    ensures Strip("/" + p, '/') == RStrip(p, '/')
  {
    assert ("/" + p)[1..] == p;
    assert LStrip("/" + p, '/') == LStrip(p, '/');
  }

  /** `url(suffix)` as one concatenation. */
  lemma UrlText(u: S3URL, suffix: string)
    ensures Url(u, suffix) == "s3://" + u.bucket + "/" + Path(u, suffix)
  {
    var url := Url(u, suffix);
    assert url == url[..5] + url[5..5 + |u.bucket|] + [url[5 + |u.bucket|]] + url[6 + |u.bucket|..];
  }

  /** Reading back `url(suffix)` gives the same bucket, and a prefix that is
      `path(suffix)` without its trailing slashes. */
  lemma UrlRoundTrip(u: S3URL, suffix: string)
    requires RoundTrips(u)
    requires '?' !in suffix && '#' !in suffix
    ensures FromFolder(Url(u, suffix)).bucket == u.bucket
    ensures FromFolder(Url(u, suffix)).root == RStrip(Path(u, suffix), '/')
  {
    var p := Path(u, suffix);
    var l := LStrip(suffix, '/');
    assert '?' !in l && '#' !in l by {
      assert l == suffix[|suffix| - |l|..];
    }
    assert '?' !in p && '#' !in p by {
      if u.root != [] {
        assert p == u.root + "/" + l;
      }
    }
    UrlText(u, suffix);
    UrlParse.ParseS3Form(u.bucket, p);
    StripAfterSlash(p);
  }

  /** An S3 location is recovered exactly from its own `url()`. */
  lemma UrlOfRootRoundTrip(u: S3URL)
    requires RoundTrips(u)
    ensures FromFolder(Url(u, "")) == u
  {
    UrlRoundTrip(u, "");
    var p := Path(u, "");
    if u.root == [] {
      assert p == [];
    } else {
      assert p == u.root + "/";
      assert RStrip(p, '/') == RStrip(u.root, '/') by {
        assert p[..|p| - 1] == u.root;
      }
    }
  }
}
