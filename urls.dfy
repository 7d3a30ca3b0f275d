/**
  Domain normalisation and the candidate URLs of one company:
  `https://` + the domain with its leading and trailing slashes removed,
  then one URL per relative path of the fixed page list.
*/
module Urls {
  import opened Text

  const Scheme: string := "https://"

  /** The relative paths tried for every company, in fetch order. */
  const Pages: seq<string> := ["", "about", "careers", "blog", "news"]

  predicate AllSlashes(s: string)
  {
    forall i | 0 <= i < |s| :: s[i] == '/'
  }

  /** Neither end of `s` is a slash (vacuously true of the empty string). */
  predicate NoEdgeSlash(s: string)
  {
    s == [] || (s[0] != '/' && s[|s| - 1] != '/')
  }

  /** `s` with every leading '/' removed. */
  function TrimLeading(s: string): (r: string)
    ensures |r| <= |s| && r == s[|s| - |r|..]
    ensures AllSlashes(s[..|s| - |r|])
    ensures r == [] || r[0] != '/'
  {
    if s != [] && s[0] == '/' then
      var r := TrimLeading(s[1..]);
      assert s[..|s| - |r|] == [s[0]] + s[1..][..|s[1..]| - |r|];
      r
    else s
  }

  /** `s` with every trailing '/' removed. */
  function TrimTrailing(s: string): (r: string)
    ensures |r| <= |s| && r == s[..|r|]
    ensures AllSlashes(s[|r|..])
    ensures r == [] || r[|r| - 1] != '/'
  {
    if s != [] && s[|s| - 1] == '/' then
      var r := TrimTrailing(s[..|s| - 1]);
      assert s[|r|..] == s[..|s| - 1][|r|..] + [s[|s| - 1]];
      r
    else s
  }

  /** Python's `domain.strip('/')`. */
  function StripSlashes(s: string): (r: string)
    ensures NoEdgeSlash(r)
  {
    var l := TrimLeading(s);
    var m := TrimTrailing(l);
    assert m != [] ==> m[0] == l[0];
    m
  }

  /** The origin every candidate URL of `domain` starts from. */
  function BaseOrigin(domain: string): string
  {
    Scheme + StripSlashes(domain)
  }

  /**
    `urljoin(origin + "/", path)` for the relative paths of `Pages`: plain
    concatenation, so the empty path resolves to `origin + "/"` itself.
  */
  function Join(origin: string, path: string): string
  {
    origin + "/" + path
  }

  function CandidateUrl(domain: string, path: string): string
  {
    Join(BaseOrigin(domain), path)
  }

  /** The URLs fetched for `domain`, in fetch order. */
  function CandidateUrls(domain: string): (urls: seq<string>)
    ensures |urls| == |Pages|
  {
    seq(|Pages|, i requires 0 <= i < |Pages| => CandidateUrl(domain, Pages[i]))
  }

  /** A slash-only prefix before a part that does not start with '/' is removed exactly. */
  lemma {:induction false} TrimLeadingSlashes(p: string, rest: string)
    requires AllSlashes(p)
    requires rest == [] || rest[0] != '/'
    ensures TrimLeading(p + rest) == rest
  {
    if p != [] {
      assert (p + rest)[1..] == p[1..] + rest;
      TrimLeadingSlashes(p[1..], rest);
    }
  }

  /** A slash-only suffix after a part that does not end with '/' is removed exactly. */
  lemma {:induction false} TrimTrailingSlashes(rest: string, q: string)
    requires AllSlashes(q)
    requires rest == [] || rest[|rest| - 1] != '/'
    ensures TrimTrailing(rest + q) == rest
  {
    if q != [] {
      assert (rest + q)[..|rest + q| - 1] == rest + q[..|q| - 1];
      TrimTrailingSlashes(rest, q[..|q| - 1]);
    }
  }

  /**
    Stripping is characterised by the input's shape: a slash-only prefix,
    a middle part with no slash at either end, a slash-only suffix. The
    middle part, interior slashes included, is what remains.
  */
  lemma StripSlashesUnique(p: string, m: string, q: string)
    requires AllSlashes(p) && AllSlashes(q) && NoEdgeSlash(m)
    ensures StripSlashes(p + m + q) == m
  {
    if m == [] {
      assert p + m + q == p + q;
      assert AllSlashes(p + q);
      TrimLeadingSlashes(p + q, []);
      assert p + q + [] == p + q;
    } else {
      assert p + m + q == p + (m + q);
      TrimLeadingSlashes(p, m + q);
      TrimTrailingSlashes(m, q);
    }
  }

  /** Every domain has that shape, with the stripped domain as its middle part. */
  lemma StripSlashesShape(s: string) returns (p: string, q: string)
    ensures AllSlashes(p) && AllSlashes(q) && s == p + StripSlashes(s) + q
  {
    p := LeadingSlashes(s);
    q := TrailingSlashes(TrimLeading(s));
  }

  /** The slashes TrimLeading removes from `s`. */
  lemma LeadingSlashes(s: string) returns (p: string)
    ensures AllSlashes(p) && s == p + TrimLeading(s)
  {
    p := s[..|s| - |TrimLeading(s)|];
  }

  /** The slashes TrimTrailing removes from `l`. */
  lemma TrailingSlashes(l: string) returns (q: string)
    ensures AllSlashes(q) && l == TrimTrailing(l) + q
  {
    q := l[|TrimTrailing(l)|..];
  }

  /** Stripping twice is stripping once. */
  lemma StripSlashesIdempotent(s: string)
    ensures StripSlashes(StripSlashes(s)) == StripSlashes(s)
  {
    var m := StripSlashes(s);
    var _, _ := StripSlashesShape(s);
    assert m == [] + m + [];
    StripSlashesUnique([], m, []);
  }

  /** The normalised origin of a domain of shape p + m + q is `https://` + m. */
  lemma BaseOriginOf(p: string, m: string, q: string)
    requires AllSlashes(p) && AllSlashes(q) && NoEdgeSlash(m)
    ensures BaseOrigin(p + m + q) == Scheme + m
  {
    StripSlashesUnique(p, m, q);
  }

  /** The home page URL is the origin followed by one slash, and nothing else. */
  lemma HomeUrl(domain: string)
    ensures CandidateUrls(domain)[0] == BaseOrigin(domain) + "/"
  {
    assert Pages[0] == "";
    assert BaseOrigin(domain) + "/" + "" == BaseOrigin(domain) + "/";
  }

  /** The relative paths of `Pages` are pairwise different. */
  lemma PagesDistinct(i: nat, j: nat)
    requires i < j < |Pages|
    ensures Pages[i] != Pages[j]
  {
  }

  /** A common prefix does not make different suffixes equal. */
  lemma PrefixKeepsDifference<T>(p: seq<T>, a: seq<T>, b: seq<T>)
    requires a != b
    ensures p + a != p + b
  {
    assert (p + a)[|p|..] == a && (p + b)[|p|..] == b;
  }

  /** The five candidate URLs of one domain are pairwise different. */
  lemma CandidateUrlsDistinct(domain: string, i: nat, j: nat)
    requires i < j < |Pages|
    ensures CandidateUrls(domain)[i] != CandidateUrls(domain)[j]
  {
    PagesDistinct(i, j);
    PrefixKeepsDifference(BaseOrigin(domain) + "/", Pages[i], Pages[j]);
  }

  /**
    Reads a URL back into its host and its path: the text after `https://`
    up to the first '/', and the text after that slash.
  */
  function SplitUrl(u: string): (r: Option<(string, string)>)
  {
    if |u| < |Scheme| || u[..|Scheme|] != Scheme then None
    else
      var rest := u[|Scheme|..];
      match IndexOf(rest, '/')
      case None => None
      case Some(k) => Some((rest[..k], rest[k + 1..]))
  }

  lemma Regroup<T>(a: seq<T>, b: seq<T>, c: seq<T>, d: seq<T>)
    ensures a + b + c + d == a + (b + c + d)
  {
  }

  /** A string cut around one position is the three pieces put back together. */
  lemma CutAround(s: string, k: nat)
    requires k < |s|
    ensures s == s[..k] + [s[k]] + s[k + 1..]
  {
  }

  /**
    For a domain whose stripped form holds no '/', the candidate URL splits
    back into that host and the path it was built from.
  */
  lemma SplitCandidateUrl(domain: string, path: string)
    requires '/' !in StripSlashes(domain)
    ensures SplitUrl(CandidateUrl(domain, path)) == Some((StripSlashes(domain), path))
  {
    var h := StripSlashes(domain);
    Regroup(Scheme, h, "/", path);
    SplitBuiltUrl(h, path);
  }

  /** A URL built from a slash-free host and a path splits back into the two. */
  lemma SplitBuiltUrl(host: string, path: string)
    requires '/' !in host
    ensures SplitUrl(Scheme + (host + ['/'] + path)) == Some((host, path))
  {
    var rest := host + ['/'] + path;
    var u := Scheme + rest;
    assert u[..|Scheme|] == Scheme && u[|Scheme|..] == rest;
    IndexOfAfterPrefix(host, '/', path);
    assert rest[..|host|] == host && rest[|host| + 1..] == path;
  }

  /** Whatever SplitUrl accepts is rebuilt exactly from its two parts. */
  lemma SplitUrlSound(u: string, host: string, path: string)
    requires SplitUrl(u) == Some((host, path))
    ensures '/' !in host
    ensures u == Scheme + host + "/" + path
  {
    var rest := u[|Scheme|..];
    assert u[..|Scheme|] == Scheme;
    var found := IndexOf(rest, '/');
    assert found.Some?;
    var k := found.value;
    assert host == rest[..k] && path == rest[k + 1..];
    CutAround(rest, k);
    assert u == Scheme + (host + ['/'] + path) by {
      assert u == u[..|Scheme|] + rest;
    }
    Regroup(Scheme, host, "/", path);
  }
}
