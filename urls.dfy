/** The URL helpers of the front end: resolveUrl and isSameUrl. */
module Urls {
  import opened Common

  /** A plain string or a route object carrying a `url` field. */
  datatype UrlArg = Text(s: string) | Route(url: string)

  function UrlString(u: UrlArg): string {
    match u
    case Text(s) => s
    case Route(url) => url
  }

  /** resolveUrl: a missing or empty URL resolves to "/", a URL that starts
      with "/" is kept, and any other gets one "/" in front. */
  function ResolveUrl(u: Option<UrlArg>): (r: string)
    ensures |r| > 0 && r[0] == '/'
    ensures u.None? || u == Some(Text("")) ==> r == "/"
  {
    if u.None? || u == Some(Text("")) then "/"
    else
      var s := UrlString(u.value);
      if |s| > 0 && s[0] == '/' then s else "/" + s
  }

  /** A resolved URL resolves to itself; a string and a route with the same text
      resolve alike; the result is the input or the input behind one "/". */
  lemma ResolveUrlFacts(u: Option<UrlArg>)
    ensures ResolveUrl(Some(Text(ResolveUrl(u)))) == ResolveUrl(u)
    ensures u.Some? ==> ResolveUrl(Some(Text(UrlString(u.value)))) == ResolveUrl(Some(Route(UrlString(u.value))))
    ensures u.Some? ==> var s := UrlString(u.value);
                        ResolveUrl(u) == s || ResolveUrl(u) == "/" + s
    ensures u.Some? && |UrlString(u.value)| > 0 && UrlString(u.value)[0] == '/' ==> ResolveUrl(u) == UrlString(u.value)
  {
  }

  /** `replace(/\/+$/, '')`: every trailing "/" removed. */
  function StripTrailingSlashes(s: string): (r: string)
    ensures |r| <= |s| && r == s[..|r|]
    ensures r == [] || r[|r| - 1] != '/'
  {
    if s != [] && s[|s| - 1] == '/' then StripTrailingSlashes(s[..|s| - 1]) else s
  }

  /** Only slashes are removed. */
  lemma {:induction false} StripRemovesOnlySlashes(s: string)
    ensures forall i :: |StripTrailingSlashes(s)| <= i < |s| ==> s[i] == '/'
  {
    if s != [] && s[|s| - 1] == '/' {
      StripRemovesOnlySlashes(s[..|s| - 1]);
    }
  }

  /** toLowerCase on the ASCII letters. */
  function LowerChar(c: char): char {
    if 'A' <= c <= 'Z' then (c as int + 32) as char else c
  }

  function Lower(s: string): (r: string)
    ensures |r| == |s|
  {
    seq(|s|, i requires 0 <= i < |s| => LowerChar(s[i]))
  }

  /** Lowering twice is lowering once, and lowering commutes with stripping
      slashes, since "/" is not a letter. */
  lemma {:induction false} LowerStripCommute(s: string)
    ensures Lower(Lower(s)) == Lower(s)
    ensures StripTrailingSlashes(Lower(s)) == Lower(StripTrailingSlashes(s))
  {
    if s != [] {
      var init := s[..|s| - 1];
      LowerStripCommute(init);
      assert Lower(s)[..|s| - 1] == Lower(init);
      if s[|s| - 1] == '/' {
        assert Lower(s)[|s| - 1] == '/';
      } else {
        assert Lower(s)[|s| - 1] != '/';
      }
    }
  }

  function Normalize(u: UrlArg): string {
    Lower(StripTrailingSlashes(UrlString(u)))
  }

  /** isSameUrl: equal after dropping trailing slashes and lowering case. */
  predicate IsSameUrl(u: UrlArg, v: UrlArg) {
    Normalize(u) == Normalize(v)
  }

  /** isSameUrl ignores trailing slashes and letter case, treats a string and a
      route alike, and is an equivalence. */
  lemma IsSameUrlFacts(s: string, u: UrlArg, v: UrlArg, w: UrlArg)
    ensures IsSameUrl(Text(s + "/"), Text(s))
    ensures IsSameUrl(Text(Lower(s)), Text(s))
    ensures IsSameUrl(Text(s), Route(s))
    ensures IsSameUrl(u, u)
    ensures IsSameUrl(u, v) ==> IsSameUrl(v, u)
    ensures IsSameUrl(u, v) && IsSameUrl(v, w) ==> IsSameUrl(u, w)
  {
    assert (s + "/")[..|s|] == s;
    LowerStripCommute(s);
    LowerStripCommute(StripTrailingSlashes(s));
  }
}
