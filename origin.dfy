/**
 * Admission filter for inbound messages: the wildcard-or-equal origin check
 * and the extraction of an origin (scheme, host and port) from a URL.
 */
module Origin {
  import opened Wrappers

  /** The origin string that admits every remote origin. */
  const Wildcard: string := "*"

  /** `checkMessageOrigin`: the expected origin `*` admits everything, any other admits only itself. */
  function CheckMessageOrigin(remoteOrigin: string, localOrigin: string): (ok: bool)
    ensures localOrigin == Wildcard ==> ok
    ensures localOrigin != Wildcard ==> (ok <==> remoteOrigin == localOrigin)
  {
    localOrigin == Wildcard || remoteOrigin == localOrigin
  }

  // ---------------------------------------------------------------------
  // getOriginFromUrl: the regular expression ^((https?:)?\/\/[^/]+)(\/|$)
  // with the case-insensitive flag, returning the first group or null.
  // ---------------------------------------------------------------------

  /** ASCII lower-casing; the only case folding the letters of `https:` admit. */
  function Lower(c: char): char
  {
    if 'A' <= c <= 'Z' then (c as int + 32) as char else c
  }

  /** `url` starts with the lower-case literal `lit`, ignoring case. */
  predicate HasPrefixCI(url: string, lit: string)
  {
    |lit| <= |url| && forall i :: 0 <= i < |lit| ==> Lower(url[i]) == lit[i]
  }

  /** `//` stands at index `k`. */
  predicate SlashesAt(url: string, k: nat)
  {
    k + 2 <= |url| && url[k] == '/' && url[k + 1] == '/'
  }

  /** The scheme part `(https?:)?` can end at `k` with `//` right after it. */
  predicate SchemeEndsAt(url: string, k: nat)
  {
    && (k == 0 || (k == 5 && HasPrefixCI(url, "http:")) || (k == 6 && HasPrefixCI(url, "https:")))
    && SlashesAt(url, k)
  }

  /** The length of the scheme the regular expression takes, when one fits. */
  function SchemeLength(url: string): (k: Option<nat>)
    ensures k.Some? ==> SchemeEndsAt(url, k.value)
    ensures k.None? ==> forall j: nat :: !SchemeEndsAt(url, j)
    ensures forall j: nat :: SchemeEndsAt(url, j) ==> k == Some(j)
  {
    if HasPrefixCI(url, "https:") && SlashesAt(url, 6) then Some(6)
    else if HasPrefixCI(url, "http:") && SlashesAt(url, 5) then Some(5)
    else if SlashesAt(url, 0) then Some(0)
    else None
  }

  /** No `/` between `from` (inclusive) and `to` (exclusive). */
  predicate NoSlash(url: string, from: nat, to: nat)
    requires from <= to <= |url|
  {
    forall j :: from <= j < to ==> url[j] != '/'
  }

  /** The end of the greedy run `[^/]*` starting at `i`: the next `/`, or the end of the input. */
  function HostEnd(url: string, i: nat): (e: nat)
    requires i <= |url|
    ensures i <= e <= |url|
    ensures NoSlash(url, i, e)
    ensures e == |url| || url[e] == '/'
    decreases |url| - i
  {
    if i == |url| || url[i] == '/' then i else HostEnd(url, i + 1)
  }

  /** `getOriginFromUrl`: the scheme, `//` and host prefix of the URL, or null. */
  function GetOriginFromUrl(url: string): (r: Option<string>)
    ensures r.Some? ==> r.value <= url
  {
    match SchemeLength(url)
    case None => None
    case Some(k) =>
      var e := HostEnd(url, k + 2);
      if e == k + 2 then None else Some(url[..e])
  }

  /**
   * The regular expression matches `url` with a first group of length `n`:
   * a scheme, `//`, at least one character other than `/`, then `/` or the end.
   */
  ghost predicate MatchesWithGroup(url: string, n: nat)
  {
    && n <= |url|
    && (n == |url| || url[n] == '/')
    && exists k: nat :: SchemeEndsAt(url, k) && k + 2 < n && NoSlash(url, k + 2, n)
  }

  /**
   * `getOriginFromUrl` agrees with the regular expression: it returns a
   * value exactly when the expression matches, and that value is the
   * matched first group.
   */
  lemma GetOriginFromUrlMatchesRegex(url: string)
    ensures GetOriginFromUrl(url).Some? ==>
      MatchesWithGroup(url, |GetOriginFromUrl(url).value|)
    ensures forall n: nat :: MatchesWithGroup(url, n) ==> GetOriginFromUrl(url) == Some(url[..n])
  {
  }

  /**
   * A successful result has no `/` after its leading `//`, and its host part
   * is not empty.
   */
  lemma {:induction false} OriginHasNoPath(url: string)
    requires GetOriginFromUrl(url).Some?
    ensures var o := GetOriginFromUrl(url).value;
      exists k: nat :: SchemeEndsAt(o, k) && k + 2 < |o| && NoSlash(o, k + 2, |o|)
  {
    var o := GetOriginFromUrl(url).value;
    var k := SchemeLength(url).value;
    assert o == url[..|o|];
    assert SlashesAt(o, k);
    assert SchemeEndsAt(o, k);
    assert NoSlash(o, k + 2, |o|);
  }

  /** A scheme other than `http:` / `https:`, a bare `//` and a path without `//` all yield null. */
  lemma RejectedUrls()
    ensures GetOriginFromUrl("ftp://x") == None
    ensures GetOriginFromUrl("//") == None
    ensures GetOriginFromUrl("https:///x") == None
    ensures GetOriginFromUrl("/x") == None
  {
  }

  /** Accepted URLs: the scheme is matched without regard to case and the path is cut off. */
  lemma AcceptedUrls()
    ensures GetOriginFromUrl("HTTPS://a.b:8080/p/q") == Some("HTTPS://a.b:8080")
    ensures GetOriginFromUrl("//host") == Some("//host")
  {
    var u := "HTTPS://a.b:8080/p/q";
    assert u[0] == 'H' && u[1] == 'T' && u[2] == 'T' && u[3] == 'P' && u[4] == 'S' && u[5] == ':';
    assert HasPrefixCI(u, "https:") && SlashesAt(u, 6);
    assert u[16] == '/';
    assert HostEnd(u, 8) == 16;
    assert u[..16] == "HTTPS://a.b:8080";
    var v := "//host";
    assert v[0] == '/' && v[1] == '/' && v[2] == 'h';
    assert Lower(v[0]) != 'h' && SchemeLength(v) == Some(0);
    assert HostEnd(v, 2) == 6;
    assert v[..6] == v;
  }
}
