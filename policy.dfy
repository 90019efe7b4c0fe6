/**
 * The request listener installed on every page: decides, for each outgoing
 * request, from its resource type and its full URL, whether it is aborted or
 * allowed to continue.
 */
module Policy {
  import opened Text

  datatype Decision = Abort | Continue

  /** The URL fragments of the tracker pattern, in the order of its alternatives; '.' and '/' are literal. */
  const TRACKERS: seq<string> := [
    "google-analytics.com", "gtag/js", "doubleclick.net", "googletagmanager.com",
    "facebook.com/tr", "hotjar.com", "mixpanel.com", "segment.com"
  ]

  /** Fonts and media are never fetched; the comparison is exact (`===`), so `"Font"` is not a font. */
  predicate IsBlockedType(resourceType: string) {
    resourceType == "font" || resourceType == "media"
  }

  /** `fragment` occurs somewhere in `s`, compared case-insensitively (the search a `/i` test performs). */
  predicate ContainsIgnoringCase(s: string, fragment: string)
    decreases |s|
  {
    StartsWithIgnoringCase(s, fragment) || (s != [] && ContainsIgnoringCase(s[1..], fragment))
  }

  /** Some fragment among `fragments` occurs in `url`: the alternation of the tracker pattern. */
  predicate MatchesAny(url: string, fragments: seq<string>)
    decreases |fragments|
  {
    fragments != [] && (ContainsIgnoringCase(url, fragments[0]) || MatchesAny(url, fragments[1..]))
  }

  /** `fragment` occurs in `url` at position `k`, ignoring case. */
  predicate OccursAt(url: string, fragment: string, k: int) {
    0 <= k <= |url| && StartsWithIgnoringCase(url[k..], fragment)
  }

  /** The scanning search finds `fragment` exactly when it occurs at some position. */
  lemma {:induction false} ContainsIgnoringCaseIff(s: string, fragment: string)
    ensures ContainsIgnoringCase(s, fragment) <==> exists k :: OccursAt(s, fragment, k)
    decreases |s|
  {
    if ContainsIgnoringCase(s, fragment) {
      if StartsWithIgnoringCase(s, fragment) {
        assert s[0..] == s;
        assert OccursAt(s, fragment, 0);
      } else {
        ContainsIgnoringCaseIff(s[1..], fragment);
        var k :| OccursAt(s[1..], fragment, k);
        assert s[1..][k..] == s[k + 1..];
        assert OccursAt(s, fragment, k + 1);
      }
    }
    if exists k :: OccursAt(s, fragment, k) {
      var k :| OccursAt(s, fragment, k);
      if k == 0 {
        assert s[0..] == s;
      } else {
        assert s[1..][k - 1..] == s[k..];
        assert OccursAt(s[1..], fragment, k - 1);
        ContainsIgnoringCaseIff(s[1..], fragment);
      }
    }
  }

  /** The alternation matches exactly when one of its fragments occurs in the URL. */
  lemma {:induction false} MatchesAnyIff(url: string, fragments: seq<string>)
    ensures MatchesAny(url, fragments) <==> exists i :: 0 <= i < |fragments| && ContainsIgnoringCase(url, fragments[i])
    decreases |fragments|
  {
    if fragments != [] {
      MatchesAnyIff(url, fragments[1..]);
      if exists i :: 0 <= i < |fragments| && ContainsIgnoringCase(url, fragments[i]) {
        var i :| 0 <= i < |fragments| && ContainsIgnoringCase(url, fragments[i]);
        if i > 0 {
          assert fragments[1..][i - 1] == fragments[i];
        }
      }
    }
  }

  /** The URL matches the tracker pattern: some fragment occurs at some position, ignoring case. */
  ghost predicate IsTracker(url: string) {
    exists i, k :: 0 <= i < |TRACKERS| && OccursAt(url, TRACKERS[i], k)
  }

  /**
   * The listener's decision. Either rule aborts; a request continues exactly
   * when neither fires, and each request gets exactly one decision.
   */
  function Decide(resourceType: string, url: string): (d: Decision)
    ensures IsBlockedType(resourceType) ==> d == Abort
    ensures !IsBlockedType(resourceType) && IsTracker(url) ==> d == Abort
    ensures d == Continue <==> !IsBlockedType(resourceType) && !IsTracker(url)
  {
    if IsBlockedType(resourceType) then
      Abort
    else
      MatchesAnyIff(url, TRACKERS);
      assert MatchesAny(url, TRACKERS) <==> IsTracker(url) by {
        forall i | 0 <= i < |TRACKERS| {
          ContainsIgnoringCaseIff(url, TRACKERS[i]);
        }
      }
      if MatchesAny(url, TRACKERS) then Abort else Continue
  }

  /** The decision depends on the URL only up to ASCII case. */
  lemma DecideIgnoresCase(resourceType: string, url: string, other: string)
    requires |url| == |other|
    requires forall j :: 0 <= j < |url| ==> LowerAscii(url[j]) == LowerAscii(other[j])
    ensures Decide(resourceType, url) == Decide(resourceType, other)
  {
    forall i, k | 0 <= i < |TRACKERS| && 0 <= k <= |url|
      ensures OccursAt(url, TRACKERS[i], k) <==> OccursAt(other, TRACKERS[i], k)
    {
      var f := TRACKERS[i];
      if |f| <= |url| - k {
        assert forall j :: 0 <= j < |f| ==> url[k..][j] == url[k + j] && other[k..][j] == other[k + j];
      }
    }
    assert IsTracker(url) <==> IsTracker(other);
  }

  /**
   * The tracker rule is not anchored to the host name: a fragment anywhere in
   * the URL, in the path or the query as well, aborts the request.
   */
  lemma TrackerAnywhereAborts(resourceType: string, before: string, i: int, after: string)
    requires 0 <= i < |TRACKERS|
    ensures Decide(resourceType, before + TRACKERS[i] + after) == Abort
  {
    var url := before + TRACKERS[i] + after;
    assert url[|before|..][..|TRACKERS[i]|] == TRACKERS[i];
    assert OccursAt(url, TRACKERS[i], |before|);
  }
}
