/** `normalizeUrl`: turns the raw `url` field of a request body into the address to capture. */
module Url {
  import opened Wrappers
  import opened Text

  const SCHEME_PREFIX := "https://"

  /**
   * JavaScript's `!v` for a value that is `undefined`, `null` or a string:
   * an absent value and the empty string are falsy, every other string is truthy.
   */
  predicate Falsy(v: Option<string>) {
    v.None? || v.value == ""
  }

  /** The test `/^https?:\/\//i`: `s` starts with `http://` or `https://`, ignoring case. */
  predicate HasScheme(s: string) {
    StartsWithIgnoringCase(s, "http://") || StartsWithIgnoringCase(s, "https://")
  }

  /**
   * `normalizeUrl`: nothing for a falsy input; otherwise the trimmed input,
   * prefixed with `https://` unless it already names an http(s) scheme.
   */
  function NormalizeUrl(input: Option<string>): (r: Option<string>)
    ensures r.None? <==> Falsy(input)
    ensures r.Some? ==> !Falsy(r)
    ensures r.Some? ==> HasScheme(r.value) && Trim(r.value) == r.value
  {
    if Falsy(input) then None
    else
      var url := Trim(input.value);
      if HasScheme(url) then
        Some(url)
      else
        var prefixed := SCHEME_PREFIX + url;
        assert HasScheme(prefixed) by {
          assert StartsWithIgnoringCase(prefixed, SCHEME_PREFIX);
        }
        TrimFixed(prefixed);
        Some(prefixed)
  }

  /**
   * A non-null result is the trimmed input, with "https://" added in front
   * exactly when the trimmed input does not already have a scheme.
   */
  lemma NormalizeKeepsTrimmedInput(input: Option<string>)
    requires NormalizeUrl(input).Some?
    ensures var r, t := NormalizeUrl(input).value, Trim(input.value);
      && (r == t || r == SCHEME_PREFIX + t)
      && (r == t <==> HasScheme(t))
  {
    var r, t := NormalizeUrl(input).value, Trim(input.value);
    if !HasScheme(t) {
      assert |r| == |SCHEME_PREFIX| + |t|;
    }
  }

  /** Normalising a normalised address changes nothing. */
  lemma NormalizeIdempotent(input: Option<string>)
    requires NormalizeUrl(input).Some?
    ensures NormalizeUrl(NormalizeUrl(input)) == NormalizeUrl(input)
  {
  }

  /** A whitespace-only string is truthy, so it yields the bare prefix rather than nothing. */
  lemma BlankInputYieldsBarePrefix(s: string)
    requires s != [] && forall k :: 0 <= k < |s| ==> IsTrimmable(s[k])
    ensures NormalizeUrl(Some(s)) == Some(SCHEME_PREFIX)
  {
    var t := Trim(s);
    assert t == [];
    assert !HasScheme(t);
    assert SCHEME_PREFIX + t == SCHEME_PREFIX;
  }

  /** A non-empty string with no whitespace at either end is kept as it is or only gains the prefix. */
  lemma NormalizeTrimmed(s: string)
    requires s != [] && !IsTrimmable(s[0]) && !IsTrimmable(s[|s| - 1])
    ensures HasScheme(s) ==> NormalizeUrl(Some(s)) == Some(s)
    ensures !HasScheme(s) ==> NormalizeUrl(Some(s)) == Some(SCHEME_PREFIX + s)
  {
    TrimFixed(s);
  }

  /** Both recognised schemes begin with `h`, so a string whose first letter folds to anything else has neither. */
  lemma NoSchemeUnlessH(s: string)
    requires s != [] && LowerAscii(s[0]) != 'h'
    ensures !HasScheme(s)
  {
    assert LowerAscii("http://"[0]) == 'h';
    assert LowerAscii("https://"[0]) == 'h';
  }

  /** A bare host gains the prefix. */
  lemma NormalizeBareHost()
    ensures NormalizeUrl(Some("example.com")) == Some("https://example.com")
  {
    var raw := "example.com";
    assert SCHEME_PREFIX + raw == "https://example.com";
    NoSchemeUnlessH(raw);
    NormalizeTrimmed(raw);
  }

  /** The scheme test ignores case: an upper-case scheme is kept as written. */
  lemma NormalizeUpperCaseScheme()
    ensures NormalizeUrl(Some("HTTP://Example.com")) == Some("HTTP://Example.com")
  {
    var raw := "HTTP://Example.com";
    assert StartsWithIgnoringCase(raw, "http://");
    NormalizeTrimmed(raw);
  }

  /** A scheme other than http(s) is not recognised, so it is prefixed all the same. */
  lemma NormalizeOtherScheme()
    ensures NormalizeUrl(Some("ftp://example.com")) == Some("https://ftp://example.com")
  {
    var raw := "ftp://example.com";
    assert SCHEME_PREFIX + raw == "https://ftp://example.com";
    NoSchemeUnlessH(raw);
    NormalizeTrimmed(raw);
  }
}
