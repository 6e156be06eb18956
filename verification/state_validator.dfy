/** The CSRF `state` validator of the client: the `blank?` and `state_matches?`
    helpers, and the shape of the nonce that `SecureRandom.hex` produces. */
module StateValidator {
  import opened Wrappers

  /** Membership in the `[[:space:]]` class of a Ruby regular expression on a
      UTF-8 string: the Unicode White_Space characters. */
  predicate IsSpace(c: char) {
    var k := c as int;
    || (0x09 <= k <= 0x0D)
    || k == 0x20
    || k == 0x85
    || k == 0xA0
    || k == 0x1680
    || (0x2000 <= k <= 0x200A)
    || k == 0x2028
    || k == 0x2029
    || k == 0x202F
    || k == 0x205F
    || k == 0x3000
  }

  /** Every character of `s` is whitespace: the meaning of "blank" for a string. */
  predicate AllSpace(s: string) {
    forall i :: 0 <= i < |s| ==> IsSpace(s[i])
  }

  /** The anchored match `\A[[:space:]]*\z`: the star consumes one whitespace
      character at a time and the match succeeds once the input is exhausted. */
  predicate SpaceStar(s: string)
    decreases |s|
  {
    |s| == 0 || (IsSpace(s[0]) && SpaceStar(s[1..]))
  }

  /** The regular expression accepts exactly the all-whitespace strings. */
  lemma {:induction false} SpaceStarIffAllSpace(s: string)
    ensures SpaceStar(s) <==> AllSpace(s)
    decreases |s|
  {
    if |s| > 0 {
      SpaceStarIffAllSpace(s[1..]);
      assert forall i :: 1 <= i < |s| ==> s[i] == s[1..][i - 1];
    }
  }

  /** `blank?`: `nil` is blank; a string is blank when the whitespace-only
      pattern matches it (so the empty string is blank). */
  function Blank(v: Option<string>): (b: bool)
    ensures b <==> (v.None? || AllSpace(v.value))
  {
    match v
    case None => true
    case Some(s) => SpaceStarIffAllSpace(s); SpaceStar(s)
  }

  /** `state_matches?(prev_state, new_state)`: false when either side is blank,
      otherwise exact (case-sensitive, unnormalised) equality. */
  function StateMatches(prev: Option<string>, received: Option<string>): (r: bool)
    ensures r <==> (prev.Some? && !AllSpace(prev.value) && prev == received)
    ensures r ==> !Blank(prev) && !Blank(received)
  {
    if Blank(prev) then false
    else if Blank(received) then false
    else prev == received
  }

  /** The argument order of `state_matches?` does not matter. */
  lemma StateMatchesSymmetric(a: Option<string>, b: Option<string>)
    ensures StateMatches(a, b) == StateMatches(b, a)
  {
  }

  /** A state matches itself exactly when it is not blank. */
  lemma StateMatchesSelf(a: Option<string>)
    ensures StateMatches(a, a) <==> !Blank(a)
  {
  }

  /** Two different states never match, whatever their blankness. */
  lemma DistinctStatesDoNotMatch(a: Option<string>, b: Option<string>)
    requires a != b
    ensures !StateMatches(a, b)
  {
  }

  /** Typical blank values: `nil`, `""` and `"  "` never match. */
  lemma BlankStatesNeverMatch(x: Option<string>)
    ensures !StateMatches(None, x) && !StateMatches(x, None)
    ensures !StateMatches(Some(""), x) && !StateMatches(x, Some(""))
    ensures !StateMatches(Some("  "), x) && !StateMatches(x, Some("  "))
  {
    assert IsSpace(' ');
  }

  /** Comparison is case-sensitive: a lower-case and an upper-case nonce differ. */
  lemma StateMatchingIsCaseSensitive()
    ensures !StateMatches(Some("abc123"), Some("ABC123"))
    ensures StateMatches(Some("abc123"), Some("abc123"))
  {
    assert "abc123"[0] == 'a';
    assert !IsSpace('a');
  }

  /** A lower-case hexadecimal digit, the alphabet of `SecureRandom.hex`. */
  predicate IsHexDigit(c: char) {
    ('0' <= c <= '9') || ('a' <= c <= 'f')
  }

  /** The length of `SecureRandom.hex` with its default of 16 random bytes. */
  const NonceLength: nat := 32

  /** A nonce as `SecureRandom.hex` returns it: 32 lower-case hex digits. */
  predicate IsHexNonce(n: string) {
    |n| == NonceLength && forall i :: 0 <= i < |n| ==> IsHexDigit(n[i])
  }

  /** A hex nonce is never blank, so it can pass `state_matches?`. */
  lemma HexNonceNotBlank(n: string)
    requires IsHexNonce(n)
    ensures !Blank(Some(n))
    ensures StateMatches(Some(n), Some(n))
  {
    assert IsHexDigit(n[0]);
    assert !IsSpace(n[0]);
  }
}
