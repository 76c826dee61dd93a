/** Small datatypes and the identifier texts shared by the backend and the agent. */
module Common {
  datatype Option<+T> = None | Some(value: T)

  datatype Result<+T, +E> = Ok(value: T) | Err(error: E)

  predicate IsLowerHex(c: char) {
    '0' <= c <= '9' || 'a' <= c <= 'f'
  }

  /** A UUID value, named by its 32 lower-case hexadecimal digits. */
  type Uuid = s: string | |s| == 32 && forall i :: 0 <= i < |s| ==> IsLowerHex(s[i])
    witness "00000000000000000000000000000000"

  /** The text of Python's `str(uuid)` and of .NET's `Guid.ToString()`: groups of 8-4-4-4-12 digits. */
  function Hyphenated(u: Uuid): string {
    u[..8] + "-" + u[8..12] + "-" + u[12..16] + "-" + u[16..20] + "-" + u[20..]
  }

  /** The text of .NET's `Guid.ToString("N")`. */
  function Digits32(u: Uuid): string {
    u
  }

  lemma HyphenatedInjective(u: Uuid, v: Uuid)
    requires Hyphenated(u) == Hyphenated(v)
    ensures u == v
  {
    UnhyphenatedUndoesHyphenated(u);
    UnhyphenatedUndoesHyphenated(v);
  }

  /**
   * The agent tracks a request under the 32-digit form, and every id in a poll response is the
   * hyphenated form: no polled id is ever a tracked key.
   */
  lemma PolledIdIsNeverATrackedKey(tracked: Uuid, polled: Uuid)
    ensures Digits32(tracked) != Hyphenated(polled)
  {
    assert |Digits32(tracked)| == 32 && |Hyphenated(polled)| == 36;
  }

  function LowerChar(c: char): char {
    if 'A' <= c <= 'Z' then (c as int + 32) as char else c
  }

  /** ASCII lower-casing: what `str.lower()` and `ToLowerInvariant()` do to hexadecimal text. */
  function Lower(s: string): (r: string)
    ensures |r| == |s|
    ensures forall i :: 0 <= i < |s| ==> r[i] == LowerChar(s[i])
  {
    seq(|s|, i requires 0 <= i < |s| => LowerChar(s[i]))
  }

  /** The same letter in either case, or the same character. */
  predicate SameUpToCase(c: char, d: char) {
    || c == d
    || ('A' <= c <= 'Z' && d as int == c as int + 32)
    || ('A' <= d <= 'Z' && c as int == d as int + 32)
  }

  /** Lower-casing leaves no capital, and changes nothing but the case. */
  lemma LowerIsLowerCase(s: string)
    ensures forall i :: 0 <= i < |s| ==> !('A' <= Lower(s)[i] <= 'Z') && SameUpToCase(s[i], Lower(s)[i])
  {
  }

  /** Two texts have one lower-case form exactly when they agree, place by place, up to case. */
  lemma LowerAgreesIff(a: string, b: string)
    ensures Lower(a) == Lower(b) <==> |a| == |b| && forall i :: 0 <= i < |a| ==> SameUpToCase(a[i], b[i])
  {
    LowerIsLowerCase(a);
    LowerIsLowerCase(b);
    if Lower(a) == Lower(b) {
      forall i | 0 <= i < |a| ensures SameUpToCase(a[i], b[i]) {
        assert Lower(a)[i] == Lower(b)[i];
      }
    }
    if |a| == |b| && forall i :: 0 <= i < |a| ==> SameUpToCase(a[i], b[i]) {
      forall i | 0 <= i < |a| ensures Lower(a)[i] == Lower(b)[i] {
        assert SameUpToCase(a[i], b[i]);
      }
      assert Lower(a) == Lower(b);
    }
  }

  // ---------- reading an id ----------

  predicate IsHex(c: char) {
    IsLowerHex(c) || 'A' <= c <= 'F'
  }

  predicate AllHex(s: string) {
    forall i :: 0 <= i < |s| ==> IsHex(s[i])
  }

  predicate HasHyphens(t: string)
    requires |t| == 36
  {
    t[8] == '-' && t[13] == '-' && t[18] == '-' && t[23] == '-'
  }

  function Unhyphenated(t: string): (s: string)
    requires |t| == 36
    ensures |s| == 32
  {
    t[..8] + t[9..13] + t[14..18] + t[19..23] + t[24..]
  }

  /** The hyphenated text inside braces or after "urn:uuid:", or the text itself. */
  function Unwrapped(t: string): string {
    if |t| == 38 && t[0] == '{' && t[37] == '}' then t[1..37]
    else if |t| == 45 && t[..9] == "urn:uuid:" then t[9..]
    else t
  }

  /** What a `uuid.UUID` field accepts: 32 digits of either case, plain or hyphenated, and the wrapped forms. */
  function ParseUuid(t: string): Option<Uuid> {
    var body := Unwrapped(t);
    if |t| == 32 && AllHex(t) then Some(LowerHex(t))
    else if |body| == 36 && HasHyphens(body) && AllHex(Unhyphenated(body)) then Some(LowerHex(Unhyphenated(body)))
    else None
  }

  function LowerHex(s: string): Uuid
    requires |s| == 32 && AllHex(s)
  {
    Lower(s)
  }

  /** The text `str(uuid)` writes: 8-4-4-4-12, lower-case. */
  predicate IsCanonicalUuidText(t: string) {
    |t| == 36 && HasHyphens(t) && forall i :: 0 <= i < 32 ==> IsLowerHex(Unhyphenated(t)[i])
  }

  lemma UnhyphenatedUndoesHyphenated(u: Uuid)
    ensures |Hyphenated(u)| == 36 && HasHyphens(Hyphenated(u)) && Unhyphenated(Hyphenated(u)) == u
  {
    var t := Hyphenated(u);
    assert t[..8] == u[..8] && t[9..13] == u[8..12] && t[14..18] == u[12..16];
    assert t[19..23] == u[16..20] && t[24..] == u[20..];
    assert u == u[..8] + u[8..12] + u[12..16] + u[16..20] + u[20..];
  }

  lemma HyphenatedUndoesUnhyphenated(t: string)
    requires IsCanonicalUuidText(t)
    ensures Hyphenated(Unhyphenated(t)) == t
  {
    var u := Unhyphenated(t);
    assert u[..8] == t[..8] && u[8..12] == t[9..13] && u[12..16] == t[14..18];
    assert u[16..20] == t[19..23] && u[20..] == t[24..];
    assert t == t[..8] + [t[8]] + t[9..13] + [t[13]] + t[14..18] + [t[18]] + t[19..23] + [t[23]] + t[24..];
  }

  lemma LowerOfLowerHex(s: string)
    requires forall i :: 0 <= i < |s| ==> IsLowerHex(s[i])
    ensures Lower(s) == s
  {
  }

  /** Both texts of an id are read back to it. */
  lemma ParseUndoesBothTexts(u: Uuid)
    ensures ParseUuid(Hyphenated(u)) == Some(u) && ParseUuid(Digits32(u)) == Some(u)
  {
    UnhyphenatedUndoesHyphenated(u);
    LowerOfLowerHex(u);
  }

  /** The backend answers with the very text an agent sent exactly when that was lower-case and hyphenated. */
  lemma PreservedVerbatimIff(t: string)
    requires ParseUuid(t).Some?
    ensures Hyphenated(ParseUuid(t).value) == t <==> IsCanonicalUuidText(t)
  {
    var u := ParseUuid(t).value;
    UnhyphenatedUndoesHyphenated(u);
    if IsCanonicalUuidText(t) {
      LowerOfLowerHex(Unhyphenated(t));
      HyphenatedUndoesUnhyphenated(t);
    }
  }

  /** What is read as an id: its two texts in any case, and the hyphenated one in braces or after "urn:uuid:". */
  lemma ParsesIff(t: string, u: Uuid)
    ensures ParseUuid(t) == Some(u)
       <==> || Lower(t) == u
            || Lower(t) == Hyphenated(u)
            || (|t| == 38 && t[0] == '{' && t[37] == '}' && Lower(t[1..37]) == Hyphenated(u))
            || (|t| == 45 && t[..9] == "urn:uuid:" && Lower(t[9..]) == Hyphenated(u))
  {
    LowerHexIff(t, u);
    HyphenatedIff(t, u);
    if |t| == 38 {
      HyphenatedIff(t[1..37], u);
    }
    if |t| == 45 {
      HyphenatedIff(t[9..], u);
    }
    assert |Hyphenated(u)| == 36;
    hide Hyphenated;
    hide HasHyphens;
    hide Unhyphenated;
  }

  lemma LowerHexIff(s: string, u: Uuid)
    ensures |s| == 32 && AllHex(s) && LowerHex(s) == u <==> Lower(s) == u
  {
    if Lower(s) == u {
      forall i | 0 <= i < |s| ensures IsHex(s[i]) {
        assert IsLowerHex(Lower(s)[i]);
      }
    }
  }

  lemma HyphenatedIff(t: string, u: Uuid)
    ensures |t| == 36 && HasHyphens(t) && AllHex(Unhyphenated(t)) && LowerHex(Unhyphenated(t)) == u
       <==> Lower(t) == Hyphenated(u)
  {
    if |t| == 36 {
      LowerHexIff(Unhyphenated(t), u);
      assert Lower(Unhyphenated(t)) == Unhyphenated(Lower(t));
      UnhyphenatedUndoesHyphenated(u);
      HyphensSurvive(t);
      if HasHyphens(Lower(t)) && Unhyphenated(Lower(t)) == u {
        HyphenatedUndoesUnhyphenated(Lower(t));
      }
    }
  }

  lemma HyphensSurvive(t: string)
    requires |t| == 36
    ensures HasHyphens(Lower(t)) <==> HasHyphens(t)
  {
  }
}
