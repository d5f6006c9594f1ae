/**
  Object identifiers for the manifest, as `generate_id` derives them: the
  MD5 digest (RFC 1321) of a seed string, cut to 24 hexadecimal digits and
  upper-cased. MD5 itself is left uninterpreted: the model takes it as a
  parameter of type `Md5`, which promises only what `hexdigest()` renders,
  32 lower-case hexadecimal digits.
*/
module XcodeIds {

  predicate IsLowerHexDigit(c: char) {
    '0' <= c <= '9' || 'a' <= c <= 'f'
  }

  predicate IsUpperHexDigit(c: char) {
    '0' <= c <= '9' || 'A' <= c <= 'F'
  }

  /** What `hashlib.md5(...).hexdigest()` returns. */
  predicate IsHexDigest(d: string) {
    |d| == 32 && forall i | 0 <= i < |d| :: IsLowerHexDigit(d[i])
  }

  /** An identifier as the manifest's objects are keyed: 24 upper-case hex digits. */
  predicate IsObjectId(id: string) {
    |id| == 24 && forall i | 0 <= i < |id| :: IsUpperHexDigit(id[i])
  }

  const ZeroDigest: string := "00000000000000000000000000000000"

  /** MD5 rendered as a hex digest, left uninterpreted. */
  type Md5 = h: string -> string | forall s :: IsHexDigest(h(s))
    witness (s: string) => ZeroDigest

  /** Python's `str.upper()` on one character of ASCII text. */
  function UpperChar(c: char): char {
    if 'a' <= c <= 'z' then (c as int - 'a' as int + 'A' as int) as char else c
  }

  /** The inverse direction, `str.lower()` on one character of ASCII text. */
  function LowerChar(c: char): char {
    if 'A' <= c <= 'Z' then (c as int - 'A' as int + 'a' as int) as char else c
  }

  function ToUpper(s: string): string {
    seq(|s|, i requires 0 <= i < |s| => UpperChar(s[i]))
  }

  function ToLower(s: string): string {
    seq(|s|, i requires 0 <= i < |s| => LowerChar(s[i]))
  }

  /** `generate_id(seed)`: a function of the seed alone, always a well-formed
      object identifier, and one that lower-cases back to the first 24 digits
      of the seed's digest. */
  function GenerateId(md5: Md5, seed: string): (id: string)
    ensures IsObjectId(id)
    ensures ToLower(id) == md5(seed)[..24]
  {
    var digest := md5(seed);
    assert IsHexDigest(digest);
    var id := ToUpper(digest[..24]);
    assert forall i | 0 <= i < 24 :: LowerChar(id[i]) == digest[i];
    id
  }

  /** Identifiers hold no newline, so the lines that carry them stay single lines. */
  lemma ObjectIdHasNoNewline(id: string)
    requires IsObjectId(id)
    ensures '\n' !in id
  {
  }
}
