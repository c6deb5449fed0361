/** The identifier under which the browser extension is whitelisted: the
    SHA-256 hex digest of the extension's path, each hex digit replaced by a
    letter of `a..p`, cut to 32 characters (`convertHexadecimalToIDAlphabet`,
    `generateExtensionIdByPath`). */
module ExtensionId {

  /** Digit value n is written as the n-th letter of this alphabet. */
  const IdAlphabet: string := "abcdefghijklmnop"

  const HexDigits: string := "0123456789abcdef"

  predicate IsHexDigit(c: char) {
    '0' <= c <= '9' || 'a' <= c <= 'f' || 'A' <= c <= 'F'
  }

  predicate AllHex(s: string) {
    forall i :: 0 <= i < |s| ==> IsHexDigit(s[i])
  }

  predicate IsIdLetter(c: char) {
    'a' <= c <= 'p'
  }

  predicate AllIdLetters(s: string) {
    forall i :: 0 <= i < |s| ==> IsIdLetter(s[i])
  }

  /** What `parseInt(c, 16)` gives for a single hex digit, in either case. */
  function HexValue(c: char): (v: nat)
    requires IsHexDigit(c)
    ensures v < 16
  {
    if '0' <= c <= '9' then c as int - '0' as int
    else if 'a' <= c <= 'f' then c as int - 'a' as int + 10
    else c as int - 'A' as int + 10
  }

  /** The n-th letter of the alphabet. */
  function IdLetter(v: nat): (c: char)
    requires v < 16
    ensures IsIdLetter(c) && c as int - 'a' as int == v
  {
    IdAlphabet[v]
  }

  /** The lookup table filled at start-up: each of `0-9a-f`, and the upper-case
      form of each, keyed to its letter. A character outside the table looks up
      `undefined`, which joins as the empty string. */
  function LookUp(c: char): (r: string)
    ensures |r| <= 1
    ensures IsHexDigit(c) <==> |r| == 1
  {
    if IsHexDigit(c) then [IdLetter(HexValue(c))] else ""
  }

  /** `convertHexadecimalToIDAlphabet`: every character replaced by its table
      entry. Only letters `a..p` come out; on hex input the output has the
      input's length and its i-th letter is the one for the i-th digit. */
  function ConvertHexadecimalToIdAlphabet(hex: string): (r: string)
    ensures |r| <= |hex|
    ensures AllIdLetters(r)
    ensures AllHex(hex) ==> |r| == |hex|
    ensures AllHex(hex) ==> forall i :: 0 <= i < |hex| ==> r[i] == IdLetter(HexValue(hex[i]))
  {
    if hex == [] then [] else LookUp(hex[0]) + ConvertHexadecimalToIdAlphabet(hex[1..])
  }

  /** `generateExtensionIdByPath`, with the SHA-256 hex digest passed in as a
      function: the converted digest cut by `substr(0, 32)`. */
  function GenerateExtensionIdByPath(sha256Hex: string -> string, path: string): string {
    var converted := ConvertHexadecimalToIdAlphabet(sha256Hex(path));
    converted[..if |converted| < 32 then |converted| else 32]
  }

  /** The letter back to its lower-case hex digit. */
  function HexOf(c: char): (h: char)
    requires IsIdLetter(c)
    ensures IsHexDigit(h)
  {
    HexDigits[c as int - 'a' as int]
  }

  function IdToHex(id: string): (hex: string)
    requires AllIdLetters(id)
  {
    if id == [] then [] else [HexOf(id[0])] + IdToHex(id[1..])
  }

  /** `toLowerCase` on a hex digit. */
  function ToLowerHex(c: char): char
    requires IsHexDigit(c)
  {
    if 'A' <= c <= 'F' then (c as int + 32) as char else c
  }

  /** `toUpperCase` on a digit of `HexDigits`. */
  function UpperCase(c: char): char {
    if 'a' <= c <= 'f' then (c as int - 32) as char else c
  }

  /** The table as the start-up loop fills it: the i-th character of
      `0123456789abcdef`, and its upper-case form, both look up the i-th
      letter of `a..p`. */
  lemma LookUpTable()
    ensures forall i :: 0 <= i < 16 ==> LookUp(HexDigits[i]) == [IdAlphabet[i]]
    ensures forall i :: 0 <= i < 16 ==> LookUp(UpperCase(HexDigits[i])) == [IdAlphabet[i]]
  {
  }

  function LowerHex(hex: string): string
    requires AllHex(hex)
  {
    if hex == [] then [] else [ToLowerHex(hex[0])] + LowerHex(hex[1..])
  }

  /** A digit's letter reads back as the digit in lower case. */
  lemma HexOfLetter(c: char)
    requires IsHexDigit(c)
    ensures HexOf(IdLetter(HexValue(c))) == ToLowerHex(c)
  {
  }

  /** The conversion loses only the case of the digits: reading the letters
      back gives the input in lower case. */
  lemma {:induction false} IdToHexInverts(hex: string)
    requires AllHex(hex)
    ensures IdToHex(ConvertHexadecimalToIdAlphabet(hex)) == LowerHex(hex)
  {
    if hex != [] {
      assert AllHex(hex[1..]);
      IdToHexInverts(hex[1..]);
      HexOfLetter(hex[0]);
      var r := ConvertHexadecimalToIdAlphabet(hex);
      assert r[1..] == ConvertHexadecimalToIdAlphabet(hex[1..]);
    }
  }

  /** Upper and lower case of a digit give the same letter. */
  lemma CaseDoesNotMatter(c: char)
    requires 'a' <= c <= 'f'
    ensures LookUp(c) == LookUp((c as int - 32) as char)
  {
  }

  /** A SHA-256 hex digest: 64 hex digits. */
  predicate IsSha256Hex(s: string) {
    |s| == 64 && AllHex(s)
  }

  /** For a 64-digit digest the identifier has 32 letters of `a..p`, made
      from the first 32 digits of the digest, which it gives back. */
  lemma ExtensionIdOfDigest(sha256Hex: string -> string, path: string)
    requires IsSha256Hex(sha256Hex(path))
    ensures var id := GenerateExtensionIdByPath(sha256Hex, path);
      && |id| == 32
      && AllIdLetters(id)
      && id == ConvertHexadecimalToIdAlphabet(sha256Hex(path)[..32])
      && IdToHex(id) == LowerHex(sha256Hex(path)[..32])
  {
    var digest := sha256Hex(path);
    var id := GenerateExtensionIdByPath(sha256Hex, path);
    var prefix := digest[..32];
    assert AllHex(prefix);
    var c := ConvertHexadecimalToIdAlphabet(prefix);
    assert forall i :: 0 <= i < 32 ==> prefix[i] == digest[i];
    assert id == c;
    IdToHexInverts(prefix);
  }
}
