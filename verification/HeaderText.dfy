/** The text checks on header names and values, on the bytes of a Go string. */
module HeaderText {
  import opened Basics

  /** The length of the valid UTF-8 sequence that starts a byte string; zero if there is none. */
  function RuneLength(b: Bytes): (n: nat)
    ensures n <= |b|
  {
    if b == [] then 0
    else if b[0] < 0x80 then 1
    else if 0xC2 <= b[0] <= 0xDF then (if |b| >= 2 && Continues(b[1]) then 2 else 0)
    else if 0xE0 <= b[0] <= 0xEF then
      (if |b| >= 3 && Continues(b[1]) && Continues(b[2]) && (b[0] == 0xE0 ==> b[1] >= 0xA0)
          && (b[0] == 0xED ==> b[1] <= 0x9F) then 3 else 0)
    else if 0xF0 <= b[0] <= 0xF4 then
      (if |b| >= 4 && Continues(b[1]) && Continues(b[2]) && Continues(b[3])
          && (b[0] == 0xF0 ==> b[1] >= 0x90) && (b[0] == 0xF4 ==> b[1] <= 0x8F) then 4 else 0)
    else 0
  }

  predicate Continues(b: Byte) { 0x80 <= b <= 0xBF }

  predicate Utf8(b: Bytes) { b == [] || (RuneLength(b) > 0 && Utf8(b[RuneLength(b)..])) }

  /** Valid UTF-8 without NUL, carriage return or line feed. */
  predicate CleanText(b: Bytes) { Utf8(b) && forall c | c in b :: c != 0x00 && c != 0x0D && c != 0x0A }

  predicate IsUpper(c: Byte) { 0x41 <= c <= 0x5A }
  predicate IsLower(c: Byte) { 0x61 <= c <= 0x7A }

  /** The bytes of a field name (tchar in section 5.6.2 of RFC 9110). */
  predicate IsToken(c: Byte) {
    IsUpper(c) || IsLower(c) || 0x30 <= c <= 0x39
    || c in [0x21, 0x23, 0x24, 0x25, 0x26, 0x27, 0x2A, 0x2B, 0x2D, 0x2E, 0x5E, 0x5F, 0x60, 0x7C, 0x7E]
  }

  function CanonicalCase(b: Bytes, upper: bool): (r: Bytes)
    ensures |r| == |b|
  {
    if b == [] then []
    else
      var c := if upper && IsLower(b[0]) then b[0] - 0x20 else if !upper && IsUpper(b[0]) then b[0] + 0x20 else b[0];
      [c] + CanonicalCase(b[1..], c == 0x2D)
  }

  /** The canonical form of a header name; a name with any other byte is left as it is. */
  function Canonical(b: Bytes): (r: Bytes) {
    if forall c | c in b :: IsToken(c) then CanonicalCase(b, true) else b
  }

  /** The length of the white space character that starts a byte string; zero if there is none. */
  function SpaceLength(b: Bytes): (n: nat)
    ensures n <= |b|
  {
    if b == [] then 0
    else if 0x09 <= b[0] <= 0x0D || b[0] == 0x20 then 1
    else if b[0] == 0xC2 && |b| >= 2 && (b[1] == 0x85 || b[1] == 0xA0) then 2
    else if |b| < 3 then 0
    else if b[0] == 0xE1 && b[1] == 0x9A && b[2] == 0x80 then 3
    else if b[0] == 0xE2 && b[1] == 0x80 && (0x80 <= b[2] <= 0x8A || b[2] in [0xA8, 0xA9, 0xAF]) then 3
    else if b[0] == 0xE2 && b[1] == 0x81 && b[2] == 0x9F then 3
    else if b[0] == 0xE3 && b[1] == 0x80 && b[2] == 0x80 then 3
    else 0
  }

  function TrimLeft(b: Bytes): (r: Bytes) { if SpaceLength(b) == 0 then b else TrimLeft(b[SpaceLength(b)..]) }

  function TrimRight(b: Bytes): (r: Bytes) {
    if |b| >= 1 && SpaceLength(b[|b| - 1..]) == 1 then TrimRight(b[..|b| - 1])
    else if |b| >= 2 && SpaceLength(b[|b| - 2..]) == 2 then TrimRight(b[..|b| - 2])
    else if |b| >= 3 && SpaceLength(b[|b| - 3..]) == 3 then TrimRight(b[..|b| - 3])
    else b
  }

  function Trim(b: Bytes): (r: Bytes) { TrimRight(TrimLeft(b)) }

  lemma TokenIsNotSpace(b: Bytes)
    requires b != [] ==> IsToken(b[0])
    ensures SpaceLength(b) == 0
  {
  }

  lemma TokensAreNotTrimmed(raw: Bytes)
    requires forall c | c in raw :: IsToken(c)
    ensures Trim(raw) == raw
  {
    hide IsToken, SpaceLength;
    if raw == [] {
      TokenIsNotSpace(raw);
    } else {
      assert raw[0] in raw;
      TokenIsNotSpace(raw);
      TokenIsNotSpace(raw[|raw| - 1..]);
      if |raw| >= 2 { TokenIsNotSpace(raw[|raw| - 2..]); }
      if |raw| >= 3 { TokenIsNotSpace(raw[|raw| - 3..]); }
    }
  }

  /** A name whose canonical form is its trimmed form is already both. */
  lemma CanonicalIsKept(raw: Bytes)
    requires Canonical(raw) == Trim(raw)
    ensures Canonical(raw) == raw
  {
    hide IsToken, CanonicalCase, Trim;
    if forall c | c in raw :: IsToken(c) {
      TokensAreNotTrimmed(raw);
    }
  }
}
