/** The generated password: a random UUID in its textual form (section 3 of RFC 4122) without hyphens. */
module Password {
  import opened Wrappers
  import opened Kubernetes
  import opened Text

  newtype byte = x: int | 0 <= x < 256

  /** Sixteen bytes, as `uuid.UUID`. */
  type Uuid = b: seq<byte> | |b| == 16 witness seq(16, _ => 0)

  /** What `uuid.NewRandom` makes of sixteen random bytes: version 4, variant 10. */
  function Version4(random: Uuid): Uuid {
    random[6 := random[6] % 16 + 64][8 := random[8] % 64 + 128]
  }

  function HexDigit(d: byte): char
    requires d < 16
  {
    if d < 10 then '0' + d as char else 'a' + (d - 10) as char
  }

  predicate IsHexDigit(c: char) { '0' <= c <= '9' || 'a' <= c <= 'f' }

  function HexValue(c: char): byte
    requires IsHexDigit(c)
  {
    if c <= '9' then (c - '0') as byte else (c - 'a') as byte + 10
  }

  function Hex(bytes: seq<byte>): string {
    if bytes == [] then ""
    else [HexDigit(bytes[0] / 16), HexDigit(bytes[0] % 16)] + Hex(bytes[1..])
  }

  function FromHex(s: string): Option<seq<byte>> {
    if s == "" then Some([])
    else if |s| == 1 || !IsHexDigit(s[0]) || !IsHexDigit(s[1]) then None
    else match FromHex(s[2..])
      case None => None
      case Some(rest) => Some([16 * HexValue(s[0]) + HexValue(s[1])] + rest)
  }

  /** Groups of bytes in hexadecimal, with a hyphen between two groups. */
  function Hyphenated(groups: seq<seq<byte>>): string {
    if groups == [] then ""
    else if |groups| == 1 then Hex(groups[0])
    else Hex(groups[0]) + ("-" + Hyphenated(groups[1..]))
  }

  function UuidText(u: Uuid): string {
    Hyphenated([u[..4], u[4..6], u[6..8], u[8..10], u[10..]])
  }

  /** `random` is what the system's random source yields, or None when reading it fails. */
  function GeneratePassword(random: Option<Uuid>): Result<string, Error> {
    match random
    case None => Err(Unavailable)
    case Some(r) => Ok(Replace(UuidText(Version4(r)), '-', "", 10))
  }

  lemma {:induction false} HexShape(bytes: seq<byte>)
    ensures |Hex(bytes)| == 2 * |bytes|
    ensures forall c :: c in Hex(bytes) ==> IsHexDigit(c)
  {
    if bytes != [] { HexShape(bytes[1..]); }
  }

  lemma {:induction false} HexHasNoHyphen(s: string)
    requires forall c :: c in s ==> IsHexDigit(c)
    ensures Count(s, '-') == 0 && Without(s, '-') == s
  {
    if s != "" {
      assert s[0] in s;
      HexHasNoHyphen(s[1..]);
    }
    WithoutIsShorter(s, '-');
  }

  lemma HexByteRoundTrip(b: byte)
    ensures IsHexDigit(HexDigit(b / 16)) && IsHexDigit(HexDigit(b % 16))
    ensures 16 * HexValue(HexDigit(b / 16)) + HexValue(HexDigit(b % 16)) == b
  {
  }

  lemma FromHexOfByte(b: byte, rest: string)
    requires FromHex(rest).Some?
    ensures FromHex([HexDigit(b / 16), HexDigit(b % 16)] + rest) == Some([b] + FromHex(rest).value)
  {
    HexByteRoundTrip(b);
    assert ([HexDigit(b / 16), HexDigit(b % 16)] + rest)[2..] == rest;
  }

  lemma {:induction false} FromHexInvertsHex(bytes: seq<byte>)
    ensures FromHex(Hex(bytes)) == Some(bytes)
  {
    if bytes != [] {
      FromHexInvertsHex(bytes[1..]);
      FromHexOfByte(bytes[0], Hex(bytes[1..]));
      assert bytes == [bytes[0]] + bytes[1..];
    }
  }

  function Concat(groups: seq<seq<byte>>): seq<byte> {
    if groups == [] then [] else groups[0] + Concat(groups[1..])
  }

  lemma {:induction false} HexDistributes(a: seq<byte>, b: seq<byte>)
    ensures Hex(a + b) == Hex(a) + Hex(b)
  {
    if a == [] {
      assert a + b == b;
    } else {
      HexDistributes(a[1..], b);
      assert (a + b)[1..] == a[1..] + b;
    }
  }

  lemma HyphenFirst(tail: string)
    ensures Without("-" + tail, '-') == Without(tail, '-')
    ensures Count("-" + tail, '-') == Count(tail, '-') + 1
  {
  }

  /** Dropping the hyphens loses nothing but the hyphens: one between every two groups. */
  lemma {:induction false} HyphenatedWithoutHyphens(groups: seq<seq<byte>>)
    requires groups != []
    ensures Without(Hyphenated(groups), '-') == Hex(Concat(groups))
    ensures Count(Hyphenated(groups), '-') == |groups| - 1
  {
    var first := Hex(groups[0]);
    HexShape(groups[0]);
    HexHasNoHyphen(first);
    if |groups| == 1 {
      assert Concat(groups[1..]) == [];
      assert Concat(groups) == groups[0];
    } else {
      var tail := Hyphenated(groups[1..]);
      HyphenatedWithoutHyphens(groups[1..]);
      HyphenFirst(tail);
      WithoutDistributes(first, "-" + tail, '-');
      CountDistributes(first, "-" + tail, '-');
      HexDistributes(groups[0], Concat(groups[1..]));
    }
  }

  /** The text keeps the bytes in order and has exactly four hyphens, so the bound of ten is enough. */
  lemma UuidTextIsHexWithHyphens(u: Uuid)
    ensures Count(UuidText(u), '-') == 4
    ensures Without(UuidText(u), '-') == Hex(u)
  {
    var groups := [u[..4], u[4..6], u[6..8], u[8..10], u[10..]];
    HyphenatedWithoutHyphens(groups);
    assert Concat(groups[4..]) == u[10..];
    assert Concat(groups[3..]) == u[8..];
    assert Concat(groups[2..]) == u[6..];
    assert Concat(groups[1..]) == u[4..];
    assert Concat(groups) == u;
  }

  const DIGITS := "0123456789abcdef"

  lemma {:induction false} HexAt(bytes: seq<byte>, i: nat)
    requires i < |bytes|
    ensures |Hex(bytes)| == 2 * |bytes|
    ensures Hex(bytes)[2 * i] == DIGITS[bytes[i] / 16] && Hex(bytes)[2 * i + 1] == DIGITS[bytes[i] % 16]
  {
    HexShape(bytes);
    if i > 0 { HexAt(bytes[1..], i - 1); }
  }

  /** The bytes that are random in a version 4 UUID are those of the source. */
  predicate KeepsBytes(u: Uuid, random: Uuid) {
    forall i :: 0 <= i < 16 && i != 6 && i != 8 ==> u[i] == random[i]
  }

  /** Section 4.4 of RFC 4122: of all 128 bits, the four of the version and the two of the variant are fixed, and
      the other 122 are those of the random source. */
  predicate CarriesRandom(u: Uuid, random: Uuid) {
    && KeepsBytes(u, random)
    && u[6] / 16 == 4 && u[6] % 16 == random[6] % 16
    && u[8] / 64 == 2 && u[8] % 64 == random[8] % 64
  }

  lemma PasswordIsHex(random: Uuid)
    ensures GeneratePassword(Some(random)) == Ok(Hex(Version4(random)))
  {
    var u := Version4(random);
    UuidTextIsHexWithHyphens(u);
    ReplaceRemovesAllIff(UuidText(u), '-', 10);
  }

  lemma PasswordByte(random: Uuid, i: nat)
    requires i < 16
    ensures var p, b := GeneratePassword(Some(random)), Version4(random)[i];
            && p.Ok? && |p.value| == 32
            && p.value[2 * i] == DIGITS[b / 16] && p.value[2 * i + 1] == DIGITS[b % 16]
  {
    PasswordIsHex(random);
    HexAt(Version4(random), i);
  }

  /** A generated password has 32 digits, two for every byte of the random source, the higher one first. */
  lemma PasswordDigits(random: Uuid, i: nat)
    requires i < 16 && i != 6 && i != 8
    ensures var p := GeneratePassword(Some(random));
            && p.Ok? && |p.value| == 32 && (forall c :: c in p.value ==> c in DIGITS)
            && p.value[2 * i] == DIGITS[random[i] / 16] && p.value[2 * i + 1] == DIGITS[random[i] % 16]
  {
    PasswordByte(random, i);
    PasswordIsHex(random);
    HexShape(Version4(random));
    forall c | c in Hex(Version4(random)) ensures c in DIGITS { HexDigitsAreDigits(c); }
  }

  /** But for the digits with the fixed bits. */
  lemma PasswordFixedDigits(random: Uuid)
    ensures var p := GeneratePassword(Some(random));
            && p.Ok? && |p.value| == 32
            && p.value[12] == '4' && p.value[13] == DIGITS[random[6] % 16]
            && p.value[16] == DIGITS[8 + random[8] % 64 / 16] && p.value[17] == DIGITS[random[8] % 16]
  {
    PasswordByte(random, 6);
    PasswordByte(random, 8);
    FixedBits(random);
  }

  lemma FixedBits(random: Uuid)
    ensures var u := Version4(random);
            && u[6] / 16 == 4 && u[6] % 16 == random[6] % 16
            && u[8] / 16 == 8 + random[8] % 64 / 16 && u[8] % 16 == random[8] % 16
  {
  }

  lemma HexDigitsAreDigits(c: char)
    requires IsHexDigit(c)
    ensures DIGITS[HexValue(c)] == c
  {
  }

  /** The UUID is read back from a generated password, and carries the random source. */
  lemma PasswordIsTheUuid(random: Uuid)
    ensures var p := GeneratePassword(Some(random));
            && p.Ok? && FromHex(p.value).Some?
            && var u := FromHex(p.value).value; |u| == 16 && CarriesRandom(u, random)
  {
    PasswordIsHex(random);
    FromHexInvertsHex(Version4(random));
  }

  /** Two passwords are equal exactly if all 122 random bits are: different sources give different passwords
      unless they differ in the fixed bits alone. */
  lemma PasswordsAreDistinct(a: Uuid, b: Uuid)
    ensures GeneratePassword(Some(a)) == GeneratePassword(Some(b)) <==>
            KeepsBytes(a, b) && a[6] % 16 == b[6] % 16 && a[8] % 64 == b[8] % 64
  {
    PasswordIsTheUuid(a);
    PasswordIsTheUuid(b);
    PasswordIsHex(a);
    PasswordIsHex(b);
    if KeepsBytes(a, b) && a[6] % 16 == b[6] % 16 && a[8] % 64 == b[8] % 64 {
      assert Version4(a) == Version4(b);
    }
  }
}
