/** The string and integer conversions of Go that the providers rely on. */
module Text {
  import opened Wrappers

  // ---- strings.TrimSpace ----

  predicate IsSpace(c: char) {
    || '\t' <= c <= '\r' || c == ' ' || c == '\U{85}' || c == '\U{A0}' || c == '\U{1680}'
    || '\U{2000}' <= c <= '\U{200A}' || c == '\U{2028}' || c == '\U{2029}'
    || c == '\U{202F}' || c == '\U{205F}' || c == '\U{3000}'
  }

  function TrimLeft(s: string): string {
    if s == "" then ""
    else if IsSpace(s[0]) then TrimLeft(s[1..])
    else s
  }

  function TrimRight(s: string): string {
    if s == "" then ""
    else if IsSpace(s[|s| - 1]) then TrimRight(s[..|s| - 1])
    else s
  }

  function TrimSpace(s: string): string {
    TrimRight(TrimLeft(s))
  }

  lemma {:induction false} TrimLeftKeepsInk(s: string)
    ensures TrimLeft(s) == "" <==> forall c :: c in s ==> IsSpace(c)
    ensures TrimLeft(s) != "" ==> !IsSpace(TrimLeft(s)[0])
  {
    if s != "" && IsSpace(s[0]) {
      TrimLeftKeepsInk(s[1..]);
      assert s == [s[0]] + s[1..];
    }
  }

  lemma {:induction false} TrimRightKeepsFirst(s: string)
    requires s != "" && !IsSpace(s[0])
    ensures TrimRight(s) != ""
  {
    if IsSpace(s[|s| - 1]) {
      TrimRightKeepsFirst(s[..|s| - 1]);
    }
  }

  lemma {:induction false} TrimRightEndsInInk(s: string)
    ensures TrimRight(s) <= s
    ensures TrimRight(s) != "" ==> !IsSpace(TrimRight(s)[|TrimRight(s)| - 1])
  {
    if s != "" && IsSpace(s[|s| - 1]) { TrimRightEndsInInk(s[..|s| - 1]); }
  }

  /** What is left after trimming begins and ends with ink. */
  lemma TrimSpaceLeavesInk(s: string)
    ensures var t := TrimSpace(s); t != "" ==> !IsSpace(t[0]) && !IsSpace(t[|t| - 1])
  {
    TrimLeftKeepsInk(s);
    TrimRightEndsInInk(TrimLeft(s));
  }

  /** A namespace counts as unset exactly when it has nothing but white space in it. */
  lemma TrimSpaceIsEmptyIffBlank(s: string)
    ensures TrimSpace(s) == "" <==> forall c :: c in s ==> IsSpace(c)
  {
    TrimLeftKeepsInk(s);
    if TrimLeft(s) != "" { TrimRightKeepsFirst(TrimLeft(s)); }
  }

  // ---- strconv.Itoa and its inverse ----

  function DigitChar(d: nat): char
    requires d < 10
  {
    '0' + d as char
  }

  function Digits(n: nat): (s: string)
    ensures s != "" && forall c :: c in s ==> '0' <= c <= '9'
  {
    if n < 10 then [DigitChar(n)] else Digits(n / 10) + [DigitChar(n % 10)]
  }

  function Itoa(i: int): string {
    if i < 0 then "-" + Digits(-i) else Digits(i)
  }

  function ParseDigits(s: string): Option<int> {
    if s == "" then None
    else
      var c := s[|s| - 1];
      if !('0' <= c <= '9') then None
      else if |s| == 1 then Some((c - '0') as int)
      else match ParseDigits(s[..|s| - 1])
        case None => None
        case Some(n) => Some(10 * n + (c - '0') as int)
  }

  function ParseDecimal(s: string): Option<int> {
    if s != "" && s[0] == '-' then
      match ParseDigits(s[1..])
      case None => None
      case Some(n) => Some(-n)
    else
      match ParseDigits(s)
      case None => None
      case Some(n) => Some(n)
  }

  lemma {:induction false} ParseDigitsInvertsDigits(n: nat)
    ensures ParseDigits(Digits(n)) == Some(n)
  {
    var s := Digits(n);
    if n >= 10 {
      ParseDigitsInvertsDigits(n / 10);
      assert s[..|s| - 1] == Digits(n / 10);
    }
  }

  /** Every integer is read back from its decimal text. */
  lemma ParseInvertsItoa(i: int)
    ensures ParseDecimal(Itoa(i)) == Some(i)
  {
    ParseDigitsInvertsDigits(if i < 0 then -i else i);
    if i < 0 {
      assert Itoa(i)[1..] == Digits(-i);
    } else {
      assert Itoa(i)[0] in Itoa(i);
    }
  }

  /** A minus sign or none, and digits of which the first is zero only in "0" itself. */
  predicate Canonical(s: string) {
    var digits := if s != "" && s[0] == '-' then s[1..] else s;
    && digits != "" && (forall c :: c in digits ==> '0' <= c <= '9')
    && (digits[0] == '0' ==> s == "0")
  }

  lemma {:induction false} DigitsHaveNoLeadingZero(n: nat)
    ensures Digits(n)[0] == '0' <==> n == 0
    ensures n == 0 <==> Digits(n) == "0"
  {
    if n >= 10 { DigitsHaveNoLeadingZero(n / 10); }
  }

  lemma {:induction false} DigitsAreUnique(s: string)
    requires s != "" && (forall c :: c in s ==> '0' <= c <= '9') && (s[0] == '0' ==> s == "0")
    ensures ParseDigits(s).Some? && ParseDigits(s).value >= 0 && Digits(ParseDigits(s).value) == s
    ensures ParseDigits(s).value == 0 ==> s == "0"
  {
    var c, front := s[|s| - 1], s[..|s| - 1];
    assert c in s;
    if |s| == 1 {
      assert s == [c];
    } else {
      assert forall d :: d in front ==> d in s;
      DigitsAreUnique(front);
      var n := ParseDigits(front).value;
      assert (10 * n + (c - '0') as int) / 10 == n && (10 * n + (c - '0') as int) % 10 == (c - '0') as int;
      assert s == front + [c];
    }
  }

  /** The decimal text of an integer is the one canonical string that is read as that integer. */
  lemma ItoaIsCanonical(i: int, s: string)
    ensures s == Itoa(i) <==> Canonical(s) && ParseDecimal(s) == Some(i)
  {
    ParseInvertsItoa(i);
    DigitsHaveNoLeadingZero(if i < 0 then -i else i);
    if i < 0 {
      assert Itoa(i)[1..] == Digits(-i);
    } else {
      assert Itoa(i)[0] in Itoa(i) && Itoa(i) == Digits(i);
    }
    assert Canonical(Itoa(i));
    if Canonical(s) && ParseDecimal(s) == Some(i) {
      DigitsAreUnique(if s[0] == '-' then s[1..] else s);
      if s[0] == '-' { assert s == "-" + s[1..]; }
    }
  }

  // ---- the conversion int32(x) ----

  /** Go's `int` on the 64-bit platforms the provider is built for. */
  type MachineInt = x: int | -0x8000_0000_0000_0000 <= x < 0x8000_0000_0000_0000

  /** The low 32 bits of x, read as a two's-complement number. */
  function Int32(x: int): (r: int)
    ensures -0x8000_0000 <= r < 0x8000_0000
  {
    var low := x % 0x1_0000_0000;
    if low < 0x8000_0000 then low else low - 0x1_0000_0000
  }

  lemma Int32IsCongruent(x: int)
    ensures (x - Int32(x)) % 0x1_0000_0000 == 0
    ensures Int32(x) == x <==> -0x8000_0000 <= x < 0x8000_0000
  {
  }

  // ---- strings.Replace with a one-character pattern ----

  /** Replaces the first n occurrences of c, or all of them when n is negative. */
  function Replace(s: string, c: char, with: string, n: int): string {
    if s == "" || n == 0 then s
    else if s[0] == c then with + Replace(s[1..], c, with, n - 1)
    else [s[0]] + Replace(s[1..], c, with, n)
  }

  function Without(s: string, c: char): string {
    if s == "" then "" else (if s[0] == c then "" else [s[0]]) + Without(s[1..], c)
  }

  function Count(s: string, c: char): nat {
    if s == "" then 0 else (if s[0] == c then 1 else 0) + Count(s[1..], c)
  }

  /** A bounded removal is a full removal exactly when the bound covers every occurrence. */
  lemma {:induction false} ReplaceRemovesAllIff(s: string, c: char, n: int)
    ensures Replace(s, c, "", n) == Without(s, c) <==> n < 0 || Count(s, c) <= n
    ensures |Replace(s, c, "", n)| >= |Without(s, c)|
    ensures 0 <= n < Count(s, c) ==> |Replace(s, c, "", n)| > |Without(s, c)|
  {
    if s != "" {
      ReplaceRemovesAllIff(s[1..], c, if s[0] == c then n - 1 else n);
      if n == 0 { ReplaceRemovesAllIff(s[1..], c, 0); WithoutIsShorter(s[1..], c); }
    }
  }

  lemma {:induction false} WithoutIsShorter(s: string, c: char)
    ensures |Without(s, c)| == |s| - Count(s, c)
    ensures Count(s, c) == 0 ==> Without(s, c) == s
  {
    if s != "" { WithoutIsShorter(s[1..], c); }
  }

  lemma {:induction false} WithoutDistributes(a: string, b: string, c: char)
    ensures Without(a + b, c) == Without(a, c) + Without(b, c)
  {
    if a == "" {
      assert a + b == b;
    } else {
      assert (a + b)[1..] == a[1..] + b;
      WithoutDistributes(a[1..], b, c);
      var head := if a[0] == c then "" else [a[0]];
      assert Without(a + b, c) == head + (Without(a[1..], c) + Without(b, c));
    }
  }

  lemma {:induction false} CountDistributes(a: string, b: string, c: char)
    ensures Count(a + b, c) == Count(a, c) + Count(b, c)
  {
    if a == "" {
      assert a + b == b;
    } else {
      assert (a + b)[1..] == a[1..] + b;
      CountDistributes(a[1..], b, c);
    }
  }
}
