/** Strings as the token file uses them: their order, ASCII case, and hexadecimal addresses. */
module Text {
  import opened Wire

  /** Rust's string order; comparing UTF-8 bytes is comparing code points. */
  predicate Less(a: string, b: string) {
    |b| > 0 && (|a| == 0 || a[0] < b[0] || (a[0] == b[0] && Less(a[1..], b[1..])))
  }

  lemma {:induction false} LessIsIrreflexive(a: string)
    ensures !Less(a, a)
  {
    if a != "" {
      LessIsIrreflexive(a[1..]);
    }
  }

  lemma {:induction false} LessIsTransitive(a: string, b: string, c: string)
    requires Less(a, b) && Less(b, c)
    ensures Less(a, c)
  {
    if a != "" && a[0] == b[0] && b[0] == c[0] {
      LessIsTransitive(a[1..], b[1..], c[1..]);
    }
  }

  lemma {:induction false} LessIsTotal(a: string, b: string)
    ensures a == b || Less(a, b) || Less(b, a)
  {
    if a != "" && b != "" && a[0] == b[0] {
      LessIsTotal(a[1..], b[1..]);
      assert a == [a[0]] + a[1..] && b == [b[0]] + b[1..];
    }
  }

  predicate Ascending(s: seq<string>) {
    forall i, j :: 0 <= i < j < |s| ==> Less(s[i], s[j])
  }

  /** An ascending list is determined by its elements. */
  lemma {:induction false} AscendingIsUnique(a: seq<string>, b: seq<string>)
    requires Ascending(a) && Ascending(b)
    requires forall x :: x in a <==> x in b
    ensures a == b
  {
    assert |a| > 0 ==> a[0] in b;
    assert |b| > 0 ==> b[0] in a;
    if a != [] && b != [] {
      HeadIsLeast(a, b);
      HeadIsLeast(b, a);
      if a[0] != b[0] {
        LessIsTransitive(a[0], b[0], a[0]);
        LessIsIrreflexive(a[0]);
      }
      TailHasTheRest(a);
      TailHasTheRest(b);
      AscendingIsUnique(a[1..], b[1..]);
      assert a == [a[0]] + a[1..] && b == [b[0]] + b[1..];
    }
  }

  lemma HeadIsLeast(a: seq<string>, b: seq<string>)
    requires Ascending(a) && |a| > 0 && |b| > 0 && b[0] in a
    ensures a[0] == b[0] || Less(a[0], b[0])
  {
  }

  lemma TailHasTheRest(a: seq<string>)
    requires Ascending(a) && |a| > 0
    ensures forall x :: x in a[1..] <==> x in a && x != a[0]
  {
    forall x
      ensures x in a[1..] <==> x in a && x != a[0]
    {
      if x in a[1..] {
        var i :| 0 < i < |a| && a[i] == x;
        LessIsIrreflexive(x);
      }
    }
  }

  function LowerChar(c: char): char {
    if 'A' <= c <= 'Z' then (c as int + 32) as char else c
  }

  function Lower(s: string): string {
    seq(|s|, i requires 0 <= i < |s| => LowerChar(s[i]))
  }

  function HexDigit(c: char): Option<nat> {
    if '0' <= c <= '9' then Some(c as int - '0' as int)
    else if 'a' <= c <= 'f' then Some(c as int - 'a' as int + 10)
    else if 'A' <= c <= 'F' then Some(c as int - 'A' as int + 10)
    else None
  }

  function Pow16(n: nat): nat {
    if n == 0 then 1 else 16 * Pow16(n - 1)
  }

  function ParseHex(s: string): (r: Option<nat>)
    ensures r.Some? ==> r.value < Pow16(|s|)
  {
    if s == "" then Some(0)
    else
      var front, digit := ParseHex(s[..|s| - 1]), HexDigit(s[|s| - 1]);
      if front.Some? && digit.Some? then Some(16 * front.value + digit.value) else None
  }

  lemma {:induction false} Pow16Sum(a: nat, b: nat)
    ensures Pow16(a + b) == Pow16(a) * Pow16(b)
  {
    if a > 0 {
      Pow16Sum(a - 1, b);
      assert Pow16(a) == 16 * Pow16(a - 1) && Pow16(a + b) == 16 * Pow16(a - 1 + b);
    }
  }

  lemma FortyDigits()
    ensures Pow16(40) == 0x1_0000000000_0000000000_0000000000_0000000000
  {
    assert Pow16(5) == 0x10_0000;
    Pow16Sum(5, 5);
    Pow16Sum(10, 10);
    Pow16Sum(20, 20);
  }

  /** `Address::from_str`: 40 hexadecimal digits of either case, with or without `0x`. */
  function ParseAddress(s: string): Option<Address> {
    var digits := if |s| >= 2 && s[..2] == "0x" then s[2..] else s;
    if |digits| == 40 then
      FortyDigits();
      match ParseHex(digits)
      case Some(n) => Some(n)
      case None => None
    else
      None
  }

  lemma {:induction false} HexIgnoresCase(a: string, b: string)
    requires |a| == |b| && ParseHex(a).Some? && ParseHex(b).Some?
    requires forall i :: 0 <= i < |a| ==> LowerChar(a[i]) == LowerChar(b[i])
    ensures ParseHex(a) == ParseHex(b)
  {
    if a != "" {
      var n := |a| - 1;
      HexIgnoresCase(a[..n], b[..n]);
      assert HexDigit(a[n]) == HexDigit(b[n]) by {
        assert LowerChar(a[n]) == LowerChar(b[n]);
      }
    }
  }

  /** Two spellings of an address that differ only in case are the same address. */
  lemma AddressIgnoresCase(a: string, b: string)
    requires ParseAddress(a).Some? && ParseAddress(b).Some?
    requires Lower(a) == Lower(b)
    ensures ParseAddress(a) == ParseAddress(b)
  {
    assert |Lower(a)| == |a| && |Lower(b)| == |b|;
    forall i | 0 <= i < |a|
      ensures LowerChar(a[i]) == LowerChar(b[i])
    {
      assert Lower(a)[i] == LowerChar(a[i]) && Lower(b)[i] == LowerChar(b[i]);
    }
    if |a| == 40 {
      HexIgnoresCase(a, b);
    } else {
      HexIgnoresCase(a[2..], b[2..]);
    }
  }

  // ---- what parsing and folding come to ------------------------------------------------

  const DIGITS := "0123456789abcdef"

  /** `n` in `width` hexadecimal digits. */
  function ToHex(n: nat, width: nat): (s: string)
    ensures |s| == width
  {
    if width == 0 then "" else ToHex(n / 16, width - 1) + [DIGITS[n % 16]]
  }

  lemma DigitsAreRead(n: nat)
    requires n < 16
    ensures HexDigit(DIGITS[n]) == Some(n)
  {
  }

  /** What is written in hexadecimal is read back. */
  lemma {:induction false} HexRoundTrip(n: nat, width: nat)
    requires n < Pow16(width)
    ensures ParseHex(ToHex(n, width)) == Some(n)
  {
    if width > 0 {
      HexRoundTrip(n / 16, width - 1);
      DigitsAreRead(n % 16);
      assert ToHex(n, width)[..width - 1] == ToHex(n / 16, width - 1);
    }
  }

  predicate IsHexDigit(c: char) {
    '0' <= c <= '9' || 'a' <= c <= 'f' || 'A' <= c <= 'F'
  }

  lemma {:induction false} HexParsesExactlyWhen(s: string)
    ensures ParseHex(s).Some? <==> forall i :: 0 <= i < |s| ==> IsHexDigit(s[i])
  {
    if s != "" {
      HexParsesExactlyWhen(s[..|s| - 1]);
      assert forall i :: 0 <= i < |s| - 1 ==> s[..|s| - 1][i] == s[i];
      assert HexDigit(s[|s| - 1]).Some? <==> IsHexDigit(s[|s| - 1]);
    }
  }

  predicate AllHex(s: string) {
    forall i :: 0 <= i < |s| ==> IsHexDigit(s[i])
  }

  /** An address parses exactly when it is forty hexadecimal digits, with or without `0x`. */
  lemma AddressParsesExactlyWhen(s: string)
    ensures ParseAddress(s).Some? <==>
              || (|s| == 40 && AllHex(s))
              || (|s| == 42 && s[0] == '0' && s[1] == 'x' && AllHex(s[2..]))
  {
    var prefixed := |s| >= 2 && s[0] == '0' && s[1] == 'x';
    assert prefixed <==> |s| >= 2 && s[..2] == "0x" by {
      if |s| >= 2 && s[..2] == "0x" {
        assert s[0] == s[..2][0] && s[1] == s[..2][1];
      }
    }
    var digits := if prefixed then s[2..] else s;
    HexParsesExactlyWhen(digits);
    hide ParseHex, IsHexDigit;
    assert ParseAddress(s).Some? <==> |digits| == 40 && AllHex(digits);
    if prefixed {
      NotAllHex(s);
    }
  }

  lemma NotAllHex(s: string)
    requires |s| >= 2 && s[1] == 'x'
    ensures !AllHex(s)
  {
    assert !IsHexDigit(s[1]);
  }

  /** Every address is read back from its digits, bare or prefixed. */
  lemma AddressRoundTrip(a: Address)
    ensures ParseAddress(ToHex(a, 40)) == Some(a) && ParseAddress("0x" + ToHex(a, 40)) == Some(a)
  {
    FortyDigits();
    HexRoundTrip(a, 40);
    var s, t := ToHex(a, 40), "0x" + ToHex(a, 40);
    assert t[..2] == "0x" && t[2..] == s;
    HexParsesExactlyWhen(s);
    assert IsHexDigit(s[1]) && s[..2][1] == s[1];
  }

  /** The same character, but for the case of a letter A to Z. */
  predicate SameLetter(c: char, e: char) {
    c == e || ('A' <= c <= 'Z' && e as int == c as int + 32) || ('A' <= e <= 'Z' && c as int == e as int + 32)
  }

  predicate SameButCase(a: string, b: string) {
    |a| == |b| && forall i :: 0 <= i < |a| ==> SameLetter(a[i], b[i])
  }

  /** Folding forgets the case of A to Z, and nothing else. */
  lemma LowerForgetsCase(a: string, b: string)
    ensures Lower(a) == Lower(b) <==> SameButCase(a, b)
  {
    assert |Lower(a)| == |a| && |Lower(b)| == |b|;
    if SameButCase(a, b) {
      assert forall i :: 0 <= i < |a| ==> SameLetter(a[i], b[i]) && LowerChar(a[i]) == LowerChar(b[i]);
    } else if Lower(a) == Lower(b) {
      forall i | 0 <= i < |a|
        ensures SameLetter(a[i], b[i])
      {
        assert Lower(a)[i] == LowerChar(a[i]) && Lower(b)[i] == LowerChar(b[i]);
      }
    }
  }

  /** The order of strings: at the first difference the smaller character, or the end, comes first. */
  lemma {:induction false} LessAtFirstDifference(a: string, b: string, k: nat)
    requires k <= |a| && k <= |b| && a[..k] == b[..k]
    requires (k == |a| < |b|) || (k < |a| && k < |b| && a[k] < b[k])
    ensures Less(a, b) && !Less(b, a)
  {
    if k > 0 {
      assert a[0] == a[..k][0] && b[0] == b[..k][0];
      assert a[1..][..k - 1] == a[..k][1..] && b[1..][..k - 1] == b[..k][1..];
      LessAtFirstDifference(a[1..], b[1..], k - 1);
    }
  }
}
