// What the bridge takes from libraries: addresses and their text, hashing, contract addresses
// and event names. The functions that are not written out here are fields of Chain, and Sound
// lists what is assumed of them.
module Chains {
  import opened Base

  const TWO_160 := 0x1_0000_0000_0000_0000_0000_0000_0000_0000_0000_0000

  // An address of 20 bytes as a number, on the Cosmos and on the Ethereum side.
  type Address = a: nat | a < TWO_160

  // The last nonce that an account can use (EIP-2681).
  const MAX_NONCE := TWO_64 - 1

  datatype Chain = Chain(
    sha256: Bytes -> Bytes,
    // crypto.CreateAddress(ModuleAddress, nonce)
    create: nat -> Address,
    // which hexadecimal digits of an address are capital letters (EIP-55)
    capital: (Address, nat) -> bool,
    // the name of the ERC20 event with this id
    eventName: nat -> Option<string>,
    transferTopic: nat,
    moduleAddress: Address)
  {
    ghost predicate Sound() {
      && (forall x, y :: sha256(x) == sha256(y) ==> x == y)
      && (forall x :: |sha256(x)| > 0)
      && (forall m: nat, n: nat :: m < TWO_64 && n < TWO_64 && create(m) == create(n) ==> m == n)
      && eventName(transferTopic) == Some("Transfer")
      && moduleAddress != 0
    }
  }

  // The assumptions can be met together.
  lemma SoundIsPossible() returns (ch: Chain)
    ensures ch.Sound()
  {
    ch := Chain((x: Bytes) => [0] + x, (n: nat) => if n < TWO_64 then n else 0, (a: Address, i: nat) => false,
                (t: nat) => Some("Transfer"), 0, 1);
    forall x: Bytes, y: Bytes | [0] + x == [0] + y
      ensures x == y
    {
      assert x == ([0] + x)[1..] == ([0] + y)[1..];
    }
  }

  // ---- Hexadecimal text --------------------------------------------------------------

  function Digit(v: nat, capital: bool): byte
    requires v < 16
  {
    if v < 10 then 48 + v else if capital then 55 + v else 87 + v
  }

  function DigitValue(c: byte): Option<nat>
  {
    if 48 <= c <= 57 then Some(c - 48)
    else if 65 <= c <= 70 then Some(c - 55)
    else if 97 <= c <= 102 then Some(c - 87)
    else None
  }

  predicate IsHex(s: Bytes)
  {
    forall i :: 0 <= i < |s| ==> DigitValue(s[i]).Some?
  }

  // The text without a leading 0x or 0X.
  function Strip(s: Bytes): Bytes
  {
    if |s| >= 2 && s[0] == 48 && (s[1] == 120 || s[1] == 88) then s[2..] else s
  }

  // common.IsHexAddress.
  predicate IsHexAddress(s: Bytes)
  {
    |Strip(s)| == 40 && IsHex(Strip(s))
  }

  // The longest prefix of whole digit pairs.
  function Pairs(s: Bytes): (r: Bytes)
    ensures IsHex(r)
  {
    if |s| < 2 || DigitValue(s[0]).None? || DigitValue(s[1]).None? then []
    else [s[0], s[1]] + Pairs(s[2..])
  }

  function Value(s: Bytes): nat
    requires IsHex(s)
  {
    if |s| == 0 then 0 else 16 * Value(s[..|s| - 1]) + DigitValue(s[|s| - 1]).value
  }

  // common.HexToAddress: text of odd length gets a leading zero, malformed text counts up to
  // its first bad pair, and only the last 20 bytes are kept.
  function HexToAddress(s: Bytes): Address
  {
    var digits := Strip(s);
    Value(Pairs(if |digits| % 2 == 1 then [48] + digits else digits)) % TWO_160
  }

  function Digits(ch: Chain, a: Address, v: nat, n: nat): Bytes
  {
    if n == 0 then [] else Digits(ch, a, v / 16, n - 1) + [Digit(v % 16, ch.capital(a, n - 1))]
  }

  // common.Address.String and Hex.
  function Text(ch: Chain, a: Address): Bytes
  {
    [48, 120] + Digits(ch, a, a, 40)
  }

  function Pow16(n: nat): nat
  {
    if n == 0 then 1 else 16 * Pow16(n - 1)
  }

  lemma {:induction false} Pow16Adds(m: nat, n: nat)
    ensures Pow16(m + n) == Pow16(m) * Pow16(n)
  {
    if n > 0 {
      Pow16Adds(m, n - 1);
    }
  }

  lemma {:induction false} DigitsValue(ch: Chain, a: Address, v: nat, n: nat)
    requires v < Pow16(n)
    ensures |Digits(ch, a, v, n)| == n && IsHex(Digits(ch, a, v, n)) && Value(Digits(ch, a, v, n)) == v
  {
    if n > 0 {
      DigitsValue(ch, a, v / 16, n - 1);
      var s := Digits(ch, a, v, n);
      assert s[..n - 1] == Digits(ch, a, v / 16, n - 1);
    }
  }

  lemma {:induction false} PairsOfHex(s: Bytes)
    requires IsHex(s) && |s| % 2 == 0
    ensures Pairs(s) == s
  {
    if |s| >= 2 {
      PairsOfHex(s[2..]);
      assert [s[0], s[1]] + s[2..] == s;
    }
  }

  lemma Pow16Of40()
    ensures Pow16(40) == TWO_160
  {
    assert Pow16(10) == 0x100_0000_0000;
    hide Pow16;
    Pow16Adds(10, 10);
    Pow16Adds(20, 20);
  }

  // The text of an address is a hexadecimal address and reads back as the address, whatever
  // the capital letters.
  lemma TextRoundTrip(ch: Chain, a: Address)
    ensures |Text(ch, a)| == 42 && IsHexAddress(Text(ch, a)) && HexToAddress(Text(ch, a)) == a
  {
    hide Pow16;
    Pow16Of40();
    DigitsValue(ch, a, a, 40);
    var s := Digits(ch, a, a, 40);
    assert Text(ch, a)[2..] == s;
    PairsOfHex(s);
  }

  // A prefix does not matter to 40 digits.
  lemma PrefixDoesNotMatter(digits: Bytes)
    requires |digits| == 40 && IsHex(digits)
    ensures IsHexAddress(digits) && IsHexAddress(Ascii("0x") + digits) && IsHexAddress(Ascii("0X") + digits)
    ensures HexToAddress(digits) == HexToAddress(Ascii("0x") + digits) == HexToAddress(Ascii("0X") + digits)
    ensures HexToAddress(digits) == Value(digits) % TWO_160
  {
    PairsOfHex(digits);
    assert DigitValue(digits[1]).Some?;
    assert (Ascii("0x") + digits)[2..] == digits && (Ascii("0X") + digits)[2..] == digits;
    assert Strip(digits) == digits;
    hide Value, Pairs, IsHex;
  }

  lemma TextInjective(ch: Chain, a: Address, b: Address)
    requires Text(ch, a) == Text(ch, b)
    ensures a == b
  {
    TextRoundTrip(ch, a);
    TextRoundTrip(ch, b);
  }

  // The byte that separates address and denomination in a pair's id.
  const BAR: byte := 124

  lemma NoBarInHexAddress(s: Bytes)
    requires IsHexAddress(s)
    ensures BAR !in s
  {
    forall i | 0 <= i < |s|
      ensures s[i] != BAR
    {
      var k := |s| - |Strip(s)|;
      if i >= k {
        assert s[i] == Strip(s)[i - k];
        assert DigitValue(s[i]).Some?;
      }
    }
  }

  // Texts a|d determine a and d when the address part has no bar.
  lemma BarSeparates(a: Bytes, d: Bytes, a': Bytes, d': Bytes)
    requires BAR !in a && BAR !in a'
    requires a + [BAR] + d == a' + [BAR] + d'
    ensures a == a' && d == d'
  {
    var s := a + [BAR] + d;
    assert s[|a|] == BAR && s[|a'|] == BAR;
    assert forall i :: 0 <= i < |a| ==> s[i] == a[i] && a[i] in a;
    assert forall i :: 0 <= i < |a'| ==> s[i] == a'[i] && a'[i] in a';
    assert a == s[..|a|] && a' == s[..|a'|];
    assert d == s[|a| + 1..] && d' == s[|a'| + 1..];
  }

  // Without that, they do not.
  lemma BarAloneIsAmbiguous()
    ensures var a, d, a', d' := [97, BAR, 98], [99], [97], [98, BAR, 99];
            a + [BAR] + d == a' + [BAR] + d' && a != a'
  {
  }

  // ---- Denominations -----------------------------------------------------------------

  // types.CreateDenom.
  function CreateDenom(address: Bytes): Bytes
  {
    Ascii("intrarelayer/") + address
  }

  // types.CreateDenomDescription.
  function CreateDenomDescription(address: Bytes): Bytes
  {
    Ascii("Cosmos coin token representation of ") + address
  }

  // Denominations that only RegisterERC20 creates.
  predicate IsVoucher(denom: Bytes)
  {
    Ascii("intrarelayer/") <= denom
  }

  function Voucher(ch: Chain, contract: Address): Bytes
  {
    CreateDenom(Text(ch, contract))
  }

  lemma VoucherIsVoucher(ch: Chain, c: Address)
    ensures IsVoucher(Voucher(ch, c)) && !IsHexAddress(Voucher(ch, c)) && |Voucher(ch, c)| == 55
  {
    TextRoundTrip(ch, c);
    assert Voucher(ch, c)[0] == 105;
  }

  lemma VoucherInjective(ch: Chain, a: Address, b: Address)
    requires Voucher(ch, a) == Voucher(ch, b)
    ensures a == b
  {
    assert Text(ch, a) == Voucher(ch, a)[13..];
    assert Text(ch, b) == Voucher(ch, b)[13..];
    TextInjective(ch, a, b);
  }
}
