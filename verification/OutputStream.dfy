/** Printing (common/OutputStream.cc): numbers in a base, and the line buffer in front of the device. */
module Printing {
  import opened Arithmetic

  const UINT64_LIMIT: nat := 0x1_0000_0000_0000_0000
  const INT64_LIMIT: int := 0x8000_0000_0000_0000
  const BUFFER_SIZE: nat := 256

  predicate IsBase(base: nat) {
    base == 2 || base == 8 || base == 10 || base == 16
  }

  // ----- numerals -----

  function DigitChar(d: nat): char
    requires d < 16
  {
    if d < 10 then '0' + d as char else 'a' + (d - 10) as char
  }

  function DigitValue(c: char): nat {
    if '0' <= c <= '9' then (c - '0') as nat else if 'a' <= c <= 'f' then (c - 'a') as nat + 10 else 16
  }

  /** The digits are the usual ones, in order, and a digit's value is its place among them. */
  lemma {:induction false} DigitsAreUsual(d: nat)
    requires d < 16
    ensures DigitChar(d) == "0123456789abcdef"[d] && DigitValue("0123456789abcdef"[d]) == d
  {
    DigitReadsBack(d);
  }

  /** The value of a string of digits. */
  function Parse(s: string, base: nat): nat {
    if s == "" then 0 else Parse(s[..|s| - 1], base) * base + DigitValue(s[|s| - 1])
  }

  predicate Digits(s: string, base: nat) {
    forall i :: 0 <= i < |s| ==> DigitValue(s[i]) < base
  }

  /** s is the number n written in the base, without leading zeros. */
  ghost predicate Denotes(s: string, base: nat, n: nat)
  {
    && s != "" && Parse(s, base) == n
    && Digits(s, base) && (|s| == 1 || s[0] != '0')
  }

  lemma {:induction false} DigitReadsBack(d: nat)
    requires d < 16
    ensures DigitValue(DigitChar(d)) == d && (DigitChar(d) == '0' <==> d == 0)
  {
  }

  lemma {:induction false} ParseAppend(s: string, c: char, base: nat)
    ensures Parse(s + [c], base) == Parse(s, base) * base + DigitValue(c)
  {
    assert (s + [c])[..|s|] == s;
  }

  lemma {:induction false} NotZero(s: string, base: nat)
    requires base >= 2 && s != "" && s[0] != '0' && Digits(s, base)
    ensures Parse(s, base) > 0
  {
    var n := |s| - 1;
    if n > 0 {
      NotZero(s[..n], base);
      Scale(1, Parse(s[..n], base), base);
    }
  }

  lemma {:induction false} LastDigits(s: string, c: char, t: string, d: char, base: nat)
    requires base <= 16 && DigitValue(c) < base && DigitValue(d) < base
    requires Parse(s + [c], base) == Parse(t + [d], base)
    ensures c == d && Parse(s, base) == Parse(t, base)
  {
    ParseAppend(s, c, base);
    ParseAppend(t, d, base);
    SameDigits(Parse(s, base), DigitValue(c), Parse(t, base), DigitValue(d), base);
  }

  /** A number is written in one way only: what a numeral denotes determines it. */
  lemma {:induction false} OneNumeral(s: string, t: string, base: nat, n: nat)
    requires 2 <= base <= 16 && Denotes(s, base, n) && Denotes(t, base, n)
    ensures s == t
  {
    var i, j := |s| - 1, |t| - 1;
    assert s == s[..i] + [s[i]] && t == t[..j] + [t[j]];
    LastDigits(s[..i], s[i], t[..j], t[j], base);
    if i > 0 {
      NotZero(s[..i], base);
    }
    if j > 0 {
      NotZero(t[..j], base);
    }
    if i > 0 && j > 0 {
      OneNumeral(s[..i], t[..j], base, Parse(s[..i], base));
    }
  }

  // ----- the digit loops -----

  function Power(base: nat, k: nat): nat {
    if k == 0 then 1 else Power(base, k - 1) * base
  }

  /** Read from the left: the first digit counts as often as the power of its place says. */
  lemma {:induction false} HighestPlaceFirst(s: string, base: nat)
    requires s != ""
    ensures Parse(s, base) == DigitValue(s[0]) * Power(base, |s| - 1) + Parse(s[1..], base)
  {
    var n := |s| - 1;
    if n == 0 {
      assert s[..n] == "" && s[1..] == "";
    } else {
      HighestPlaceFirst(s[..n], base);
      assert s[..n][1..] == s[1..][..n - 1] && s[1..][n - 1] == s[n];
      ShiftPlaces(DigitValue(s[0]), Power(base, n - 1), Parse(s[1..][..n - 1], base), base);
    }
  }

  lemma {:induction false} ShiftPlaces(digit: nat, power: nat, rest: nat, base: nat)
    ensures (digit * power + rest) * base == digit * (power * base) + rest * base
  {
  }

  lemma {:induction false} PowerPositive(base: nat, k: nat)
    requires base > 0
    ensures Power(base, k) > 0
  {
    if k > 0 {
      PowerPositive(base, k - 1);
      Scale(1, base, Power(base, k - 1));
    }
  }

  /** While another digit is needed, the next power of the base does not exceed the number. */
  lemma {:induction false} NoOverflow(n: nat, div: nat, base: nat)
    requires div > 0 && n / div >= base
    ensures div * base <= n
  {
    DivModParts(n, div);
    Scale(base, n / div, div);
  }

  /** The divisors the printing loop runs through: the powers of the base, and 0 at the end. */
  ghost predicate IsDivisor(base: nat, k: int, div: nat)
  {
    -1 <= k && div == if k < 0 then 0 else Power(base, k)
  }

  lemma {:induction false} EndsBelow(base: nat, k: int)
    requires base > 0 && IsDivisor(base, k, 0)
    ensures k == -1
  {
    if k >= 0 {
      PowerPositive(base, k);
      assert false;
    }
  }

  lemma {:induction false} DivideBack(lower: nat, base: nat)
    requires base >= 2 && lower > 0
    ensures lower * base / base == lower < lower * base
  {
    DivModUnique(lower, 0, base);
    Scale(2, base, lower);
  }

  lemma {:induction false} LowerDivisor(base: nat, k: int, div: nat)
    requires base >= 2 && IsDivisor(base, k, div) && div > 0
    ensures k >= 0 && IsDivisor(base, k - 1, div / base) && div / base < div
    ensures if k == 0 then div / base == 0 && div == 1 else div == div / base * base
  {
    if k == 0 {
      DivModUnique(0, 1, base);
    } else {
      PowerPositive(base, k - 1);
      DivideBack(Power(base, k - 1), base);
    }
  }

  /** Going on with the quotient and the remainder of a division by a divisor that is a base smaller. */
  lemma {:induction false} Regroup(high: nat, digit: nat, rest: nat, div: nat, base: nat)
    requires rest < div && digit * div + rest < div * base
    ensures digit < base
    ensures (high * base + digit) * div + rest == high * (div * base) + (digit * div + rest)
  {
    DigitBelow(digit, rest, div, base);
    Distribute(high, digit, div, base);
  }

  lemma {:induction false} Distribute(high: nat, digit: nat, div: nat, base: nat)
    ensures (high * base + digit) * div == high * (div * base) + digit * div
  {
  }

  /** The printing loop before the digit for `current`; `bigger` is the divisor before that.  What is
      printed so far, times that divisor, and the rest make up the number. */
  ghost predicate Progress(number: nat, base: nat, top: nat, digits: string, ival: nat, k: int, current: nat, bigger: nat)
  {
    && IsDivisor(base, k, current)
    && k <= top && |digits| == top - k && Digits(digits, base)
    && (digits == "" ==> ival == number)
    && (digits != "" ==> top == 0 || digits[0] != '0')
    && (if k < 0 then bigger == 1 else bigger == current * base)
    && number == Parse(digits, base) * bigger + ival && ival < bigger
  }

  lemma {:induction false} NextDigit(number: nat, base: nat, top: nat, digits: string, ival: nat, k: int, current: nat, bigger: nat,
                                        digit: nat, rest: nat, lower: nat)
    requires 2 <= base <= 16 && k >= 0 && current > 0 && Progress(number, base, top, digits, ival, k, current, bigger)
    requires top > 0 ==> Power(base, top) <= number
    requires ival == digit * current + rest && rest < current
    requires IsDivisor(base, k - 1, lower) && (if k == 0 then current == 1 else current == lower * base)
    ensures digit < base
    ensures Progress(number, base, top, digits + [DigitChar(digit)], rest, k - 1, lower, current)
  {
    Regroup(Parse(digits, base), digit, rest, current, base);
    ParseAppend(digits, DigitChar(digit), base);
    DigitReadsBack(digit);
  }

  /** Division, by what makes its result right. */
  method Divide(a: nat, b: nat) returns (quotient: nat, rest: nat)
    requires b > 0
    ensures a == quotient * b + rest && rest < b
  {
    quotient, rest := a / b, a % b;
    DivModParts(a, b);
  }

  /** The divisor of the next digit. */
  method NextDivisor(base: nat, div: nat, ghost k: int) returns (lower: nat)
    requires base >= 2 && IsDivisor(base, k, div) && div > 0
    ensures k >= 0 && IsDivisor(base, k - 1, lower) && lower < div
    ensures if k == 0 then div == 1 else div == lower * base
  {
    LowerDivisor(base, k, div);
    lower := div / base;
  }

  // ----- the stream -----

  class OutputStream {
    var mBase: nat
    const mCharBuffer: array<char>
    var mBufferPosition: nat
    var device: string                  // everything written to the device

    ghost predicate Valid()
      reads this
    {
      mCharBuffer.Length == BUFFER_SIZE && mBufferPosition < BUFFER_SIZE
    }

    /** The characters put so far: those written to the device and those still in the buffer. */
    ghost function Output(): string
      requires Valid()
      reads this, mCharBuffer
    {
      device + mCharBuffer[..mBufferPosition]
    }

    constructor ()
      ensures Valid() && fresh(mCharBuffer) && mBase == 10 && Output() == "" && device == ""
    {
      mBase, mBufferPosition, device := 10, 0, "";
      mCharBuffer := new char[BUFFER_SIZE];
    }

    method Flush()
      requires Valid()
      modifies this`mBufferPosition, this`device
      ensures Valid() && Output() == old(Output()) && device == Output()
    {
      device := device + mCharBuffer[..mBufferPosition];
      mBufferPosition := 0;
    }

    /** Adds one character.  The device gets everything up to it at the end of a line or when the
        buffer is full, and nothing otherwise. */
    method Putc(c: char)
      requires Valid()
      modifies this`mBufferPosition, this`device, mCharBuffer
      ensures Valid() && Output() == old(Output()) + [c]
      ensures device == if c == '\n' || old(mBufferPosition) == BUFFER_SIZE - 1 then Output() else old(device)
    {
      mCharBuffer[mBufferPosition] := c;
      mBufferPosition := mBufferPosition + 1;
      if mBufferPosition == BUFFER_SIZE || c == '\n' {
        device := device + mCharBuffer[..mBufferPosition];
        mBufferPosition := 0;
      }
    }

    method PrintString(s: string)
      requires Valid()
      modifies this`mBufferPosition, this`device, mCharBuffer
      ensures Valid() && Output() == old(Output()) + s
    {
      for i := 0 to |s|
        invariant Valid() && Output() == old(Output()) + s[..i]
      {
        Putc(s[i]);
      }
    }

    /** The biggest power of the base that is not above the number.  It is found without a product
        that leaves 64 bits. */
    method FindDivisor(number: nat, base: nat) returns (div: nat, ghost k: nat)
      requires 2 <= base <= 16 && number < UINT64_LIMIT
      ensures div == Power(base, k) && 0 < div < UINT64_LIMIT && number < div * base
      ensures k > 0 ==> div <= number
    {
      div, k := 1, 0;
      while number / div >= base
        invariant div == Power(base, k) && 0 < div < UINT64_LIMIT
        invariant k > 0 ==> div <= number
        decreases UINT64_LIMIT - div
      {
        NoOverflow(number, div, base);
        Scale(2, base, div);
        div := div * base;
        k := k + 1;
      }
      DivModParts(number, div);
      RowsBelow(number / div, number % div, div, base);
    }

    /** The digits, from the left. */
    method PrintDigits(number: nat, div: nat, ghost top: nat) returns (ghost digits: string)
      requires Valid() && 2 <= mBase <= 16
      requires div == Power(mBase, top) > 0 && number < div * mBase && (top > 0 ==> div <= number)
      modifies this`mBufferPosition, this`device, mCharBuffer
      ensures Valid() && Output() == old(Output()) + digits && Denotes(digits, mBase, number)
    {
      var base: nat, current: nat, ival: nat := mBase, div, number;
      ghost var k: int, bigger: nat := top, div * base;
      digits := "";
      while current > 0
        invariant Valid() && Output() == old(Output()) + digits
        invariant Progress(number, base, top, digits, ival, k, current, bigger)
        decreases current
      {
        var digit, rest := Divide(ival, current);
        var lower := NextDivisor(base, current, k);
        NextDigit(number, base, top, digits, ival, k, current, bigger, digit, rest, lower);
        Putc(DigitChar(digit));
        digits := digits + [DigitChar(digit)];
        bigger, k := current, k - 1;
        ival, current := rest, lower;
      }
      EndsBelow(base, k);
    }

    /** Prints a 64-bit number in the current base. */
    method PrintUnsigned(number: nat) returns (ghost digits: string)
      requires Valid() && IsBase(mBase) && number < UINT64_LIMIT
      modifies this`mBufferPosition, this`device, mCharBuffer
      ensures Valid() && Denotes(digits, mBase, number)
      ensures mBase == 2 || mBase == 10 ==> Output() == old(Output()) + digits
      ensures mBase == 8 ==> Output() == old(Output()) + "0" + digits
      ensures mBase == 16 ==> Output() == old(Output()) + "0x" + digits
    {
      if mBase == 8 {
        Putc('0');
      } else if mBase == 16 {
        Putc('0');
        Putc('x');
      }
      assert Output() == old(Output()) + if mBase == 8 then "0" else if mBase == 16 then "0x" else "";
      var div, top := FindDivisor(number, mBase);
      digits := PrintDigits(number, div, top);
    }

    /** Prints a signed number: a minus sign and the magnitude.  Negation wraps for the smallest number,
        and the conversion to unsigned makes that right again. */
    method PrintSigned(number: int) returns (ghost digits: string)
      requires Valid() && IsBase(mBase) && -INT64_LIMIT <= number < INT64_LIMIT
      modifies this`mBufferPosition, this`device, mCharBuffer
      ensures Valid() && Denotes(digits, mBase, if number < 0 then -number else number)
      ensures mBase == 2 || mBase == 10 ==> Output() == old(Output()) + (if number < 0 then "-" else "") + digits
      ensures mBase == 8 ==> Output() == old(Output()) + (if number < 0 then "-0" else "0") + digits
      ensures mBase == 16 ==> Output() == old(Output()) + (if number < 0 then "-0x" else "0x") + digits
    {
      var ival := number;
      if ival < 0 {
        Putc('-');
        ival := if ival == -INT64_LIMIT then ival else -ival;
      }
      digits := PrintUnsigned(if ival < 0 then ival + UINT64_LIMIT else ival);
    }

    /** Prints an address in base 16 and goes back to the base set before. */
    method PrintPointer(address: nat) returns (ghost digits: string)
      requires Valid() && address < UINT64_LIMIT
      modifies this, mCharBuffer
      ensures Valid() && mBase == old(mBase)
      ensures Output() == old(Output()) + "0x" + digits && Denotes(digits, 16, address)
    {
      var oldbase := mBase;
      mBase := 16;
      digits := PrintUnsigned(address);
      mBase := oldbase;
    }
  }
}
