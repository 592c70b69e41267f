/**
 * The small utilities the page uses: the hex colour codec, `clamp`, `lerp`,
 * the branch selection of `formatNumber`, and the closure state of
 * `throttle` and `debounce` (timer expiry is an explicit event).
 */
module Helpers {

  datatype Option<T> = None | Some(value: T)

  // ---------------------------------------------------------------------
  // Hex colour codec
  // ---------------------------------------------------------------------

  datatype Rgb = Rgb(r: nat, g: nat, b: nat)

  /** A character matched by `[a-f\d]` under the `i` flag. */
  predicate IsHexDigit(c: char) {
    ('0' <= c <= '9') || ('a' <= c <= 'f') || ('A' <= c <= 'F')
  }

  predicate IsLowerHexDigit(c: char) {
    ('0' <= c <= '9') || ('a' <= c <= 'f')
  }

  predicate AllHex(s: string) {
    forall i :: 0 <= i < |s| ==> IsHexDigit(s[i])
  }

  /** The strings the pattern `^#?([a-f\d]{2})([a-f\d]{2})([a-f\d]{2})$` accepts. */
  predicate IsHexColour(s: string) {
    (|s| == 6 && AllHex(s)) || (|s| == 7 && s[0] == '#' && AllHex(s[1..]))
  }

  /** `parseInt(c, 16)` of one hex digit. */
  function HexValue(c: char): (v: nat)
    requires IsHexDigit(c)
    ensures v < 16
  {
    if '0' <= c <= '9' then (c as int) - ('0' as int)
    else if 'a' <= c <= 'f' then (c as int) - ('a' as int) + 10
    else (c as int) - ('A' as int) + 10
  }

  /** The lower-case digit for a value below 16. */
  function HexChar(v: nat): (c: char)
    requires v < 16
    ensures IsLowerHexDigit(c)
  {
    if v < 10 then (('0' as int) + v) as char else (('a' as int) + v - 10) as char
  }

  /** The digits the pattern's groups see: one leading `#` is optional. */
  function Body(s: string): string {
    if |s| > 0 && s[0] == '#' then s[1..] else s
  }

  /** `hexToRgb`: null unless the whole string is an optional `#` and six hex digits. */
  function HexToRgb(hex: string): (c: Option<Rgb>)
    ensures c.Some? ==> c.value.r < 256 && c.value.g < 256 && c.value.b < 256
  {
    var d := Body(hex);
    if |d| == 6 && AllHex(d) then
      Some(Rgb(16 * HexValue(d[0]) + HexValue(d[1]),
               16 * HexValue(d[2]) + HexValue(d[3]),
               16 * HexValue(d[4]) + HexValue(d[5])))
    else None
  }

  /** `hexToRgb` accepts exactly an optional `#` followed by six hex digits. */
  lemma HexToRgbAccepts(hex: string)
    ensures HexToRgb(hex).Some? <==> IsHexColour(hex)
  {
    if |hex| == 7 && hex[0] == '#' {
      assert Body(hex) == hex[1..];
    }
  }

  /** ECMAScript ToInt32: wrap an integer into the signed 32-bit range. */
  function ToInt32(x: int): (r: int)
    ensures -0x8000_0000 <= r < 0x8000_0000
    ensures (r - x) % 0x1_0000_0000 == 0
  {
    var m := x % 0x1_0000_0000;
    if m >= 0x8000_0000 then m - 0x1_0000_0000 else m
  }

  /** `Number.prototype.toString(16)` of a non-negative integer. */
  function HexNat(n: nat): (s: string)
    ensures |s| >= 1
    decreases n
  {
    if n < 16 then [HexChar(n)] else HexNat(n / 16) + [HexChar(n % 16)]
  }

  /** `Number.prototype.toString(16)` of any integer. */
  function HexInt(n: int): string {
    if n < 0 then "-" + HexNat(-n) else HexNat(n)
  }

  /** `String.prototype.slice(1)`. */
  function DropFirst(s: string): string {
    if |s| == 0 then s else s[1..]
  }

  /**
   * `rgbToHex` on integer channels: `(1 << 24) + (r << 16) + (g << 8) + b`,
   * with JavaScript's 32-bit shifts, printed in base 16 without its first digit.
   */
  function RgbToHex(r: int, g: int, b: int): (s: string)
    ensures 0 <= r < 256 && 0 <= g < 256 && 0 <= b < 256 ==>
              |s| == 7 && s[0] == '#' && forall i :: 1 <= i < 7 ==> IsLowerHexDigit(s[i])
  {
    var s := "#" + DropFirst(HexInt(ChannelSum(r, g, b)));
    assert 0 <= r < 256 && 0 <= g < 256 && 0 <= b < 256 ==> s == "#" + Pad2(r) + Pad2(g) + Pad2(b) by {
      if 0 <= r < 256 && 0 <= g < 256 && 0 <= b < 256 {
        RgbToHexDigits(r, g, b);
      }
    }
    s
  }

  /** `(1 << 24) + (r << 16) + (g << 8) + b` with 32-bit shifts. */
  function ChannelSum(r: int, g: int, b: int): int {
    0x100_0000 + ToInt32(r * 0x1_0000) + ToInt32(g * 0x100) + b
  }

  /** Two zero-padded lower-case digits of a channel value. */
  function Pad2(v: nat): string
    requires v < 256
  {
    [HexChar(v / 16), HexChar(v % 16)]
  }

  lemma {:induction false} HexNatPush(n: nat, d: nat)
    requires n >= 1 && d < 16
    ensures HexNat(n * 16 + d) == HexNat(n) + [HexChar(d)]
  {
    assert (n * 16 + d) / 16 == n;
    assert (n * 16 + d) % 16 == d;
  }

  lemma ToInt32Small(x: int)
    requires 0 <= x < 0x8000_0000
    ensures ToInt32(x) == x
  {
    assert x % 0x1_0000_0000 == x;
  }

  /** The two digits of a channel, as a value below 256 splits. */
  lemma SplitChannel(v: nat)
    requires v < 256
    ensures v == (v / 16) * 16 + v % 16 && v / 16 < 16 && v % 16 < 16
    ensures Pad2(v) == [HexChar(v / 16)] + [HexChar(v % 16)]
  {
  }

  /** Seven hex digits whose first is `1`, built one digit at a time. */
  lemma {:induction false} HexSeven(d1: nat, d2: nat, d3: nat, d4: nat, d5: nat, d6: nat)
    requires d1 < 16 && d2 < 16 && d3 < 16 && d4 < 16 && d5 < 16 && d6 < 16
    ensures HexNat(((((16 + d1) * 16 + d2) * 16 + d3) * 16 + d4) * 16 * 16 + d5 * 16 + d6)
            == ['1', HexChar(d1), HexChar(d2), HexChar(d3), HexChar(d4), HexChar(d5), HexChar(d6)]
  {
    var c1, c2, c3, c4, c5, c6 := HexChar(d1), HexChar(d2), HexChar(d3), HexChar(d4), HexChar(d5), HexChar(d6);
    var n1 := 16 + d1;
    HexNatPush(1, d1);
    assert HexNat(n1) == ['1', c1];
    var n2 := n1 * 16 + d2;
    HexNatPush(n1, d2);
    assert HexNat(n2) == ['1', c1, c2];
    var n3 := n2 * 16 + d3;
    HexNatPush(n2, d3);
    assert HexNat(n3) == ['1', c1, c2, c3];
    var n4 := n3 * 16 + d4;
    HexNatPush(n3, d4);
    assert HexNat(n4) == ['1', c1, c2, c3, c4];
    var n5 := n4 * 16 + d5;
    HexNatPush(n4, d5);
    assert HexNat(n5) == ['1', c1, c2, c3, c4, c5];
    var n6 := n5 * 16 + d6;
    HexNatPush(n5, d6);
    assert HexNat(n6) == ['1', c1, c2, c3, c4, c5, c6];
    assert n6 == ((((16 + d1) * 16 + d2) * 16 + d3) * 16 + d4) * 16 * 16 + d5 * 16 + d6;
  }

  /** For channels in range the sum has seven hex digits, the first being `1`. */
  lemma RgbToHexDigits(r: int, g: int, b: int)
    requires 0 <= r < 256 && 0 <= g < 256 && 0 <= b < 256
    ensures "#" + DropFirst(HexInt(ChannelSum(r, g, b))) == "#" + Pad2(r) + Pad2(g) + Pad2(b)
  {
    ToInt32Small(r * 0x1_0000);
    ToInt32Small(g * 0x100);
    SplitChannel(r); SplitChannel(g); SplitChannel(b);
    var r1, r0, g1, g0, b1, b0 := r / 16, r % 16, g / 16, g % 16, b / 16, b % 16;
    HexSeven(r1, r0, g1, g0, b1, b0);
    var n := ChannelSum(r, g, b);
    assert n == ((((16 + r1) * 16 + r0) * 16 + g1) * 16 + g0) * 16 * 16 + b1 * 16 + b0;
    var digits := [HexChar(r1), HexChar(r0), HexChar(g1), HexChar(g0), HexChar(b1), HexChar(b0)];
    assert HexNat(n) == ['1'] + digits;
    assert HexInt(n) == ['1'] + digits;
    assert DropFirst(HexInt(n)) == digits;
    assert digits == Pad2(r) + Pad2(g) + Pad2(b);
    assert "#" + DropFirst(HexInt(n)) == "#" + digits;
  }

  lemma HexCharValue(v: nat)
    requires v < 16
    ensures IsHexDigit(HexChar(v)) && HexValue(HexChar(v)) == v
  {
  }

  /** Round trip: every in-range colour comes back from its hex string. */
  lemma {:induction false} HexRoundTrip(r: int, g: int, b: int)
    requires 0 <= r < 256 && 0 <= g < 256 && 0 <= b < 256
    ensures HexToRgb(RgbToHex(r, g, b)) == Some(Rgb(r, g, b))
  {
    RgbToHexDigits(r, g, b);
    ChannelValue(r); ChannelValue(g); ChannelValue(b);
    var d := Pad2(r) + Pad2(g) + Pad2(b);
    var s := RgbToHex(r, g, b);
    assert s == "#" + d;
    assert Body(s) == d;
    assert AllHex(d);
  }

  /** The two printed digits of a channel parse back to it. */
  lemma ChannelValue(v: nat)
    requires v < 256
    ensures |Pad2(v)| == 2 && IsHexDigit(Pad2(v)[0]) && IsHexDigit(Pad2(v)[1])
    ensures 16 * HexValue(Pad2(v)[0]) + HexValue(Pad2(v)[1]) == v
  {
    HexCharValue(v / 16);
    HexCharValue(v % 16);
  }

  /** `A`-`F` to `a`-`f`; every other character unchanged. */
  function LowerHex(c: char): char {
    if 'A' <= c <= 'F' then ((c as int) + 32) as char else c
  }

  function LowerAll(s: string): (t: string)
    ensures |t| == |s|
    ensures forall i :: 0 <= i < |s| ==> t[i] == LowerHex(s[i])
  {
    seq(|s|, i requires 0 <= i < |s| => LowerHex(s[i]))
  }

  /** The channel value of two hex digits prints back as those digits in lower case. */
  lemma ChannelDigits(hi: char, lo: char)
    requires IsHexDigit(hi) && IsHexDigit(lo)
    ensures 16 * HexValue(hi) + HexValue(lo) < 256
    ensures Pad2(16 * HexValue(hi) + HexValue(lo)) == [LowerHex(hi), LowerHex(lo)]
  {
    var v := 16 * HexValue(hi) + HexValue(lo);
    assert v / 16 == HexValue(hi) && v % 16 == HexValue(lo);
  }

  /** Reverse round trip: a valid string comes back as `#` and its digits in lower case. */
  lemma {:induction false} HexReverseRoundTrip(s: string)
    requires IsHexColour(s)
    ensures HexToRgb(s).Some?
    ensures var c := HexToRgb(s).value; RgbToHex(c.r, c.g, c.b) == "#" + LowerAll(Body(s))
  {
    HexToRgbAccepts(s);
    var d := Body(s);
    var c := HexToRgb(s).value;
    DigitsPrintBack(d);
    PrintedChannels(c.r, c.g, c.b);
  }

  /** For channels in range `rgbToHex` is `#` and the three padded channels. */
  lemma PrintedChannels(r: int, g: int, b: int)
    requires 0 <= r < 256 && 0 <= g < 256 && 0 <= b < 256
    ensures RgbToHex(r, g, b) == "#" + Pad2(r) + Pad2(g) + Pad2(b)
  {
    RgbToHexDigits(r, g, b);
    assert "#" + Pad2(r) + Pad2(g) + Pad2(b) == "#" + (Pad2(r) + Pad2(g) + Pad2(b));
  }

  /** Six hex digits, parsed into channels and padded again, are the digits in lower case. */
  lemma DigitsPrintBack(d: string)
    requires |d| == 6 && AllHex(d)
    ensures 16 * HexValue(d[0]) + HexValue(d[1]) < 256
    ensures 16 * HexValue(d[2]) + HexValue(d[3]) < 256
    ensures 16 * HexValue(d[4]) + HexValue(d[5]) < 256
    ensures Pad2(16 * HexValue(d[0]) + HexValue(d[1])) + Pad2(16 * HexValue(d[2]) + HexValue(d[3]))
            + Pad2(16 * HexValue(d[4]) + HexValue(d[5])) == LowerAll(d)
  {
    assert IsHexDigit(d[0]) && IsHexDigit(d[1]) && IsHexDigit(d[2]);
    assert IsHexDigit(d[3]) && IsHexDigit(d[4]) && IsHexDigit(d[5]);
    ChannelDigits(d[0], d[1]);
    ChannelDigits(d[2], d[3]);
    ChannelDigits(d[4], d[5]);
    JoinPairs([LowerHex(d[0]), LowerHex(d[1])], [LowerHex(d[2]), LowerHex(d[3])], [LowerHex(d[4]), LowerHex(d[5])]);
    LowerSix(d);
  }

  lemma JoinPairs(a: string, b: string, c: string)
    requires |a| == 2 && |b| == 2 && |c| == 2
    ensures a + b + c == [a[0], a[1], b[0], b[1], c[0], c[1]]
  {
  }

  lemma LowerSix(d: string)
    requires |d| == 6
    ensures LowerAll(d) == [LowerHex(d[0]), LowerHex(d[1]), LowerHex(d[2]), LowerHex(d[3]), LowerHex(d[4]), LowerHex(d[5])]
  {
    var t := LowerAll(d);
    assert t[0] == LowerHex(d[0]) && t[1] == LowerHex(d[1]) && t[2] == LowerHex(d[2]);
    assert t[3] == LowerHex(d[3]) && t[4] == LowerHex(d[4]) && t[5] == LowerHex(d[5]);
  }

  /** The three-digit shorthand is refused. */
  lemma ShorthandRefused(s: string)
    requires |s| == 4 && s[0] == '#'
    ensures HexToRgb(s) == None
  {
  }

  // ---------------------------------------------------------------------
  // clamp, lerp, formatNumber
  // ---------------------------------------------------------------------

  function Min(a: real, b: real): real { if a <= b then a else b }
  function Max(a: real, b: real): real { if a >= b then a else b }

  /** `Math.min(Math.max(value, min), max)`. */
  function Clamp(value: real, min: real, max: real): (r: real)
    ensures min <= max ==> min <= r <= max
    ensures min <= value <= max ==> r == value
    ensures value < min && min <= max ==> r == min
    ensures max < value ==> r == max
  {
    Min(Max(value, min), max)
  }

  /** `start + (end - start) * factor`. */
  function Lerp(start: real, end: real, factor: real): (r: real)
    ensures factor == 0.0 ==> r == start
    ensures factor == 1.0 ==> r == end
    ensures start <= end && 0.0 <= factor <= 1.0 ==> start <= r <= end
    ensures end <= start && 0.0 <= factor <= 1.0 ==> end <= r <= start
  {
    start + Scaled(end - start, factor)
  }

  /** `a * f`, with what the interpolation needs of it. */
  function Scaled(a: real, f: real): (p: real)
    ensures f == 0.0 ==> p == 0.0
    ensures f == 1.0 ==> p == a
    ensures a >= 0.0 && 0.0 <= f <= 1.0 ==> 0.0 <= p <= a
    ensures a <= 0.0 && 0.0 <= f <= 1.0 ==> a <= p <= 0.0
  {
    assert 0.0 <= f <= 1.0 ==> (a >= 0.0 ==> a * (1.0 - f) >= 0.0) && (a <= 0.0 ==> (-a) * (1.0 - f) >= 0.0) by {
      if 0.0 <= f <= 1.0 && a >= 0.0 {
        NonNegativeProduct(a, 1.0 - f);
      } else if 0.0 <= f <= 1.0 {
        NonNegativeProduct(-a, 1.0 - f);
      }
    }
    a * f
  }

  lemma NonNegativeProduct(a: real, b: real)
    requires a >= 0.0 && b >= 0.0
    ensures a * b >= 0.0
  {
  }

  /** Which branch of `formatNumber` renders a number; the `toFixed(1)` digits are not modelled. */
  datatype NumberFormat = Millions(scaled: real) | Thousands(scaled: real) | Plain(value: real)

  function FormatNumber(num: real): (f: NumberFormat)
    ensures f.Millions? <==> num >= 1000000.0
    ensures f.Thousands? <==> 1000.0 <= num < 1000000.0
    ensures f.Plain? <==> num < 1000.0
    ensures f.Millions? ==> f.scaled >= 1.0 && f.scaled * 1000000.0 == num
    ensures f.Thousands? ==> 1.0 <= f.scaled < 1000.0 && f.scaled * 1000.0 == num
    ensures f.Plain? ==> f.value == num
  {
    if num >= 1000000.0 then Millions(num / 1000000.0)
    else if num >= 1000.0 then Thousands(num / 1000.0)
    else Plain(num)
  }

  // ---------------------------------------------------------------------
  // throttle and debounce: the closure state, with expiry as an event
  // ---------------------------------------------------------------------

  /** The wrapper `throttle(func, limit)` returns; `calls` lists the arguments `func` ran with. */
  class Throttle<A> {
    var inThrottle: bool
    var pendingTimers: nat
    var calls: seq<A>

    /** At most one timer is pending, exactly while throttled. */
    ghost predicate Valid()
      reads this
    {
      pendingTimers == if inThrottle then 1 else 0
    }

    constructor ()
      ensures Valid() && !inThrottle && calls == []
    {
      inThrottle := false;
      pendingTimers := 0;
      calls := [];
    }

    /** A call of the wrapper. */
    method Call(args: A)
      requires Valid()
      modifies this
      ensures Valid() && inThrottle
      ensures calls == if old(inThrottle) then old(calls) else old(calls) + [args]
    {
      if !inThrottle {
        calls := calls + [args];
        inThrottle := true;
        pendingTimers := pendingTimers + 1;
      }
    }

    /** The `limit` timer fires; this is the only way out of the throttled state. */
    method Expire()
      requires Valid() && pendingTimers > 0
      modifies this
      ensures Valid() && !inThrottle && calls == old(calls)
    {
      pendingTimers := pendingTimers - 1;
      inThrottle := false;
    }
  }

  /**
   * The wrapper `debounce(func, wait, immediate)` returns. `timeout` is the
   * pending `later` timer with the arguments of the call that scheduled it.
   */
  class Debounce<A> {
    const immediate: bool
    var timeout: Option<A>
    var calls: seq<A>

    constructor (immediate: bool)
      ensures this.immediate == immediate && timeout == None && calls == []
    {
      this.immediate := immediate;
      timeout := None;
      calls := [];
    }

    /** A call cancels the pending timer and schedules a new one with its own arguments. */
    method Call(args: A)
      modifies this
      ensures timeout == Some(args)
      ensures calls == if immediate && old(timeout).None? then old(calls) + [args] else old(calls)
    {
      var callNow := immediate && timeout.None?;
      timeout := Some(args);
      if callNow {
        calls := calls + [args];
      }
    }

    /** The pending `later` runs: `func` with the last call's arguments unless `immediate`. */
    method Expire()
      requires timeout.Some?
      modifies this
      ensures timeout == None
      ensures calls == if immediate then old(calls) else old(calls) + [old(timeout).value]
    {
      var args := timeout.value;
      timeout := None;
      if !immediate {
        calls := calls + [args];
      }
    }
  }
}
