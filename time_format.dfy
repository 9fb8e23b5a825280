/** Rendering of a millisecond count as `minutes:seconds.milliseconds`, the way the plugin
    shows the real time (rta) and in-game time (igt) of a run. */
module TimeFormat {
  import opened Common

  /** A duration cut into whole minutes, seconds of the minute and milliseconds of the second. */
  datatype Parts = Parts(minutes: int, seconds: int, millis: int)

  /** Python's `t // 60000`, `(t % 60000) // 1000` and the remainder `t - m*60000 - s*1000`.
      Python floors and Dafny divides Euclidean-style; with a positive divisor the two agree,
      so negative inputs are covered as well. */
  function Split(t: int): (p: Parts)
    ensures 0 <= p.seconds < 60 && 0 <= p.millis < 1000
    ensures p.minutes * 60000 + p.seconds * 1000 + p.millis == t
  {
    var minutes := t / 60000;
    var seconds := (t % 60000) / 1000;
    Parts(minutes, seconds, t - minutes * 60000 - seconds * 1000)
  }

  /** Any decomposition with the bounds and the reconstruction equation of `Split` is `Split`'s. */
  lemma SplitUnique(t: int, p: Parts)
    requires 0 <= p.seconds < 60 && 0 <= p.millis < 1000
    requires p.minutes * 60000 + p.seconds * 1000 + p.millis == t
    ensures p == Split(t)
  {
    var q := Split(t);
    var r, r' := p.seconds * 1000 + p.millis, q.seconds * 1000 + q.millis;
    assert (p.minutes - q.minutes) * 60000 == r' - r;
    assert p.minutes == q.minutes;
    assert (p.seconds - q.seconds) * 1000 == q.millis - p.millis;
  }

  predicate IsDigit(c: char) { '0' <= c <= '9' }

  predicate AllDigits(s: string) { forall i :: 0 <= i < |s| ==> IsDigit(s[i]) }

  function DigitChar(d: int): (c: char)
    requires 0 <= d < 10
    ensures IsDigit(c) && c as int - '0' as int == d
  {
    ('0' as int + d) as char
  }

  /** `str(n)` for a natural number: its decimal digits without leading zeros. */
  function NatToDecimal(n: nat): (s: string)
    ensures 1 <= |s| && AllDigits(s)
    ensures n < 10 <==> |s| == 1
  {
    if n < 10 then [DigitChar(n)] else NatToDecimal(n / 10) + [DigitChar(n % 10)]
  }

  /** `str(n)` for any integer: a minus sign in front of the digits of a negative number. */
  function IntToDecimal(n: int): (s: string)
    ensures 1 <= |s|
    ensures n < 0 <==> s[0] == '-'
  {
    if n < 0 then "-" + NatToDecimal(-n) else NatToDecimal(n)
  }

  function Zeros(k: nat): (s: string)
    ensures |s| == k && forall i :: 0 <= i < k ==> s[i] == '0'
  {
    seq(k, _ => '0')
  }

  /** The `0<width>d` format of a natural number: its digits, padded on the left with zeros
      up to `width` characters; a longer number is left as it is. */
  function ZeroPadded(n: nat, width: nat): (s: string)
    ensures |s| == if |NatToDecimal(n)| < width then width else |NatToDecimal(n)|
    ensures AllDigits(s)
  {
    var digits := NatToDecimal(n);
    if |digits| < width then Zeros(width - |digits|) + digits else digits
  }

  /** A character that can occur in a rendered time. */
  predicate TimeChar(c: char) { IsDigit(c) || c == '-' || c == ':' || c == '.' }

  /** `f"{minutes}:{seconds:02d}.{milliseconds:03d}"` over the parts of `t`. */
  function FormatTime(t: int): (s: string)
    ensures 8 <= |s| && s[|s| - 7] == ':' && s[|s| - 4] == '.'
    ensures forall i :: 0 <= i < |s| ==> TimeChar(s[i])
  {
    var p := Split(t);
    SecondsAndMillisWidth(p.seconds, p.millis);
    IntToDecimal(p.minutes) + ":" + ZeroPadded(p.seconds, 2) + "." + ZeroPadded(p.millis, 3)
  }

  /** Below 60 seconds and 1000 milliseconds, the paddings are exactly 2 and 3 digits wide. */
  lemma SecondsAndMillisWidth(seconds: nat, millis: nat)
    requires seconds < 60 && millis < 1000
    ensures |ZeroPadded(seconds, 2)| == 2 && |ZeroPadded(millis, 3)| == 3
  {
    if 10 <= seconds {
      assert NatToDecimal(seconds) == NatToDecimal(seconds / 10) + [DigitChar(seconds % 10)];
    }
    if 100 <= millis {
      assert NatToDecimal(millis / 10) == NatToDecimal(millis / 100) + [DigitChar(millis / 10 % 10)];
    }
  }

  /** The value of a string of decimal digits (`int(s)` for a non-empty digit string). */
  function ParseNat(s: string): nat
    requires AllDigits(s)
  {
    if s == [] then 0 else ParseNat(s[..|s| - 1]) * 10 + (s[|s| - 1] as int - '0' as int)
  }

  /** `int(s)` on an optional minus sign followed by at least one digit; anything else is refused. */
  function ParseInt(s: string): Option<int>
  {
    if 2 <= |s| && s[0] == '-' && AllDigits(s[1..]) then Some(-(ParseNat(s[1..]) as int))
    else if 1 <= |s| && AllDigits(s) then Some(ParseNat(s))
    else None
  }

  /** Reads back a rendered time: decimal minutes, `:`, two digits of seconds, `.`, three
      digits of milliseconds. */
  function ParseTime(s: string): Option<int>
  {
    if |s| < 8 || s[|s| - 7] != ':' || s[|s| - 4] != '.' then None
    else
      var minutes := ParseInt(s[..|s| - 7]);
      var seconds := s[|s| - 6..|s| - 4];
      var millis := s[|s| - 3..];
      if minutes.None? || !AllDigits(seconds) || !AllDigits(millis) then None
      else Some(minutes.value * 60000 + ParseNat(seconds) * 1000 + ParseNat(millis))
  }

  lemma {:induction false} ParseNatDecimal(n: nat)
    ensures ParseNat(NatToDecimal(n)) == n
  {
    if n >= 10 {
      var s := NatToDecimal(n);
      assert s[..|s| - 1] == NatToDecimal(n / 10);
      ParseNatDecimal(n / 10);
    }
  }

  lemma {:induction false} ParseNatLeadingZeros(k: nat, x: string)
    requires AllDigits(x)
    ensures AllDigits(Zeros(k) + x) && ParseNat(Zeros(k) + x) == ParseNat(x)
    decreases |x|, k
  {
    var s := Zeros(k) + x;
    if x == [] {
      assert s == Zeros(k);
      if k > 0 {
        assert s[..|s| - 1] == Zeros(k - 1) + [];
        ParseNatLeadingZeros(k - 1, []);
      }
    } else {
      assert s[..|s| - 1] == Zeros(k) + x[..|x| - 1];
      ParseNatLeadingZeros(k, x[..|x| - 1]);
    }
  }

  lemma ParsePadded(digits: string, width: nat)
    requires AllDigits(digits)
    ensures var padded := if |digits| < width then Zeros(width - |digits|) + digits else digits;
      AllDigits(padded) && ParseNat(padded) == ParseNat(digits)
  {
    if |digits| < width {
      ParseNatLeadingZeros(width - |digits|, digits);
    }
  }

  lemma ParseZeroPadded(n: nat, width: nat)
    ensures ParseNat(ZeroPadded(n, width)) == n
  {
    ParseNatDecimal(n);
    ParsePadded(NatToDecimal(n), width);
  }

  lemma ParseIntMinus(digits: string, m: nat)
    requires 1 <= |digits| && AllDigits(digits) && ParseNat(digits) == m
    ensures ParseInt("-" + digits) == Some(-(m as int))
  {
    assert ("-" + digits)[1..] == digits;
  }

  lemma ParseIntDigits(s: string)
    requires 1 <= |s| && AllDigits(s)
    ensures ParseInt(s) == Some(ParseNat(s))
  {
    assert IsDigit(s[0]);
  }

  lemma ParseIntNegative(n: int)
    requires n < 0
    ensures ParseInt(IntToDecimal(n)) == Some(n)
  {
    ParseNatDecimal(-n);
    ParseIntMinus(NatToDecimal(-n), -n);
  }

  lemma ParseIntNonNegative(n: int)
    requires 0 <= n
    ensures ParseInt(IntToDecimal(n)) == Some(n)
  {
    ParseNatDecimal(n);
    ParseIntDigits(NatToDecimal(n));
  }

  lemma ParseIntDecimal(n: int)
    ensures ParseInt(IntToDecimal(n)) == Some(n)
  {
    if n < 0 {
      ParseIntNegative(n);
    } else {
      ParseIntNonNegative(n);
    }
  }

  /** Each field of the text is the matching part of `Split(t)`: the minutes before the `:`,
      the two digits of seconds between `:` and `.`, the three digits of milliseconds after. */
  lemma FormatTimeFields(t: int)
    ensures var s, p := FormatTime(t), Split(t);
      && ParseInt(s[..|s| - 7]) == Some(p.minutes)
      && AllDigits(s[|s| - 6..|s| - 4]) && ParseNat(s[|s| - 6..|s| - 4]) == p.seconds
      && AllDigits(s[|s| - 3..]) && ParseNat(s[|s| - 3..]) == p.millis
  {
    var p := Split(t);
    SecondsAndMillisWidth(p.seconds, p.millis);
    var m, sec, ms := IntToDecimal(p.minutes), ZeroPadded(p.seconds, 2), ZeroPadded(p.millis, 3);
    var s := FormatTime(t);
    assert s == m + ":" + sec + "." + ms;
    assert s[..|s| - 7] == m;
    assert s[|s| - 6..|s| - 4] == sec;
    assert s[|s| - 3..] == ms;
    ParseIntDecimal(p.minutes);
    ParseZeroPadded(p.seconds, 2);
    ParseZeroPadded(p.millis, 3);
  }

  /** `str(n)` has no leading zero: a text starting with `0` is the number zero. */
  lemma {:induction false} NatToDecimalNoLeadingZero(n: nat)
    ensures NatToDecimal(n)[0] == '0' ==> n == 0
  {
    if 10 <= n {
      NatToDecimalNoLeadingZero(n / 10);
      assert NatToDecimal(n)[0] == NatToDecimal(n / 10)[0];
    }
  }

  /** The minutes are written as `str(minutes)` writes them: no leading zero and no signed
      zero, a minus sign only in front of a non-zero number. */
  lemma FormatTimeMinutesCanonical(t: int)
    ensures var s := FormatTime(t);
      var m := s[..|s| - 7];
      && 1 <= |m|
      && (m[0] == '0' ==> |m| == 1)
      && (m[0] == '-' ==> 2 <= |m| && m[1] != '0')
  {
    var p := Split(t);
    SecondsAndMillisWidth(p.seconds, p.millis);
    var m := IntToDecimal(p.minutes);
    var s := FormatTime(t);
    assert s == m + (":" + ZeroPadded(p.seconds, 2) + "." + ZeroPadded(p.millis, 3));
    assert s[..|s| - 7] == m;
    if p.minutes < 0 {
      NatToDecimalNoLeadingZero(-p.minutes);
      assert m[1] == NatToDecimal(-p.minutes)[0];
    } else {
      NatToDecimalNoLeadingZero(p.minutes);
    }
  }

  /** Rendering loses nothing: the time is read back exactly from its text. */
  lemma FormatTimeRoundTrip(t: int)
    ensures ParseTime(FormatTime(t)) == Some(t)
  {
    FormatTimeFields(t);
  }

  /** Two different durations never render to the same text. */
  lemma FormatTimeInjective(t: int, u: int)
    requires FormatTime(t) == FormatTime(u)
    ensures t == u
  {
    FormatTimeRoundTrip(t);
    FormatTimeRoundTrip(u);
  }

  /** Two sample renderings. */
  lemma FormatTimeExample()
    ensures FormatTime(497451) == "8:17.451"
  {
    assert Split(497451) == Parts(8, 17, 451);
    assert NatToDecimal(17) == "17";
    assert NatToDecimal(45) == "45";
    assert NatToDecimal(451) == "451";
  }

  lemma FormatTimeZero()
    ensures FormatTime(0) == "0:00.000"
  {
    FormatTimeOfZero();
    ZeroRenderings();
  }

  lemma FormatTimeOfZero()
    ensures FormatTime(0) == IntToDecimal(0) + ":" + ZeroPadded(0, 2) + "." + ZeroPadded(0, 3)
  {
    assert Split(0) == Parts(0, 0, 0);
  }

  lemma ZeroRenderings()
    ensures IntToDecimal(0) == "0" && ZeroPadded(0, 2) == "00" && ZeroPadded(0, 3) == "000"
  {
    assert NatToDecimal(0) == "0";
    assert Zeros(1) == "0" && Zeros(2) == "00";
  }
}
