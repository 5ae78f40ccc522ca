/** Text of times of day: the order `localeCompare` gives the schedule's
    time strings, the decimal text of hours, and reading a "H:MM" or "HH:MM"
    string as minutes since midnight. */
module Clock {
  import opened Common

  /** `a` sorts strictly before `b` under character-code lexicographic order
      (the order `a.localeCompare(b) < 0` gives on digit-and-colon strings). */
  predicate Before(a: string, b: string)
  {
    |b| > 0 && (|a| == 0 || a[0] < b[0] || (a[0] == b[0] && Before(a[1..], b[1..])))
  }

  lemma {:induction false} BeforeIrreflexive(a: string)
    ensures !Before(a, a)
  {
    if |a| > 0 {
      BeforeIrreflexive(a[1..]);
    }
  }

  lemma {:induction false} BeforeTransitive(a: string, b: string, c: string)
    requires Before(a, b) && Before(b, c)
    ensures Before(a, c)
  {
    if |a| > 0 && a[0] == b[0] && b[0] == c[0] {
      BeforeTransitive(a[1..], b[1..], c[1..]);
    }
  }

  lemma {:induction false} BeforeTotal(a: string, b: string)
    ensures a == b || Before(a, b) || Before(b, a)
  {
    if |a| > 0 && |b| > 0 && a[0] == b[0] {
      BeforeTotal(a[1..], b[1..]);
      if a[1..] == b[1..] {
        assert a == [a[0]] + a[1..] && b == [b[0]] + b[1..];
      }
    }
  }

  lemma BeforeAsymmetric(a: string, b: string)
    requires Before(a, b)
    ensures !Before(b, a)
  {
    if Before(b, a) {
      BeforeTransitive(a, b, a);
      BeforeIrreflexive(a);
    }
  }

  /** "Not after" (the sort's `<= 0`) is transitive. */
  lemma NotAfterTransitive(a: string, b: string, c: string)
    requires !Before(b, a) && !Before(c, b)
    ensures !Before(c, a)
  {
    BeforeTotal(a, b);
    if Before(c, a) && a != b {
      BeforeTransitive(c, a, b);
    }
  }

  // ---- decimal digits ----

  predicate IsDigit(c: char) { '0' <= c <= '9' }

  predicate AllDigits(s: string) { forall i :: 0 <= i < |s| ==> IsDigit(s[i]) }

  function DigitChar(d: nat): (c: char)
    requires d < 10
    ensures IsDigit(c)
  {
    ('0' as int + d) as char
  }

  function DigitValue(c: char): (d: nat)
    requires IsDigit(c)
    ensures d < 10
  {
    c as int - '0' as int
  }

  /** The value of a string of decimal digits, most significant first. */
  function DigitsValue(s: string): nat
    requires AllDigits(s)
  {
    if |s| == 0 then 0 else DigitsValue(s[..|s| - 1]) * 10 + DigitValue(s[|s| - 1])
  }

  /** `n.toString()`: decimal text without leading zeros. */
  function NatText(n: nat): (r: string)
    ensures 1 <= |r| && AllDigits(r)
    ensures (n < 10) == (|r| == 1)
    ensures 10 <= n < 100 ==> |r| == 2
  {
    if n < 10 then [DigitChar(n)] else NatText(n / 10) + [DigitChar(n % 10)]
  }

  /** Whole-string decimal parse: `Some(value)` exactly when `s` is a non-empty digit string. */
  function ParseNat(s: string): (r: Option<nat>)
    ensures r.Some? <==> |s| > 0 && AllDigits(s)
  {
    if |s| > 0 && AllDigits(s) then Some(DigitsValue(s)) else None
  }

  /** Parsing the decimal text of `n` gives back `n`. */
  lemma {:induction false} ParseNatText(n: nat)
    ensures ParseNat(NatText(n)) == Some(n)
  {
    var t := NatText(n);
    if n < 10 {
      assert t == [DigitChar(n)] && t[..0] == [];
      assert DigitsValue(t) == DigitsValue(t[..0]) * 10 + DigitValue(t[0]);
    } else {
      ParseNatText(n / 10);
      assert t[..|t| - 1] == NatText(n / 10);
      assert DigitValue(t[|t| - 1]) == n % 10;
    }
  }

  /** The value of a two-digit string. */
  lemma TwoDigits(s: string)
    requires |s| == 2 && AllDigits(s)
    ensures ParseNat(s) == Some(DigitValue(s[0]) * 10 + DigitValue(s[1]))
  {
    assert s[..1][..0] == [];
    assert DigitsValue(s[..1]) == DigitValue(s[0]);
  }

  /** A leading zero does not change a digit string's value. */
  lemma {:induction false} LeadingZero(s: string)
    requires AllDigits(s)
    ensures AllDigits("0" + s) && DigitsValue("0" + s) == DigitsValue(s)
  {
    var z := "0" + s;
    if |s| > 0 {
      assert z[..|z| - 1] == "0" + s[..|s| - 1];
      LeadingZero(s[..|s| - 1]);
    }
  }

  /** `n.toString().padStart(2, "0")`. */
  function Pad2(n: nat): (r: string)
  {
    var t := NatText(n);
    if |t| < 2 then "0" + t else t
  }

  /** Zero-padding keeps the value and gives two digits below 100. */
  lemma Pad2Value(n: nat)
    ensures AllDigits(Pad2(n)) && ParseNat(Pad2(n)) == Some(n)
    ensures n < 100 ==> |Pad2(n)| == 2
  {
    ParseNatText(n);
    if n < 10 {
      LeadingZero(NatText(n));
    }
  }

  // ---- reading a time of day ----

  predicate IsColon(c: char) { c == ':' }

  /** Minutes since midnight of "<hours>:<minutes>", both parts decimal digits;
      `None` when the text has no colon or a part is not a digit string. */
  function ClockMinutes(s: string): Option<int>
  {
    var k := FindIndex(s, IsColon);
    if k < 0 then None
    else match (ParseNat(s[..k]), ParseNat(s[k + 1..]))
      case (Some(h), Some(m)) => Some(h * 60 + m)
      case _ => None
  }

  /** Joining an hour text and a minute text with a colon reads back as hours * 60 + minutes. */
  lemma ClockMinutesOf(hs: string, ms: string, h: nat, m: nat)
    requires ParseNat(hs) == Some(h) && ParseNat(ms) == Some(m)
    ensures ClockMinutes(hs + ":" + ms) == Some(h * 60 + m)
  {
    var s := hs + ":" + ms;
    assert forall i :: 0 <= i < |hs| ==> !IsColon(s[i]) by {
      forall i | 0 <= i < |hs| ensures !IsColon(s[i]) {
        assert s[i] == hs[i] && IsDigit(hs[i]);
      }
    }
    assert IsColon(s[|hs|]);
    var k := FindIndex(s, IsColon);
    assert k == |hs|;
    assert s[..k] == hs && s[k + 1..] == ms;
  }

  /** The same with the colon kept at the head of the minute part: an hour
      text followed by ":" and a minute text. */
  lemma ClockMinutesJoin(hs: string, rest: string, h: nat, m: nat)
    requires |rest| > 0 && rest[0] == ':'
    requires ParseNat(hs) == Some(h) && ParseNat(rest[1..]) == Some(m)
    ensures ClockMinutes(hs + rest) == Some(h * 60 + m)
  {
    var s := hs + rest;
    assert forall i :: 0 <= i < |hs| ==> !IsColon(s[i]) by {
      forall i | 0 <= i < |hs| ensures !IsColon(s[i]) {
        assert s[i] == hs[i] && IsDigit(hs[i]);
      }
    }
    assert IsColon(s[|hs|]);
    var k := FindIndex(s, IsColon);
    assert k == |hs|;
    assert s[..k] == hs && s[k + 1..] == rest[1..];
  }

  lemma TwoDigitLiterals()
    ensures ParseNat("00") == Some(0) && ParseNat("30") == Some(30)
  {
    TwoDigits("00");
    TwoDigits("30");
  }

  /** "H:00" for hour `h` reads as `60 * h`. */
  lemma OnTheHour(h: nat)
    ensures ClockMinutes(NatText(h) + ":00") == Some(h * 60)
  {
    ParseNatText(h);
    TwoDigitLiterals();
    assert ":00"[1..] == "00";
    ClockMinutesJoin(NatText(h), ":00", h, 0);
  }

  /** "H:30" for hour `h` reads as `60 * h + 30`. */
  lemma HalfPast(h: nat)
    ensures ClockMinutes(NatText(h) + ":30") == Some(h * 60 + 30)
  {
    ParseNatText(h);
    TwoDigitLiterals();
    assert ":30"[1..] == "30";
    ClockMinutesJoin(NatText(h), ":30", h, 30);
  }

  /** The zero-padded "HH:MM" shape the barber schedule uses, with minutes below 60. */
  predicate PaddedClock(s: string)
  {
    |s| == 5 && IsDigit(s[0]) && IsDigit(s[1]) && s[2] == ':' && '0' <= s[3] <= '5' && IsDigit(s[4])
  }

  function PaddedMinutes(s: string): (r: int)
    requires PaddedClock(s)
    ensures ClockMinutes(s) == Some(r)
  {
    var h := DigitValue(s[0]) * 10 + DigitValue(s[1]);
    var m := DigitValue(s[3]) * 10 + DigitValue(s[4]);
    TwoDigits(s[..2]);
    TwoDigits(s[3..]);
    ClockMinutesOf(s[..2], s[3..], h, m);
    assert s[..2] + ":" + s[3..] == s;
    h * 60 + m
  }

  /** On zero-padded "HH:MM" strings the string order is the order of the times:
      sorting with `localeCompare` sorts by minutes since midnight. */
  lemma PaddedBeforeIsEarlier(s: string, t: string)
    requires PaddedClock(s) && PaddedClock(t)
    ensures Before(s, t) <==> PaddedMinutes(s) < PaddedMinutes(t)
  {
    assert Before(s, t) <==> s[0] < t[0] || (s[0] == t[0] && Before(s[1..], t[1..]));
    assert Before(s[1..], t[1..]) <==> s[1] < t[1] || (s[1] == t[1] && Before(s[2..], t[2..]));
    assert Before(s[2..], t[2..]) <==> Before(s[3..], t[3..]);
    assert Before(s[3..], t[3..]) <==> s[3] < t[3] || (s[3] == t[3] && Before(s[4..], t[4..]));
    assert Before(s[4..], t[4..]) <==> s[4] < t[4] || (s[4] == t[4] && Before(s[5..], t[5..]));
    assert !Before(s[5..], t[5..]);
  }
}
