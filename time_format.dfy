/**
 * The countdown text every view builds with `String(format:)`:
 * "%d:%02d:%02d" of hours, minutes and seconds when there is a whole hour,
 * "%d:%02d" of minutes and seconds otherwise; and a reader for such text,
 * which serves to state that the text determines the number of seconds.
 */
module TimeFormat {
  import opened Wrappers
  import opened Decimal
  import opened SwiftInt

  function Hours(s: nat): nat { s / 3600 }
  function Minutes(s: nat): nat { (s % 3600) / 60 }
  function Secs(s: nat): nat { s % 60 }

  /** The three fields recombine to the total and the lower two stay below 60. */
  lemma Decompose(s: nat)
    ensures Hours(s) * 3600 + Minutes(s) * 60 + Secs(s) == s
    ensures Minutes(s) < 60 && Secs(s) < 60
    ensures Hours(s) > 0 <==> s >= 3600
  {
    var r := s % 3600;
    assert s == 3600 * (s / 3600) + r;
    assert r == 60 * (r / 60) + r % 60;
    assert s == 60 * (60 * (s / 3600) + r / 60) + r % 60;
    assert s % 60 == r % 60;
  }

  /** "%d:%02d" of a minutes value and a seconds value. */
  function MinSec(m: int, sec: int): (t: string)
    ensures 4 <= |t|
    ensures t[0] == '-' <==> m < 0
  {
    IntStr(m) + ":" + Pad2(sec)
  }

  /** The clock text of a positive number of seconds (and of 0, "0:00"). */
  function Clock(s: nat): (t: string)
    ensures 4 <= |t| && IsDigit(t[0])
  {
    if Hours(s) > 0 then NatStr(Hours(s)) + ":" + Pad2(Minutes(s)) + ":" + Pad2(Secs(s))
    else MinSec(Minutes(s), Secs(s))
  }

  predicate NoColon(a: string) { forall i :: 0 <= i < |a| ==> a[i] != ':' }

  /** The colon-separated fields of a text. */
  function SplitColons(t: string): (fs: seq<string>)
    ensures 1 <= |fs|
    decreases |t|
  {
    if t == [] then [[]]
    else
      var rest := SplitColons(t[1..]);
      if t[0] == ':' then [[]] + rest else [[t[0]] + rest[0]] + rest[1..]
  }

  lemma {:induction false} SplitWhole(a: string)
    requires NoColon(a)
    ensures SplitColons(a) == [a]
    decreases |a|
  {
    if a != [] {
      SplitWhole(a[1..]);
      assert [a[0]] + a[1..] == a;
    }
  }

  lemma {:induction false} SplitAt(a: string, b: string)
    requires NoColon(a)
    ensures SplitColons(a + ":" + b) == [a] + SplitColons(b)
    decreases |a|
  {
    if a == [] {
      assert (a + ":" + b)[1..] == b;
    } else {
      SplitAt(a[1..], b);
      assert (a + ":" + b)[1..] == a[1..] + ":" + b;
      assert [a[0]] + a[1..] == a;
    }
  }

  lemma IntStrHasNoColon(i: int)
    ensures NoColon(IntStr(i))
  {
    var s := IntStr(i);
    if i < 0 {
      assert s == "-" + NatStr(-i);
      forall k | 0 <= k < |s| ensures s[k] != ':' {
        if k > 0 { assert s[k] == NatStr(-i)[k - 1]; }
      }
    }
  }

  lemma Pad2HasNoColon(i: int)
    ensures NoColon(Pad2(i))
  {
    if i < 0 || i >= 10 {
      IntStrHasNoColon(i);
    } else {
      var s := Pad2(i);
      assert s == "0" + NatStr(i);
      forall k | 0 <= k < |s| ensures s[k] != ':' {
        if k > 0 { assert s[k] == NatStr(i)[k - 1]; }
      }
    }
  }

  /** Reads "M:SS" or "H:MM:SS" back to a number of seconds. */
  function ParseClock(t: string): (r: Option<nat>)
    ensures r.Some? ==> |SplitColons(t)| == 2 || |SplitColons(t)| == 3
  {
    var fs := SplitColons(t);
    if |fs| == 2 then
      match (ParseNat(fs[0]), ParseNat(fs[1]))
      case (Some(m), Some(sec)) =>
        if |fs[1]| == 2 && sec < 60 then Some(m * 60 + sec) else None
      case _ => None
    else if |fs| == 3 then
      match (ParseNat(fs[0]), ParseNat(fs[1]), ParseNat(fs[2]))
      case (Some(h), Some(m), Some(sec)) =>
        if |fs[1]| == 2 && |fs[2]| == 2 && m < 60 && sec < 60 then Some(h * 3600 + m * 60 + sec)
        else None
      case _ => None
    else None
  }

  lemma MinSecFields(m: int, sec: int)
    ensures SplitColons(MinSec(m, sec)) == [IntStr(m), Pad2(sec)]
  {
    IntStrHasNoColon(m);
    Pad2HasNoColon(sec);
    SplitAt(IntStr(m), Pad2(sec));
    SplitWhole(Pad2(sec));
  }

  /**
   * The layout of the clock text: three fields exactly when there is a
   * whole hour, the first in plain `%d`, the others two digits wide.
   */
  lemma ClockFields(s: nat)
    ensures SplitColons(Clock(s)) ==
      if s >= 3600 then [NatStr(Hours(s)), Pad2(Minutes(s)), Pad2(Secs(s))]
      else [NatStr(Minutes(s)), Pad2(Secs(s))]
  {
    Decompose(s);
    if s >= 3600 {
      var h, m, x := NatStr(Hours(s)), Pad2(Minutes(s)), Pad2(Secs(s));
      assert Clock(s) == h + ":" + (m + ":" + x);
      Pad2HasNoColon(Minutes(s));
      Pad2HasNoColon(Secs(s));
      SplitAt(h, m + ":" + x);
      SplitAt(m, x);
      SplitWhole(x);
    } else {
      MinSecFields(Minutes(s), Secs(s));
    }
  }

  /** The clock text reads back to the number it was made from. */
  lemma ClockRoundTrip(s: nat)
    ensures ParseClock(Clock(s)) == Some(s)
    ensures IsDigit(Clock(s)[0])
    ensures |SplitColons(Clock(s))| == (if s >= 3600 then 3 else 2)
    ensures forall k :: 1 <= k < |SplitColons(Clock(s))| ==> |SplitColons(Clock(s))[k]| == 2
  {
    Decompose(s);
    ClockFields(s);
    ParsePad2(Minutes(s));
    ParsePad2(Secs(s));
    if s >= 3600 {
      ParseNatStr(Hours(s));
    } else {
      ParseNatStr(Minutes(s));
    }
  }

  /** "%d:%02d" of a non-negative minutes and seconds split reads back to the total. */
  lemma MinSecRoundTrip(m: nat, sec: nat)
    requires sec < 60
    ensures ParseClock(MinSec(m, sec)) == Some(m * 60 + sec)
  {
    MinSecFields(m, sec);
    ParseNatStr(m);
    ParsePad2(sec);
  }

  /** A negative field in "%d:%02d" makes the text unreadable as a clock. */
  lemma MinSecNegative(m: int, sec: int)
    requires m < 0 || sec < 0
    ensures ParseClock(MinSec(m, sec)).None?
  {
    MinSecFields(m, sec);
    var fs := SplitColons(MinSec(m, sec));
    if m < 0 {
      assert !IsDigit(fs[0][0]);
    } else {
      assert !IsDigit(fs[1][0]);
    }
  }

  /** "0:00", the text of zero seconds, is the clock text of 0. */
  lemma ClockOfZero()
    ensures Clock(0) == "0:00"
  {
    assert NatStr(0) == "0";
  }

  /**
   * The pattern every countdown formatter follows: a fixed word for a
   * value that is not positive, the clock text otherwise. A word that
   * does not start with a digit is never mistaken for a clock text.
   */
  lemma SentinelOrClock(word: string, s: int)
    requires |word| > 0 && !IsDigit(word[0])
    ensures var r := if s <= 0 then word else Clock(s);
      && (r == word <==> s <= 0)
      && (s > 0 ==> ParseClock(r) == Some(s))
      && (s > 0 ==> |SplitColons(r)| == (if s >= 3600 then 3 else 2))
  {
    if s > 0 {
      ClockRoundTrip(s);
    }
  }

  /**
   * "%d:%02d" of Swift's truncating `s / 60` and `s % 60`: for a
   * non-negative value the whole minutes, unbounded, and the seconds, and
   * the text reads back to the value; a negative value gives a minus sign
   * and a text that does not read back.
   */
  lemma TruncatedMinSec(s: int)
    ensures ParseClock(MinSec(Quot(s, 60), Rem(s, 60))) == if s >= 0 then Some(s) else None
    ensures s >= 0 ==> SplitColons(MinSec(Quot(s, 60), Rem(s, 60))) == [NatStr(s / 60), Pad2(s % 60)]
  {
    if s >= 0 {
      assert Quot(s, 60) == s / 60 && Rem(s, 60) == s % 60 by {
        QuotRem(s, 60);
      }
      MinSecFields(s / 60, s % 60);
      MinSecRoundTrip(s / 60, s % 60);
    } else {
      assert Quot(s, 60) < 0 || Rem(s, 60) < 0 by {
        QuotRem(s, 60);
      }
      MinSecNegative(Quot(s, 60), Rem(s, 60));
    }
  }
}
