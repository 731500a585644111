/**
 * The iOS app's `Prayer` record (ios/AdhanApp/Models/Prayer.swift): a named
 * prayer at an instant, with an identifier built from the name and the instant,
 * its 24-hour "HH:mm" label, and the sample day used by the previews.
 */
module Prayers {
  import opened Wrappers
  import opened Text
  import opened Calendar

  /** The five daily prayers in their canonical order, as the app lists them. */
  const PrayerNames: seq<string> := ["Fajr", "Dhuhr", "Asr", "Maghrib", "Isha"]

  /** Their Arabic names, position by position. */
  const ArabicNames: seq<string> := ["الفجر", "الظهر", "العصر", "المغرب", "العشاء"]

  /** A prayer; `time` is the instant in whole seconds since the epoch. */
  datatype Prayer = Prayer(id: string, name: string, arabicName: string, time: int)

  /**
   * Swift's interpolation of `timeIntervalSince1970` for a whole number of
   * seconds: the integer followed by ".0".
   */
  function SecondsText(t: int): (s: string)
    ensures |s| >= 3 && s[|s| - 2..] == ".0"
  {
    IntToString(t) + ".0"
  }

  /** `Prayer(name:arabicName:time:)`: the fields unchanged and the identifier "name-seconds". */
  function MakePrayer(name: string, arabicName: string, time: int): (p: Prayer)
    ensures p.name == name && p.arabicName == arabicName && p.time == time
  {
    Prayer(name + "-" + SecondsText(time), name, arabicName, time)
  }

  /** Reads an identifier back into its name and its seconds, when it has that shape. */
  function IdParts(id: string): (r: Option<(string, int)>)
    ensures r.Some? ==> '-' !in r.value.0
  {
    var name := Before(id, '-');
    if |name| < |id| && |id| - |name| >= 3 && id[|id| - 2..] == ".0" then
      var seconds := SignedDigits(id[|name| + 1..|id| - 2]);
      if seconds.Some? then Some((name, seconds.value)) else None
    else
      None
  }

  /** An identifier reads back as the name and time it was made from, for names without '-'. */
  lemma IdPartsOfMakePrayer(name: string, arabicName: string, time: int)
    requires '-' !in name
    ensures IdParts(MakePrayer(name, arabicName, time).id) == Some((name, time))
  {
    var digits := IntToString(time);
    assert MakePrayer(name, arabicName, time).id == name + ['-'] + (digits + ".0");
    IdPartsOfText(name, digits);
    SignedDigitsOfIntToString(time);
  }

  /** A "name-digits.0" string reads back as the name and the value of the digits. */
  lemma IdPartsOfText(name: string, digits: string)
    requires '-' !in name && |digits| >= 1
    ensures var v := SignedDigits(digits);
      IdParts(name + ['-'] + (digits + ".0")) == if v.Some? then Some((name, v.value)) else None
  {
    var tail := digits + ".0";
    var id := name + ['-'] + tail;
    BeforePrefix(name, tail, '-');
    assert |id| == |name| + |digits| + 3;
    assert id[|id| - 2..] == ".0";
    assert id[|name| + 1..|id| - 2] == digits;
  }

  /**
   * Equal names and times give equal identifiers, and for names without '-'
   * only they do: the identifier tells prayers apart.
   */
  lemma IdInjective(n1: string, a1: string, t1: int, n2: string, a2: string, t2: int)
    requires '-' !in n1 && '-' !in n2
    ensures MakePrayer(n1, a1, t1).id == MakePrayer(n2, a2, t2).id <==> n1 == n2 && t1 == t2
  {
    IdPartsOfMakePrayer(n1, a1, t1);
    IdPartsOfMakePrayer(n2, a2, t2);
  }

  /** `formattedTime`: the hour and minute of the prayer's time of day, "HH:mm". */
  function FormattedTime(p: Prayer): string {
    var s := SecondOfDay(p.time);
    Pad2(s / 3600) + ":" + Pad2(s % 3600 / 60)
  }

  /**
   * The label is five characters, two digits, ':', two digits, and its fields
   * are the hour (below 24) and the minute (below 60) in which `p.time` falls.
   */
  lemma FormattedTimeFields(p: Prayer)
    ensures var r := FormattedTime(p);
      && |r| == 5 && r[2] == ':'
      && AllDigits(r[0..2]) && AllDigits(r[3..5])
      && DigitsValue(r[0..2]) < 24 && DigitsValue(r[3..5]) < 60
      && DigitsValue(r[0..2]) * 3600 + DigitsValue(r[3..5]) * 60 <= SecondOfDay(p.time)
      && SecondOfDay(p.time) < DigitsValue(r[0..2]) * 3600 + DigitsValue(r[3..5]) * 60 + 60
  {
    var s := SecondOfDay(p.time);
    var h, m := s / 3600, s % 3600 / 60;
    ClockFields(p.time);
    LabelFields(h, m);
  }

  /** "HH:mm" of two numbers below 100 is two digits, ':', two digits, reading back as them. */
  lemma LabelFields(h: nat, m: nat)
    requires h < 100 && m < 100
    ensures var r := Pad2(h) + ":" + Pad2(m);
      && |r| == 5 && r[2] == ':'
      && AllDigits(r[0..2]) && DigitsValue(r[0..2]) == h
      && AllDigits(r[3..5]) && DigitsValue(r[3..5]) == m
  {
    Pad2Value(h);
    Pad2Value(m);
    TwoFields(Pad2(h), Pad2(m), ':');
  }

  /** A prayer made at `h:m:s` of a day is labelled with `h` and `m`, zero-padded. */
  lemma FormattedTimeAt(d: Date, h: int, m: int, s: int, name: string, arabicName: string)
    requires 1 <= d.month <= 12
    requires 0 <= h < 24 && 0 <= m < 60 && 0 <= s < 60
    ensures FormattedTime(MakePrayer(name, arabicName, EpochSeconds(d, h, m, s))) == Pad2(h) + ":" + Pad2(m)
  {
    SecondOfDayAt(d, h, m, s);
    DivModOf(h * 3600 + m * 60 + s, 3600, h, m * 60 + s);
    DivModOf(m * 60 + s, 60, m, s);
  }

  /** The clock times (hour, minute) of the preview prayers. */
  const SampleClockTimes: seq<(nat, nat)> := [(5, 30), (12, 30), (15, 45), (18, 15), (19, 45)]

  /** The preview data: the five prayers of `today` at fixed clock times. */
  function Samples(today: Date): (r: seq<Prayer>)
    requires ValidDate(today)
    ensures |r| == 5
  {
    seq(5, k requires 0 <= k < 5 =>
      MakePrayer(PrayerNames[k], ArabicNames[k], EpochSeconds(today, SampleClockTimes[k].0, SampleClockTimes[k].1, 0)))
  }

  /**
   * The samples are the five prayers in canonical order, all on `today`, at
   * whole minutes, strictly ascending in time.
   */
  lemma SamplesInOrder(today: Date)
    requires ValidDate(today)
    ensures var r := Samples(today);
      && (forall k :: 0 <= k < 5 ==> r[k].name == PrayerNames[k] && r[k].arabicName == ArabicNames[k])
      && (forall k :: 0 <= k < 5 ==>
            r[k].time / SecondsPerDay == DayNumber(today) && r[k].time % 60 == 0)
      && (forall p, q :: 0 <= p < q < 5 ==> r[p].time < r[q].time)
  {
    var r := Samples(today);
    forall k | 0 <= k < 5
      ensures r[k].time / SecondsPerDay == DayNumber(today) && r[k].time % 60 == 0
    {
      SampleOnDay(today, SampleClockTimes[k].0, SampleClockTimes[k].1);
    }
    forall p, q | 0 <= p < q < 5
      ensures r[p].time < r[q].time
    {
      var cp, cq := SampleClockTimes[p], SampleClockTimes[q];
      assert cp.0 * 60 + cp.1 < cq.0 * 60 + cq.1;
    }
  }

  /** A clock time `h:m:00` of `today` falls on `today` and on a whole minute. */
  lemma SampleOnDay(today: Date, h: nat, m: nat)
    requires 1 <= today.month <= 12 && h < 24 && m < 60
    ensures EpochSeconds(today, h, m, 0) / SecondsPerDay == DayNumber(today)
    ensures EpochSeconds(today, h, m, 0) % 60 == 0
  {
    var n := DayNumber(today);
    var t := EpochSeconds(today, h, m, 0);
    DivModOf(t, SecondsPerDay, n, h * 3600 + m * 60);
    assert t == (n * 1440 + h * 60 + m) * 60;
    DivModOf(t, 60, n * 1440 + h * 60 + m, 0);
  }
}
