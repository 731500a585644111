/**
 * The countdown beside the next prayer (ios/AdhanApp/Views/NextPrayerView.swift,
 * `timeUntil`): nothing without a prayer, "Now" once its time has come, and
 * otherwise the whole hours and minutes left. The current time is in
 * milliseconds, so the truncation of a fractional interval is visible; prayer
 * times are whole seconds.
 */
module Countdown {
  import opened Wrappers
  import opened Text
  import opened Calendar
  import opened Prayers

  /** Whole seconds left until `p`, when it is still ahead of `nowMillis` (`Int(interval)`). */
  function SecondsLeft(p: Prayer, nowMillis: int): (s: nat)
    requires p.time * 1000 > nowMillis
    ensures s * 1000 <= p.time * 1000 - nowMillis < s * 1000 + 1000
  {
    (p.time * 1000 - nowMillis) / 1000
  }

  /** The countdown text for whole hours and minutes left. */
  function Label(hours: nat, minutes: nat): string {
    if hours > 0 then "in " + NatToString(hours) + "h " + NatToString(minutes) + "m"
    else "in " + NatToString(minutes) + "m"
  }

  /** `timeUntil` for `prayer` at the instant `nowMillis`. */
  function TimeUntil(prayer: Option<Prayer>, nowMillis: int): string {
    if prayer.None? then ""
    else if prayer.value.time * 1000 - nowMillis <= 0 then "Now"
    else
      var seconds := SecondsLeft(prayer.value, nowMillis);
      Label(seconds / 3600, seconds % 3600 / 60)
  }

  /** Reads a countdown back into hours and minutes ("in Hh Mm" or "in Mm"). */
  function ReadCountdown(s: string): Option<(nat, nat)> {
    if |s| < 5 || s[..3] != "in " || s[|s| - 1] != 'm' then None
    else
      var body := s[3..|s| - 1];
      var hours := Before(body, 'h');
      if |hours| == |body| then
        if body != "" && AllDigits(body) then Some((0, DigitsValue(body))) else None
      else if |hours| + 2 <= |body| && body[|hours| + 1] == ' ' then
        var minutes := body[|hours| + 2..];
        if hours != "" && AllDigits(hours) && minutes != "" && AllDigits(minutes)
        then Some((DigitsValue(hours), DigitsValue(minutes)))
        else None
      else None
  }

  /** Hours and minutes of `seconds`: minutes lie in 0..59 and the leftover seconds are dropped. */
  lemma HoursAndMinutes(seconds: nat)
    ensures var hours, minutes := seconds / 3600, seconds % 3600 / 60;
      && 0 <= minutes < 60
      && hours * 3600 + minutes * 60 <= seconds < hours * 3600 + minutes * 60 + 60
  {
  }

  /** A digit string holds neither 'h' nor ' '. */
  lemma DigitsHoldNoLetters(n: nat)
    ensures 'h' !in NatToString(n) && ' ' !in NatToString(n)
    ensures DigitsValue(NatToString(n)) == n
  {
    NatToStringValue(n);
    var d := NatToString(n);
    assert forall i :: 0 <= i < |d| ==> IsDigit(d[i]);
  }

  /** "in Mm" reads back as 0 hours and `minutes`. */
  lemma MinutesLabelReadsBack(minutes: nat)
    ensures ReadCountdown(Label(0, minutes)) == Some((0, minutes))
  {
    var m := NatToString(minutes);
    DigitsHoldNoLetters(minutes);
    var s := Label(0, minutes);
    assert s == "in " + m + "m";
    assert s[..3] == "in " && s[3..|s| - 1] == m;
  }

  /** "in " + h + "h " + m + "m" for digit strings `h` and `m` reads back as their values. */
  lemma {:induction false} HoursFormReadsBack(h: string, m: string)
    requires h != "" && AllDigits(h) && m != "" && AllDigits(m)
    ensures ReadCountdown("in " + h + "h " + m + "m") == Some((DigitsValue(h), DigitsValue(m)))
  {
    assert 'h' !in h by {
      assert forall i :: 0 <= i < |h| ==> IsDigit(h[i]);
    }
    var body := h + ['h'] + (" " + m);
    var s := "in " + h + "h " + m + "m";
    assert s == "in " + body + "m";
    assert |s| >= 5 && s[|s| - 1] == 'm';
    assert s[..3] == "in " && s[3..|s| - 1] == body;
    BeforePrefix(h, " " + m, 'h');
    assert body[|h| + 1] == ' ' && body[|h| + 2..] == m;
  }

  /** "in Hh Mm" reads back as `hours` and `minutes`. */
  lemma HoursLabelReadsBack(hours: nat, minutes: nat)
    requires hours > 0
    ensures ReadCountdown(Label(hours, minutes)) == Some((hours, minutes))
  {
    DigitsHoldNoLetters(hours);
    DigitsHoldNoLetters(minutes);
    HoursFormReadsBack(NatToString(hours), NatToString(minutes));
  }

  /** A countdown text reads back as the hours and minutes it was made from. */
  lemma LabelReadsBack(hours: nat, minutes: nat)
    ensures ReadCountdown(Label(hours, minutes)) == Some((hours, minutes))
  {
    if hours > 0 {
      HoursLabelReadsBack(hours, minutes);
    } else {
      MinutesLabelReadsBack(minutes);
    }
  }

  /**
   * The countdown of a prayer still ahead reads back as the whole hours and
   * the minutes within the hour that are left.
   */
  lemma CountdownReadsBack(p: Prayer, nowMillis: int)
    requires p.time * 1000 > nowMillis
    ensures var seconds := SecondsLeft(p, nowMillis);
      ReadCountdown(TimeUntil(Some(p), nowMillis)) == Some((seconds / 3600, seconds % 3600 / 60))
  {
    var seconds := SecondsLeft(p, nowMillis);
    LabelReadsBack(seconds / 3600, seconds % 3600 / 60);
  }

  /**
   * Two countdowns for prayers still ahead are the same text exactly when the
   * same whole minutes are left.
   */
  lemma CountdownChangesWithMinutes(p: Prayer, now1: int, q: Prayer, now2: int)
    requires p.time * 1000 > now1 && q.time * 1000 > now2
    ensures TimeUntil(Some(p), now1) == TimeUntil(Some(q), now2)
      <==> SecondsLeft(p, now1) / 60 == SecondsLeft(q, now2) / 60
  {
    var s1, s2 := SecondsLeft(p, now1), SecondsLeft(q, now2);
    CountdownReadsBack(p, now1);
    CountdownReadsBack(q, now2);
    MinutesSplit(s1);
    MinutesSplit(s2);
  }

  /** The hours and the minutes within the hour are the whole minutes divided by 60, with remainder. */
  lemma MinutesSplit(seconds: nat)
    ensures seconds / 3600 == (seconds / 60) / 60 && seconds % 3600 / 60 == (seconds / 60) % 60
  {
    var h, r := seconds / 3600, seconds % 3600;
    DivModOf(seconds, 60, h * 60 + r / 60, r % 60);
    DivModOf(h * 60 + r / 60, 60, h, r / 60);
  }

  /** No prayer shows nothing; a prayer whose time has come shows "Now"; under a minute shows "in 0m". */
  lemma CountdownEdges(p: Prayer, nowMillis: int)
    ensures TimeUntil(None, nowMillis) == ""
    ensures p.time * 1000 <= nowMillis ==> TimeUntil(Some(p), nowMillis) == "Now"
    ensures 0 < p.time * 1000 - nowMillis < 60_000 ==> TimeUntil(Some(p), nowMillis) == "in 0m"
  {
  }
}
