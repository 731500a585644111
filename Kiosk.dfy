/**
 * The browser kiosk page (app.js): it fetches the day's five prayer times,
 * keeps them sorted, tracks the next upcoming prayer, and on a one-second tick
 * plays the adhan once per prayer name. Network replies, the clock and the
 * geolocation outcome are inputs; the pending HTTP requests, the adhan plays
 * and the armed timers are recorded in fields so that their effects can be stated.
 */
module Kiosk {
  import opened Wrappers
  import opened Text
  import opened Calendar

  /** The prayers app.js builds a schedule for, in its order. */
  const DailyPrayers: seq<string> := ["Fajr", "Dhuhr", "Asr", "Maghrib", "Isha"]

  /** A JavaScript time value in milliseconds, or NaN when the time string did not parse. */
  datatype Stamp = At(ms: int) | NaN

  /** A schedule entry `{ name, time, timestamp }`. */
  datatype Entry = Entry(name: string, time: string, timestamp: Stamp)

  /** `p.timestamp > now`, false for NaN. */
  predicate IsUpcoming(e: Entry, now: int) {
    e.timestamp.At? && e.timestamp.ms > now
  }

  /** `now >= p.timestamp`, false for NaN. */
  predicate IsReached(e: Entry, now: int) {
    e.timestamp.At? && now >= e.timestamp.ms
  }

  /** The names of the entries, in their order. */
  function Names(s: seq<Entry>): seq<string> {
    seq(|s|, k requires 0 <= k < |s| => s[k].name)
  }

  // ---------------------------------------------------------------------------
  // Building the schedule (app.js:116-124)
  // ---------------------------------------------------------------------------

  /** The largest magnitude of a JavaScript time value: 10^8 days in milliseconds. */
  const MaxTimeValue := 8_640_000_000_000_000

  /**
   * `new Date(y, m, d, hh, mm, 0).getTime()` where `[hh, mm] = time.split(':').map(Number)`:
   * a missing minute part or a part `Number` cannot read gives NaN, and so does
   * an instant beyond `MaxTimeValue` either side of the epoch.
   */
  function StampAt(base: Date, time: string): Stamp
    requires 1 <= base.month <= 12
  {
    var parts := Split(time, ':');
    var hh := JsNumber(parts[0]);
    var mm := if |parts| >= 2 then JsNumber(parts[1]) else None;
    if hh.Some? && mm.Some? then TimeClip(EpochSeconds(base, hh.value, mm.value, 0) * 1000) else NaN
  }

  /** ECMAScript's TimeClip: a time value beyond `MaxTimeValue` either side of the epoch is NaN. */
  function TimeClip(ms: int): (r: Stamp)
    ensures r.At? <==> -MaxTimeValue <= ms <= MaxTimeValue
    ensures r.At? ==> r.ms == ms
  {
    if -MaxTimeValue <= ms <= MaxTimeValue then At(ms) else NaN
  }

  /** The base days whose every time of day lies within the JavaScript time-value range. */
  predicate InTimeRange(base: Date)
    requires 1 <= base.month <= 12
  {
    -100_000_000 <= DayNumber(base) < 100_000_000
  }

  /**
   * The `dailyPrayers.map(...)` that builds the schedule for calendar day `base`
   * from the reply's `timings` object. A missing prayer makes `timeStr.split`
   * throw, so no schedule is built (None).
   */
  function BuildSchedule(base: Date, timings: map<string, string>): (r: Option<seq<Entry>>)
    requires 1 <= base.month <= 12
    ensures r.Some? <==> forall k :: 0 <= k < 5 ==> DailyPrayers[k] in timings
    ensures r.Some? ==> Names(r.value) == DailyPrayers
    ensures r.Some? ==> forall k :: 0 <= k < 5 ==>
      && r.value[k].time == timings[DailyPrayers[k]]
      && r.value[k].timestamp == StampAt(base, timings[DailyPrayers[k]])
  {
    if forall k :: 0 <= k < 5 ==> DailyPrayers[k] in timings then
      Some(seq(5, k requires 0 <= k < 5 =>
        Entry(DailyPrayers[k], timings[DailyPrayers[k]], StampAt(base, timings[DailyPrayers[k]]))))
    else
      None
  }

  /**
   * A reply time "HH:MM" becomes the base day at HH:MM:00: its instant is a whole
   * number of seconds on day `base` whose time of day is HH:MM with seconds 0.
   */
  lemma StampOfClockTime(base: Date, h: nat, m: nat)
    requires 1 <= base.month <= 12 && InTimeRange(base) && h < 24 && m < 60
    ensures var st := StampAt(base, Pad2(h) + ":" + Pad2(m));
      && st.At?
      && st.ms % 1000 == 0
      && (st.ms / 1000) / SecondsPerDay == DayNumber(base)
      && SecondOfDay(st.ms / 1000) == h * 3600 + m * 60
  {
    StampOfClockTimeValue(base, h, m);
    MillisOfClockTime(base, h, m);
  }

  /** "HH:MM" becomes the instant of HH:MM:00 on day `base`, in milliseconds. */
  lemma StampOfClockTimeValue(base: Date, h: nat, m: nat)
    requires 1 <= base.month <= 12 && InTimeRange(base) && h < 24 && m < 60
    ensures StampAt(base, Pad2(h) + ":" + Pad2(m)) == At(EpochSeconds(base, h, m, 0) * 1000)
  {
    ClockTimeReads(h, m);
    ClockTimeInRange(base, h, m);
    var ms := EpochSeconds(base, h, m, 0) * 1000;
    assert StampAt(base, Pad2(h) + ":" + Pad2(m)) == TimeClip(ms);
  }

  /** A time of day on a day in range is a JavaScript time value in range. */
  lemma ClockTimeInRange(base: Date, h: nat, m: nat)
    requires 1 <= base.month <= 12 && InTimeRange(base) && h < 24 && m < 60
    ensures -MaxTimeValue <= EpochSeconds(base, h, m, 0) * 1000 <= MaxTimeValue
  {
    var secs := EpochSeconds(base, h, m, 0);
    assert -100_000_000 * SecondsPerDay <= secs < 100_000_000 * SecondsPerDay;
  }

  /** The instant of HH:MM:00 on day `base`, in milliseconds, is a whole second of that day at HH:MM. */
  lemma MillisOfClockTime(base: Date, h: nat, m: nat)
    requires 1 <= base.month <= 12 && h < 24 && m < 60
    ensures var ms := EpochSeconds(base, h, m, 0) * 1000;
      && ms % 1000 == 0
      && (ms / 1000) / SecondsPerDay == DayNumber(base)
      && SecondOfDay(ms / 1000) == h * 3600 + m * 60
  {
    var secs := EpochSeconds(base, h, m, 0);
    SecondOfDayAt(base, h, m, 0);
    DivModOf(secs * 1000, 1000, secs, 0);
    DivModOf(secs, SecondsPerDay, DayNumber(base), h * 3600 + m * 60);
  }

  /** "HH:MM" splits at ':' into two pieces `Number` reads as the hour and the minute. */
  lemma ClockTimeReads(h: nat, m: nat)
    requires h < 100 && m < 100
    ensures var parts := Split(Pad2(h) + ":" + Pad2(m), ':');
      |parts| == 2 && JsNumber(parts[0]) == Some(h) && JsNumber(parts[1]) == Some(m)
  {
    Pad2Value(h);
    Pad2Value(m);
    DigitPairReads(Pad2(h), Pad2(m));
  }

  /** Two digit strings around ':' split into the two and read as their values. */
  lemma DigitPairReads(a: string, b: string)
    requires a != "" && b != "" && AllDigits(a) && AllDigits(b)
    ensures var parts := Split(a + ":" + b, ':');
      |parts| == 2 && JsNumber(parts[0]) == Some(DigitsValue(a)) && JsNumber(parts[1]) == Some(DigitsValue(b))
  {
    assert ':' !in a && ':' !in b;
    SplitPrefix(a, b, ':');
    SplitNoSep(b, ':');
    JsNumberOfDigits(a);
    JsNumberOfDigits(b);
  }

  /** A time whose minute part `Number` cannot read gives NaN. */
  lemma UnreadableMinuteIsNaN(base: Date, hh: string, mm: string)
    requires 1 <= base.month <= 12
    requires ':' !in hh && ':' !in mm && JsNumber(mm).None?
    ensures StampAt(base, hh + ":" + mm) == NaN
  {
    SplitPrefix(hh, mm, ':');
    SplitNoSep(mm, ':');
  }

  /** Digit parts whose instant lies beyond the time-value range give NaN, as `new Date` does. */
  lemma BeyondTimeRangeIsNaN(base: Date, hh: string, mm: string)
    requires 1 <= base.month <= 12
    requires hh != "" && mm != "" && AllDigits(hh) && AllDigits(mm)
    requires EpochSeconds(base, DigitsValue(hh), DigitsValue(mm), 0) * 1000 > MaxTimeValue
    ensures StampAt(base, hh + ":" + mm) == NaN
  {
    DigitPairReads(hh, mm);
  }

  /** Hour 2400000000 reads as a number, yet on any day after 1970-01-01 the instant is out of range. */
  lemma HugeHourIsNaN(base: Date)
    requires 1 <= base.month <= 12 && DayNumber(base) > 0
    ensures StampAt(base, "2400000000:00") == NaN
  {
    var hh := "2400000000";
    HugeHourDigits();
    assert "00"[..1] == "0";
    assert DigitsValue("00") == 0;
    assert hh + ":" + "00" == "2400000000:00";
    BeyondTimeRangeIsNaN(base, hh, "00");
  }

  /** "24000" is a digit string worth 24000. */
  lemma HugeHourDigitsPrefix()
    ensures AllDigits("24000") && DigitsValue("24000") == 24000
  {
    assert DigitsValue("2") == 2;
    assert "24"[..1] == "2";
    assert DigitsValue("24") == 24;
    assert "240"[..2] == "24";
    assert DigitsValue("240") == 240;
    assert "2400"[..3] == "240";
    assert DigitsValue("2400") == 2400;
    assert "24000"[..4] == "2400";
    assert DigitsValue("24000") == 24000;
  }

  /** "2400000000" is a digit string worth 2400000000. */
  lemma HugeHourDigits()
    ensures AllDigits("2400000000") && DigitsValue("2400000000") == 2400000000
  {
    HugeHourDigitsPrefix();
    assert "240000"[..5] == "24000";
    assert DigitsValue("240000") == 240000;
    assert "2400000"[..6] == "240000";
    assert DigitsValue("2400000") == 2400000;
    assert "24000000"[..7] == "2400000";
    assert DigitsValue("24000000") == 24000000;
    assert "240000000"[..8] == "24000000";
    assert DigitsValue("240000000") == 240000000;
    assert "2400000000"[..9] == "240000000";
    assert DigitsValue("2400000000") == 2400000000;
  }

  /** A minute part with a parenthesised zone suffix, which app.js does not strip, is NaN. */
  lemma ZoneSuffixIsNaN()
    ensures JsNumber("30 (EST)").None?
  {
    var mm := "30 (EST)";
    assert TrimStart(mm) == mm;
    assert TrimEnd(mm) == mm;
    assert mm[2] == ' ' && mm[1..][1] == ' ';
  }

  // ---------------------------------------------------------------------------
  // Sorting (app.js:170)
  // ---------------------------------------------------------------------------

  /** The sort comparator `a.timestamp - b.timestamp`; a NaN result counts as 0. */
  function Compare(x: Entry, y: Entry): int {
    if x.timestamp.At? && y.timestamp.At? then x.timestamp.ms - y.timestamp.ms else 0
  }

  /** Every neighbouring pair is in comparator order. */
  ghost predicate InOrder(s: seq<Entry>) {
    forall p, q :: 0 <= p && q == p + 1 && q < |s| ==> Compare(s[p], s[q]) <= 0
  }

  predicate AllNumbers(s: seq<Entry>) {
    forall k :: 0 <= k < |s| ==> s[k].timestamp.At?
  }

  /** Ascending by timestamp. */
  ghost predicate Ascending(s: seq<Entry>)
    requires AllNumbers(s)
  {
    forall p, q :: 0 <= p < q < |s| ==> s[p].timestamp.ms <= s[q].timestamp.ms
  }

  /** When every timestamp is a number, neighbour order is full ascending order. */
  lemma {:induction false} InOrderAscending(s: seq<Entry>)
    requires AllNumbers(s) && InOrder(s)
    ensures Ascending(s)
  {
    if |s| > 1 {
      var t := s[..|s| - 1];
      assert AllNumbers(t) && InOrder(t);
      InOrderAscending(t);
      forall p | 0 <= p < |s| - 1
        ensures s[p].timestamp.ms <= s[|s| - 1].timestamp.ms
      {
        assert t[p] == s[p] && t[|s| - 2] == s[|s| - 2];
        assert Compare(s[|s| - 2], s[|s| - 1]) <= 0;
      }
    }
  }

  /** `perm` lists each index below `n` exactly once. */
  ghost predicate IsPermutation(perm: seq<int>, n: nat) {
    && |perm| == n
    && (forall k :: 0 <= k < n ==> 0 <= perm[k] < n)
    && (forall p, q :: 0 <= p < q < n ==> perm[p] != perm[q])
  }

  /** `s` is `s0` rearranged by `perm`: entry `k` of `s` is entry `perm[k]` of `s0`. */
  ghost predicate Rearranges(s: seq<Entry>, s0: seq<Entry>, perm: seq<int>) {
    && |s| == |s0|
    && IsPermutation(perm, |s|)
    && (forall k {:trigger perm[k]} :: 0 <= k < |s| ==> s[k] == s0[perm[k]])
  }

  /** Entries the comparator ties keep the order they had before the rearrangement. */
  ghost predicate Stable(s: seq<Entry>, perm: seq<int>)
    requires |perm| == |s|
  {
    forall p, q :: 0 <= p < q < |s| && Compare(s[p], s[q]) == 0 ==> perm[p] < perm[q]
  }

  /** Every pair the rearrangement put out of input order is strictly ordered. */
  ghost predicate StrictInversions(s: seq<Entry>, perm: seq<int>)
    requires |perm| == |s|
  {
    forall p, q :: 0 <= p < q < |s| && perm[q] < perm[p] ==> Compare(s[p], s[q]) < 0
  }

  /**
   * `s` is `s0` sorted stably: the same entries, neighbours in comparator order
   * (ascending when no stamp is NaN), rearranged by `perm` with ties kept in
   * their order in `s0`.
   */
  ghost predicate SortedStably(s: seq<Entry>, s0: seq<Entry>, perm: seq<int>) {
    && multiset(s) == multiset(s0)
    && InOrder(s)
    && (AllNumbers(s) ==> Ascending(s))
    && Rearranges(s, s0, perm) && Stable(s, perm)
  }

  /**
   * `prayerSchedule.sort((a, b) => a.timestamp - b.timestamp)`, as a stable
   * insertion sort. The result is a permutation, neighbours are in comparator
   * order, entries the comparator ties keep their input order, and with no
   * NaN timestamp the array is ascending.
   */
  method SortByTimestamp(a: array<Entry>) returns (ghost perm: seq<int>)
    modifies a
    ensures SortedStably(a[..], old(a[..]), perm)
  {
    ghost var s0 := a[..];
    perm := seq(a.Length, k => k);
    IdentityRearranges(s0);
    var i := 0;
    while i < a.Length
      invariant 0 <= i <= a.Length
      invariant multiset(a[..]) == old(multiset(a[..]))
      invariant InOrder(a[..i])
      invariant Rearranges(a[..], s0, perm) && StrictInversions(a[..], perm)
    {
      perm := InsertLast(a, i, s0, perm);
      i := i + 1;
    }
    assert a[..] == a[..a.Length];
    if AllNumbers(a[..]) {
      InOrderAscending(a[..]);
    }
    StrictInversionsStable(a[..], s0, perm);
  }

  /** The identity rearranges a sequence into itself, with no inversions. */
  lemma IdentityRearranges(s: seq<Entry>)
    ensures var perm := seq(|s|, k => k);
      Rearranges(s, s, perm) && StrictInversions(s, perm)
  {
  }

  /** A rearrangement whose inversions are all strict is stable. */
  lemma StrictInversionsStable(s: seq<Entry>, s0: seq<Entry>, perm: seq<int>)
    requires Rearranges(s, s0, perm) && StrictInversions(s, perm)
    ensures Stable(s, perm)
  {
  }

  /**
   * Sorting the schedule as built: two prayers whose stamps the comparator ties
   * keep the order Fajr, Dhuhr, Asr, Maghrib, Isha.
   */
  lemma TiesKeepPrayerOrder(s: seq<Entry>, built: seq<Entry>, perm: seq<int>)
    requires Names(built) == DailyPrayers
    requires Rearranges(s, built, perm) && Stable(s, perm)
    ensures forall p, q, x, y ::
      && 0 <= p < |s| && 0 <= q < |s| && 0 <= x < y < |DailyPrayers|
      && s[p].name == DailyPrayers[x] && s[q].name == DailyPrayers[y]
      && Compare(s[p], s[q]) == 0
      ==> p < q
  {
    forall p, q, x, y |
      && 0 <= p < |s| && 0 <= q < |s| && 0 <= x < y < |DailyPrayers|
      && s[p].name == DailyPrayers[x] && s[q].name == DailyPrayers[y]
      && Compare(s[p], s[q]) == 0
      ensures p < q
    {
      assert s[p].name == Names(built)[perm[p]] && s[q].name == Names(built)[perm[q]];
      assert perm[p] == x && perm[q] == y;
    }
  }

  /** One insertion step: `a[i]` moves left past every greater neighbour. */
  method InsertLast(a: array<Entry>, i: nat, ghost s0: seq<Entry>, ghost perm0: seq<int>)
    returns (ghost perm: seq<int>)
    requires i < a.Length && InOrder(a[..i])
    requires Rearranges(a[..], s0, perm0) && StrictInversions(a[..], perm0)
    modifies a
    ensures multiset(a[..]) == old(multiset(a[..]))
    ensures InOrder(a[..i + 1])
    ensures Rearranges(a[..], s0, perm) && StrictInversions(a[..], perm)
  {
    perm := perm0;
    var j: nat := i;
    while j > 0 && Compare(a[j - 1], a[j]) > 0
      invariant multiset(a[..]) == old(multiset(a[..]))
      invariant Inserting(a[..], s0, perm, j, i)
    {
      ghost var b := a[..];
      SwapInsertStep(b, j, i, s0, perm);
      a[j - 1], a[j] := a[j], a[j - 1];
      assert a[..] == b[j - 1 := b[j]][j := b[j - 1]];
      perm := perm[j - 1 := perm[j]][j := perm[j - 1]];
      j := j - 1;
    }
    InsertDone(a[..], s0, perm, j, i);
  }

  /**
   * The state of `InsertLast`'s loop: `s[..j]` and `s[j..i + 1]` are each in
   * order, the entry moving left is in order with the one after it, and `s` is
   * `s0` rearranged with strict inversions only.
   */
  ghost predicate Inserting(s: seq<Entry>, s0: seq<Entry>, perm: seq<int>, j: nat, i: nat) {
    && j <= i < |s|
    && InOrder(s[..j]) && InOrder(s[j..i + 1])
    && (0 < j < i ==> Compare(s[j - 1], s[j + 1]) <= 0)
    && Rearranges(s, s0, perm) && StrictInversions(s, perm)
  }

  /** The loop stops with `s[..i + 1]` in order. */
  lemma InsertDone(s: seq<Entry>, s0: seq<Entry>, perm: seq<int>, j: nat, i: nat)
    requires Inserting(s, s0, perm, j, i)
    requires j > 0 ==> Compare(s[j - 1], s[j]) <= 0
    ensures InOrder(s[..i + 1])
  {
    assert s[..i + 1] == s[..j] + s[j..i + 1];
    var t := s[..i + 1];
    forall p, q | 0 <= p && q == p + 1 && q < |t|
      ensures Compare(t[p], t[q]) <= 0
    {
      if q < j {
        assert t[p] == s[..j][p] && t[q] == s[..j][q];
      } else if p >= j {
        assert t[p] == s[j..i + 1][p - j] && t[q] == s[j..i + 1][q - j];
      }
    }
  }

  /** The swap in one pass of `InsertLast`'s loop keeps every invariant of that loop. */
  lemma SwapInsertStep(b: seq<Entry>, j: nat, i: nat, s0: seq<Entry>, perm: seq<int>)
    requires 0 < j && Inserting(b, s0, perm, j, i) && Compare(b[j - 1], b[j]) > 0
    ensures var c := b[j - 1 := b[j]][j := b[j - 1]];
      var perm' := perm[j - 1 := perm[j]][j := perm[j - 1]];
      multiset(c) == multiset(b) && Inserting(c, s0, perm', j - 1, i)
  {
    var c := b[..j - 1] + [b[j], b[j - 1]] + b[j + 1..];
    assert b[j - 1 := b[j]][j := b[j - 1]] == c;
    SwapStep(b, j);
    SwapTail(b, j, i);
    if j > 1 {
      SwapBridge(b, j, i);
    }
    SwapRearranges(b, s0, perm, j);
  }

  /** Swapping a strictly greater neighbour pair keeps a rearrangement whose inversions are strict. */
  lemma SwapRearranges(b: seq<Entry>, s0: seq<Entry>, perm: seq<int>, j: nat)
    requires 0 < j < |b| && Compare(b[j - 1], b[j]) > 0
    requires Rearranges(b, s0, perm) && StrictInversions(b, perm)
    ensures var c := b[j - 1 := b[j]][j := b[j - 1]];
      var perm' := perm[j - 1 := perm[j]][j := perm[j - 1]];
      Rearranges(c, s0, perm') && StrictInversions(c, perm')
  {
    var c := b[j - 1 := b[j]][j := b[j - 1]];
    var perm' := perm[j - 1 := perm[j]][j := perm[j - 1]];
    forall p, q | 0 <= p < q < |c|
      ensures perm'[p] != perm'[q]
      ensures perm'[q] < perm'[p] ==> Compare(c[p], c[q]) < 0
    {
      var p0 := if p == j - 1 then j else if p == j then j - 1 else p;
      var q0 := if q == j - 1 then j else if q == j then j - 1 else q;
      assert c[p] == b[p0] && perm'[p] == perm[p0];
      assert c[q] == b[q0] && perm'[q] == perm[q0];
      if p0 > q0 {
        assert p == j - 1 && q == j;
      }
    }
  }

  /** Swapping the pair at `j - 1`, `j` permutes `b` and keeps the part before it. */
  lemma SwapStep(b: seq<Entry>, j: nat)
    requires 0 < j < |b|
    requires InOrder(b[..j])
    ensures var c := b[..j - 1] + [b[j], b[j - 1]] + b[j + 1..];
      && multiset(c) == multiset(b)
      && InOrder(c[..j - 1])
  {
    var pre, post := b[..j - 1], b[j + 1..];
    var c := pre + [b[j], b[j - 1]] + post;
    assert b == pre + [b[j - 1], b[j]] + post;
    assert c[..j - 1] == pre == b[..j][..j - 1];
    InOrderPrefix(b[..j], j - 1);
  }

  /** Swapping an out-of-order pair at the head of the sorted run keeps the run sorted. */
  lemma SwapTail(b: seq<Entry>, j: nat, i: nat)
    requires 0 < j <= i < |b|
    requires InOrder(b[j..i + 1])
    requires j < i ==> Compare(b[j - 1], b[j + 1]) <= 0
    requires Compare(b[j - 1], b[j]) > 0
    ensures var c := b[..j - 1] + [b[j], b[j - 1]] + b[j + 1..];
      InOrder(c[j - 1..i + 1])
  {
    var x, y := b[j], b[j - 1];
    var c := b[..j - 1] + [x, y] + b[j + 1..];
    var tail := b[j..i + 1];
    InOrderDrop(tail);
    if j < i {
      assert tail[1..][0] == b[j + 1];
    }
    InOrderCons(y, tail[1..]);
    InOrderCons(x, [y] + tail[1..]);
    assert c[j - 1..i + 1] == [x] + ([y] + tail[1..]);
  }

  /** After the swap, the element left of the moved pair is in order with the displaced one. */
  lemma SwapBridge(b: seq<Entry>, j: nat, i: nat)
    requires 1 < j <= i < |b|
    requires InOrder(b[..j])
    ensures var c := b[..j - 1] + [b[j], b[j - 1]] + b[j + 1..];
      Compare(c[j - 2], c[j]) <= 0
  {
    var c := b[..j - 1] + [b[j], b[j - 1]] + b[j + 1..];
    InOrderAt(b[..j], j - 2);
    assert c[j - 2] == b[j - 2] == b[..j][j - 2];
    assert c[j] == b[j - 1] == b[..j][j - 1];
  }

  lemma InOrderAt(s: seq<Entry>, p: nat)
    requires InOrder(s) && p + 1 < |s|
    ensures Compare(s[p], s[p + 1]) <= 0
  {
  }

  /** Neighbour order holds after dropping the first element. */
  lemma InOrderDrop(s: seq<Entry>)
    requires InOrder(s) && s != []
    ensures InOrder(s[1..])
  {
    var t := s[1..];
    forall p, q | 0 <= p && q == p + 1 && q < |t|
      ensures Compare(t[p], t[q]) <= 0
    {
      assert t[p] == s[p + 1] && t[q] == s[q + 1];
    }
  }

  /** Neighbour order holds for every prefix. */
  lemma InOrderPrefix(s: seq<Entry>, n: nat)
    requires InOrder(s) && n <= |s|
    ensures InOrder(s[..n])
  {
    var t := s[..n];
    forall p, q | 0 <= p && q == p + 1 && q < |t|
      ensures Compare(t[p], t[q]) <= 0
    {
      assert t[p] == s[p] && t[q] == s[q];
    }
  }

  /** Prepending `e` keeps neighbour order when `e` is in order with the old head. */
  lemma InOrderCons(e: Entry, s: seq<Entry>)
    requires InOrder(s) && (s != [] ==> Compare(e, s[0]) <= 0)
    ensures InOrder([e] + s)
  {
    var t := [e] + s;
    forall p, q | 0 <= p && q == p + 1 && q < |t|
      ensures Compare(t[p], t[q]) <= 0
    {
      if p >= 1 {
        assert t[p] == s[p - 1] && t[q] == s[q - 1];
      }
    }
  }

  // ---------------------------------------------------------------------------
  // Finding the next prayer (app.js:186-198)
  // ---------------------------------------------------------------------------

  /** `prayerSchedule.filter(p => p.timestamp > now)`. */
  function Upcoming(s: seq<Entry>, now: int): (r: seq<Entry>)
    ensures forall e :: e in r <==> e in s && IsUpcoming(e, now)
  {
    if s == [] then []
    else if IsUpcoming(s[0], now) then [s[0]] + Upcoming(s[1..], now)
    else Upcoming(s[1..], now)
  }

  /** `upcoming[0]`, or null when nothing is upcoming. */
  function NextUpcoming(s: seq<Entry>, now: int): Option<Entry> {
    var upcoming := Upcoming(s, now);
    if upcoming == [] then None else Some(upcoming[0])
  }

  /** The index of the first entry strictly after `now`, or |s| when there is none. */
  function FirstUpcomingIndex(s: seq<Entry>, now: int): (i: nat)
    ensures i <= |s|
    ensures forall j :: 0 <= j < i ==> !IsUpcoming(s[j], now)
    ensures i < |s| ==> IsUpcoming(s[i], now)
  {
    if s == [] then 0
    else if IsUpcoming(s[0], now) then 0
    else 1 + FirstUpcomingIndex(s[1..], now)
  }

  /**
   * The next prayer is the first entry whose timestamp is strictly after `now`
   * (an entry at exactly `now` is not upcoming); there is none exactly when no
   * entry is upcoming.
   */
  lemma {:induction false} NextUpcomingIsFirst(s: seq<Entry>, now: int)
    ensures var i := FirstUpcomingIndex(s, now);
      NextUpcoming(s, now) == if i < |s| then Some(s[i]) else None
  {
    if s != [] && !IsUpcoming(s[0], now) {
      NextUpcomingIsFirst(s[1..], now);
    }
  }

  /** On an ascending schedule the next prayer is the earliest upcoming one. */
  lemma NextUpcomingIsEarliest(s: seq<Entry>, now: int)
    requires AllNumbers(s) && Ascending(s)
    ensures forall e :: NextUpcoming(s, now) == Some(e) ==>
      IsUpcoming(e, now) && forall f :: f in s && IsUpcoming(f, now) ==> e.timestamp.ms <= f.timestamp.ms
    ensures NextUpcoming(s, now) == None <==> forall f :: f in s ==> !IsUpcoming(f, now)
  {
    NextUpcomingIsFirst(s, now);
    var i := FirstUpcomingIndex(s, now);
    forall f | f in s && IsUpcoming(f, now)
      ensures i < |s| && s[i].timestamp.ms <= f.timestamp.ms
    {
      var q :| 0 <= q < |s| && s[q] == f;
      assert !(q < i);
    }
  }

  // ---------------------------------------------------------------------------
  // Labels and dates
  // ---------------------------------------------------------------------------

  /** `displayCurrentTime`: zero-padded HH:MM:SS (app.js:231-241). */
  function ClockText(now: DateTime): string
    requires ValidDateTime(now)
  {
    Pad2(now.hour) + ":" + Pad2(now.minute) + ":" + Pad2(now.second)
  }

  /** The clock label is eight characters whose three fields read back as the hour, minute and second. */
  lemma ClockTextFields(now: DateTime)
    requires ValidDateTime(now)
    ensures var r := ClockText(now);
      && |r| == 8 && r[2] == ':' && r[5] == ':'
      && AllDigits(r[0..2]) && DigitsValue(r[0..2]) == now.hour
      && AllDigits(r[3..5]) && DigitsValue(r[3..5]) == now.minute
      && AllDigits(r[6..8]) && DigitsValue(r[6..8]) == now.second
  {
    Pad2Value(now.hour);
    Pad2Value(now.minute);
    Pad2Value(now.second);
    ClockFieldsOf(Pad2(now.hour), Pad2(now.minute), Pad2(now.second));
  }

  /** Three two-character fields joined by ':' sit at positions 0, 3 and 6 of an eight-character string. */
  lemma ClockFieldsOf(a: string, b: string, c: string)
    requires |a| == 2 && |b| == 2 && |c| == 2
    ensures var r := a + ":" + b + ":" + c;
      && |r| == 8 && r[2] == ':' && r[5] == ':'
      && r[0..2] == a && r[3..5] == b && r[6..8] == c
  {
  }

  /** JavaScript's `getMonth()`, 0-based. */
  function JsMonth(d: Date): int {
    d.month - 1
  }

  /** The city request's `DD-MM-YYYY` date parameter (app.js:99-102). */
  function DateParam(d: Date): string
    requires ValidDate(d)
  {
    var month := JsMonth(d) + 1;
    Pad2(d.day) + "-" + Pad2(month) + "-" + IntToString(d.year)
  }

  /** The date parameter reads back as the day, the 1-based month and the year. */
  lemma DateParamFields(d: Date)
    requires ValidDate(d)
    ensures var r := DateParam(d);
      && |r| >= 7 && r[2] == '-' && r[5] == '-'
      && AllDigits(r[0..2]) && DigitsValue(r[0..2]) == d.day
      && AllDigits(r[3..5]) && DigitsValue(r[3..5]) == d.month
      && SignedDigits(r[6..]) == Some(d.year)
  {
    PaddedFields(d.day, JsMonth(d) + 1, IntToString(d.year), '-');
    SignedDigitsOfIntToString(d.year);
  }

  /** `scheduleDailyRefresh`'s delay: local midnight after `now` minus `now`, in ms. */
  function DelayToMidnight(now: DateTime): int
    requires ValidDateTime(now)
  {
    var midnight := DayNumber(Date(now.date.year, now.date.month, now.date.day + 1)) * MillisPerDay;
    midnight - Millis(now)
  }

  /**
   * The refresh delay is positive, at most one day, and ends exactly at the start
   * of the next calendar day, also at the end of a month or a year.
   */
  lemma DelayEndsAtMidnight(now: DateTime)
    requires ValidDateTime(now)
    ensures 0 < DelayToMidnight(now) <= MillisPerDay
    ensures Millis(now) + DelayToMidnight(now) == DayNumber(NextDay(now.date)) * MillisPerDay
  {
    NextDayNumber(now.date);
  }

  /** The `day`, `month.en` and `year` fields of a reply's gregorian or hijri date. */
  datatype DayLabel = DayLabel(day: string, month: string, year: string)

  datatype ApiDate = ApiDate(gregorian: DayLabel, hijri: DayLabel)

  /** The date line `updateUI` writes (app.js:163-167). */
  function DateInfoText(d: ApiDate): string {
    "Today: " + d.gregorian.day + " " + d.gregorian.month + " " + d.gregorian.year
      + " | Hijri: " + d.hijri.day + " " + d.hijri.month + " " + d.hijri.year
  }

  // ---------------------------------------------------------------------------
  // Requests and replies
  // ---------------------------------------------------------------------------

  datatype Coords = Coords(latitude: real, longitude: real)

  /** The fallback location used when no coordinates are known. */
  const FallbackCity := "Queens"
  const FallbackState := "NY"
  const FallbackCountry := "USA"

  /** Every request asks for calculation method 2 (ISNA) and Asr school 1 (Hanafi). */
  const RequestMethod := 2
  const RequestSchool := 1

  /** The prayer-times request: by coordinates with the target day's midnight, or by the fallback city. */
  datatype Request =
    | ByCoordinates(latitude: real, longitude: real, unixTimestamp: int)
    | ByCity(city: string, state: string, country: string, dateParam: string)

  /** A `fetchPrayerData` call awaiting its reply: the day it is for and what it asked. */
  datatype Fetch = Fetch(target: Date, request: Request, calculationMethod: int, school: int)

  /**
   * The reply a fetch receives. `Rejected` is every failure before the body can
   * be read (network error, invalid JSON, no `data`); `timings` lacks a key when
   * the reply omits that prayer; `date` is None when `data.date` is missing.
   */
  datatype Reply = Rejected | Body(code: int, timings: map<string, string>, date: Option<ApiDate>)

  /** The synchronous part of `fetchPrayerData(offset)` at clock reading `now` (app.js:74-109). */
  function FetchFor(coords: Option<Coords>, now: DateTime, offset: nat): (f: Fetch)
    requires ValidDateTime(now)
    ensures ValidDate(f.target)
  {
    var target := AddDays(now.date, offset);
    var request := match coords
      case Some(c) => ByCoordinates(c.latitude, c.longitude, (DayNumber(target) * MillisPerDay) / 1000)
      case None => ByCity(FallbackCity, FallbackState, FallbackCountry, DateParam(target));
    Fetch(target, request, RequestMethod, RequestSchool)
  }

  /**
   * A fetch with offset `offset` is for the calendar day `offset` days after
   * `now`'s; with coordinates it sends that day's local midnight in whole
   * seconds, without them the fallback city and the day as DD-MM-YYYY.
   */
  lemma FetchForDay(coords: Option<Coords>, now: DateTime, offset: nat)
    requires ValidDateTime(now)
    ensures var f := FetchFor(coords, now, offset);
      && DayNumber(f.target) == DayNumber(now.date) + offset
      && (coords.Some? ==> f.request == ByCoordinates(coords.value.latitude, coords.value.longitude,
                                                      DayNumber(f.target) * SecondsPerDay))
      && (coords.None? ==> f.request == ByCity(FallbackCity, FallbackState, FallbackCountry, DateParam(f.target)))
      && f.calculationMethod == RequestMethod && f.school == RequestSchool
  {
    AddDaysNumber(now.date, offset);
  }

  /** The page's state, as one value. */
  datatype PageState = PageState(
    coords: Option<Coords>,
    schedule: seq<Entry>,
    next: Option<Entry>,
    played: set<string>,
    statusLabel: string,
    dateLabel: string,
    clockLabel: string,
    looping: bool,
    refreshDelay: Option<int>,
    inFlight: seq<Fetch>,
    adhanPlays: seq<string>,
    armedRefocus: nat)

  const ErrorText := "Error loading data"
  const AllDoneText := "All prayers done for today"

  // ---------------------------------------------------------------------------
  // The page's events as functions on its state
  // ---------------------------------------------------------------------------

  /** The next-prayer label `findNextPrayer` writes. */
  function StatusText(found: Option<Entry>): string {
    if found.None? then AllDoneText else found.value.name + " @ " + found.value.time
  }

  /** `fetchPrayerData(offset)` is called: its request joins the in-flight ones. */
  function WithFetch(st: PageState, now: DateTime, offset: nat): PageState
    requires ValidDateTime(now)
  {
    st.(inFlight := st.inFlight + [FetchFor(st.coords, now, offset)])
  }

  /** `findNextPrayer` at `now`; with nothing upcoming, tomorrow's fetch is requested. */
  function WithNextFound(st: PageState, now: DateTime): PageState
    requires ValidDateTime(now)
  {
    var found := NextUpcoming(st.schedule, Millis(now));
    var st' := st.(next := found, statusLabel := StatusText(found));
    if found.None? then WithFetch(st', now, 1) else st'
  }

  /** The schedule a reply to `fetch` yields, None when it is rejected, not code 200, or lacks a prayer. */
  function Built(fetch: Fetch, reply: Reply): Option<seq<Entry>>
    requires ValidDate(fetch.target)
  {
    if reply.Body? && reply.code == 200 then BuildSchedule(fetch.target, reply.timings) else None
  }

  /**
   * A complete reply with the schedule already sorted into `sorted`: `updateUI`
   * (date line, next prayer, loop started) and `scheduleDailyRefresh`.
   */
  function Loaded(st: PageState, sorted: seq<Entry>, date: ApiDate, now: DateTime): PageState
    requires ValidDateTime(now)
  {
    var shown := st.(schedule := sorted, played := {}, dateLabel := DateInfoText(date));
    WithNextFound(shown, now).(looping := true, refreshDelay := Some(DelayToMidnight(now)))
  }

  /**
   * One tick of the one-second interval at `now`: the clock is redrawn; once the
   * next prayer is reached its adhan plays if its name is not yet played, and a
   * 60-second re-focus is armed on every such tick.
   */
  function Ticked(st: PageState, now: DateTime): PageState
    requires ValidDateTime(now)
  {
    var reached := st.next.Some? && IsReached(st.next.value, Millis(now));
    var play := reached && st.next.value.name !in st.played;
    st.(clockLabel := ClockText(now),
        adhanPlays := if play then st.adhanPlays + [st.next.value.name] else st.adhanPlays,
        played := if play then st.played + {st.next.value.name} else st.played,
        armedRefocus := if reached then st.armedRefocus + 1 else st.armedRefocus)
  }

  predicate AllValid(nows: seq<DateTime>) {
    forall k :: 0 <= k < |nows| ==> ValidDateTime(nows[k])
  }

  /** A run of ticks, with nothing else happening in between. */
  function Ticks(st: PageState, nows: seq<DateTime>): PageState
    requires AllValid(nows)
    decreases |nows|
  {
    if nows == [] then st else Ticks(Ticked(st, nows[0]), nows[1..])
  }

  /** How many of the tick times have reached `e`. */
  function ReachedCount(e: Entry, nows: seq<DateTime>): nat
    requires AllValid(nows)
  {
    if nows == [] then 0
    else (if IsReached(e, Millis(nows[0])) then 1 else 0) + ReachedCount(e, nows[1..])
  }

  /** Some tick of the run has reached `e`. */
  predicate SomeReached(e: Entry, nows: seq<DateTime>)
    requires AllValid(nows)
  {
    exists k :: 0 <= k < |nows| && IsReached(e, Millis(nows[k]))
  }

  /**
   * However many ticks run while the next prayer stays the same, the adhan plays
   * at most once: exactly once, and for the next prayer's name, if that name was
   * not yet played and some tick has reached it; never otherwise. The schedule,
   * the next prayer and the requests are untouched, and there are as many new
   * re-focus timers as ticks that reached the prayer.
   */
  lemma {:induction false} TicksPlayAtMostOnce(st: PageState, nows: seq<DateTime>)
    requires AllValid(nows)
    ensures var end := Ticks(st, nows);
      && end.next == st.next && end.schedule == st.schedule && end.inFlight == st.inFlight
      && (end.adhanPlays == st.adhanPlays
          || (st.next.Some? && st.next.value.name !in st.played
              && end.adhanPlays == st.adhanPlays + [st.next.value.name]
              && end.played == st.played + {st.next.value.name}))
      && (end.adhanPlays == st.adhanPlays ==> end.played == st.played)
      && (end.adhanPlays != st.adhanPlays <==>
            st.next.Some? && st.next.value.name !in st.played && SomeReached(st.next.value, nows))
      && end.armedRefocus == st.armedRefocus + (if st.next.Some? then ReachedCount(st.next.value, nows) else 0)
    decreases |nows|
  {
    if nows != [] {
      var st' := Ticked(st, nows[0]);
      TicksPlayAtMostOnce(st', nows[1..]);
      if st.next.Some? {
        var e := st.next.value;
        assert SomeReached(e, nows) <==> IsReached(e, Millis(nows[0])) || SomeReached(e, nows[1..]) by {
          if SomeReached(e, nows) && !IsReached(e, Millis(nows[0])) {
            var k :| 0 <= k < |nows| && IsReached(e, Millis(nows[k]));
            assert nows[1..][k - 1] == nows[k];
          }
          if SomeReached(e, nows[1..]) {
            var k :| 0 <= k < |nows[1..]| && IsReached(e, Millis(nows[1..][k]));
            assert nows[k + 1] == nows[1..][k];
          }
        }
      }
    }
  }

  /**
   * Since `playedPrayers` was last cleared, when `adhanPlays` had `since`
   * elements, every adhan play is of a name in it and no name has played twice.
   */
  ghost predicate PlayedOnce(st: PageState, since: nat) {
    PlaysOnce(st.adhanPlays, st.played, since)
  }

  /** The plays from index `since` on are pairwise distinct names, each in `played`. */
  ghost predicate PlaysOnce(plays: seq<string>, played: set<string>, since: nat) {
    && since <= |plays|
    && (forall p, q :: since <= p < q < |plays| ==> plays[p] != plays[q])
    && (forall k :: since <= k < |plays| ==> plays[k] in played)
  }

  /** A tick keeps every name played at most once since the last clear. */
  lemma TickPlaysOnce(st: PageState, now: DateTime, since: nat)
    requires ValidDateTime(now) && PlayedOnce(st, since)
    ensures PlayedOnce(Ticked(st, now), since)
  {
  }

  /** Loading a schedule clears `playedPrayers`, and looking for the next prayer plays nothing. */
  lemma LoadStartsAfresh(st: PageState, sorted: seq<Entry>, date: ApiDate, now: DateTime)
    requires ValidDateTime(now)
    ensures var end := Loaded(st, sorted, date, now);
      && end.played == {} && end.adhanPlays == st.adhanPlays
      && PlayedOnce(end, |end.adhanPlays|)
  {
  }

  /** The page's globals and the effects of its timers and requests. */
  class Page {
    /** `userLat`/`userLon`, None while null. */
    var coords: Option<Coords>
    /** `prayerSchedule`. */
    var schedule: array<Entry>
    /** `nextPrayerData`. */
    var next: Option<Entry>
    /** `playedPrayers`. */
    var played: set<string>
    /** Text of the next-prayer label, the date line and the clock. */
    var statusLabel: string
    var dateLabel: string
    var clockLabel: string
    /** Whether `startMainLoop` has installed the one-second interval. */
    var looping: bool
    /** The delay of the pending midnight refresh timeout, if one is pending. */
    var refreshDelay: Option<int>
    /** Fetches issued and not yet answered. */
    var inFlight: seq<Fetch>
    /** Every `playAdhan()` call, by prayer name. */
    var adhanPlays: seq<string>
    /** Armed 60-second `findNextPrayer` timeouts that have not fired yet. */
    var armedRefocus: nat
    /** How many adhan plays there were when `playedPrayers` was last cleared. */
    ghost var clearedAt: nat

    ghost function State(): PageState
      reads this, schedule
    {
      PageState(coords, schedule[..], next, played, statusLabel, dateLabel, clockLabel,
                looping, refreshDelay, inFlight, adhanPlays, armedRefocus)
    }

    /**
     * Every request is for a real calendar day, and since `playedPrayers` was
     * last cleared no name has played twice and every play is recorded in it.
     */
    ghost predicate Valid()
      reads this
    {
      && (forall k :: 0 <= k < |inFlight| ==> ValidDate(inFlight[k].target))
      && PlaysOnce(adhanPlays, played, clearedAt)
    }

    /** The page as loaded: nothing fetched, nothing played, no timers. */
    constructor ()
      ensures Valid()
      ensures State() == PageState(None, [], None, {}, "", "", "", false, None, [], [], 0)
    {
      coords := None;
      schedule := new Entry[0];
      next := None;
      played := {};
      statusLabel, dateLabel, clockLabel := "", "", "";
      looping := false;
      refreshDelay := None;
      inFlight := [];
      adhanPlays := [];
      armedRefocus := 0;
      clearedAt := 0;
    }

    /**
     * `initAudio`'s geolocation outcome (app.js:45-67): the position on success,
     * None on error or without geolocation; either way today's fetch starts.
     */
    method Start(position: Option<Coords>, now: DateTime)
      requires Valid() && ValidDateTime(now)
      modifies this
      ensures Valid() && schedule == old(schedule) && clearedAt == old(clearedAt)
      ensures State() == WithFetch(old(State()).(coords := position), now, 0)
    {
      coords := position;
      StartFetch(now, 0);
    }

    /** `fetchPrayerData(offset)` up to its `await fetch(...)`: the request is issued. */
    method StartFetch(now: DateTime, offset: nat)
      requires Valid() && ValidDateTime(now)
      modifies this
      ensures Valid() && schedule == old(schedule) && clearedAt == old(clearedAt)
      ensures State() == WithFetch(old(State()), now, offset)
    {
      ghost var before := State();
      var f := FetchFor(coords, now, offset);
      inFlight := inFlight + [f];
      assert State() == before.(inFlight := before.inFlight + [f]);
      assert forall k :: 0 <= k < |inFlight| - 1 ==> inFlight[k] == before.inFlight[k];
    }

    /** `findNextPrayer` at clock reading `now`. */
    method FindNextPrayer(now: DateTime)
      requires Valid() && ValidDateTime(now)
      modifies this
      ensures Valid() && schedule == old(schedule) && clearedAt == old(clearedAt)
      ensures State() == WithNextFound(old(State()), now)
    {
      var found := NextUpcoming(schedule[..], Millis(now));
      next := found;
      statusLabel := StatusText(found);
      if found.None? {
        StartFetch(now, 1);
      }
    }

    /**
     * The reply to the in-flight fetch `k` arrives at clock reading `now` (the
     * rest of `fetchPrayerData`, then `updateUI` and `scheduleDailyRefresh`).
     * A rejected reply, a code other than 200 or a missing prayer only sets the
     * error label. Otherwise the schedule is replaced and `playedPrayers`
     * cleared; then, if the reply has its date, the schedule is sorted and the
     * page loaded; without it the error label is set and nothing else changes.
     */
    method CompleteFetch(k: nat, reply: Reply, now: DateTime) returns (ghost perm: seq<int>)
      requires Valid() && ValidDateTime(now)
      requires k < |inFlight|
      modifies this
      ensures Valid()
      ensures clearedAt == if Built(old(inFlight[k]), reply).Some? then old(|adhanPlays|) else old(clearedAt)
      ensures var st := old(State()).(inFlight := old(inFlight[..k] + inFlight[k + 1..]));
        var built := Built(old(inFlight[k]), reply);
        if built.None? then
          State() == st.(statusLabel := ErrorText) && schedule == old(schedule)
        else if reply.date.None? then
          State() == st.(schedule := built.value, played := {}, statusLabel := ErrorText)
        else
          && fresh(schedule)
          && SortedStably(schedule[..], built.value, perm)
          && State() == Loaded(st, schedule[..], reply.date.value, now)
    {
      perm := [];
      var fetch := inFlight[k];
      ghost var st := State().(inFlight := inFlight[..k] + inFlight[k + 1..]);
      inFlight := inFlight[..k] + inFlight[k + 1..];
      assert State() == st;
      var built := Built(fetch, reply);
      if built.None? {
        statusLabel := ErrorText;
        return;
      }
      Install(built.value);
      if reply.date.None? {
        statusLabel := ErrorText;
        return;
      }
      perm := ShowSchedule(reply.date.value, now);
    }

    /** The reply's schedule becomes `prayerSchedule` and `playedPrayers` is cleared. */
    method Install(entries: seq<Entry>)
      requires Valid()
      modifies this
      ensures Valid() && fresh(schedule) && clearedAt == old(|adhanPlays|)
      ensures State() == old(State()).(schedule := entries, played := {})
    {
      schedule := new Entry[|entries|](i requires 0 <= i < |entries| => entries[i]);
      assert schedule[..] == entries;
      played := {};
      clearedAt := |adhanPlays|;
    }

    /** `updateUI(data)` followed by `scheduleDailyRefresh()`, right after `playedPrayers` is cleared. */
    method ShowSchedule(date: ApiDate, now: DateTime) returns (ghost perm: seq<int>)
      requires Valid() && ValidDateTime(now) && played == {}
      modifies this, schedule
      ensures Valid() && schedule == old(schedule) && clearedAt == old(clearedAt)
      ensures SortedStably(schedule[..], old(schedule[..]), perm)
      ensures State() == Loaded(old(State()), schedule[..], date, now)
    {
      perm := UpdateUI(date, now);
      ghost var sorted := schedule[..];
      assert SortedStably(sorted, old(schedule[..]), perm);
      ScheduleDailyRefresh(now);
      assert schedule[..] == sorted;
    }

    /**
     * `updateUI` for a reply with its date: the date line is written, the
     * schedule sorted in place, the next prayer found and the loop started.
     */
    method UpdateUI(date: ApiDate, now: DateTime) returns (ghost perm: seq<int>)
      requires Valid() && ValidDateTime(now)
      modifies this, schedule
      ensures Valid() && schedule == old(schedule) && clearedAt == old(clearedAt)
      ensures SortedStably(schedule[..], old(schedule[..]), perm)
      ensures State() == WithNextFound(old(State()).(schedule := schedule[..], dateLabel := DateInfoText(date)), now)
                           .(looping := true)
    {
      dateLabel := DateInfoText(date);
      ghost var before := schedule[..];
      perm := SortByTimestamp(schedule);
      ghost var sorted := schedule[..];
      assert SortedStably(sorted, before, perm);
      FindNextPrayer(now);
      looping := true;
      assert schedule[..] == sorted;
    }

    /** `scheduleDailyRefresh`: the midnight refresh timeout is (re-)armed. */
    method ScheduleDailyRefresh(now: DateTime)
      requires Valid() && ValidDateTime(now)
      modifies this
      ensures Valid() && schedule == old(schedule) && clearedAt == old(clearedAt)
      ensures State() == old(State()).(refreshDelay := Some(DelayToMidnight(now)))
    {
      refreshDelay := Some(DelayToMidnight(now));
    }

    /** `displayCurrentTime`: the clock label shows `now`. */
    method DisplayCurrentTime(now: DateTime)
      requires Valid() && ValidDateTime(now)
      modifies this
      ensures Valid() && schedule == old(schedule) && clearedAt == old(clearedAt)
      ensures State() == old(State()).(clockLabel := ClockText(now))
    {
      clockLabel := ClockText(now);
    }

    /** One tick of the one-second interval at clock reading `now`. */
    method Tick(now: DateTime)
      requires Valid() && ValidDateTime(now) && looping
      modifies this
      ensures Valid() && schedule == old(schedule) && clearedAt == old(clearedAt)
      ensures State() == Ticked(old(State()), now)
    {
      DisplayCurrentTime(now);
      var reached := next.Some? && IsReached(next.value, Millis(now));
      var play := reached && next.value.name !in played;
      if play {
        adhanPlays, played := adhanPlays + [next.value.name], played + {next.value.name};
      }
      if reached {
        armedRefocus := armedRefocus + 1;
      }
    }

    /** One armed 60-second timeout fires: `findNextPrayer` runs again. */
    method Refocus(now: DateTime)
      requires Valid() && ValidDateTime(now) && armedRefocus > 0
      modifies this
      ensures Valid() && schedule == old(schedule) && clearedAt == old(clearedAt)
      ensures State() == WithNextFound(old(State()).(armedRefocus := old(armedRefocus) - 1), now)
    {
      armedRefocus := armedRefocus - 1;
      FindNextPrayer(now);
    }

    /** The midnight refresh timeout fires: today's fetch starts again. */
    method MidnightRefresh(now: DateTime)
      requires Valid() && ValidDateTime(now) && refreshDelay.Some?
      modifies this
      ensures Valid() && schedule == old(schedule) && clearedAt == old(clearedAt)
      ensures State() == WithFetch(old(State()).(refreshDelay := None), now, 0)
    {
      refreshDelay := None;
      StartFetch(now, 0);
    }
  }

  /** Sequences with the same multiset of entries have the same multiset of names. */
  lemma {:induction false} NamesMultiset(s: seq<Entry>, t: seq<Entry>)
    requires multiset(s) == multiset(t)
    ensures multiset(Names(s)) == multiset(Names(t))
    decreases |s|
  {
    if s == [] {
      assert |multiset(t)| == 0;
    } else {
      var e := s[0];
      assert e in multiset(t);
      assert e in t;
      var i :| 0 <= i < |t| && t[i] == e;
      var rest, t' := s[1..], t[..i] + t[i + 1..];
      WithoutFirst(s);
      Without(t, i);
      Cancel(multiset(rest), multiset(t'), e);
      NamesMultiset(rest, t');
      assert multiset(Names(s)) == multiset(Names(rest)) + multiset{e.name};
      assert multiset(Names(t)) == multiset(Names(t')) + multiset{e.name};
    }
  }

  /** Taking out the first entry takes one copy of it, and of its name, out of the multisets. */
  lemma WithoutFirst(s: seq<Entry>)
    requires s != []
    ensures multiset(s) == multiset(s[1..]) + multiset{s[0]}
    ensures multiset(Names(s)) == multiset(Names(s[1..])) + multiset{s[0].name}
  {
    assert s == [s[0]] + s[1..];
    NamesAppend([s[0]], s[1..]);
    assert Names([s[0]]) == [s[0].name];
  }

  /** Taking out the entry at `i` takes one copy of it, and of its name, out of the multisets. */
  lemma Without(t: seq<Entry>, i: nat)
    requires i < |t|
    ensures multiset(t) == multiset(t[..i] + t[i + 1..]) + multiset{t[i]}
    ensures multiset(Names(t)) == multiset(Names(t[..i] + t[i + 1..])) + multiset{t[i].name}
  {
    AroundIndex(t, i);
    NamesAppend(t[..i] + [t[i]], t[i + 1..]);
    NamesAppend(t[..i], [t[i]]);
    NamesAppend(t[..i], t[i + 1..]);
  }

  /** One copy of the same element added to two multisets makes them equal only if they were. */
  lemma Cancel<T>(a: multiset<T>, b: multiset<T>, x: T)
    requires a + multiset{x} == b + multiset{x}
    ensures a == b
  {
    forall y
      ensures a[y] == b[y]
    {
      assert (a + multiset{x})[y] == (b + multiset{x})[y];
    }
  }

  /** A sequence is its part before `i`, its element at `i` and its part after `i`. */
  lemma AroundIndex<T>(t: seq<T>, i: nat)
    requires i < |t|
    ensures t == t[..i] + [t[i]] + t[i + 1..]
  {
  }

  lemma NamesAppend(s: seq<Entry>, t: seq<Entry>)
    ensures Names(s + t) == Names(s) + Names(t)
  {
  }
}
