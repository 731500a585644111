/**
 * The iOS app's AlAdhan client (ios/AdhanApp/Services/AlAdhanService.swift):
 * it asks the AlAdhan timings endpoint for a day's prayer times with up to three
 * attempts and exponential backoff, parses the five "HH:mm" timings into
 * prayers on the requested day, labels the day in both calendars, and falls
 * back to the prayers cached in the user defaults when the request fails and
 * the cache was written today.
 *
 * The network is a script: `network(k)` is what the k-th request of one fetch
 * would bring back. The user defaults the service writes are the fields of
 * `AlAdhanService`. The backoff sleeps are recorded as their lengths in
 * nanoseconds.
 */
module AlAdhan {
  import opened Wrappers
  import opened Text
  import opened Calendar
  import opened Prayers

  // ---------------------------------------------------------------------------
  // Errors and the reply's shape (AlAdhanResponse.swift)
  // ---------------------------------------------------------------------------

  /** The service's own errors. */
  datatype AlAdhanError =
    | InvalidURL
    | NetworkError
    | HttpError(code: int)
    | ApiError(status: string)
    | ParseError(message: string)

  /**
   * Anything a fetch can throw: one of the service's errors, an error thrown
   * by the URL session, or one thrown by the JSON decoder.
   */
  datatype Failure = AlAdhan(error: AlAdhanError) | Transport(reason: string) | Decoding(reason: string)

  datatype WeekdayName = WeekdayName(en: string, ar: Option<string>)
  datatype MonthName = MonthName(number: int, en: string, ar: Option<string>)
  datatype GregorianDay = GregorianDay(date: string, day: string, weekday: WeekdayName, month: MonthName, year: string)
  datatype HijriDay = HijriDay(date: string, day: string, weekday: WeekdayName, month: MonthName, year: string)
  datatype DayInfo = DayInfo(readable: string, gregorian: GregorianDay, hijri: HijriDay)
  datatype Timings = Timings(fajr: string, sunrise: string, dhuhr: string, asr: string, maghrib: string, isha: string)
  datatype ReplyData = ReplyData(timings: Timings, date: DayInfo)
  datatype Reply = Reply(code: int, status: string, data: ReplyData)

  /** The body of an HTTP reply: a decodable AlAdhan reply, or bytes the decoder rejects. */
  datatype Body = Json(reply: Reply) | Undecodable(reason: string)

  /** What the URL session returns for a response that is not an HTTP one, or an HTTP status. */
  datatype UrlResponse = NotHttp | Http(statusCode: int)

  /** One request: the session throws, or it returns a body and a response. */
  datatype Attempt = Thrown(reason: string) | Answered(body: Body, response: UrlResponse)

  /** What `fetchPrayerTimes` returns. */
  datatype Fetched = Fetched(prayers: seq<Prayer>, gregorianDate: string, hijriDate: string)

  // ---------------------------------------------------------------------------
  // fetchWithRetry (AlAdhanService.swift:104-130)
  // ---------------------------------------------------------------------------

  predicate Succeeds(a: Attempt) {
    a.Answered? && a.response.Http? && 200 <= a.response.statusCode <= 299
  }

  /**
   * The body of one attempt, or what it throws: a status outside 200...299 is
   * `httpError(status)`, a response that is not HTTP is `httpError(0)`.
   */
  function AttemptResult(a: Attempt): (r: Result<Body, Failure>)
    ensures r.Ok? <==> Succeeds(a)
    ensures r.Ok? ==> r.value == a.body
    ensures a.Answered? && a.response.Http? && !Succeeds(a) ==> r == Err(AlAdhan(HttpError(a.response.statusCode)))
    ensures a.Answered? && a.response.NotHttp? ==> r == Err(AlAdhan(HttpError(0)))
    ensures a.Thrown? ==> r == Err(Transport(a.reason))
  {
    match a
    case Thrown(reason) => Err(Transport(reason))
    case Answered(body, NotHttp) => Err(AlAdhan(HttpError(0)))
    case Answered(body, Http(status)) =>
      if 200 <= status <= 299 then Ok(body) else Err(AlAdhan(HttpError(status)))
  }

  /** The outcome of attempts `from` up to `maxRetries`, given the error thrown last. */
  function Retry(network: nat -> Attempt, from: nat, maxRetries: nat, lastError: Failure): Result<Body, Failure>
    decreases maxRetries - from
  {
    if from >= maxRetries then Err(lastError)
    else match AttemptResult(network(from))
      case Ok(body) => Ok(body)
      case Err(e) => Retry(network, from + 1, maxRetries, e)
  }

  /** What `fetchWithRetry(url:maxRetries:)` returns or throws. */
  function RetryOutcome(network: nat -> Attempt, maxRetries: nat): Result<Body, Failure> {
    Retry(network, 0, maxRetries, AlAdhan(NetworkError))
  }

  /** The number of requests made: up to the first success, at most `maxRetries`. */
  function AttemptsMade(network: nat -> Attempt, from: nat, maxRetries: nat): (n: nat)
    ensures from <= maxRetries ==> from <= n <= maxRetries
    decreases maxRetries - from
  {
    if from >= maxRetries then from
    else if Succeeds(network(from)) then from + 1
    else AttemptsMade(network, from + 1, maxRetries)
  }

  function Pow2(k: nat): (p: nat)
    ensures p >= 1
  {
    if k == 0 then 1 else 2 * Pow2(k - 1)
  }

  /** The first `n` backoff sleeps in nanoseconds: 2^k seconds after the k-th failed attempt. */
  function Backoffs(n: nat): (s: seq<nat>)
    ensures |s| == n
    ensures forall k :: 0 <= k < n ==> s[k] == Pow2(k) * 1_000_000_000
  {
    if n == 0 then [] else Backoffs(n - 1) + [Pow2(n - 1) * 1_000_000_000]
  }

  /**
   * `fetchWithRetry`: tries up to `maxRetries` requests, returns the body of
   * the first with a 2xx status, sleeps 2^k seconds after the k-th failure
   * unless it was the last one allowed, and throws the last error (or
   * `networkError` when no request was allowed).
   */
  method FetchWithRetry(network: nat -> Attempt, maxRetries: nat)
    returns (r: Result<Body, Failure>, sleeps: seq<nat>, made: nat)
    ensures r == RetryOutcome(network, maxRetries)
    ensures made == AttemptsMade(network, 0, maxRetries)
    ensures sleeps == Backoffs(if made == 0 then 0 else made - 1)
  {
    var lastError := AlAdhan(NetworkError);
    sleeps := [];
    made := 0;
    for attempt := 0 to maxRetries
      invariant made == attempt
      invariant RetryOutcome(network, maxRetries) == Retry(network, attempt, maxRetries, lastError)
      invariant AttemptsMade(network, 0, maxRetries) == AttemptsMade(network, attempt, maxRetries)
      invariant sleeps == Backoffs(if attempt == maxRetries && attempt > 0 then attempt - 1 else attempt)
    {
      var result := AttemptResult(network(attempt));
      made := made + 1;
      if result.Ok? {
        return result, sleeps, made;
      }
      lastError := result.error;
      if attempt < maxRetries - 1 {
        sleeps := sleeps + [Pow2(attempt) * 1_000_000_000];
      }
    }
    r := Err(lastError);
  }

  /** When attempt `i` is the first success within the limit, its body is returned. */
  lemma {:induction false} RetryReturnsFirstSuccess(network: nat -> Attempt, from: nat, maxRetries: nat, lastError: Failure, i: nat)
    requires from <= i < maxRetries && Succeeds(network(i))
    requires forall j :: from <= j < i ==> !Succeeds(network(j))
    ensures Retry(network, from, maxRetries, lastError) == Ok(network(i).body)
    ensures AttemptsMade(network, from, maxRetries) == i + 1
    decreases i - from
  {
    if from < i {
      RetryReturnsFirstSuccess(network, from + 1, maxRetries, AttemptResult(network(from)).error, i);
    }
  }

  /**
   * When every allowed attempt fails, the last attempt's error is thrown
   * (`networkError` when none was allowed) after all `maxRetries` requests.
   */
  lemma {:induction false} RetryAllFail(network: nat -> Attempt, from: nat, maxRetries: nat, lastError: Failure)
    requires from <= maxRetries
    requires forall j :: from <= j < maxRetries ==> !Succeeds(network(j))
    ensures Retry(network, from, maxRetries, lastError)
      == Err(if from == maxRetries then lastError else AttemptResult(network(maxRetries - 1)).error)
    ensures AttemptsMade(network, from, maxRetries) == maxRetries
    decreases maxRetries - from
  {
    if from < maxRetries {
      RetryAllFail(network, from + 1, maxRetries, AttemptResult(network(from)).error);
    }
  }

  /** With zero retries nothing is requested and `networkError` is thrown. */
  lemma ZeroRetries(network: nat -> Attempt)
    ensures RetryOutcome(network, 0) == Err(AlAdhan(NetworkError))
    ensures AttemptsMade(network, 0, 0) == 0
  {
  }

  /**
   * The app's three retries: when all three fail it sleeps 1 s and 2 s, never
   * after the third, and throws the third attempt's error.
   */
  lemma ThreeFailedRetries(network: nat -> Attempt)
    requires forall j :: 0 <= j < 3 ==> !Succeeds(network(j))
    ensures RetryOutcome(network, 3) == Err(AttemptResult(network(2)).error)
    ensures AttemptsMade(network, 0, 3) == 3
    ensures Backoffs(3 - 1) == [1_000_000_000, 2_000_000_000]
  {
    RetryAllFail(network, 0, 3, AlAdhan(NetworkError));
  }

  // ---------------------------------------------------------------------------
  // parsePrayers / parseTime (AlAdhanService.swift:134-168)
  // ---------------------------------------------------------------------------

  /**
   * `parseTime`: the text before the first space, split on ':' with empty
   * pieces dropped, must be exactly two integers; the prayer is then at that
   * hour and minute of `day`, second 0. Hours and minutes out of range carry
   * over, as the calendar's lenient date construction does.
   */
  function ParseTime(timeString: string, name: string, arabicName: string, day: Date): (r: Result<Prayer, AlAdhanError>)
    requires 1 <= day.month <= 12
    ensures r.Ok? ==> r.value.name == name && r.value.arabicName == arabicName && r.value.time % 60 == 0
    ensures r.Err? ==> r.error == ParseError("Invalid time format: " + timeString)
  {
    var parts := SplitOmittingEmpty(Before(timeString, ' '), ':');
    if |parts| == 2 && SwiftInt(parts[0]).Some? && SwiftInt(parts[1]).Some? then
      var hour, minute := SwiftInt(parts[0]).value, SwiftInt(parts[1]).value;
      var t := EpochSeconds(day, hour, minute, 0);
      assert t == (DayNumber(day) * 1440 + hour * 60 + minute) * 60 + 0;
      DivModOf(t, 60, DayNumber(day) * 1440 + hour * 60 + minute, 0);
      Ok(MakePrayer(name, arabicName, t))
    else
      Err(ParseError("Invalid time format: " + timeString))
  }

  /** Two-digit padding holds neither ':' nor ' '. */
  lemma Pad2NoSeparators(n: nat)
    requires n < 100
    ensures |Pad2(n)| == 2 && ':' !in Pad2(n) && ' ' !in Pad2(n)
  {
    Pad2Value(n);
    assert IsDigit(Pad2(n)[0]) && IsDigit(Pad2(n)[1]);
  }

  /** The pieces of "a:b", for pieces that hold no ':', with empty pieces dropped. */
  lemma {:induction false} TwoPieces(a: string, b: string)
    requires a != "" && b != "" && ':' !in a && ':' !in b
    ensures SplitOmittingEmpty(a + ":" + b, ':') == [a, b]
  {
    SplitPrefix(a, b, ':');
    SplitNoSep(b, ':');
    assert a + ":" + b == a + [':'] + b;
    assert Split(a + ":" + b, ':') == [a, b];
    assert NonEmpty([a, b]) == [a] + NonEmpty([b]);
    assert NonEmpty([b]) == [b] + NonEmpty([]);
  }

  /** The zone suffix " (tz)" is dropped before the clock is read. */
  lemma {:induction false} DropsSuffix(clock: string, suffix: string)
    requires ' ' !in clock
    requires suffix == "" || suffix[0] == ' '
    ensures Before(clock + suffix, ' ') == clock
  {
    if suffix == "" {
      assert clock + suffix == clock;
    } else {
      assert clock + suffix == clock + [' '] + suffix[1..];
      BeforePrefix(clock, suffix[1..], ' ');
    }
  }

  /** An "HH:mm" reading, optionally followed by " (zone)", parses to that hour and minute of `day`. */
  lemma ParseClockTime(h: nat, m: nat, suffix: string, name: string, arabicName: string, day: Date)
    requires h < 100 && m < 100
    requires suffix == "" || suffix[0] == ' '
    requires 1 <= day.month <= 12
    ensures ParseTime(Pad2(h) + ":" + Pad2(m) + suffix, name, arabicName, day)
      == Ok(MakePrayer(name, arabicName, EpochSeconds(day, h, m, 0)))
  {
    var a, b := Pad2(h), Pad2(m);
    Pad2NoSeparators(h);
    Pad2NoSeparators(m);
    var clock := a + ":" + b;
    assert ' ' !in clock by {
      assert clock == a + [':'] + b;
      assert forall c :: c in clock ==> c in a || c == ':' || c in b;
    }
    DropsSuffix(clock, suffix);
    TwoPieces(a, b);
    SwiftIntOfPad2(h);
    SwiftIntOfPad2(m);
  }

  /**
   * Formatting and parsing agree: the "HH:mm" label of a prayer on `day`
   * parses back to the same prayer at its whole minute.
   */
  lemma ParseFormattedTime(p: Prayer, name: string, arabicName: string, day: Date)
    requires 1 <= day.month <= 12
    requires p.time / SecondsPerDay == DayNumber(day)
    ensures ParseTime(FormattedTime(p), name, arabicName, day) == Ok(MakePrayer(name, arabicName, p.time - p.time % 60))
  {
    var s := SecondOfDay(p.time);
    ClockFields(p.time);
    assert FormattedTime(p) == Pad2(s / 3600) + ":" + Pad2(s % 3600 / 60) + "";
    ParseClockTime(s / 3600, s % 3600 / 60, "", name, arabicName, day);
  }

  /** A reading with seconds, "HH:mm:ss", is rejected. */
  lemma ParseRejectsSeconds(h: nat, m: nat, sec: nat, name: string, arabicName: string, day: Date)
    requires h < 100 && m < 100 && sec < 100
    requires 1 <= day.month <= 12
    ensures ParseTime(Pad2(h) + ":" + Pad2(m) + ":" + Pad2(sec), name, arabicName, day).Err?
  {
    var a, b, c := Pad2(h), Pad2(m), Pad2(sec);
    Pad2NoSeparators(h);
    Pad2NoSeparators(m);
    Pad2NoSeparators(sec);
    var tail := b + ":" + c;
    var str := a + ":" + tail;
    assert str == a + ":" + b + ":" + c;
    assert ' ' !in str by {
      assert str == a + [':'] + b + [':'] + c;
      assert forall x :: x in str ==> x in a || x == ':' || x in b || x in c;
    }
    DropsSuffix(str, "");
    SplitPrefix(a, tail, ':');
    TwoPieces(b, c);
    assert str == a + [':'] + tail;
    assert Split(str, ':') == [a] + Split(tail, ':');
    assert NonEmpty([a] + Split(tail, ':')) == [a] + NonEmpty(Split(tail, ':'));
  }

  /**
   * The five timings in canonical order, each parsed; the first failure is
   * thrown and no partial list is returned.
   */
  function ParseEach(times: seq<string>, names: seq<string>, arabicNames: seq<string>, day: Date)
    : (r: Result<seq<Prayer>, AlAdhanError>)
    requires |times| == |names| == |arabicNames|
    requires 1 <= day.month <= 12
    ensures r.Ok? <==> forall k :: 0 <= k < |times| ==> ParseTime(times[k], names[k], arabicNames[k], day).Ok?
    ensures r.Ok? ==> (
      && |r.value| == |times|
      && forall k :: 0 <= k < |times| ==> r.value[k] == ParseTime(times[k], names[k], arabicNames[k], day).value)
    ensures r.Err? ==> (exists k :: (
      && 0 <= k < |times|
      && (forall j :: 0 <= j < k ==> ParseTime(times[j], names[j], arabicNames[j], day).Ok?)
      && ParseTime(times[k], names[k], arabicNames[k], day) == Err(r.error)))
  {
    if times == [] then Ok([])
    else
      var first := ParseTime(times[0], names[0], arabicNames[0], day);
      if first.Err? then Err(first.error)
      else
        var rest := ParseEach(times[1..], names[1..], arabicNames[1..], day);
        if rest.Err? then
          FailureAfterFirst(times, names, arabicNames, day, rest.error);
          Err(rest.error)
        else
          Ok([first.value] + rest.value)
  }

  /** A first failure among the times after the first, which parses, is a first failure among all of them. */
  lemma FailureAfterFirst(times: seq<string>, names: seq<string>, arabicNames: seq<string>, day: Date, e: AlAdhanError)
    requires 0 < |times| == |names| == |arabicNames|
    requires 1 <= day.month <= 12
    requires ParseTime(times[0], names[0], arabicNames[0], day).Ok?
    requires exists k :: (
      && 0 <= k < |times| - 1
      && (forall j :: 0 <= j < k ==> ParseTime(times[1..][j], names[1..][j], arabicNames[1..][j], day).Ok?)
      && ParseTime(times[1..][k], names[1..][k], arabicNames[1..][k], day) == Err(e))
    ensures exists k :: (
      && 0 <= k < |times|
      && (forall j :: 0 <= j < k ==> ParseTime(times[j], names[j], arabicNames[j], day).Ok?)
      && ParseTime(times[k], names[k], arabicNames[k], day) == Err(e))
  {
    var k :| && 0 <= k < |times| - 1
      && (forall j :: 0 <= j < k ==> ParseTime(times[1..][j], names[1..][j], arabicNames[1..][j], day).Ok?)
      && ParseTime(times[1..][k], names[1..][k], arabicNames[1..][k], day) == Err(e);
    forall j | 0 <= j < k + 1
      ensures ParseTime(times[j], names[j], arabicNames[j], day).Ok?
    {
      if j > 0 {
        assert times[1..][j - 1] == times[j] && names[1..][j - 1] == names[j] && arabicNames[1..][j - 1] == arabicNames[j];
      }
    }
    assert times[1..][k] == times[k + 1] && names[1..][k] == names[k + 1] && arabicNames[1..][k] == arabicNames[k + 1];
  }

  /** `parsePrayers`: Fajr, Dhuhr, Asr, Maghrib and Isha from the timings; Sunrise is not used. */
  function ParsePrayers(timings: Timings, day: Date): (r: Result<seq<Prayer>, AlAdhanError>)
    requires 1 <= day.month <= 12
  {
    ParseEach([timings.fajr, timings.dhuhr, timings.asr, timings.maghrib, timings.isha], PrayerNames, ArabicNames, day)
  }

  /**
   * A parsed list is exactly the five prayers with their Arabic names in
   * canonical order, each at a whole minute; a failure is the parse error of
   * one of the five timings.
   */
  lemma ParsePrayersShape(timings: Timings, day: Date)
    requires 1 <= day.month <= 12
    ensures var r := ParsePrayers(timings, day);
      && (r.Ok? ==> (
            && |r.value| == 5
            && (forall k :: 0 <= k < 5 ==>
                  r.value[k].name == PrayerNames[k] && r.value[k].arabicName == ArabicNames[k]
                  && r.value[k].time % 60 == 0)))
      && (r.Err? ==> r.error.ParseError?)
  {
  }

  /** Sunrise does not matter: timings differing only there parse alike. */
  lemma ParsePrayersIgnoresSunrise(timings: Timings, sunrise: string, day: Date)
    requires 1 <= day.month <= 12
    ensures ParsePrayers(timings.(sunrise := sunrise), day) == ParsePrayers(timings, day)
  {
  }

  // ---------------------------------------------------------------------------
  // Day labels (AlAdhanService.swift:172-184)
  // ---------------------------------------------------------------------------

  /** `formatGregorianDateFromAPI`: "weekday, month day, year" from the reply's English names. */
  function GregorianLabel(g: GregorianDay): (r: string)
    ensures g.weekday.en + ", " <= r
  {
    g.weekday.en + ", " + g.month.en + " " + g.day + ", " + g.year
  }

  /** `formatHijriDateFromAPI`: "day month year AH". */
  function HijriLabel(h: HijriDay): (r: string)
    ensures |r| >= 3 && r[|r| - 3..] == " AH"
  {
    h.day + " " + h.month.en + " " + h.year + " AH"
  }

  /** The marker a cached result carries instead of a Hijri date. */
  const CachedMarker := "Cached"

  /** A Hijri label from a reply always ends in " AH", so it is never the cache marker. */
  lemma HijriLabelIsNotCached(h: HijriDay)
    ensures HijriLabel(h) != CachedMarker
  {
    var r := HijriLabel(h);
    assert r[|r| - 1] == 'H';
    assert CachedMarker[|CachedMarker| - 1] == 'd';
  }

  const EnglishWeekdays: seq<string> := ["Sunday", "Monday", "Tuesday", "Wednesday", "Thursday", "Friday", "Saturday"]
  const EnglishMonths: seq<string> :=
    ["January", "February", "March", "April", "May", "June",
     "July", "August", "September", "October", "November", "December"]

  /** The year of era padded to four digits, as the pattern "yyyy" prints it; year 0 is 1 BC. */
  function YearOfEra(y: int): (r: string)
    ensures |r| >= 4 && AllDigits(r)
  {
    PadZeros(NatToString(if y >= 1 then y else 1 - y), 4)
  }

  function PadZeros(s: string, width: nat): (r: string)
    requires AllDigits(s)
    ensures |r| >= width && |r| >= |s| && AllDigits(r) && r[|r| - |s|..] == s
    decreases width - |s|
  {
    if |s| >= width then s else PadZeros("0" + s, width)
  }

  /** `formatGregorianDate` with the pattern "EEEE, MMMM d, yyyy" and English names. */
  function GregorianDateText(d: Date): string
    requires 1 <= d.month <= 12
  {
    EnglishWeekdays[Weekday(d)] + ", " + EnglishMonths[d.month - 1] + " " + NatToString(if d.day >= 0 then d.day else 0)
      + ", " + YearOfEra(d.year)
  }

  /**
   * The two Gregorian labels agree when the reply names the same weekday,
   * month, unpadded day and four-digit year as the local calendar does.
   */
  lemma GregorianLabelsAgree(g: GregorianDay, d: Date)
    requires ValidDate(d) && d.year >= 1000
    requires g.weekday.en == EnglishWeekdays[Weekday(d)] && g.month.en == EnglishMonths[d.month - 1]
    requires g.day == NatToString(d.day) && g.year == NatToString(d.year)
    ensures GregorianLabel(g) == GregorianDateText(d)
  {
    assert YearOfEra(d.year) == NatToString(d.year);
  }

  // ---------------------------------------------------------------------------
  // fetchFromAPI (AlAdhanService.swift:54-102)
  // ---------------------------------------------------------------------------

  /**
   * What `fetchFromAPI` makes of the retry loop's outcome: a decoding failure
   * or an API code other than 200 is thrown, then the five timings are parsed
   * for `day` and both calendars' labels are formatted.
   */
  function Interpret(data: Result<Body, Failure>, day: Date): (r: Result<Fetched, Failure>)
    requires 1 <= day.month <= 12
    ensures data.Err? ==> r == Err(data.error)
    ensures data.Ok? && data.value.Undecodable? ==> r == Err(Decoding(data.value.reason))
    ensures data.Ok? && data.value.Json? && data.value.reply.code != 200
      ==> r == Err(AlAdhan(ApiError(data.value.reply.status)))
  {
    match data
    case Err(e) => Err(e)
    case Ok(Undecodable(reason)) => Err(Decoding(reason))
    case Ok(Json(reply)) =>
      if reply.code != 200 then Err(AlAdhan(ApiError(reply.status)))
      else match ParsePrayers(reply.data.timings, day)
        case Err(e) => Err(AlAdhan(e))
        case Ok(prayers) =>
          Ok(Fetched(prayers, GregorianLabel(reply.data.date.gregorian), HijriLabel(reply.data.date.hijri)))
  }

  /**
   * A fetch succeeds exactly when a 2xx reply decodes with code 200 and all
   * five timings parse; it then carries the five canonical prayers and the
   * reply's two labels.
   */
  lemma InterpretSucceeds(data: Result<Body, Failure>, day: Date)
    requires 1 <= day.month <= 12
    ensures Interpret(data, day).Ok? <==>
      data.Ok? && data.value.Json? && data.value.reply.code == 200
      && ParsePrayers(data.value.reply.data.timings, day).Ok?
    ensures Interpret(data, day).Ok? ==>
      var reply := data.value.reply;
      var f := Interpret(data, day).value;
      && f.prayers == ParsePrayers(reply.data.timings, day).value
      && f.gregorianDate == GregorianLabel(reply.data.date.gregorian)
      && f.hijriDate == HijriLabel(reply.data.date.hijri)
  {
  }

  /** `fetchFromAPI`: three attempts, then the reply interpreted for the requested day. */
  method FetchFromAPI(network: nat -> Attempt, day: Date)
    returns (r: Result<Fetched, Failure>, sleeps: seq<nat>, made: nat)
    requires 1 <= day.month <= 12
    ensures r == Interpret(RetryOutcome(network, 3), day)
    ensures made == AttemptsMade(network, 0, 3) && 1 <= made <= 3
    ensures sleeps == Backoffs(made - 1)
  {
    var data;
    data, sleeps, made := FetchWithRetry(network, 3);
    r := Interpret(data, day);
  }

  // ---------------------------------------------------------------------------
  // The cache and fetchPrayerTimes (AlAdhanService.swift:29-50, 188-219)
  // ---------------------------------------------------------------------------

  /**
   * The three user-defaults entries: the cached prayers, the instant (seconds)
   * they were written, and the location array.
   */
  datatype Store = Store(prayers: Option<seq<Prayer>>, written: Option<int>, location: Option<seq<real>>)

  /** `cache(_:location:)` at instant `now`: all three entries overwritten. */
  function CacheWrite(prayers: seq<Prayer>, latitude: real, longitude: real, now: int): Store {
    Store(Some(prayers), Some(now), Some([latitude, longitude]))
  }

  /** `isCacheValidForToday`: a write instant exists and falls on the day of `now`. */
  predicate CacheValidForToday(st: Store, now: int) {
    st.written.Some? && st.written.value / SecondsPerDay == now / SecondsPerDay
  }

  /** `getCachedLocation`: the stored pair when the array holds exactly two numbers. */
  function CachedLocation(st: Store): (r: Option<(real, real)>)
    ensures r.Some? <==> st.location.Some? && |st.location.value| == 2
  {
    if st.location.Some? && |st.location.value| == 2 then Some((st.location.value[0], st.location.value[1])) else None
  }

  /**
   * `fetchPrayerTimes` given what the network part produced: a fresh result
   * is cached and returned; on an error the cached prayers are returned with
   * the local Gregorian label and "Cached" when the cache exists and was
   * written today, and otherwise the error is rethrown with the store untouched.
   */
  function Serve(st: Store, outcome: Result<Fetched, Failure>, latitude: real, longitude: real, day: Date, now: int)
    : (Result<Fetched, Failure>, Store)
    requires 1 <= day.month <= 12
  {
    if outcome.Ok? then (outcome, CacheWrite(outcome.value.prayers, latitude, longitude, now))
    else if st.prayers.Some? && CacheValidForToday(st, now) then
      (Ok(Fetched(st.prayers.value, GregorianDateText(day), CachedMarker)), st)
    else (outcome, st)
  }

  /** A fresh result is returned as it is and leaves a cache valid for the rest of the day. */
  lemma ServeFresh(st: Store, outcome: Result<Fetched, Failure>, latitude: real, longitude: real, day: Date, now: int, later: int)
    requires 1 <= day.month <= 12 && outcome.Ok?
    requires later / SecondsPerDay == now / SecondsPerDay
    ensures var (r, st') := Serve(st, outcome, latitude, longitude, day, now);
      && r == outcome
      && st'.prayers == Some(outcome.value.prayers)
      && CacheValidForToday(st', later)
      && CachedLocation(st') == Some((latitude, longitude))
  {
  }

  /**
   * After a failure the result is the cache exactly when there is a cache
   * written today, and is otherwise the original error; the store is untouched.
   */
  lemma ServeFailure(st: Store, outcome: Result<Fetched, Failure>, latitude: real, longitude: real, day: Date, now: int)
    requires 1 <= day.month <= 12 && outcome.Err?
    ensures var (r, st') := Serve(st, outcome, latitude, longitude, day, now);
      && st' == st
      && (r.Ok? <==> st.prayers.Some? && CacheValidForToday(st, now))
      && (r.Ok? ==> r.value == Fetched(st.prayers.value, GregorianDateText(day), CachedMarker))
      && (r.Err? ==> r == outcome)
  {
  }

  /**
   * A success followed by a failure later the same day serves the first
   * fetch's prayers marked "Cached"; on a later day the failure is rethrown.
   */
  lemma CacheRoundTrip(st: Store, first: Fetched, failure: Failure, latitude: real, longitude: real,
                       day1: Date, day2: Date, now1: int, now2: int)
    requires 1 <= day1.month <= 12 && 1 <= day2.month <= 12
    ensures var st1 := Serve(st, Ok(first), latitude, longitude, day1, now1).1;
      var r2 := Serve(st1, Err(failure), latitude, longitude, day2, now2).0;
      && (now2 / SecondsPerDay == now1 / SecondsPerDay ==> r2 == Ok(Fetched(first.prayers, GregorianDateText(day2), CachedMarker)))
      && (now2 / SecondsPerDay != now1 / SecondsPerDay ==> r2 == Err(failure))
  {
  }

  /**
   * The fallback checks when the cache was written, not which day it holds:
   * offline, a request for tomorrow made today is answered with the prayers
   * cached for today, labelled with tomorrow's date.
   */
  lemma FallbackIgnoresRequestedDay(today: Date, now: int, failure: Failure, latitude: real, longitude: real)
    requires ValidDate(today)
    requires now / SecondsPerDay == DayNumber(today)
    ensures var cached := Samples(today);
      var st := CacheWrite(cached, latitude, longitude, now);
      var tomorrow := NextDay(today);
      var r := Serve(st, Err(failure), latitude, longitude, tomorrow, now).0;
      && r == Ok(Fetched(cached, GregorianDateText(tomorrow), CachedMarker))
      && DayNumber(tomorrow) == DayNumber(today) + 1
      && (forall k :: 0 <= k < |cached| ==> cached[k].time / SecondsPerDay == DayNumber(today))
  {
    SamplesInOrder(today);
    NextDayNumber(today);
  }

  /** The service and the user-defaults entries it owns. */
  class AlAdhanService {
    var cachedPrayers: Option<seq<Prayer>>
    var cacheDate: Option<int>
    var cachedLocation: Option<seq<real>>

    function State(): Store
      reads this
    {
      Store(cachedPrayers, cacheDate, cachedLocation)
    }

    /** The service over whatever the user defaults already hold. */
    constructor(persisted: Store)
      ensures State() == persisted
    {
      cachedPrayers := persisted.prayers;
      cacheDate := persisted.written;
      cachedLocation := persisted.location;
    }

    /** `cache(_:location:)`. */
    method Cache(prayers: seq<Prayer>, latitude: real, longitude: real, now: int)
      modifies this
      ensures State() == CacheWrite(prayers, latitude, longitude, now)
    {
      cachedPrayers := Some(prayers);
      cacheDate := Some(now);
      cachedLocation := Some([latitude, longitude]);
    }

    /**
     * `fetchPrayerTimes(latitude:longitude:date:)` at instant `now` for the
     * day `day`: network first, then the cache fallback.
     */
    method FetchPrayerTimes(latitude: real, longitude: real, day: Date, network: nat -> Attempt, now: int)
      returns (r: Result<Fetched, Failure>, sleeps: seq<nat>, made: nat)
      requires 1 <= day.month <= 12
      modifies this
      ensures (r, State()) == Serve(old(State()), Interpret(RetryOutcome(network, 3), day), latitude, longitude, day, now)
      ensures made == AttemptsMade(network, 0, 3) && sleeps == Backoffs(made - 1)
    {
      var outcome;
      outcome, sleeps, made := FetchFromAPI(network, day);
      if outcome.Ok? {
        Cache(outcome.value.prayers, latitude, longitude, now);
        r := outcome;
      } else if cachedPrayers.Some? && cacheDate.Some? && cacheDate.value / SecondsPerDay == now / SecondsPerDay {
        r := Ok(Fetched(cachedPrayers.value, GregorianDateText(day), CachedMarker));
      } else {
        r := outcome;
      }
    }
  }
}
