# Adhan: a verified model

Adhan plays the call to prayer at the five daily prayer times. It has two front ends:

- **The browser kiosk** (`app.js`). It fetches the day's timings from the AlAdhan API, by coordinates or by a fallback city. It builds and sorts a schedule and tracks the next upcoming prayer. A one-second tick plays the adhan once per prayer, and the page refetches at local midnight.
- **The iOS app.** Its `AlAdhanService` fetches with retries and back-off and parses the five timings. It caches them and falls back to the cache when offline. `AppSettings` holds the calculation method, the Asr school, the location and one alert mode per prayer. `AppLogger` keeps a ring buffer of log entries. The app also has:
  - a next-prayer countdown;
  - the settings screens' decisions;
  - the device-model lookup;
  - the build-environment flags.

This project models that core in Dafny and proves its properties. The modules are:

| module | models |
|---|---|
| `Wrappers` | `Option` and `Result` |
| `Text` | JavaScript and Swift string primitives: padding, splitting, joining, `Number(...)`, `Int(String)` |
| `Calendar` | one local proleptic Gregorian clock with day 0 = 1970-01-01 |
| `Kiosk` | `app.js` |
| `Prayers` | `Prayer.swift` |
| `AlAdhan` | `AlAdhanService.swift` and `AlAdhanResponse.swift` |
| `AlertModes`, `CalculationMethods`, `AsrSchools` | the three enums |
| `Settings` | `AppSettings.swift` |
| `SettingsViews` | `SettingsView.swift` |
| `Logger` | `AppLogger.swift` |
| `Countdown` | `NextPrayerView.timeUntil` |
| `DeviceModel` | `UIDevice+ModelName.swift` |
| `Build` | `BuildEnvironment.swift` |

Several things the source gets from outside become inputs:

- **Time.** The clock is a parameter. In the kiosk `now` is a `DateTime`. The iOS countdown takes the clock reading `nowMillis` in milliseconds. The rest of iOS reads it in whole seconds. JavaScript time values are milliseconds and `Prayer.time` is whole seconds since 1970.
- **Network replies.** Each reply is a value. On iOS the network is a function from the attempt number to what that attempt returns.
- **Geolocation.** Its outcome is an input.
- **Parsing reals.** `Double(String)` is a parameter.

Where the source changes state in place, the model is imperative:

- the kiosk page's globals are the fields of the class `Kiosk.Page`;
- `prayerSchedule` is an array sorted in place;
- `AppSettings`, `AlAdhanService`'s user-defaults entries, `AppLogger`'s buffer and `LocationSettingsView`'s form are classes whose methods update their fields.

Each method is proved against a function on its state. The lemmas about those functions carry the properties.

Calculation-method angles are integers in tenths of a degree (`150` is 15.0°). The only operations on them are comparisons.

## Model

| member | source | states |
|---|---|---|
| `Kiosk.BuildSchedule` | app.js:116-124 | A schedule is built exactly when all five prayers have a timing. It then lists Fajr, Dhuhr, Asr, Maghrib and Isha in that order, each with its own time string and the stamp that string gives on the base day. |
| `Kiosk.StampAt` | app.js:119-123 | The stamp of one timing on the base day. It is NaN when the hour or the minute part does not read as a number. It is also NaN when the instant lies more than 8.64e15 ms (10^8 days) from the epoch, as `new Date` clips it. `Kiosk.StampOfClockTime` gives its value on "HH:MM". `Kiosk.UnreadableMinuteIsNaN`, `Kiosk.ZoneSuffixIsNaN`, `Kiosk.BeyondTimeRangeIsNaN` and `Kiosk.HugeHourIsNaN` give the NaN cases. |
| `Kiosk.TimeClip` | app.js:122-123 | A time value is kept exactly when it lies within 8.64e15 ms of the epoch, and is NaN otherwise. |
| `Kiosk.BeyondTimeRangeIsNaN` | app.js:121-123 | Digit parts that read as numbers still give NaN when their instant on the base day exceeds the time-value range. |
| `Kiosk.HugeHourIsNaN` | app.js:121-123 | "2400000000:00" gives NaN on any base day after 1970-01-01: the hour reads as a number, but the instant is past the range. |
| `Kiosk.StampOfClockTime` | app.js:121-123 | On a base day within 10^8 days of the epoch, where every time of day is in range, a well-formed "HH:MM" timing gives a whole-second millisecond stamp on that day, at second-of-day `h*3600 + m*60`. |
| `Kiosk.ClockTimeReads` | app.js:121 | `"HH:MM".split(':').map(Number)` reads back the hour and the minute. |
| `Kiosk.UnreadableMinuteIsNaN` | app.js:121-123 | A minute part that `Number` cannot read makes the stamp NaN. |
| `Kiosk.ZoneSuffixIsNaN` | app.js:121 | A minute part with a zone suffix such as "30 (EST)" is not read by `Number`. The kiosk does not strip the suffix, unlike the iOS parser. |
| `Kiosk.InOrderAscending` | app.js:170 | When every stamp is a number, neighbour order under the comparator is full ascending order. |
| `Kiosk.SortByTimestamp` | app.js:170 | The in-place sort leaves a permutation of the schedule that is in comparator order. It is ascending when no stamp is NaN. It is stable, as `Array.prototype.sort` is: a ghost index permutation maps each new position to its old one, and entries the comparator ties keep their input order. |
| `Kiosk.TiesKeepPrayerOrder` | app.js:170 | After the stable sort of a schedule as built, two prayers with tied stamps stay in the order Fajr, Dhuhr, Asr, Maghrib, Isha. With Dhuhr and Asr both at 12:00, Dhuhr comes first. |
| `Kiosk.InsertLast` | app.js:170 | One insertion step keeps the multiset of entries and extends the sorted prefix by one. It moves an entry only past strictly greater ones, so every pair it puts out of input order is strictly ordered. |
| `Kiosk.NamesMultiset` | app.js:170 | Sorting keeps the multiset of prayer names. |
| `Kiosk.Upcoming` | app.js:188 | An entry is in the filtered list iff it is in the schedule and its stamp is strictly after `now`. The contract states membership only. The order of the first element is fixed by `Kiosk.NextUpcomingIsFirst`. |
| `Kiosk.FirstUpcomingIndex` | app.js:188-196 | The index is that of the first upcoming entry, or the length when none is upcoming. |
| `Kiosk.NextUpcomingIsFirst` | app.js:186-198 | The next prayer is the first upcoming entry. There is none exactly when nothing is upcoming. |
| `Kiosk.NextUpcomingIsEarliest` | app.js:186-198 | On an ascending schedule the next prayer is upcoming and no later than any other upcoming entry. There is none iff no entry is strictly after `now`. |
| `Kiosk.WithNextFound` | app.js:186-198 | `findNextPrayer` on the page state sets `nextPrayerData` to the first upcoming entry and writes "name @ time". With nothing upcoming it writes "All prayers done for today" and requests tomorrow. `Kiosk.NextUpcomingIsFirst` and `Kiosk.NextUpcomingIsEarliest` say which entry it is. |
| `Kiosk.ClockText` | app.js:231-242 | The clock label "HH:MM:SS". `Kiosk.ClockTextFields` shows it is eight characters whose fields read back the clock. |
| `Kiosk.ClockTextFields` | app.js:231-242 | The clock label is eight characters, "HH:MM:SS", whose fields read back the hour, minute and second. |
| `Kiosk.DateParamFields` | app.js:99-102 | The city request's date parameter reads back the day, the 1-based month and the year. |
| `Kiosk.DateParam` | app.js:99-102 | The city request's DD-MM-YYYY parameter with a 1-based month. `Kiosk.DateParamFields` reads it back. |
| `Kiosk.DateInfoText` | app.js:163-167 | The date line: "Today: ", the Gregorian day, English month and year, then the separator and "Hijri: " and the Hijri day, English month and year. |
| `Kiosk.DelayEndsAtMidnight` | app.js:259-265 | The refresh delay is positive, at most a day, and ends at the start of the next calendar day, across month and year ends too. |
| `Kiosk.DelayToMidnight` | app.js:263-265 | The delay from `now` to the next local midnight in milliseconds. `Kiosk.DelayEndsAtMidnight` bounds it and shows where it ends. |
| `Kiosk.FetchForDay` | app.js:74-109 | A fetch with offset `n` is for the day `n` days after today. With coordinates it sends that day's midnight in seconds. Without them it sends Queens, NY, USA and the DD-MM-YYYY date. It always sends method 2 and school 1. |
| `Kiosk.FetchFor` | app.js:74-109 | The request `fetchPrayerData(offset)` issues. Its target is always a valid calendar day. `Kiosk.FetchForDay` gives the day and the request. |
| `Kiosk.TicksPlayAtMostOnce` | app.js:204-228 | However many ticks run while the next prayer stays the same, the adhan plays at most once. It plays exactly when the name is unplayed and some tick reached the prayer. The schedule, next prayer and requests are untouched. One re-focus timer is armed per reaching tick. |
| `Kiosk.Ticked` | app.js:208-227 | One interval tick on the page state. The clock is redrawn. At or after the next prayer the adhan plays once if its name is not in `playedPrayers`, the name is added, and a re-focus is armed. `Kiosk.TicksPlayAtMostOnce` and `Kiosk.TickPlaysOnce` give its meaning over runs. |
| `Kiosk.TickPlaysOnce` | app.js:213-220 | A tick keeps every name played at most once since the last clear. |
| `Kiosk.LoadStartsAfresh` | app.js:126-128 | Loading a schedule clears the played set and plays nothing. |
| `Kiosk.Page.constructor` | app.js:20-27 | The page starts with no coordinates, no schedule, nothing played, no timers and no requests. Its invariant `Valid` holds. |
| `Kiosk.Page.Valid` | app.js:126 | The page invariant, kept by every method's `ensures Valid()`. Every request is for a real calendar day. Since `playedPrayers` was last cleared (the ghost `clearedAt`), the adhan has played each name at most once, and every name played is in `playedPrayers`. Any interleaving of ticks, re-focuses, fetches and refreshes keeps it. |
| `Kiosk.Page.Start` | app.js:45-67 | The geolocation outcome is stored, and today's fetch is issued either way. |
| `Kiosk.Page.StartFetch` | app.js:74-109 | The request for the target day joins the in-flight requests, and nothing else changes. |
| `Kiosk.Page.FindNextPrayer` | app.js:186-198 | Sets the next prayer and its label. With nothing upcoming it shows "All prayers done for today" and requests tomorrow. |
| `Kiosk.Page.CompleteFetch` | app.js:83-134 | A rejected reply, a non-200 code or a missing prayer only sets "Error loading data". Otherwise the schedule is replaced and `playedPrayers` cleared. A reply without a date then shows the error label. A reply with one sorts the schedule (a stable rearrangement of the schedule as built, in order), finds the next prayer, starts the loop and arms the midnight refresh. Clearing `playedPrayers` moves `clearedAt` to the current number of plays. |
| `Kiosk.Page.UpdateUI` | app.js:161-183 | Writes the date line, sorts the schedule in place (a stable rearrangement, in order), finds the next prayer and starts the loop. |
| `Kiosk.Page.Install` | app.js:119-126 | The built schedule becomes `prayerSchedule` as a new array and `playedPrayers` is cleared. Nothing else changes, and `clearedAt` moves to the current number of plays. |
| `Kiosk.Page.ShowSchedule` | app.js:127-128 | `updateUI` then `scheduleDailyRefresh`: the schedule is sorted stably, and the new state is the loaded page for the reply's date. |
| `Kiosk.Page.ScheduleDailyRefresh` | app.js:259-272 | Re-arms the midnight refresh with the delay to the next local midnight. |
| `Kiosk.Page.DisplayCurrentTime` | app.js:231-242 | Only the clock label changes. |
| `Kiosk.Page.Tick` | app.js:208-227 | One interval tick, as `Ticked`: the clock is redrawn. At or after the next prayer it plays the adhan if the name is unplayed, and arms a 60-second re-focus. |
| `Kiosk.Page.Refocus` | app.js:222-224 | A fired re-focus timer runs `findNextPrayer`. |
| `Kiosk.Page.MidnightRefresh` | app.js:266-271 | The midnight timeout fires and today's fetch is issued. |
| `Prayers.MakePrayer` | ios/AdhanApp/Models/Prayer.swift:10-15 | The prayer keeps its name, Arabic name and time. Its id is "name-seconds.0". |
| `Prayers.IdPartsOfMakePrayer` | ios/AdhanApp/Models/Prayer.swift:11 | The id reads back as the name and the time. |
| `Prayers.IdInjective` | ios/AdhanApp/Models/Prayer.swift:11 | Two prayers share an id iff they share the name and the time, for names without '-'. |
| `Prayers.FormattedTime` | ios/AdhanApp/Models/Prayer.swift:18-22 | The "HH:mm" label of the prayer's time. `Prayers.FormattedTimeFields` and `AlAdhan.ParseFormattedTime` give its meaning. |
| `Prayers.FormattedTimeFields` | ios/AdhanApp/Models/Prayer.swift:18-22 | `formattedTime` is five characters "HH:mm" whose fields read back the hour and the minute of the time. |
| `Prayers.FormattedTimeAt` | ios/AdhanApp/Models/Prayer.swift:18-22 | A prayer at h:m:s on any day is formatted as the padded h and m. |
| `Prayers.Samples` | ios/AdhanApp/Models/Prayer.swift:28-34 | The preview data has five prayers. |
| `Prayers.SamplesInOrder` | ios/AdhanApp/Models/Prayer.swift:28-34 | The samples are the five canonical prayers on the given day, at whole minutes, strictly increasing in time. |
| `AlAdhan.AttemptResult` | ios/AdhanApp/Services/AlAdhanService.swift:109-118 | An attempt succeeds exactly on an HTTP status in 200...299 and yields its body. A non-HTTP response is `httpError(0)`, another status is `httpError(status)`, and a thrown error passes through. |
| `AlAdhan.Backoffs` | ios/AdhanApp/Services/AlAdhanService.swift:122-125 | The k-th back-off is 2^k seconds in nanoseconds. |
| `AlAdhan.FetchWithRetry` | ios/AdhanApp/Services/AlAdhanService.swift:104-130 | The loop returns the retry outcome, makes that many requests and sleeps between failed attempts with exponential back-off. |
| `AlAdhan.RetryReturnsFirstSuccess` | ios/AdhanApp/Services/AlAdhanService.swift:104-130 | The first successful attempt's body is returned and no request is made after it. |
| `AlAdhan.RetryAllFail` | ios/AdhanApp/Services/AlAdhanService.swift:104-130 | When every attempt fails, all are made and the last error is thrown. |
| `AlAdhan.ZeroRetries` | ios/AdhanApp/Services/AlAdhanService.swift:105-129 | With no attempts allowed, `networkError` is thrown. |
| `AlAdhan.ThreeFailedRetries` | ios/AdhanApp/Services/AlAdhanService.swift:104-130 | Three failures make three requests, sleep 1 s then 2 s, and throw the third error. |
| `AlAdhan.Retry` | ios/AdhanApp/Services/AlAdhanService.swift:104-130 | The outcome of attempts `from` onwards: the first success's body, else the last error. `AlAdhan.RetryReturnsFirstSuccess` and `AlAdhan.RetryAllFail` give its meaning. `AlAdhan.FetchWithRetry` is proved against it. |
| `AlAdhan.ParseTime` | ios/AdhanApp/Services/AlAdhanService.swift:138-159 | A parsed prayer has the given names and a whole-minute time. A failure is `parseError("Invalid time format: …")`. |
| `AlAdhan.TwoPieces` | ios/AdhanApp/Services/AlAdhanService.swift:142 | `split(separator: ":")` of "a:b" gives the two pieces. |
| `AlAdhan.DropsSuffix` | ios/AdhanApp/Services/AlAdhanService.swift:140 | Everything from the first space, such as a zone suffix, is dropped. |
| `AlAdhan.ParseClockTime` | ios/AdhanApp/Services/AlAdhanService.swift:138-159 | "HH:mm" with or without a " (zone)" suffix parses to that hour and minute on the day. |
| `AlAdhan.ParseFormattedTime` | ios/AdhanApp/Services/AlAdhanService.swift:138-159 | Parsing a prayer's `formattedTime` on its own day gives the prayer back, truncated to the minute (round trip). |
| `AlAdhan.ParseRejectsSeconds` | ios/AdhanApp/Services/AlAdhanService.swift:142-147 | "HH:mm:ss" has three pieces and is rejected. |
| `AlAdhan.ParseEach` | ios/AdhanApp/Services/AlAdhanService.swift:161-167 | The list is returned iff every timing parses, and it is then the parsed prayers in order. Otherwise the first failing timing's error is thrown. |
| `AlAdhan.ParsePrayersShape` | ios/AdhanApp/Services/AlAdhanService.swift:134-168 | A parsed list is the five canonical prayers with their Arabic names at whole minutes. A failure is a parse error. |
| `AlAdhan.ParsePrayersIgnoresSunrise` | ios/AdhanApp/Services/AlAdhanService.swift:161-167 | The Sunrise timing has no effect. |
| `AlAdhan.GregorianLabel` | ios/AdhanApp/Services/AlAdhanService.swift:172-174 | The label starts with the weekday and ", ". |
| `AlAdhan.HijriLabel` | ios/AdhanApp/Services/AlAdhanService.swift:176-178 | The label ends in " AH". |
| `AlAdhan.HijriLabelIsNotCached` | ios/AdhanApp/Services/AlAdhanService.swift:44-47 | A Hijri label from a reply is never the "Cached" marker, so a cached result is recognisable. |
| `AlAdhan.GregorianLabelsAgree` | ios/AdhanApp/Services/AlAdhanService.swift:172-184 | The reply's label and the local "EEEE, MMMM d, yyyy" label agree when both name the same day. |
| `AlAdhan.Interpret` | ios/AdhanApp/Services/AlAdhanService.swift:86-98 | Transport errors pass through. An undecodable body is a decoding error. A code other than 200 is `apiError(status)`. |
| `AlAdhan.InterpretSucceeds` | ios/AdhanApp/Services/AlAdhanService.swift:86-101 | A fetch succeeds exactly on a decodable code-200 reply whose five timings parse. It then carries those prayers and the reply's two labels. |
| `AlAdhan.FetchFromAPI` | ios/AdhanApp/Services/AlAdhanService.swift:54-102 | Makes one to three attempts and returns the interpreted outcome of the retry loop. |
| `AlAdhan.CachedLocation` | ios/AdhanApp/Services/AlAdhanService.swift:213-219 | A location is returned exactly when the stored array holds two numbers. |
| `AlAdhan.CacheValidForToday` | ios/AdhanApp/Services/AlAdhanService.swift:205-210 | The cache is valid iff a write instant exists and falls on the calendar day of `now`. |
| `AlAdhan.Serve` | ios/AdhanApp/Services/AlAdhanService.swift:35-49 | `fetchPrayerTimes` given the network outcome. A success is cached and returned. A failure returns the cache if it was written today, else it is rethrown. `AlAdhan.ServeFresh`, `AlAdhan.ServeFailure` and `AlAdhan.CacheRoundTrip` give its meaning. |
| `AlAdhan.ServeFresh` | ios/AdhanApp/Services/AlAdhanService.swift:36-38 | A fresh result is returned unchanged. It is cached with its location and stays valid for the rest of that day. |
| `AlAdhan.ServeFailure` | ios/AdhanApp/Services/AlAdhanService.swift:39-48 | After a failure the cache is served iff it exists and was written today, labelled with the requested date and "Cached". Otherwise the error is rethrown. The store is untouched either way. |
| `AlAdhan.CacheRoundTrip` | ios/AdhanApp/Services/AlAdhanService.swift:29-50 | A success then a same-day failure serves the first prayers as "Cached". On another day the failure is rethrown. |
| `AlAdhan.FallbackIgnoresRequestedDay` | ios/AdhanApp/Services/AlAdhanService.swift:205-210 | Validity depends on the write date, not on the requested day. Offline, tomorrow's request made today is answered with today's prayers under tomorrow's label. |
| `AlAdhan.AlAdhanService.constructor` | ios/AdhanApp/Services/AlAdhanService.swift:19 | The service starts over whatever the user defaults hold. |
| `AlAdhan.AlAdhanService.Cache` | ios/AdhanApp/Services/AlAdhanService.swift:188-195 | Overwrites the prayers, the write instant and the location. |
| `AlAdhan.AlAdhanService.FetchPrayerTimes` | ios/AdhanApp/Services/AlAdhanService.swift:29-50 | The result and the new store are those of `Serve` on the fetched outcome, after one to three attempts with back-off. |
| `AlertModes.RawValueRoundTrip` | ios/AdhanApp/Models/PrayerAlertMode.swift:4-7 | The raw strings decode back to their modes. A string decodes iff it is one of the three raw values, and then encodes back to itself. |
| `AlertModes.AllModesComplete` | ios/AdhanApp/Models/PrayerAlertMode.swift:4-7 | `allCases` lists the three modes once each. |
| `AlertModes.DistinctLabels` | ios/AdhanApp/Models/PrayerAlertMode.swift:10-25 | Different modes have different raw values, display names and icons. |
| `CalculationMethods.RawValueRoundTrip` | ios/AdhanApp/Models/CalculationMethod.swift:5-11 | API numbers 1, 2, 3, 4, 5 and 7 decode to their methods and back. Every other number is rejected. |
| `CalculationMethods.AllMethodsComplete` | ios/AdhanApp/Models/CalculationMethod.swift:5-11 | The six methods are listed in increasing number order. |
| `CalculationMethods.DistinctDisplayNames` | ios/AdhanApp/Models/CalculationMethod.swift:14-23 | Display names differ between methods. |
| `CalculationMethods.IshaByMinutesOnlyForUmmAlQura` | ios/AdhanApp/Models/CalculationMethod.swift:62-71 | The Isha angle is 0 exactly for Umm Al-Qura and is never negative. |
| `CalculationMethods.IsnaIsShallowest` | ios/AdhanApp/Models/CalculationMethod.swift:50-59 | ISNA uses 15° for Fajr and Isha. Every other method's Fajr angle is steeper. |
| `AsrSchools.RawValueRoundTrip` | ios/AdhanApp/Models/AsrSchool.swift:5-7 | Numbers 0 and 1 decode to Standard and Hanafi and back. Others are rejected. |
| `AsrSchools.AllSchoolsComplete` | ios/AdhanApp/Models/AsrSchool.swift:5-7 | There are two schools. |
| `AsrSchools.DistinctDisplayNames` | ios/AdhanApp/Models/AsrSchool.swift:10-15 | Display names differ between schools. |
| `AsrSchools.ShadowFactorIsRawPlusOne` | ios/AdhanApp/Models/AsrSchool.swift:42-47 | The shadow factor is 1 for Standard and 2 for Hanafi, the raw value plus one. |
| `Settings.DefaultsDeclared` | ios/AdhanApp/Models/AppSettings.swift:15-49 | The defaults are ISNA (2), Hanafi (1), automatic location at 0/0 with no city, and adhan for every prayer. |
| `Settings.AlertModeFallback` | ios/AdhanApp/Models/AppSettings.swift:68-79 | An unknown prayer or an undecodable stored string gives adhan. Otherwise the stored mode is returned. |
| `Settings.AlertMode` | ios/AdhanApp/Models/AppSettings.swift:68-79 | The stored mode for a daily prayer, decoded, and adhan otherwise. `Settings.AlertModeFallback` and `Settings.SetAlertModeEffect` give its meaning. |
| `Settings.SetAlertModeEffect` | ios/AdhanApp/Models/AppSettings.swift:85-94 | Setting a prayer's mode is read back for that prayer and changes no other prayer or setting. An unknown name changes nothing. |
| `Settings.AlertDecisions` | ios/AdhanApp/Models/AppSettings.swift:99-109 | The adhan plays iff the mode is adhan, and a notification shows iff the mode is not silent. Playing implies showing. |
| `Settings.ManualLocationIff` | ios/AdhanApp/Models/AppSettings.swift:115-119 | A manual location exists iff automatic location is off and a coordinate is non-zero, and it is the stored pair. |
| `Settings.ManualLocationRoundTrip` | ios/AdhanApp/Models/AppSettings.swift:122-135 | Setting then reading returns the pair unless it is 0/0. Clearing gives none. Neither touches alert modes, method or school. |
| `Settings.EnumFallbacks` | ios/AdhanApp/Models/AppSettings.swift:54-61 | Undecodable stored numbers fall back to ISNA and Hanafi. Decodable ones are returned. |
| `Settings.AppSettings.constructor` | ios/AdhanApp/Models/AppSettings.swift:15-49 | A fresh settings object holds the defaults. |
| `Settings.AppSettings.SetAlertMode` | ios/AdhanApp/Models/AppSettings.swift:85-94 | The new state is `WithAlertMode` of the old. |
| `Settings.AppSettings.SetManualLocation` | ios/AdhanApp/Models/AppSettings.swift:122-127 | Stores the pair and city and turns automatic location off. |
| `Settings.AppSettings.ClearManualLocation` | ios/AdhanApp/Models/AppSettings.swift:130-135 | Zeroes the pair, empties the city and turns automatic location on. |
| `Settings.AppSettings.ResetToDefaults` | ios/AdhanApp/Models/AppSettings.swift:140-152 | Every setting returns to its default, so a second reset changes nothing. |
| `SettingsViews.CurrentModeAgrees` | ios/AdhanApp/Views/SettingsView.swift:147-149 | The picker shows the mode the settings report, shows each mode as itself, and shows adhan for junk. |
| `SettingsViews.SaveDisabled` | ios/AdhanApp/Views/SettingsView.swift:200 | "Save Location" is disabled iff the city, latitude or longitude field is empty. |
| `SettingsViews.Validate` | ios/AdhanApp/Views/SettingsView.swift:234-253 | The checks of `saveLocation` in order, with the messages the alert shows. `SettingsViews.ValidateAccepts` and `SettingsViews.ValidateReportsFirstFailure` give its meaning. |
| `SettingsViews.ValidateAccepts` | ios/AdhanApp/Views/SettingsView.swift:234-253 | A location is accepted iff both fields read as numbers within [-90, 90] and [-180, 180]. It is then the pair read. |
| `SettingsViews.ValidateReportsFirstFailure` | ios/AdhanApp/Views/SettingsView.swift:234-253 | The message is that of the first failing check: unreadable, then latitude, then longitude. |
| `SettingsViews.LocationSettingsView.constructor` | ios/AdhanApp/Views/SettingsView.swift:162-171 | The form starts empty, with no alert showing and not dismissed. |
| `SettingsViews.LocationSettingsView.SaveLocation` | ios/AdhanApp/Views/SettingsView.swift:234-258 | A rejected location shows its message and leaves the settings unchanged. An accepted one is stored with the city name and the screen is dismissed. The text fields never change. |
| `Logger.LevelNames` | ios/AdhanApp/Utilities/AppLogger.swift:161-169 | The four levels have their names. Every other level is "DEFAULT". |
| `Logger.Appended` | ios/AdhanApp/Utilities/AppLogger.swift:94-101 | The buffer never exceeds 500 entries. |
| `Logger.AppendedKeepsNewest` | ios/AdhanApp/Utilities/AppLogger.swift:94-101 | The new entry is last and the others are the newest old ones in order. Below capacity nothing is dropped, and at capacity the size stays 500. |
| `Logger.LoggedAllIsWindow` | ios/AdhanApp/Utilities/AppLogger.swift:70-102 | After any sequence of logs the buffer is the newest 500 of everything logged, in order (first in, first out). |
| `Logger.NewestOfNewest` | ios/AdhanApp/Utilities/AppLogger.swift:98-100 | Trimming, appending and trimming again equals one trim. |
| `Logger.RecentLogs` | ios/AdhanApp/Utilities/AppLogger.swift:131-135 | Returns the last `count` entries, or all of them, in order. |
| `Logger.ExportSplitsIntoEntries` | ios/AdhanApp/Utilities/AppLogger.swift:140-143 | An empty buffer exports "". Otherwise the export splits at line breaks into the recent entries' strings. |
| `Logger.ExportLogs` | ios/AdhanApp/Utilities/AppLogger.swift:140-143 | The recent entries' strings joined by line breaks. `Logger.ExportSplitsIntoEntries` shows it splits back into them. |
| `Logger.AppLogger.constructor` | ios/AdhanApp/Utilities/AppLogger.swift:50 | The buffer starts empty. |
| `Logger.AppLogger.Log` | ios/AdhanApp/Utilities/AppLogger.swift:70-102 | The buffer becomes `Appended` of the entry with the level's name. |
| `Logger.AppLogger.ClearBuffer` | ios/AdhanApp/Utilities/AppLogger.swift:146-150 | The buffer is empty and the count is 0. |
| `Logger.AppLogger.BufferCount` | ios/AdhanApp/Utilities/AppLogger.swift:153-157 | The count never exceeds 500. |
| `Countdown.SecondsLeft` | ios/AdhanApp/Views/NextPrayerView.swift:12-17 | The whole seconds left are the interval truncated. |
| `Countdown.HoursAndMinutes` | ios/AdhanApp/Views/NextPrayerView.swift:17-18 | Minutes lie in 0..59, and hours and minutes account for all but under a minute. |
| `Countdown.CountdownReadsBack` | ios/AdhanApp/Views/NextPrayerView.swift:9-25 | The countdown text reads back the whole hours and the minutes within the hour. |
| `Countdown.LabelReadsBack` | ios/AdhanApp/Views/NextPrayerView.swift:20-24 | Both label forms, "in Hh Mm" and "in Mm", read back their numbers. |
| `Countdown.CountdownChangesWithMinutes` | ios/AdhanApp/Views/NextPrayerView.swift:9-25 | Two countdowns are equal iff the same whole minutes are left. |
| `Countdown.CountdownEdges` | ios/AdhanApp/Views/NextPrayerView.swift:10-15 | No prayer gives "". A reached prayer gives "Now". Under a minute gives "in 0m". |
| `Countdown.TimeUntil` | ios/AdhanApp/Views/NextPrayerView.swift:9-25 | The countdown text. `Countdown.CountdownEdges`, `Countdown.CountdownReadsBack` and `Countdown.CountdownChangesWithMinutes` give its meaning. |
| `DeviceModel.Identifier` | ios/AdhanApp/Extensions/UIDevice+ModelName.swift:6-15 | The identifier is no longer than the buffer and holds no NUL. |
| `DeviceModel.IdentifierSkipsZero` | ios/AdhanApp/Extensions/UIDevice+ModelName.swift:10-13 | Zero bytes anywhere are skipped. |
| `DeviceModel.IdentifierOfPaddedName` | ios/AdhanApp/Extensions/UIDevice+ModelName.swift:6-15 | A name's bytes followed by zero padding read back as the name. |
| `DeviceModel.TablesDisjoint` | ios/AdhanApp/Extensions/UIDevice+ModelName.swift:22-81 | The simulator identifiers and the two tables are disjoint, so the lookup order decides nothing. |
| `DeviceModel.ModelNameCases` | ios/AdhanApp/Extensions/UIDevice+ModelName.swift:18-85 | A simulator gives "Simulator (model or Unknown)". A table key gives its entry. Anything else gives itself. |
| `DeviceModel.ModelNameRecognises` | ios/AdhanApp/Extensions/UIDevice+ModelName.swift:18-85 | The name equals the identifier iff the identifier is unrecognised. |
| `DeviceModel.ModelName` | ios/AdhanApp/Extensions/UIDevice+ModelName.swift:18-85 | The simulator check, then the iPhone table, then the iPad table, then the identifier. `DeviceModel.ModelNameCases` and `DeviceModel.ModelNameRecognises` give its meaning. |
| `DeviceModel.IPhone13ProExample` | ios/AdhanApp/Extensions/UIDevice+ModelName.swift:5-28 | A buffer holding "iPhone14,2" is named "iPhone 13 Pro". |
| `DeviceModel.InfoBlockLines` | ios/AdhanApp/Extensions/UIDevice+ModelName.swift:88-94 | The diagnostics block is exactly the three labelled lines. |
| `DeviceModel.DeviceInfo` | ios/AdhanApp/Extensions/UIDevice+ModelName.swift:88-94 | The three-line block for the device's model name, identifier and system version. `DeviceModel.InfoBlockLines` splits it into the three lines. |
| `Build.TestFlightOrAppStore` | ios/AdhanApp/Utilities/BuildEnvironment.swift:20-34 | TestFlight iff the receipt is "sandboxReceipt". Never both TestFlight and App Store, and a debug build is never App Store. |
| `Build.DebugFeatures` | ios/AdhanApp/Utilities/BuildEnvironment.swift:51-72 | Debug features are allowed iff debug or TestFlight, and never in the App Store. Verbose logging and diagnostics follow them. |
| `Build.ConfigurationNames` | ios/AdhanApp/Utilities/BuildEnvironment.swift:77-87 | Each of "Debug", "TestFlight", "App Store" and "Release" is named exactly in its case. Debug features are allowed iff the name is Debug or TestFlight. |
| `Build.ConfigurationName` | ios/AdhanApp/Utilities/BuildEnvironment.swift:77-87 | The first of Debug, TestFlight, App Store and Release that applies. `Build.ConfigurationNames` states each case as an iff. |
| `Build.DescriptionShape` | ios/AdhanApp/Utilities/BuildEnvironment.swift:90-100 | The description is the configuration name, followed by " - Simulator" exactly on a simulator. |
| `Build.EnvironmentDescription` | ios/AdhanApp/Utilities/BuildEnvironment.swift:90-100 | The configuration name joined with "Simulator" by " - " on a simulator. `Build.DescriptionShape` gives its two shapes. |
| `Calendar.NextDayNumber` | app.js:264 | The day after a date, month and year ends included, is the next day number. |
| `Calendar.AddDaysNumber` | app.js:76-77 | Adding `n` days moves the day number by `n`. |
| `Calendar.SecondOfDayAt` | app.js:122 | A local time h:m:s on any day lies at second `h*3600 + m*60 + s` of that day. |
| `Text.SplitJoin` | ios/AdhanApp/Utilities/AppLogger.swift:142 | Joining lines without breaks and splitting them again gives the lines back. |
| `Text.SwiftIntOfPad2` | ios/AdhanApp/Services/AlAdhanService.swift:144-145 | Swift's `Int(String)` reads a two-digit field as its value. |
| `Text.JsNumberOfDigits` | app.js:121 | JavaScript's `Number` reads a digit string as its value. |

## Left out

- Networking is outside the model. URL construction, `URLSession`, HTTP headers and the `invalidURL` error are not modelled. Each attempt's outcome is an input.
- Geolocation, audio playback (`initAudio`, `playAdhan`'s `play()`) and the location indicator (`updateLocationIndicator`, reverse geocoding) are I/O. Only the adhan plays are recorded, as a sequence of names.
- Timers are not events in the model. The one-second interval, the 60-second re-focus and the midnight timeout are methods called with a clock reading. Clearing the previous interval or timeout is modelled by overwriting a flag or delay.
- Persistence in `UserDefaults` and `@AppStorage`, and JSON encoding and decoding of the cache, are not modelled. A cache that fails to decode (`getCachedPrayers` returning nil) is not represented.
- The time model is one uniform local clock with no time zone and no daylight-saving shifts. `isDateInToday` and `new Date(y, m, d, …)` are therefore day arithmetic on that clock.
- `DateFormatter` is modelled with English weekday and month names only. Other locales are not modelled.
- `AlAdhan.ParseTime`: the `calendar.date(from:)` nil path ("Could not create date for …") is not modelled. Hours and minutes outside the clock range roll over into other days and give a date.
- `AlAdhan.Backoffs`: the `UInt64` overflow of the back-off for very large retry counts is not modelled. The service only ever uses three attempts.
- `AlAdhan.FetchWithRetry`: cancellation of `Task.sleep` is not modelled.
- `Prayers.MakePrayer`: the id uses "seconds.0", which is Swift's printing of a whole-second `Double`. Huge times that Swift prints in exponent form are not modelled.
- `Prayers.MakePrayer`: times are whole seconds. Fractional seconds are not modelled.
- `Kiosk.StampAt`: `Number` is modelled as trimming space, tab, line feed and carriage return, then reading an optional '+' or '-' sign followed by decimal digits, with the empty string as 0. Not modelled: the other white space `Number` trims (vertical tab, form feed, no-break space, U+2028, U+2029, the byte-order mark and other Unicode spaces), decimals, hex, exponents, "Infinity", and precision beyond 2^53. The date arithmetic is exact integer arithmetic. Its result is clipped to the ±8.64e15 ms time-value range, as `new Date` does. Floating-point rounding of intermediate values is not modelled.
- `Kiosk.SortByTimestamp`: once a stamp is NaN, the comparator `a.timestamp - b.timestamp` is inconsistent, and ECMAScript leaves the order of `sort` to the engine. The model commits to stable insertion order. For such a schedule it claims only a permutation with every neighbouring pair in comparator order, not the engine's order. The next prayer found can then differ from the browser's. Example: stamps 03:00, 01:00, NaN, 02:00 sort to 01:00, 03:00, NaN, 02:00 here, and an engine may put 02:00 before 03:00.
- The `errorDescription` strings of `AlAdhanError` are not modelled. Nor are the `fullName`, `commonRegions` and `description` strings of the enums.
- `isIPad` and `isIPhone` depend on `userInterfaceIdiom`, which is outside the model.
- `DeviceModel.Identifier` requires every machine byte to be in 0..127. `UInt8(value)` traps on a negative `Int8`, and the model does not represent the trap.
- `Logger.AppLogger.Log`: the `os.log` output is not modelled. The barrier queue's concurrency is modelled as sequential calls. The ISO 8601 rendering of timestamps is a parameter of `FormattedString`.
- The settings screen's logging call and its `onAppear` prefill of the text fields are not modelled. The prefill prints `Double`s.
- Other SwiftUI views and `PrayerTimesManager` are not part of this model. They are outside the modelled core.

### The cache check and the requested date

The fallback in `fetchPrayerTimes` does not check whether the cached prayers belong to the requested day. It checks only that the cache was written today (`isCacheValidForToday`, AlAdhanService.swift:205-210). The model follows the code. `AlAdhan.FallbackIgnoresRequestedDay` shows the consequence: offline, a request for tomorrow made today returns today's prayers under tomorrow's label.
