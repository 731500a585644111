/**
 * How the app alerts for one prayer (ios/AdhanApp/Models/PrayerAlertMode.swift):
 * a string-backed enumeration with a settings label and a symbol name per case.
 */
module AlertModes {
  import opened Wrappers

  datatype PrayerAlertMode = Adhan | Notification | Silent

  /** Every case, in declaration order (`allCases`). */
  const AllModes: seq<PrayerAlertMode> := [Adhan, Notification, Silent]

  /** The stored string of each case. */
  function RawValue(m: PrayerAlertMode): string {
    match m
    case Adhan => "adhan"
    case Notification => "notification"
    case Silent => "silent"
  }

  /** `PrayerAlertMode(rawValue:)`: the case whose raw value is `s`, if any. */
  function FromRaw(s: string): Option<PrayerAlertMode> {
    if s == "adhan" then Some(Adhan)
    else if s == "notification" then Some(Notification)
    else if s == "silent" then Some(Silent)
    else None
  }

  /** Raw values decode to their case, and only raw values decode at all. */
  lemma RawValueRoundTrip(m: PrayerAlertMode, s: string)
    ensures FromRaw(RawValue(m)) == Some(m)
    ensures FromRaw(s).Some? <==> exists c :: c in AllModes && RawValue(c) == s
    ensures FromRaw(s).Some? ==> RawValue(FromRaw(s).value) == s
  {
    if FromRaw(s).Some? {
      assert RawValue(FromRaw(s).value) == s && FromRaw(s).value in AllModes;
    }
  }

  /** There are exactly three cases, listed once each. */
  lemma AllModesComplete(m: PrayerAlertMode)
    ensures |AllModes| == 3 && m in AllModes
    ensures forall i, j :: 0 <= i < j < |AllModes| ==> AllModes[i] != AllModes[j]
  {
  }

  function DisplayName(m: PrayerAlertMode): string {
    match m
    case Adhan => "Adhan"
    case Notification => "Notification"
    case Silent => "Silent"
  }

  /** The SF Symbol shown beside each case. */
  function Icon(m: PrayerAlertMode): string {
    match m
    case Adhan => "speaker.wave.3.fill"
    case Notification => "bell.fill"
    case Silent => "bell.slash.fill"
  }

  /** Raw values, labels and icons each tell the cases apart. */
  lemma DistinctLabels(a: PrayerAlertMode, b: PrayerAlertMode)
    requires a != b
    ensures RawValue(a) != RawValue(b) && DisplayName(a) != DisplayName(b) && Icon(a) != Icon(b)
  {
  }
}
