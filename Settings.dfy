/**
 * The app's persisted settings (ios/AdhanApp/Models/AppSettings.swift): the
 * calculation method and Asr school as API numbers, automatic or manual
 * location, and one alert-mode string per daily prayer. The stored values are
 * the fields of `AppSettings`; their persistence is not modelled. Coordinates
 * are reals, used only in comparisons.
 */
module Settings {
  import opened Wrappers
  import opened AlertModes
  import CalculationMethods
  import AsrSchools

  /** Every stored setting, as one value. */
  datatype Snapshot = Snapshot(
    calculationMethod: int,
    asrSchool: int,
    useAutoLocation: bool,
    manualLatitude: real,
    manualLongitude: real,
    manualCityName: string,
    alertModeFajr: string,
    alertModeDhuhr: string,
    alertModeAsr: string,
    alertModeMaghrib: string,
    alertModeIsha: string)

  /** The declared default of every setting. */
  const Defaults: Snapshot := Snapshot(
    CalculationMethods.RawValue(CalculationMethods.Isna),
    AsrSchools.RawValue(AsrSchools.Hanafi),
    true, 0.0, 0.0, "",
    RawValue(Adhan), RawValue(Adhan), RawValue(Adhan), RawValue(Adhan), RawValue(Adhan))

  /** The five names that have an alert-mode setting. */
  predicate IsDailyPrayer(prayer: string) {
    prayer == "Fajr" || prayer == "Dhuhr" || prayer == "Asr" || prayer == "Maghrib" || prayer == "Isha"
  }

  /** The stored mode string for `prayer`, and "adhan" for any other name. */
  function StoredMode(st: Snapshot, prayer: string): string {
    if prayer == "Fajr" then st.alertModeFajr
    else if prayer == "Dhuhr" then st.alertModeDhuhr
    else if prayer == "Asr" then st.alertModeAsr
    else if prayer == "Maghrib" then st.alertModeMaghrib
    else if prayer == "Isha" then st.alertModeIsha
    else RawValue(Adhan)
  }

  /** `alertMode(for:)`: the stored mode decoded, `.adhan` when it does not decode. */
  function AlertMode(st: Snapshot, prayer: string): PrayerAlertMode {
    FromRaw(StoredMode(st, prayer)).GetOr(Adhan)
  }

  /** `setAlertMode(_:for:)` on the stored values: one prayer's string replaced, or nothing for another name. */
  function WithAlertMode(st: Snapshot, mode: PrayerAlertMode, prayer: string): Snapshot {
    if prayer == "Fajr" then st.(alertModeFajr := RawValue(mode))
    else if prayer == "Dhuhr" then st.(alertModeDhuhr := RawValue(mode))
    else if prayer == "Asr" then st.(alertModeAsr := RawValue(mode))
    else if prayer == "Maghrib" then st.(alertModeMaghrib := RawValue(mode))
    else if prayer == "Isha" then st.(alertModeIsha := RawValue(mode))
    else st
  }

  predicate ShouldPlayAdhan(st: Snapshot, prayer: string) {
    AlertMode(st, prayer) == Adhan
  }

  predicate ShouldShowNotification(st: Snapshot, prayer: string) {
    var mode := AlertMode(st, prayer);
    mode == Adhan || mode == Notification
  }

  /** `manualLocation`: the stored pair, unless automatic location is on or both coordinates are 0. */
  function ManualLocation(st: Snapshot): Option<(real, real)> {
    if st.useAutoLocation then None
    else if st.manualLatitude == 0.0 && st.manualLongitude == 0.0 then None
    else Some((st.manualLatitude, st.manualLongitude))
  }

  function WithManualLocation(st: Snapshot, latitude: real, longitude: real, cityName: string): Snapshot {
    st.(manualLatitude := latitude, manualLongitude := longitude, manualCityName := cityName, useAutoLocation := false)
  }

  function WithoutManualLocation(st: Snapshot): Snapshot {
    st.(manualLatitude := 0.0, manualLongitude := 0.0, manualCityName := "", useAutoLocation := true)
  }

  /** `calculationMethodEnum`: the stored number decoded, ISNA when it does not decode. */
  function MethodOf(st: Snapshot): CalculationMethods.CalculationMethod {
    CalculationMethods.FromRaw(st.calculationMethod).GetOr(CalculationMethods.Isna)
  }

  /** `asrSchoolEnum`: the stored number decoded, Hanafi when it does not decode. */
  function SchoolOf(st: Snapshot): AsrSchools.AsrSchool {
    AsrSchools.FromRaw(st.asrSchool).GetOr(AsrSchools.Hanafi)
  }

  /**
   * The defaults: method 2 (ISNA), school 1 (Hanafi), automatic location, no
   * manual location, and the adhan for every prayer.
   */
  lemma DefaultsDeclared(prayer: string)
    ensures Defaults.calculationMethod == 2 && Defaults.asrSchool == 1
    ensures Defaults.useAutoLocation && Defaults.manualLatitude == 0.0 && Defaults.manualLongitude == 0.0
    ensures Defaults.manualCityName == ""
    ensures MethodOf(Defaults) == CalculationMethods.Isna && SchoolOf(Defaults) == AsrSchools.Hanafi
    ensures ManualLocation(Defaults) == None
    ensures AlertMode(Defaults, prayer) == Adhan
  {
  }

  /**
   * A name without a setting, and a stored string that is not a mode, both
   * read as the adhan; a stored mode reads back as itself.
   */
  lemma AlertModeFallback(st: Snapshot, prayer: string)
    ensures !IsDailyPrayer(prayer) ==> AlertMode(st, prayer) == Adhan
    ensures FromRaw(StoredMode(st, prayer)).None? ==> AlertMode(st, prayer) == Adhan
    ensures FromRaw(StoredMode(st, prayer)).Some? ==> RawValue(AlertMode(st, prayer)) == StoredMode(st, prayer)
  {
    RawValueRoundTrip(Adhan, StoredMode(st, prayer));
  }

  /**
   * Setting a daily prayer's mode makes it read back as that mode and leaves
   * every other name's mode as it was; an unknown name changes nothing.
   */
  lemma SetAlertModeEffect(st: Snapshot, mode: PrayerAlertMode, prayer: string, other: string)
    ensures IsDailyPrayer(prayer) ==> AlertMode(WithAlertMode(st, mode, prayer), prayer) == mode
    ensures other != prayer ==> AlertMode(WithAlertMode(st, mode, prayer), other) == AlertMode(st, other)
    ensures !IsDailyPrayer(prayer) ==> WithAlertMode(st, mode, prayer) == st
    ensures WithAlertMode(st, mode, prayer).(alertModeFajr := "", alertModeDhuhr := "", alertModeAsr := "",
                                              alertModeMaghrib := "", alertModeIsha := "")
         == st.(alertModeFajr := "", alertModeDhuhr := "", alertModeAsr := "", alertModeMaghrib := "", alertModeIsha := "")
  {
    RawValueRoundTrip(mode, "");
  }

  /**
   * The adhan plays exactly in adhan mode; a notification shows in adhan and
   * notification mode. So playing implies showing, and silent shows nothing.
   */
  lemma AlertDecisions(st: Snapshot, prayer: string)
    ensures ShouldPlayAdhan(st, prayer) <==> AlertMode(st, prayer) == Adhan
    ensures ShouldShowNotification(st, prayer) <==> AlertMode(st, prayer) != Silent
    ensures ShouldPlayAdhan(st, prayer) ==> ShouldShowNotification(st, prayer)
    ensures AlertMode(st, prayer) == Notification ==> !ShouldPlayAdhan(st, prayer) && ShouldShowNotification(st, prayer)
  {
  }

  /** A manual location exists exactly when automatic location is off and a coordinate is non-zero. */
  lemma ManualLocationIff(st: Snapshot)
    ensures ManualLocation(st).Some? <==> !st.useAutoLocation && (st.manualLatitude != 0.0 || st.manualLongitude != 0.0)
    ensures ManualLocation(st).Some? ==> ManualLocation(st).value == (st.manualLatitude, st.manualLongitude)
  {
  }

  /**
   * Setting a location turns automatic location off and makes it the manual
   * location, except that (0, 0) counts as none; clearing turns automatic
   * location on and leaves no manual location. Neither touches the alert modes
   * or the calculation settings.
   */
  lemma ManualLocationRoundTrip(st: Snapshot, latitude: real, longitude: real, cityName: string)
    ensures var placed := WithManualLocation(st, latitude, longitude, cityName);
      && !placed.useAutoLocation && placed.manualCityName == cityName
      && ManualLocation(placed) == (if latitude == 0.0 && longitude == 0.0 then None else Some((latitude, longitude)))
    ensures var cleared := WithoutManualLocation(st);
      && cleared.useAutoLocation && cleared.manualCityName == ""
      && ManualLocation(cleared) == None
    ensures forall p :: AlertMode(WithManualLocation(st, latitude, longitude, cityName), p) == AlertMode(st, p)
    ensures forall p :: AlertMode(WithoutManualLocation(st), p) == AlertMode(st, p)
    ensures MethodOf(WithManualLocation(st, latitude, longitude, cityName)) == MethodOf(st)
    ensures SchoolOf(WithoutManualLocation(st)) == SchoolOf(st)
  {
  }

  /** Unknown stored numbers fall back to ISNA and Hanafi; known ones decode to their case. */
  lemma EnumFallbacks(st: Snapshot)
    ensures CalculationMethods.FromRaw(st.calculationMethod).None? ==> MethodOf(st) == CalculationMethods.Isna
    ensures CalculationMethods.FromRaw(st.calculationMethod).Some? ==>
      CalculationMethods.RawValue(MethodOf(st)) == st.calculationMethod
    ensures AsrSchools.FromRaw(st.asrSchool).None? ==> SchoolOf(st) == AsrSchools.Hanafi
    ensures AsrSchools.FromRaw(st.asrSchool).Some? ==> AsrSchools.RawValue(SchoolOf(st)) == st.asrSchool
  {
    CalculationMethods.RawValueRoundTrip(CalculationMethods.Isna, st.calculationMethod);
    AsrSchools.RawValueRoundTrip(AsrSchools.Hanafi, st.asrSchool);
  }

  /** The settings object; its fields are the stored values. */
  class AppSettings {
    var calculationMethod: int
    var asrSchool: int
    var useAutoLocation: bool
    var manualLatitude: real
    var manualLongitude: real
    var manualCityName: string
    var alertModeFajr: string
    var alertModeDhuhr: string
    var alertModeAsr: string
    var alertModeMaghrib: string
    var alertModeIsha: string

    function State(): Snapshot
      reads this
    {
      Snapshot(calculationMethod, asrSchool, useAutoLocation, manualLatitude, manualLongitude, manualCityName,
               alertModeFajr, alertModeDhuhr, alertModeAsr, alertModeMaghrib, alertModeIsha)
    }

    /** A settings object over nothing stored yet: every setting at its default. */
    constructor()
      ensures State() == Defaults
    {
      calculationMethod := CalculationMethods.RawValue(CalculationMethods.Isna);
      asrSchool := AsrSchools.RawValue(AsrSchools.Hanafi);
      useAutoLocation := true;
      manualLatitude := 0.0;
      manualLongitude := 0.0;
      manualCityName := "";
      alertModeFajr := RawValue(Adhan);
      alertModeDhuhr := RawValue(Adhan);
      alertModeAsr := RawValue(Adhan);
      alertModeMaghrib := RawValue(Adhan);
      alertModeIsha := RawValue(Adhan);
    }

    /** `setAlertMode(_:for:)`. */
    method SetAlertMode(mode: PrayerAlertMode, prayer: string)
      modifies this
      ensures State() == WithAlertMode(old(State()), mode, prayer)
    {
      if prayer == "Fajr" {
        alertModeFajr := RawValue(mode);
      } else if prayer == "Dhuhr" {
        alertModeDhuhr := RawValue(mode);
      } else if prayer == "Asr" {
        alertModeAsr := RawValue(mode);
      } else if prayer == "Maghrib" {
        alertModeMaghrib := RawValue(mode);
      } else if prayer == "Isha" {
        alertModeIsha := RawValue(mode);
      }
    }

    /** `setManualLocation(latitude:longitude:cityName:)`. */
    method SetManualLocation(latitude: real, longitude: real, cityName: string)
      modifies this
      ensures State() == WithManualLocation(old(State()), latitude, longitude, cityName)
    {
      manualLatitude := latitude;
      manualLongitude := longitude;
      manualCityName := cityName;
      useAutoLocation := false;
    }

    /** `clearManualLocation()`. */
    method ClearManualLocation()
      modifies this
      ensures State() == WithoutManualLocation(old(State()))
    {
      manualLatitude := 0.0;
      manualLongitude := 0.0;
      manualCityName := "";
      useAutoLocation := true;
    }

    /** `resetToDefaults()`: every setting back to its default, so a second reset changes nothing. */
    method ResetToDefaults()
      modifies this
      ensures State() == Defaults
    {
      calculationMethod := CalculationMethods.RawValue(CalculationMethods.Isna);
      asrSchool := AsrSchools.RawValue(AsrSchools.Hanafi);
      useAutoLocation := true;
      manualLatitude := 0.0;
      manualLongitude := 0.0;
      manualCityName := "";
      alertModeFajr := RawValue(Adhan);
      alertModeDhuhr := RawValue(Adhan);
      alertModeAsr := RawValue(Adhan);
      alertModeMaghrib := RawValue(Adhan);
      alertModeIsha := RawValue(Adhan);
    }
  }
}
