/**
 * The decisions the settings screens make (ios/AdhanApp/Views/SettingsView.swift):
 * which mode a prayer's alert picker shows, when "Save Location" is enabled,
 * and how a typed-in location is checked before it is stored. `Double(String)`
 * is a parameter: it either reads a number or fails.
 */
module SettingsViews {
  import opened Wrappers
  import opened AlertModes
  import opened Settings

  /** `PrayerAlertRow.currentMode`: the bound string decoded, `.adhan` when it does not decode. */
  function CurrentMode(mode: string): PrayerAlertMode {
    FromRaw(mode).GetOr(Adhan)
  }

  /**
   * The picker shows the mode the settings report for the prayer it is bound
   * to, shows each mode as itself, and shows the adhan for a string that is
   * not a mode.
   */
  lemma CurrentModeAgrees(st: Snapshot, prayer: string, m: PrayerAlertMode, junk: string)
    ensures IsDailyPrayer(prayer) ==> CurrentMode(StoredMode(st, prayer)) == AlertMode(st, prayer)
    ensures CurrentMode(RawValue(m)) == m
    ensures FromRaw(junk).None? ==> CurrentMode(junk) == Adhan
  {
    RawValueRoundTrip(m, junk);
  }

  /** The "Save Location" button is disabled while any of the three fields is empty. */
  predicate SaveDisabled(cityName: string, latitude: string, longitude: string) {
    cityName == "" || latitude == "" || longitude == ""
  }

  const NotNumbersMessage := "Please enter valid decimal numbers for coordinates."
  const LatitudeRangeMessage := "Latitude must be between -90 and 90."
  const LongitudeRangeMessage := "Longitude must be between -180 and 180."

  /**
   * The checks `saveLocation` makes, in order: both fields must read as
   * numbers, then the latitude must lie in [-90, 90], then the longitude in
   * [-180, 180]. The error is the message shown.
   */
  function Validate(latitude: string, longitude: string, parse: string -> Option<real>): Result<(real, real), string> {
    var lat, lon := parse(latitude), parse(longitude);
    if lat.None? || lon.None? then Err(NotNumbersMessage)
    else if !(lat.value >= -90.0 && lat.value <= 90.0) then Err(LatitudeRangeMessage)
    else if !(lon.value >= -180.0 && lon.value <= 180.0) then Err(LongitudeRangeMessage)
    else Ok((lat.value, lon.value))
  }

  /**
   * A location is accepted exactly when both fields read as numbers within
   * the inclusive bounds, and it is then the pair read.
   */
  lemma ValidateAccepts(latitude: string, longitude: string, parse: string -> Option<real>)
    ensures var r := Validate(latitude, longitude, parse);
      && (r.Ok? <==>
            && parse(latitude).Some? && parse(longitude).Some?
            && -90.0 <= parse(latitude).value <= 90.0
            && -180.0 <= parse(longitude).value <= 180.0)
      && (r.Ok? ==> r.value == (parse(latitude).value, parse(longitude).value))
  {
  }

  /**
   * Each rejection names the first check that failed: an unreadable field
   * wins over any range, and a bad latitude is reported even when the
   * longitude is also out of range.
   */
  lemma ValidateReportsFirstFailure(latitude: string, longitude: string, parse: string -> Option<real>)
    ensures parse(latitude).None? || parse(longitude).None? ==>
      Validate(latitude, longitude, parse) == Err(NotNumbersMessage)
    ensures parse(latitude).Some? && parse(longitude).Some? && !(-90.0 <= parse(latitude).value <= 90.0) ==>
      Validate(latitude, longitude, parse) == Err(LatitudeRangeMessage)
    ensures (parse(latitude).Some? && parse(longitude).Some? && -90.0 <= parse(latitude).value <= 90.0
             && !(-180.0 <= parse(longitude).value <= 180.0)) ==>
      Validate(latitude, longitude, parse) == Err(LongitudeRangeMessage)
  {
  }

  /** The manual-location screen: its text fields, its error alert, and the settings it edits. */
  class LocationSettingsView {
    var cityName: string
    var latitude: string
    var longitude: string
    var showError: bool
    var errorMessage: string
    var dismissed: bool
    const settings: AppSettings

    constructor(settings: AppSettings)
      ensures this.settings == settings
      ensures cityName == "" && latitude == "" && longitude == ""
      ensures !showError && errorMessage == "" && !dismissed
    {
      this.settings := settings;
      cityName := "";
      latitude := "";
      longitude := "";
      showError := false;
      errorMessage := "";
      dismissed := false;
    }

    /**
     * `saveLocation()`: a rejected location shows its message and leaves the
     * settings as they were; an accepted one is stored with the typed city
     * name and the screen is dismissed.
     */
    method SaveLocation(parse: string -> Option<real>)
      modifies this, settings
      ensures cityName == old(cityName) && latitude == old(latitude) && longitude == old(longitude)
      ensures var v := Validate(latitude, longitude, parse);
        && (v.Err? ==>
              && settings.State() == old(settings.State())
              && showError && errorMessage == v.error && dismissed == old(dismissed))
        && (v.Ok? ==>
              && settings.State() == WithManualLocation(old(settings.State()), v.value.0, v.value.1, cityName)
              && dismissed && showError == old(showError) && errorMessage == old(errorMessage))
    {
      var v := Validate(latitude, longitude, parse);
      if v.Err? {
        errorMessage := v.error;
        showError := true;
        return;
      }
      settings.SetManualLocation(v.value.0, v.value.1, cityName);
      dismissed := true;
    }
  }
}
