/**
 * The prayer-time calculation methods the app offers
 * (ios/AdhanApp/Models/CalculationMethod.swift): an Int-backed enumeration
 * whose raw values are the AlAdhan API's method numbers, with the twilight
 * angles each uses. Angles are held in tenths of a degree.
 */
module CalculationMethods {
  import opened Wrappers

  datatype CalculationMethod = Karachi | Isna | Mwl | UmmAlQura | Egyptian | Tehran

  const AllMethods: seq<CalculationMethod> := [Karachi, Isna, Mwl, UmmAlQura, Egyptian, Tehran]

  function RawValue(m: CalculationMethod): int {
    match m
    case Karachi => 1
    case Isna => 2
    case Mwl => 3
    case UmmAlQura => 4
    case Egyptian => 5
    case Tehran => 7
  }

  /** `CalculationMethod(rawValue:)`. */
  function FromRaw(n: int): Option<CalculationMethod> {
    if n == 1 then Some(Karachi)
    else if n == 2 then Some(Isna)
    else if n == 3 then Some(Mwl)
    else if n == 4 then Some(UmmAlQura)
    else if n == 5 then Some(Egyptian)
    else if n == 7 then Some(Tehran)
    else None
  }

  /**
   * Raw values decode to their case, only raw values decode, and 0, 6 and
   * anything from 8 up (or below 0) do not.
   */
  lemma RawValueRoundTrip(m: CalculationMethod, n: int)
    ensures FromRaw(RawValue(m)) == Some(m)
    ensures FromRaw(n).Some? ==> RawValue(FromRaw(n).value) == n
    ensures FromRaw(n).None? <==> n <= 0 || n == 6 || n >= 8
  {
  }

  /** Six cases, listed once each, with distinct raw values. */
  lemma AllMethodsComplete(m: CalculationMethod)
    ensures |AllMethods| == 6 && m in AllMethods
    ensures forall i, j :: 0 <= i < j < |AllMethods| ==> RawValue(AllMethods[i]) < RawValue(AllMethods[j])
  {
  }

  function DisplayName(m: CalculationMethod): string {
    match m
    case Karachi => "Karachi"
    case Isna => "ISNA"
    case Mwl => "Muslim World League"
    case UmmAlQura => "Umm Al-Qura"
    case Egyptian => "Egyptian"
    case Tehran => "Tehran"
  }

  lemma DistinctDisplayNames(a: CalculationMethod, b: CalculationMethod)
    requires a != b
    ensures DisplayName(a) != DisplayName(b)
  {
  }

  /** The Fajr depression angle, in tenths of a degree. */
  function FajrAngle(m: CalculationMethod): int {
    match m
    case Karachi => 180
    case Isna => 150
    case Mwl => 180
    case UmmAlQura => 185
    case Egyptian => 195
    case Tehran => 177
  }

  /** The Isha depression angle, in tenths of a degree; 0 means a fixed time after Maghrib. */
  function IshaAngle(m: CalculationMethod): int {
    match m
    case Karachi => 180
    case Isna => 150
    case Mwl => 170
    case UmmAlQura => 0
    case Egyptian => 175
    case Tehran => 140
  }

  /** Only Umm Al-Qura times Isha after Maghrib instead of by angle. */
  lemma IshaByMinutesOnlyForUmmAlQura(m: CalculationMethod)
    ensures IshaAngle(m) == 0 <==> m == UmmAlQura
    ensures IshaAngle(m) >= 0
  {
  }

  /** ISNA uses 15 degrees for both, and every other method a deeper Fajr angle. */
  lemma IsnaIsShallowest(m: CalculationMethod)
    ensures FajrAngle(Isna) == 150 && IshaAngle(Isna) == 150
    ensures m != Isna ==> FajrAngle(m) > FajrAngle(Isna)
  {
  }
}
