/**
 * The juristic schools for the Asr time (ios/AdhanApp/Models/AsrSchool.swift):
 * an Int-backed enumeration whose raw values are the AlAdhan API's school
 * numbers, with the shadow length each school waits for.
 */
module AsrSchools {
  import opened Wrappers

  datatype AsrSchool = Standard | Hanafi

  const AllSchools: seq<AsrSchool> := [Standard, Hanafi]

  function RawValue(s: AsrSchool): int {
    match s
    case Standard => 0
    case Hanafi => 1
  }

  /** `AsrSchool(rawValue:)`. */
  function FromRaw(n: int): Option<AsrSchool> {
    if n == 0 then Some(Standard) else if n == 1 then Some(Hanafi) else None
  }

  /** Raw values decode to their case; every other number decodes to nothing. */
  lemma RawValueRoundTrip(s: AsrSchool, n: int)
    ensures FromRaw(RawValue(s)) == Some(s)
    ensures FromRaw(n).Some? <==> n == 0 || n == 1
    ensures FromRaw(n).Some? ==> RawValue(FromRaw(n).value) == n
  {
  }

  lemma AllSchoolsComplete(s: AsrSchool)
    ensures |AllSchools| == 2 && s in AllSchools && AllSchools[0] != AllSchools[1]
  {
  }

  function DisplayName(s: AsrSchool): string {
    match s
    case Standard => "Standard"
    case Hanafi => "Hanafi"
  }

  lemma DistinctDisplayNames(a: AsrSchool, b: AsrSchool)
    requires a != b
    ensures DisplayName(a) != DisplayName(b)
  {
  }

  /** How many object heights the shadow must reach: 1 for Standard, 2 for Hanafi. */
  function ShadowFactor(s: AsrSchool): int {
    match s
    case Standard => 1
    case Hanafi => 2
  }

  /** The shadow factor is the raw value plus one. */
  lemma ShadowFactorIsRawPlusOne(s: AsrSchool)
    ensures ShadowFactor(s) == RawValue(s) + 1
    ensures ShadowFactor(Standard) == 1 && ShadowFactor(Hanafi) == 2
  {
  }
}
