/**
 * How the app tells its build environment apart
 * (ios/AdhanApp/Utilities/BuildEnvironment.swift). The two compile-time flags
 * (`DEBUG`, simulator target) and the last path component of the bundle's
 * App Store receipt URL, absent when there is no receipt, are the inputs.
 */
module Build {
  import opened Wrappers

  const SandboxReceipt := "sandboxReceipt"

  datatype Environment = Environment(isDebugBuild: bool, receipt: Option<string>, isSimulator: bool)

  /** `isTestFlight`: a receipt exists and it is the sandbox receipt. */
  predicate IsTestFlight(e: Environment) {
    match e.receipt
    case None => false
    case Some(name) => name == SandboxReceipt
  }

  /** `isAppStore`: a receipt exists, it is not the sandbox receipt, and this is not a debug build. */
  predicate IsAppStore(e: Environment) {
    match e.receipt
    case None => false
    case Some(name) => name != SandboxReceipt && !e.isDebugBuild
  }

  /** `allowDebugFeatures`: always in a debug build, otherwise only from TestFlight. */
  predicate AllowDebugFeatures(e: Environment) {
    if e.isDebugBuild then true else IsTestFlight(e)
  }

  /** `verboseLoggingEnabled`. */
  predicate VerboseLoggingEnabled(e: Environment) {
    if e.isDebugBuild then true else IsTestFlight(e)
  }

  /** `showDiagnosticInfo`. */
  predicate ShowDiagnosticInfo(e: Environment) {
    AllowDebugFeatures(e)
  }

  /** `configurationName`: Debug, then TestFlight, then App Store, then Release. */
  function ConfigurationName(e: Environment): string {
    if e.isDebugBuild then "Debug"
    else if IsTestFlight(e) then "TestFlight"
    else if IsAppStore(e) then "App Store"
    else "Release"
  }

  /**
   * Swift's `joined(separator:)` with a string separator: the pieces with
   * `separator` between neighbours. `Text.Join` takes a one-character separator
   * so that its round trip with `Split` can be proved; " - " needs this one.
   */
  function Joined(parts: seq<string>, separator: string): string {
    if parts == [] then ""
    else if |parts| == 1 then parts[0]
    else parts[0] + separator + Joined(parts[1..], separator)
  }

  /** `environmentDescription`: the configuration name, then "Simulator" when on the simulator. */
  function EnvironmentDescription(e: Environment): string {
    var components := [ConfigurationName(e)] + (if e.isSimulator then ["Simulator"] else []);
    Joined(components, " - ")
  }

  /** The sandbox receipt marks TestFlight and any other receipt marks the App Store, so the two never coincide. */
  lemma TestFlightOrAppStore(e: Environment)
    ensures IsTestFlight(e) <==> (e.receipt.Some? && e.receipt.value == SandboxReceipt)
    ensures !(IsTestFlight(e) && IsAppStore(e))
    ensures e.isDebugBuild ==> !IsAppStore(e)
    ensures IsAppStore(e) <==> (e.receipt.Some? && e.receipt.value != SandboxReceipt && !e.isDebugBuild)
  {
  }

  /**
   * Debug features are on exactly in debug builds and TestFlight, never in
   * an App Store build, and the verbose-logging and diagnostics switches
   * always agree with them.
   */
  lemma DebugFeatures(e: Environment)
    ensures AllowDebugFeatures(e) <==> e.isDebugBuild || IsTestFlight(e)
    ensures AllowDebugFeatures(e) ==> !IsAppStore(e)
    ensures VerboseLoggingEnabled(e) == AllowDebugFeatures(e)
    ensures ShowDiagnosticInfo(e) == AllowDebugFeatures(e)
  {
  }

  /**
   * Each configuration name is reported exactly in its own case; "Release"
   * is a non-debug build with no receipt at all. Debug features are on
   * exactly when the name is "Debug" or "TestFlight".
   */
  lemma ConfigurationNames(e: Environment)
    ensures ConfigurationName(e) == "Debug" <==> e.isDebugBuild
    ensures ConfigurationName(e) == "TestFlight" <==> !e.isDebugBuild && IsTestFlight(e)
    ensures ConfigurationName(e) == "App Store" <==> IsAppStore(e)
    ensures ConfigurationName(e) == "Release" <==> !e.isDebugBuild && e.receipt.None?
    ensures AllowDebugFeatures(e) <==> ConfigurationName(e) in {"Debug", "TestFlight"}
  {
  }

  /**
   * The description is the configuration name, followed by " - Simulator"
   * exactly on the simulator.
   */
  lemma DescriptionShape(e: Environment)
    ensures EnvironmentDescription(e) ==
      ConfigurationName(e) + (if e.isSimulator then " - Simulator" else "")
    ensures var d := EnvironmentDescription(e);
      e.isSimulator <==> (|d| >= 12 && d[|d| - 12..] == " - Simulator")
  {
    var name := ConfigurationName(e);
    if e.isSimulator {
      var parts := [name] + ["Simulator"];
      assert parts[1..] == ["Simulator"];
      assert Joined(parts[1..], " - ") == "Simulator";
      assert Joined(parts, " - ") == name + " - " + "Simulator";
      assert EnvironmentDescription(e) == name + " - Simulator";
      assert (name + " - Simulator")[|name|..] == " - Simulator";
    } else {
      assert EnvironmentDescription(e) == Joined([name], " - ");
      assert |name| < 12;
    }
  }
}
