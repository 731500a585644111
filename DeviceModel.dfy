/**
 * How the app names the device it runs on
 * (ios/AdhanApp/Extensions/UIDevice+ModelName.swift): the `utsname.machine`
 * bytes are folded into an identifier such as "iPhone14,2", the identifier is
 * looked up in the iPhone and iPad tables, and the diagnostics block is three
 * lines. The machine buffer, the simulator's environment variable and the
 * system version are inputs.
 */
module DeviceModel {
  import opened Wrappers
  import opened Text

  /** The machine buffer's bytes are `Int8` values that `UInt8(value)` accepts. */
  predicate IsAsciiBuffer(machine: seq<int>) {
    forall k :: 0 <= k < |machine| ==> 0 <= machine[k] < 128
  }

  /**
   * `modelIdentifier`: a left fold over the buffer that skips every zero byte
   * and appends every other byte as a character.
   */
  function Identifier(machine: seq<int>): (id: string)
    requires IsAsciiBuffer(machine)
    ensures |id| <= |machine|
    ensures forall k :: 0 <= k < |id| ==> id[k] != 0 as char
  {
    if machine == [] then ""
    else
      var prefix := Identifier(machine[..|machine| - 1]);
      var last := machine[|machine| - 1];
      if last == 0 then prefix else prefix + [last as char]
  }

  /** Folding two buffers one after the other is folding each and concatenating. */
  lemma {:induction false} IdentifierAppend(a: seq<int>, b: seq<int>)
    requires IsAsciiBuffer(a) && IsAsciiBuffer(b)
    ensures IsAsciiBuffer(a + b)
    ensures Identifier(a + b) == Identifier(a) + Identifier(b)
    decreases |b|
  {
    if b == [] {
      assert a + b == a;
    } else {
      var b' := b[..|b| - 1];
      assert (a + b)[..|a + b| - 1] == a + b';
      IdentifierAppend(a, b');
    }
  }

  /** A zero byte anywhere in the buffer contributes nothing, not even a terminator. */
  lemma IdentifierSkipsZero(a: seq<int>, b: seq<int>)
    requires IsAsciiBuffer(a) && IsAsciiBuffer(b)
    ensures IsAsciiBuffer(a + [0] + b) && IsAsciiBuffer(a + b)
    ensures Identifier(a + [0] + b) == Identifier(a + b)
  {
    IdentifierAppend(a, [0]);
    IdentifierAppend(a + [0], b);
    IdentifierAppend(a, b);
  }

  /** The bytes of an ASCII string without NUL characters. */
  function Bytes(s: string): (b: seq<int>)
    requires forall k :: 0 <= k < |s| ==> 0 < s[k] as int < 128
    ensures |b| == |s| && IsAsciiBuffer(b)
    ensures forall k :: 0 <= k < |s| ==> b[k] == s[k] as int
  {
    seq(|s|, k requires 0 <= k < |s| => s[k] as int)
  }

  /** A block of `n` zero bytes. */
  function Zeros(n: nat): (z: seq<int>)
    ensures |z| == n && IsAsciiBuffer(z)
    ensures forall k :: 0 <= k < n ==> z[k] == 0
  {
    seq(n, k => 0)
  }

  /** No zero byte changes nothing: the fold reads back every character in order. */
  lemma {:induction false} IdentifierOfBytes(s: string)
    requires forall k :: 0 <= k < |s| ==> 0 < s[k] as int < 128
    ensures Identifier(Bytes(s)) == s
    decreases |s|
  {
    if s != [] {
      var s' := s[..|s| - 1];
      assert Bytes(s)[..|s| - 1] == Bytes(s');
      IdentifierOfBytes(s');
    }
  }

  /** A zero-padded buffer, as `uname` fills it, reads back as the name it holds. */
  lemma IdentifierOfPaddedName(s: string, padding: nat)
    requires forall k :: 0 <= k < |s| ==> 0 < s[k] as int < 128
    ensures IsAsciiBuffer(Bytes(s) + Zeros(padding))
    ensures Identifier(Bytes(s) + Zeros(padding)) == s
  {
    IdentifierAppend(Bytes(s), Zeros(padding));
    IdentifierOfBytes(s);
    ZerosReadEmpty(padding);
  }

  /** A buffer of zeros folds to the empty identifier. */
  lemma {:induction false} ZerosReadEmpty(n: nat)
    ensures Identifier(Zeros(n)) == ""
  {
    if n > 0 {
      assert Zeros(n)[..n - 1] == Zeros(n - 1);
      ZerosReadEmpty(n - 1);
    }
  }

  const IPhoneModels: map<string, string> := map[
    "iPhone14,2" := "iPhone 13 Pro",
    "iPhone14,3" := "iPhone 13 Pro Max",
    "iPhone14,4" := "iPhone 13 mini",
    "iPhone14,5" := "iPhone 13",
    "iPhone14,6" := "iPhone SE (3rd gen)",
    "iPhone14,7" := "iPhone 14",
    "iPhone14,8" := "iPhone 14 Plus",
    "iPhone15,2" := "iPhone 14 Pro",
    "iPhone15,3" := "iPhone 14 Pro Max",
    "iPhone15,4" := "iPhone 15",
    "iPhone15,5" := "iPhone 15 Plus",
    "iPhone16,1" := "iPhone 15 Pro",
    "iPhone16,2" := "iPhone 15 Pro Max",
    "iPhone17,1" := "iPhone 16 Pro",
    "iPhone17,2" := "iPhone 16 Pro Max",
    "iPhone17,3" := "iPhone 16",
    "iPhone17,4" := "iPhone 16 Plus"
  ]

  const IPadModels: map<string, string> := map[
    "iPad13,4" := "iPad Pro 11-inch (3rd gen)",
    "iPad13,5" := "iPad Pro 11-inch (3rd gen)",
    "iPad13,6" := "iPad Pro 11-inch (3rd gen)",
    "iPad13,7" := "iPad Pro 11-inch (3rd gen)",
    "iPad13,8" := "iPad Pro 12.9-inch (5th gen)",
    "iPad13,9" := "iPad Pro 12.9-inch (5th gen)",
    "iPad13,10" := "iPad Pro 12.9-inch (5th gen)",
    "iPad13,11" := "iPad Pro 12.9-inch (5th gen)",
    "iPad13,16" := "iPad Air (5th gen)",
    "iPad13,17" := "iPad Air (5th gen)",
    "iPad13,18" := "iPad (10th gen)",
    "iPad13,19" := "iPad (10th gen)",
    "iPad14,3" := "iPad Pro 11-inch (4th gen)",
    "iPad14,4" := "iPad Pro 11-inch (4th gen)",
    "iPad14,5" := "iPad Pro 12.9-inch (6th gen)",
    "iPad14,6" := "iPad Pro 12.9-inch (6th gen)",
    "iPad14,8" := "iPad Air (6th gen)",
    "iPad14,9" := "iPad Air (6th gen)",
    "iPad14,10" := "iPad Air 13-inch (6th gen)",
    "iPad14,11" := "iPad Air 13-inch (6th gen)",
    "iPad16,3" := "iPad Pro 11-inch (5th gen)",
    "iPad16,4" := "iPad Pro 11-inch (5th gen)",
    "iPad16,5" := "iPad Pro 13-inch (5th gen)",
    "iPad16,6" := "iPad Pro 13-inch (5th gen)"
  ]

  /** The identifiers a simulator reports: the host's architecture. */
  predicate IsSimulatorIdentifier(identifier: string) {
    identifier == "x86_64" || identifier == "arm64"
  }

  /**
   * `modelName`: the simulator first, then the iPhone table, then the iPad
   * table, and the identifier itself when no table knows it.
   */
  function ModelName(identifier: string, simulatorModel: Option<string>): string {
    if IsSimulatorIdentifier(identifier) then "Simulator (" + simulatorModel.GetOr("Unknown") + ")"
    else if identifier in IPhoneModels then IPhoneModels[identifier]
    else if identifier in IPadModels then IPadModels[identifier]
    else identifier
  }

  /** Every iPhone key starts "iPhone". */
  lemma IPhoneKeyPrefix(identifier: string)
    requires identifier in IPhoneModels
    ensures |identifier| > 2 && identifier[2] == 'h'
  {
  }

  /** Every iPad key starts "iPad". */
  lemma IPadKeyPrefix(identifier: string)
    requires identifier in IPadModels
    ensures |identifier| > 2 && identifier[2] == 'a'
  {
  }

  /** The simulator and the two tables name disjoint sets of identifiers, so the lookup order decides nothing. */
  lemma TablesDisjoint(identifier: string)
    ensures !(identifier in IPhoneModels && identifier in IPadModels)
    ensures IsSimulatorIdentifier(identifier) ==> identifier !in IPhoneModels && identifier !in IPadModels
  {
    if identifier in IPhoneModels {
      IPhoneKeyPrefix(identifier);
    }
    if identifier in IPadModels {
      IPadKeyPrefix(identifier);
    }
  }

  /**
   * Each kind of identifier gets its own name: the simulator's model (or
   * "Unknown") in brackets, the table entry, or the identifier unchanged.
   */
  lemma ModelNameCases(identifier: string, simulatorModel: Option<string>)
    ensures IsSimulatorIdentifier(identifier) ==>
      ModelName(identifier, simulatorModel) == "Simulator (" + simulatorModel.GetOr("Unknown") + ")"
    ensures identifier in IPhoneModels ==> ModelName(identifier, simulatorModel) == IPhoneModels[identifier]
    ensures identifier in IPadModels ==> ModelName(identifier, simulatorModel) == IPadModels[identifier]
    ensures (!IsSimulatorIdentifier(identifier) && identifier !in IPhoneModels && identifier !in IPadModels) ==>
      ModelName(identifier, simulatorModel) == identifier
  {
    TablesDisjoint(identifier);
  }

  /** An iPhone key has a digit where every iPhone name has a space, so no name is its own key. */
  lemma IPhoneNamesDifferFromKeys(identifier: string)
    requires identifier in IPhoneModels
    ensures IPhoneModels[identifier] != identifier
  {
    assert identifier[6] == '1';
    assert IPhoneModels[identifier][6] == ' ';
  }

  /** An iPad key has a digit where every iPad name has a space, so no name is its own key. */
  lemma IPadNamesDifferFromKeys(identifier: string)
    requires identifier in IPadModels
    ensures IPadModels[identifier] != identifier
  {
    assert identifier[4] == '1';
    assert IPadModels[identifier][4] == ' ';
  }

  /** The name differs from the identifier exactly when the identifier is recognised. */
  lemma ModelNameRecognises(identifier: string, simulatorModel: Option<string>)
    ensures ModelName(identifier, simulatorModel) == identifier <==>
      (!IsSimulatorIdentifier(identifier) && identifier !in IPhoneModels && identifier !in IPadModels)
  {
    if identifier in IPhoneModels {
      IPhoneNamesDifferFromKeys(identifier);
    } else if identifier in IPadModels {
      IPadNamesDifferFromKeys(identifier);
    }
    if IsSimulatorIdentifier(identifier) {
      assert ModelName(identifier, simulatorModel)[0] == 'S';
    }
  }

  /** A device whose buffer holds "iPhone14,2" is reported as an "iPhone 13 Pro". */
  lemma IPhone13ProExample(padding: nat, simulatorModel: Option<string>)
    ensures IsAsciiBuffer(Bytes("iPhone14,2") + Zeros(padding))
    ensures ModelName(Identifier(Bytes("iPhone14,2") + Zeros(padding)), simulatorModel) == "iPhone 13 Pro"
  {
    IdentifierOfPaddedName("iPhone14,2", padding);
  }

  /** The three labelled lines of the diagnostics block. */
  function InfoBlock(name: string, identifier: string, systemVersion: string): string {
    "Device: " + name + "\n" + "Identifier: " + identifier + "\n" + "iOS: " + systemVersion
  }

  /** `deviceInfoString`: the block for this device's name, identifier and system version. */
  function DeviceInfo(machine: seq<int>, simulatorModel: Option<string>, systemVersion: string): string
    requires IsAsciiBuffer(machine)
  {
    var identifier := Identifier(machine);
    InfoBlock(ModelName(identifier, simulatorModel), identifier, systemVersion)
  }

  /** When no value holds a line break, the block splits into exactly the three labelled lines. */
  lemma InfoBlockLines(name: string, identifier: string, systemVersion: string)
    requires '\n' !in name && '\n' !in identifier && '\n' !in systemVersion
    ensures Split(InfoBlock(name, identifier, systemVersion), '\n') ==
      ["Device: " + name, "Identifier: " + identifier, "iOS: " + systemVersion]
  {
    var a, b, c := "Device: " + name, "Identifier: " + identifier, "iOS: " + systemVersion;
    JoinThree(a, b, c, '\n');
    assert a + "\n" + b + "\n" + c == InfoBlock(name, identifier, systemVersion);
    SplitJoin([a, b, c], '\n');
  }

  /** Three lines joined are the first, a break, the second, a break, the third. */
  lemma JoinThree(a: string, b: string, c: string, sep: char)
    ensures Join([a, b, c], sep) == a + [sep] + b + [sep] + c
  {
    assert [a, b, c][1..] == [b, c];
    assert [b, c][1..] == [c];
    assert Join([c], sep) == c;
    assert Join([b, c], sep) == b + [sep] + c;
    assert Join([a, b, c], sep) == a + [sep] + (b + [sep] + c);
  }
}
