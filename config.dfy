/**
 * Package config: the flat string-to-string configuration derived from a
 * device, its validation and its reset.
 *
 * GenerateDeviceFeatureSet and ValidateConfig are methods, as in the source
 * (successive insertions into a fresh map; a loop over the required keys
 * with an early return); each is proved against a function or predicate on
 * values (FeatureSet, HasRequiredKeys) about which the lemmas below speak.
 */
module Config {
  import opened Devices

  datatype Option<T> = None | Some(value: T)

  // The keys of a generated configuration.
  const DeviceIdKey := "device_id"
  const IpAddressKey := "ip_address"
  const LocationKey := "location"
  const OsTypeKey := "os_type"
  const ConfigFileKey := "config_file"

  /** Exactly the keys GenerateDeviceFeatureSet writes. */
  const FeatureKeys: set<string> := {DeviceIdKey, IpAddressKey, LocationKey, OsTypeKey, ConfigFileKey}

  /** The keys ValidateConfig demands, in the order it looks for them. */
  const RequiredKeys: seq<string> := [DeviceIdKey, IpAddressKey, OsTypeKey]

  // The configuration file names of the decision table.
  const RouterIosXeFile := "rtr_config_ios-xe.yaml"
  const RouterIosXrFile := "rtr_config_ios-xr.yaml"
  const RouterFile := "rtr_config.yaml"
  const SwitchIosXeFile := "sw_config_ios-xe.yaml"
  const SwitchNxOsFile := "sw_config_nx-os.yaml"
  const SwitchFile := "sw_config.yaml"
  const LinuxFile := "linux_config.yaml"

  /**
   * The role/OS decision table.  Each file name is produced by exactly one
   * row, so the ensures clauses are equivalences: the name identifies the row.
   */
  function ConfigFileName(role: string, osType: string): (file: string)
    ensures file == RouterIosXeFile <==> role == "Router" && osType == "IOS-XE"
    ensures file == RouterIosXrFile <==> role == "Router" && osType == "IOS-XR"
    ensures file == RouterFile <==> role == "Router" && osType != "IOS-XE" && osType != "IOS-XR"
    ensures file == SwitchIosXeFile <==> role == "Switch" && osType == "IOS-XE"
    ensures file == SwitchNxOsFile <==> role == "Switch" && osType == "NX-OS"
    ensures file == SwitchFile <==> role == "Switch" && osType != "IOS-XE" && osType != "NX-OS"
    ensures file == LinuxFile <==> role != "Router" && role != "Switch"
  {
    if role == "Router" then
      if osType == "IOS-XE" then RouterIosXeFile
      else if osType == "IOS-XR" then RouterIosXrFile
      else RouterFile
    else if role == "Switch" then
      if osType == "IOS-XE" then SwitchIosXeFile
      else if osType == "NX-OS" then SwitchNxOsFile
      else SwitchFile
    else LinuxFile
  }

  // ---------------------------------------------------------------------
  // The decision table written as data: a list of rules, the first one
  // whose patterns match the device decides, as a switch with a default
  // case would.

  datatype Pattern = Exactly(text: string) | Anything

  predicate Matches(p: Pattern, s: string) {
    match p
    case Exactly(t) => s == t
    case Anything => true
  }

  datatype Rule = Rule(role: Pattern, osType: Pattern, file: string)

  const Rules: seq<Rule> := [
    Rule(Exactly("Router"), Exactly("IOS-XE"), RouterIosXeFile),
    Rule(Exactly("Router"), Exactly("IOS-XR"), RouterIosXrFile),
    Rule(Exactly("Router"), Anything, RouterFile),
    Rule(Exactly("Switch"), Exactly("IOS-XE"), SwitchIosXeFile),
    Rule(Exactly("Switch"), Exactly("NX-OS"), SwitchNxOsFile),
    Rule(Exactly("Switch"), Anything, SwitchFile),
    Rule(Anything, Anything, LinuxFile)
  ]

  /** The rule matches role and OS type. */
  predicate Fires(rule: Rule, role: string, osType: string) {
    Matches(rule.role, role) && Matches(rule.osType, osType)
  }

  /** The file of the first rule matching role and OS type, if any matches. */
  function FirstMatch(rules: seq<Rule>, role: string, osType: string): (r: Option<string>)
    ensures r.Some? <==> exists i :: 0 <= i < |rules| && Fires(rules[i], role, osType)
    ensures r.Some? ==> exists i :: 0 <= i < |rules| && Fires(rules[i], role, osType) && r.value == rules[i].file &&
                                    forall j :: 0 <= j < i ==> !Fires(rules[j], role, osType)
  {
    if rules == [] then None
    else if Fires(rules[0], role, osType) then Some(rules[0].file)
    else FirstMatch(rules[1..], role, osType)
  }

  /** Rules that do not fire are passed over. */
  lemma SkipRules(rules: seq<Rule>, n: nat, role: string, osType: string)
    requires n <= |rules|
    requires forall i :: 0 <= i < n ==> !Fires(rules[i], role, osType)
    ensures FirstMatch(rules, role, osType) == FirstMatch(rules[n..], role, osType)
  {
  }

  /** The switch of ConfigFileName picks the same file as the rule list, for every device. */
  lemma ConfigFileFollowsRules(role: string, osType: string)
    ensures FirstMatch(Rules, role, osType) == Some(ConfigFileName(role, osType))
  {
    // The index of the rule that decides.
    var n :=
      if role == "Router" then (if osType == "IOS-XE" then 0 else if osType == "IOS-XR" then 1 else 2)
      else if role == "Switch" then (if osType == "IOS-XE" then 3 else if osType == "NX-OS" then 4 else 5)
      else 6;
    SkipRules(Rules, n, role, osType);
  }

  // ---------------------------------------------------------------------
  // GenerateDeviceFeatureSet

  /** The configuration derived from a snapshot of a device. */
  function FeatureSet(r: DeviceRecord): (config: map<string, string>)
    ensures config.Keys == FeatureKeys
  {
    map[DeviceIdKey := r.id,
        IpAddressKey := r.ipAddr,
        LocationKey := r.location,
        OsTypeKey := r.osType,
        ConfigFileKey := ConfigFileName(r.role, r.osType)]
  }

  /** Builds the configuration of d by successive insertions into an empty map; d is not changed. */
  method GenerateDeviceFeatureSet(d: Device) returns (config: map<string, string>)
    ensures config == FeatureSet(d.Record())
  {
    config := map[];
    config := config[DeviceIdKey := d.id];
    config := config[IpAddressKey := d.ipAddr];
    config := config[LocationKey := d.location];
    config := config[OsTypeKey := d.osType];
    if d.role == "Router" {
      if d.osType == "IOS-XE" {
        config := config[ConfigFileKey := RouterIosXeFile];
      } else if d.osType == "IOS-XR" {
        config := config[ConfigFileKey := RouterIosXrFile];
      } else {
        config := config[ConfigFileKey := RouterFile];
      }
    } else if d.role == "Switch" {
      if d.osType == "IOS-XE" {
        config := config[ConfigFileKey := SwitchIosXeFile];
      } else if d.osType == "NX-OS" {
        config := config[ConfigFileKey := SwitchNxOsFile];
      } else {
        config := config[ConfigFileKey := SwitchFile];
      }
    } else {
      config := config[ConfigFileKey := LinuxFile];
    }
  }

  /** The four identity entries copy their device fields unchanged. */
  lemma FeatureSetIdentity(r: DeviceRecord)
    ensures DeviceIdKey in FeatureSet(r) && FeatureSet(r)[DeviceIdKey] == r.id
    ensures IpAddressKey in FeatureSet(r) && FeatureSet(r)[IpAddressKey] == r.ipAddr
    ensures LocationKey in FeatureSet(r) && FeatureSet(r)[LocationKey] == r.location
    ensures OsTypeKey in FeatureSet(r) && FeatureSet(r)[OsTypeKey] == r.osType
  {
  }

  /** config_file is chosen by the decision table from role and OS type alone. */
  lemma FeatureSetConfigFile(r: DeviceRecord)
    ensures ConfigFileKey in FeatureSet(r)
    ensures FeatureSet(r)[ConfigFileKey] == ConfigFileName(r.role, r.osType)
    ensures r.role != "Router" && r.role != "Switch" ==> FeatureSet(r)[ConfigFileKey] == LinuxFile
  {
  }

  /** Status, tag and credentials do not reach the configuration. */
  lemma FeatureSetIgnoresOtherFields(r: DeviceRecord, status: string, tag: string, c: Credentials)
    ensures FeatureSet(r.(status := status, deviceTag := tag, credentials := c)) == FeatureSet(r)
  {
  }

  // ---------------------------------------------------------------------
  // ValidateConfig

  /** Every required key is present; the values are not looked at. */
  predicate HasRequiredKeys(config: map<string, string>) {
    DeviceIdKey in config && IpAddressKey in config && OsTypeKey in config
  }

  /** Looks for the required keys in order and stops at the first one missing. */
  method ValidateConfig(config: map<string, string>) returns (valid: bool)
    ensures valid == HasRequiredKeys(config)
  {
    var i := 0;
    while i < |RequiredKeys|
      invariant 0 <= i <= |RequiredKeys|
      invariant forall j :: 0 <= j < i ==> RequiredKeys[j] in config
    {
      if RequiredKeys[i] !in config {
        return false;
      }
      i := i + 1;
    }
    assert RequiredKeys[0] in config && RequiredKeys[1] in config && RequiredKeys[2] in config;
    return true;
  }

  /** A configuration lacking any one required key is invalid. */
  lemma MissingKeyInvalid(config: map<string, string>, key: string)
    requires key in RequiredKeys && key !in config
    ensures !HasRequiredKeys(config)
  {
  }

  /** Entries with empty values still pass: only presence is checked. */
  lemma EmptyValuesValid(config: map<string, string>)
    requires config == map[DeviceIdKey := "", IpAddressKey := "", OsTypeKey := ""]
    ensures HasRequiredKeys(config)
  {
  }

  /** Validity depends on the key set only. */
  lemma ValidityIgnoresValues(a: map<string, string>, b: map<string, string>)
    requires a.Keys == b.Keys
    ensures HasRequiredKeys(a) == HasRequiredKeys(b)
  {
  }

  /** Adding or overwriting entries keeps a valid configuration valid. */
  lemma ValidityPreservedByAdding(config: map<string, string>, extra: map<string, string>)
    requires HasRequiredKeys(config)
    ensures HasRequiredKeys(config + extra)
  {
  }

  /** Every generated configuration validates. */
  lemma GeneratedConfigValid(r: DeviceRecord)
    ensures HasRequiredKeys(FeatureSet(r))
  {
  }

  // ---------------------------------------------------------------------
  // ClearConfig

  /** The device is taken only for the message the source prints. */
  function ClearConfig(d: Device): (config: map<string, string>)
    ensures config.Keys == {}
    ensures !HasRequiredKeys(config)
  {
    map[]
  }
}
