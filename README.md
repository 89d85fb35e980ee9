# Network-automation device configuration, modelled in Dafny

The program this models manages network devices for a demo. It keeps a device
record (identifier, IP address, status, role, location, tag, OS type and a
credentials pair). Setters change that record in place. From the record it
derives a flat string-to-string configuration whose `config_file` entry comes
from a role/OS decision table. It checks that a configuration holds the keys
`device_id`, `ip_address` and `os_type`, and it can clear a configuration.

Two modules follow the two Go packages:

- `device.dfy`, module `Devices` (package `device`). `Device` is a class whose
  fields the setters overwrite. `Record()` gives all fields at once as a
  `DeviceRecord` value. Each setter's postcondition is the old record with
  exactly one field replaced, so it says what changed and that nothing else did.
  `GetOSType` is a function that reads the object, so it cannot change it.
- `config.dfy`, module `Config` (package `config`).
  - `ConfigFileName` is the decision table. It is written as the nested switch
    is, and its contract gives one equivalence per row. It is checked against
    `Rules`, the same table written as data: an ordered list of
    (role pattern, OS pattern, file) rules where the first rule that fires
    decides.
  - `GenerateDeviceFeatureSet` builds the map by successive insertions, as the
    source does. It is proved equal to `FeatureSet` of the device's record.
  - `ValidateConfig` loops over the required keys and returns early at the
    first one missing. It is proved to return `HasRequiredKeys`.
  - The lemmas connect the two halves: every generated configuration
    validates, a cleared one does not, validity looks only at keys, and
    adding entries keeps a configuration valid.

## Model

| member | source | states |
|---|---|---|
| `Devices.Device.constructor` | device/device.go:25-35 | ID, IP address, status, role, location, tag and OS type come from the arguments; the credentials have empty username and password |
| `Devices.Device.UpdateStatus` | device/device.go:38-41 | status becomes the argument; every other field keeps its value |
| `Devices.Device.SetRole` | device/device.go:44-47 | role becomes the argument; every other field keeps its value |
| `Devices.Device.SetCredentials` | device/device.go:50-56 | username and password are both replaced; no other field changes |
| `Devices.Device.SetOSType` | device/device.go:59-62 | OS type becomes the argument and no other field changes; afterwards `GetOSType()` returns the new OS type |
| `Devices.Device.GetOSType` | device/device.go:65-67 | returns the device's OS type; a function that reads the device, so it changes nothing |
| `Config.ConfigFileName` | config/config.go:61-85 | the decision table as equivalences: Router with IOS-XE or IOS-XR, other Router, Switch with IOS-XE or NX-OS, other Switch, and any other role (linux_config.yaml whatever the OS type); each file name is produced by exactly its own row |
| `Config.FirstMatch` | config/config.go:61-85 | a rule list yields a file exactly when some rule fires, and that file is the one of the first rule that fires, as a switch picks its first matching case |
| `Config.ConfigFileFollowsRules` | config/config.go:61-85 | for every role and OS type, the switch picks the same file as the first firing rule of the seven-row table, so the table always yields a file |
| `Config.FeatureSet` | config/config.go:52-85 | the derived configuration's key set is exactly device_id, ip_address, location, os_type and config_file |
| `Config.GenerateDeviceFeatureSet` | config/config.go:51-89 | the map built by successive insertions equals the configuration derived from the device's current fields; the device is not changed |
| `Config.FeatureSetIdentity` | config/config.go:55-58 | device_id, ip_address, location and os_type hold the device's ID, IP address, location and OS type |
| `Config.FeatureSetConfigFile` | config/config.go:60-85 | config_file is always present and is the decision table's choice for role and OS type; a role other than Router or Switch gives linux_config.yaml |
| `Config.FeatureSetIgnoresOtherFields` | config/config.go:51-85 | status, tag and credentials have no effect on the derived configuration |
| `Config.ValidateConfig` | config/config.go:92-102 | returns true exactly when device_id, ip_address and os_type are all keys of the map; values are not inspected |
| `Config.MissingKeyInvalid` | config/config.go:94-98 | a map lacking any one of the required keys fails validation |
| `Config.EmptyValuesValid` | config/config.go:93-99 | a map holding the three required keys with empty values passes |
| `Config.ValidityIgnoresValues` | config/config.go:94-99 | two maps with the same key set are both valid or both invalid |
| `Config.ValidityPreservedByAdding` | config/config.go:94-99 | adding or overwriting entries in a valid map keeps it valid |
| `Config.GeneratedConfigValid` | config/config.go:51-102 | every configuration derived from a device passes validation |
| `Config.ClearConfig` | config/config.go:105-108 | the result has no keys, so it fails validation |

## Left out

- Console output: every `fmt.Printf`/`fmt.Println` in the two files is left out. This includes the name of the missing key that `ValidateConfig` prints and the whole of `DisplayDeviceDetails` (device/device.go:70-79), which only prints.
- `LoadConfig` and `SaveConfig` (config/config.go:12-47) are left out: they are file I/O and JSON encoding done by Go's libraries.
- Nil devices: Go lets a nil `*Device` reach `GenerateDeviceFeatureSet`, the setters and `ClearConfig`, and the program would then panic. The model uses non-null references, so this panic is not modelled.
- `ClearConfig` takes the device only to print its ID. The model keeps the parameter and does not read it.
- Package `utils`, package `monitor` and `main.go` are not part of this model. They hold a ping subprocess, wrappers over Go's `net` package, a logger with timestamps, a retry loop built on sleeping, placeholder metrics that return constant floating-point values, and the linear driver script.
