/**
 * Package device: the record of one network device and its setters.
 *
 * A Device is an object whose fields the setters overwrite in place.  Its
 * abstract value is a DeviceRecord, an ordinary datatype value; every
 * mutating method states its new state as the old record with exactly one
 * field replaced, which says both what changed and that nothing else did.
 */
module Devices {

  /** The login pair stored in a device; replaced as a whole by SetCredentials. */
  datatype Credentials = Credentials(username: string, password: string)

  /** The credentials of a freshly built device: both strings empty. */
  const NoCredentials: Credentials := Credentials("", "")

  /** A snapshot of every field of a Device. */
  datatype DeviceRecord = DeviceRecord(
    id: string,
    ipAddr: string,
    status: string,
    role: string,
    location: string,
    deviceTag: string,
    osType: string,
    credentials: Credentials)

  class Device {
    var id: string
    var ipAddr: string
    var status: string
    var role: string
    var location: string
    var deviceTag: string
    var osType: string
    var credentials: Credentials

    /** The current value of all fields. */
    function Record(): DeviceRecord
      reads this
    {
      DeviceRecord(id, ipAddr, status, role, location, deviceTag, osType, credentials)
    }

    /** NewDevice: every field from its argument, credentials left empty. */
    constructor (id: string, ipAddr: string, status: string, role: string,
                 location: string, deviceTag: string, osType: string)
      ensures Record() == DeviceRecord(id, ipAddr, status, role, location, deviceTag, osType, NoCredentials)
    {
      this.id := id;
      this.ipAddr := ipAddr;
      this.status := status;
      this.role := role;
      this.location := location;
      this.deviceTag := deviceTag;
      this.osType := osType;
      this.credentials := NoCredentials;
    }

    method UpdateStatus(status: string)
      modifies this
      ensures Record() == old(Record()).(status := status)
    {
      this.status := status;
    }

    method SetRole(role: string)
      modifies this
      ensures Record() == old(Record()).(role := role)
    {
      this.role := role;
    }

    /** Replaces the username and the password together. */
    method SetCredentials(username: string, password: string)
      modifies this
      ensures Record() == old(Record()).(credentials := Credentials(username, password))
    {
      this.credentials := Credentials(username, password);
    }

    method SetOSType(osType: string)
      modifies this
      ensures Record() == old(Record()).(osType := osType)
      ensures GetOSType() == osType
    {
      this.osType := osType;
    }

    /** A pure read: as a function it can change nothing. */
    function GetOSType(): (os: string)
      reads this
      ensures os == Record().osType
    {
      osType
    }
  }
}
