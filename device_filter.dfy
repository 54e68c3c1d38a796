/** Filters/Devices/DeviceFilter.php: the properties adopted devices can be filtered on
    and the filters it offers ready-made. */
module DeviceFilter {
  import opened Wrappers
  import opened Text
  import opened FilterSyntax
  import opened FilterBuilder

  function Id(): (f: FilterState)
    ensures StartedOn(f, "id")
  {
    Where("id")
  }

  function MacAddress(): (f: FilterState)
    ensures StartedOn(f, "macAddress")
  {
    Where("macAddress")
  }

  function IpAddress(): (f: FilterState)
    ensures StartedOn(f, "ipAddress")
  {
    Where("ipAddress")
  }

  function Name(): (f: FilterState)
    ensures StartedOn(f, "name")
  {
    Where("name")
  }

  function Model(): (f: FilterState)
    ensures StartedOn(f, "model")
  {
    Where("model")
  }

  function State(): (f: FilterState)
    ensures StartedOn(f, "state")
  {
    Where("state")
  }

  function Supported(): (f: FilterState)
    ensures StartedOn(f, "supported")
  {
    Where("supported")
  }

  function FirmwareVersion(): (f: FilterState)
    ensures StartedOn(f, "firmwareVersion")
  {
    Where("firmwareVersion")
  }

  function FirmwareUpdatable(): (f: FilterState)
    ensures StartedOn(f, "firmwareUpdatable")
  {
    Where("firmwareUpdatable")
  }

  function Features(): (f: FilterState)
    ensures StartedOn(f, "features")
  {
    Where("features")
  }

  function Interfaces(): (f: FilterState)
    ensures StartedOn(f, "interfaces")
  {
    Where("interfaces")
  }

  // ---------------------------------------------------------------------------
  // Presets
  // ---------------------------------------------------------------------------

  function NeedsFirmwareUpdate(): (f: FilterState)
    ensures f.currentProperty == Some("firmwareUpdatable")
    ensures ToString(f) == Call("firmwareUpdatable", "eq", "true")
  {
    OneValue("firmwareUpdatable", EqOp, BoolValue(true), "true");
    Equals(FirmwareUpdatable(), BoolValue(true)).value
  }

  function SupportedOnly(): (f: FilterState)
    ensures f.currentProperty == Some("supported")
    ensures ToString(f) == Call("supported", "eq", "true")
  {
    OneValue("supported", EqOp, BoolValue(true), "true");
    Equals(Supported(), BoolValue(true)).value
  }

  function Wifi6Capable(): (f: FilterState)
    ensures f.currentProperty == Some("features")
    ensures ToString(f) == Call("features", "contains", Quote("wifi6"))
  {
    OneString("features", ContainsOp, "wifi6");
    Contains(Features(), "wifi6").value
  }

  function PoeCapable(): (f: FilterState)
    ensures f.currentProperty == Some("features")
    ensures ToString(f) == Call("features", "contains", Quote("poe"))
  {
    OneString("features", ContainsOp, "poe");
    Contains(Features(), "poe").value
  }

  // ---------------------------------------------------------------------------
  // The examples of the class comment
  // ---------------------------------------------------------------------------

  /** `name()->like('AP-*')`: devices whose name starts with `AP-`. */
  function AccessPointsExample(): (f: FilterState)
    ensures f.currentProperty == Some("name")
    ensures ToString(f) == Call("name", "like", Quote("AP-*"))
  {
    OneString("name", LikeOp, "AP-*");
    Like(Name(), "AP-*").value
  }

  /** `model()->in(['U6-LR', 'U6-PRO'])`. */
  function ModelsExample(): (f: FilterState)
    ensures f.currentProperty == Some("model")
    ensures ToString(f) == Call("model", "in", Quote("U6-LR") + ", " + Quote("U6-PRO"))
  {
    TwoStrings("model", InOp, "U6-LR", "U6-PRO");
    In(Model(), StrValues(["U6-LR", "U6-PRO"])).value
  }

  /** The `and` of `firmwareUpdatable()->equals(true)` and `supported()->equals(true)`. */
  function UpdatableSupportedExample(): (f: FilterState)
    ensures f.currentProperty == None
    ensures ToString(f) == "and(" + Call("firmwareUpdatable", "eq", "true") + ", " + Call("supported", "eq", "true") + ")"
  {
    var a, b := NeedsFirmwareUpdate(), SupportedOnly();
    AndOfTwo(a, b, Call("firmwareUpdatable", "eq", "true"), Call("supported", "eq", "true"));
    And([a, b])
  }

  /** `model()->equals('U6-LR')`, from the builder's own documentation. */
  function ModelU6LrExample(): (f: FilterState)
    ensures f.currentProperty == Some("model")
    ensures ToString(f) == Call("model", "eq", Quote("U6-LR"))
  {
    OneString("model", EqOp, "U6-LR");
    Equals(Model(), StrValue("U6-LR")).value
  }

  /** `firmwareVersion()->greaterThan('6.0.0')`: a string bound is quoted. */
  function FirmwareAbove6Example(): (f: FilterState)
    ensures f.currentProperty == Some("firmwareVersion")
    ensures ToString(f) == Call("firmwareVersion", "gt", Quote("6.0.0"))
  {
    OneString("firmwareVersion", GtOp, "6.0.0");
    GreaterThan(FirmwareVersion(), StrValue("6.0.0")).value
  }

  /** The builder's `and` example: that model, above that firmware version. */
  function ModelAndFirmwareExample(): (f: FilterState)
    ensures f.currentProperty == None
    ensures ToString(f) == "and(" + Call("model", "eq", Quote("U6-LR")) + ", " + Call("firmwareVersion", "gt", Quote("6.0.0")) + ")"
  {
    var a, b := ModelU6LrExample(), FirmwareAbove6Example();
    AndOfTwo(a, b, Call("model", "eq", Quote("U6-LR")), Call("firmwareVersion", "gt", Quote("6.0.0")));
    And([a, b])
  }

  /** `name()->like('USW-*')`. */
  function SwitchesExample(): (f: FilterState)
    ensures f.currentProperty == Some("name")
    ensures ToString(f) == Call("name", "like", Quote("USW-*"))
  {
    OneString("name", LikeOp, "USW-*");
    Like(Name(), "USW-*").value
  }

  /** The builder's `or` example: access points or switches by name. */
  function AccessPointsOrSwitchesExample(): (f: FilterState)
    ensures f.currentProperty == None
    ensures ToString(f) == "or(" + Call("name", "like", Quote("AP-*")) + ", " + Call("name", "like", Quote("USW-*")) + ")"
  {
    var a, b := AccessPointsExample(), SwitchesExample();
    OrOfTwo(a, b, Call("name", "like", Quote("AP-*")), Call("name", "like", Quote("USW-*")));
    Or([a, b])
  }
}
