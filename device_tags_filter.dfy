/** Filters/SupportingResources/DeviceTagsFilter.php: filters over device tags. */
module DeviceTagsFilter {
  import opened Wrappers
  import opened Text
  import opened FilterSyntax
  import opened FilterBuilder

  function Id(): (f: FilterState)
    ensures StartedOn(f, "id")
  {
    Where("id")
  }

  function Name(): (f: FilterState)
    ensures StartedOn(f, "name")
  {
    Where("name")
  }

  function DeviceIds(): (f: FilterState)
    ensures StartedOn(f, "deviceIds")
  {
    Where("deviceIds")
  }

  // ---------------------------------------------------------------------------
  // The examples of the class comment
  // ---------------------------------------------------------------------------

  /** `name()->equals('Office')`. */
  function OfficeExample(): (f: FilterState)
    ensures f.currentProperty == Some("name")
    ensures ToString(f) == Call("name", "eq", Quote("Office"))
  {
    OneString("name", EqOp, "Office");
    Equals(Name(), StrValue("Office")).value
  }

  /** `deviceIds()->contains('device-uuid-here')`. */
  function DeviceExample(): (f: FilterState)
    ensures f.currentProperty == Some("deviceIds")
    ensures ToString(f) == Call("deviceIds", "contains", Quote("device-uuid-here"))
  {
    OneString("deviceIds", ContainsOp, "device-uuid-here");
    Contains(DeviceIds(), "device-uuid-here").value
  }

  /** `deviceIds()->containsAny(['uuid1', 'uuid2'])`. */
  function AnyDeviceExample(): (f: FilterState)
    ensures f.currentProperty == Some("deviceIds")
    ensures ToString(f) == Call("deviceIds", "containsAny", Quote("uuid1") + ", " + Quote("uuid2"))
  {
    TwoStrings("deviceIds", ContainsAnyOp, "uuid1", "uuid2");
    ContainsAny(DeviceIds(), StrValues(["uuid1", "uuid2"])).value
  }
}
