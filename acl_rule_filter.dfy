/** Filters/AclRules/AclRuleFilter.php: filters over access control list rules. */
module AclRuleFilter {
  import opened Wrappers
  import opened FilterSyntax
  import opened FilterBuilder

  function Id(): (f: FilterState)
    ensures StartedOn(f, "id")
  {
    Where("id")
  }

  function Name(): (f: FilterState)
    ensures StartedOn(f, "name")
  {
    Where("name")
  }

  function Type(): (f: FilterState)
    ensures StartedOn(f, "type")
  {
    Where("type")
  }

  function Enabled(): (f: FilterState)
    ensures StartedOn(f, "enabled")
  {
    Where("enabled")
  }

  function Action(): (f: FilterState)
    ensures StartedOn(f, "action")
  {
    Where("action")
  }

  // ---------------------------------------------------------------------------
  // Presets
  // ---------------------------------------------------------------------------

  function EnabledOnly(): (f: FilterState)
    ensures f.currentProperty == Some("enabled")
    ensures ToString(f) == Call("enabled", "eq", "true")
  {
    OneValue("enabled", EqOp, BoolValue(true), "true");
    Equals(Enabled(), BoolValue(true)).value
  }

  function DisabledOnly(): (f: FilterState)
    ensures f.currentProperty == Some("enabled")
    ensures ToString(f) == Call("enabled", "eq", "false")
  {
    OneValue("enabled", EqOp, BoolValue(false), "false");
    Equals(Enabled(), BoolValue(false)).value
  }

  // ---------------------------------------------------------------------------
  // The examples of the class comment
  // ---------------------------------------------------------------------------

  /** `name()->like('Block*')`. */
  function BlockPrefixExample(): (f: FilterState)
    ensures f.currentProperty == Some("name")
    ensures ToString(f) == Call("name", "like", Quote("Block*"))
  {
    OneString("name", LikeOp, "Block*");
    Like(Name(), "Block*").value
  }

  /** `action()->equals('BLOCK')`. */
  function BlockActionExample(): (f: FilterState)
    ensures f.currentProperty == Some("action")
    ensures ToString(f) == Call("action", "eq", Quote("BLOCK"))
  {
    OneString("action", EqOp, "BLOCK");
    Equals(Action(), StrValue("BLOCK")).value
  }
}
