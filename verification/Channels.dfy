/** The tag store of one scan cycle (src/pyems/channels.py). */
module Channels {
  import opened Num

  // the system's own tags (src/pyems/system_tags.py)

  const COMMS_AGE := "sys.comms_age_s"
  const WRITE_AGE := "sys.write_age_s"
  const SAFE_MODE := "sys.safe_mode"
  const SETPOINT_VIOLATION := "sys.setpoint_violation"
  const GENERATION_ALLOWED := "sys.generation_allowed"
  const GENERATION_GATE_ACTIVE := "sys.generation_gate_active"
  const COMMAND_AGE := "sys.command_age_s"
  const INVERTER_RUN_STATE := "sys.inverter_run_state"

  datatype Channel = Channel(value: Ext, min: Ext, max: Ext, writable: bool)

  type Tags = map<string, Channel>

  /** Commanded values are clamped to the channel; a read-only or unknown channel refuses. */
  predicate Commandable(tags: Tags, name: string) {
    name in tags && tags[name].writable
  }

  function Commanded(tags: Tags, name: string, value: Ext): Tags {
    if Commandable(tags, name)
    then tags[name := tags[name].(value := ClampE(value, tags[name].min, tags[name].max))]
    else tags
  }

  /** Observed values are recorded as they are. */
  function Observed(tags: Tags, name: string, value: Ext): Tags {
    if name in tags then tags[name := tags[name].(value := value)] else tags
  }

  /** Two tag stores hold the same channels and differ at most in their values. */
  ghost predicate SameChannels(tags: Tags, other: Tags) {
    && tags.Keys == other.Keys
    && forall name :: name in tags ==> other[name].(value := tags[name].value) == tags[name]
  }

  /** A commanded value lies inside the channel's bounds, is the value itself whenever it
      already did, and no other channel moves. */
  lemma CommandedWithinBounds(tags: Tags, name: string, value: Ext)
    requires Commandable(tags, name) && Le(tags[name].min, tags[name].max)
    ensures var after := Commanded(tags, name, value);
            && SameChannels(tags, after)
            && Le(tags[name].min, after[name].value) && Le(after[name].value, tags[name].max)
            && (Le(tags[name].min, value) && Le(value, tags[name].max) ==> after[name].value == value)
            && forall other :: other in tags && other != name ==> after[other] == tags[other]
  {}

  class SystemState {
    var tags: Tags

    constructor (tags: Tags)
      ensures this.tags == tags
    {
      this.tags := tags;
    }

    predicate Has(name: string)
      reads this
    {
      name in tags
    }

    function Get(name: string): Ext
      requires Has(name)
      reads this
    {
      tags[name].value
    }

    /** Measurements are finite numbers decoded from registers. */
    predicate HasReal(name: string)
      reads this
    {
      Has(name) && Get(name).Fin?
    }

    /** False stands for the KeyError or ValueError; the store is then untouched. */
    method Set(name: string, value: Ext) returns (ok: bool)
      modifies this
      ensures ok == Commandable(old(tags), name)
      ensures tags == Commanded(old(tags), name, value)
    {
      ok := name in tags && tags[name].writable;
      if ok {
        var ch := tags[name];
        tags := tags[name := ch.(value := MaxE(ch.min, MinE(ch.max, value)))];
      }
    }

    method ApplyDriverValue(name: string, value: Ext) returns (ok: bool)
      modifies this
      ensures ok == (name in old(tags))
      ensures tags == Observed(old(tags), name, value)
    {
      ok := name in tags;
      if ok {
        tags := tags[name := tags[name].(value := value)];
      }
    }
  }
}
