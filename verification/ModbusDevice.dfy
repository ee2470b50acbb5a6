/** One field device's registers, as the driver reads and writes them
    (src/pyems/drivers/modbus_device.py). */
module ModbusDevice {
  import opened Num
  import opened Channels
  import opened Codec

  /** A register of a device profile; tag is its channel under the device's own name. */
  datatype Register = Register(
    channel: string,
    tag: string,
    address: int,
    t: RegType,
    scale: real,
    writable: bool,
    min: Ext,
    max: Ext)
  {
    predicate Accepted() {
      scale != 0.0 && Le(min, max)
    }

    function Count(): nat {
      t.Count()
    }

    function End(): int {
      address + t.Count()
    }
  }

  ghost predicate AllAccepted(regs: seq<Register>) {
    forall i :: 0 <= i < |regs| ==> regs[i].Accepted()
  }

  /** The answer to one register read: None is an error response. */
  type Response = Option<seq<Word>>

  ghost predicate WellSized(regs: seq<Register>, answers: seq<Response>) {
    && |answers| == |regs|
    && forall i :: 0 <= i < |regs| && answers[i].Some? ==> |answers[i].value| == regs[i].Count()
  }

  function ValueOf(r: Register, words: seq<Word>): (v: Ext)
    requires |words| == r.Count()
    ensures v.Fin?
  {
    Fin(Decoded(words, r.t) as real * r.scale)
  }

  /** A measurement outside its bounds is as good as an error; a writable register's bounds
      guard what is written, not what is read. */
  predicate Lands(r: Register, a: Response)
    requires a.Some? ==> |a.value| == r.Count()
  {
    a.Some? && (r.writable || (Le(r.min, ValueOf(r, a.value)) && Le(ValueOf(r, a.value), r.max)))
  }

  datatype Polled = Polled(tags: Tags, failed: seq<string>)

  /** The first n registers read, in the order of the profile. */
  function PolledFirst(regs: seq<Register>, answers: seq<Response>, tags: Tags, n: nat): Polled
    requires WellSized(regs, answers) && n <= |regs|
  {
    if n == 0 then Polled(tags, [])
    else
      var p := PolledFirst(regs, answers, tags, n - 1);
      var r, a := regs[n - 1], answers[n - 1];
      if Lands(r, a) then Polled(Observed(p.tags, r.tag, ValueOf(r, a.value)), p.failed)
      else Polled(p.tags, p.failed + [r.tag])
  }

  ghost predicate DistinctTags(regs: seq<Register>) {
    forall i, j :: 0 <= i < j < |regs| ==> regs[i].tag != regs[j].tag
  }

  lemma {:induction false} PolledAt(regs: seq<Register>, answers: seq<Response>, tags: Tags, n: nat, i: nat)
    requires WellSized(regs, answers) && DistinctTags(regs) && i < n <= |regs| && regs[i].tag in tags
    ensures var p := PolledFirst(regs, answers, tags, n);
            && SameChannels(tags, p.tags)
            && p.tags[regs[i].tag].value == (if Lands(regs[i], answers[i]) then ValueOf(regs[i], answers[i].value)
                                             else tags[regs[i].tag].value)
            && (regs[i].tag in p.failed <==> !Lands(regs[i], answers[i]))
  {
    if i < n - 1 {
      PolledAt(regs, answers, tags, n - 1, i);
    } else {
      PollLeaves(regs, answers, tags, i, regs[i].tag);
    }
  }

  lemma LandsInNumbers(r: Register, words: seq<Word>, v: real)
    requires |words| == r.Count() && v == Decoded(words, r.t) as real * r.scale
    ensures ValueOf(r, words) == Fin(v)
    ensures Lands(r, Some(words)) <==> r.writable || (Le(r.min, Fin(v)) && Le(Fin(v), r.max))
  {
    hide Decoded;
  }

  /** After a poll the failed list names exactly the registers that did not answer, and the read-only
      ones whose value is outside its bounds. Their tags show what they showed before, every other
      its decoded and scaled value. */
  lemma PollShows(regs: seq<Register>, answers: seq<Response>, tags: Tags, i: nat, v: real)
    requires WellSized(regs, answers) && DistinctTags(regs) && i < |regs| && regs[i].tag in tags
    requires answers[i].Some? ==> v == Decoded(answers[i].value, regs[i].t) as real * regs[i].scale
    ensures var p, r := PolledFirst(regs, answers, tags, |regs|), regs[i];
            && SameChannels(tags, p.tags)
            && (r.tag !in p.failed <==> answers[i].Some? && (r.writable || (Le(r.min, Fin(v)) && Le(Fin(v), r.max))))
            && p.tags[r.tag].value == if r.tag in p.failed then tags[r.tag].value else Fin(v)
  {
    hide PolledFirst, Decoded, Lands, ValueOf;
    PolledAt(regs, answers, tags, |regs|, i);
    if answers[i].Some? { LandsInNumbers(regs[i], answers[i].value, v); } else { NeverLands(regs[i]); }
  }

  lemma NeverLands(r: Register)
    ensures !Lands(r, None)
  {}

  lemma {:induction false} PollLeaves(regs: seq<Register>, answers: seq<Response>, tags: Tags, n: nat, tag: string)
    requires WellSized(regs, answers) && n <= |regs|
    requires tag in tags && forall k :: 0 <= k < n ==> regs[k].tag != tag
    ensures var p := PolledFirst(regs, answers, tags, n);
            SameChannels(tags, p.tags) && p.tags[tag] == tags[tag] && tag !in p.failed
  {
    if n > 0 { PollLeaves(regs, answers, tags, n - 1, tag); }
  }

  /** One write transaction. */
  datatype Request = Request(address: int, words: seq<Word>)

  function SetpointRequest(r: Register, v: real): Request
    requires r.scale != 0.0
  {
    Request(r.address, Encoded(Units(v, r.scale), r.t))
  }

  predicate IsWritten(r: Register, due: Option<set<string>>) {
    r.writable && (due.Some? ==> r.tag in due.value)
  }

  ghost predicate Known(regs: seq<Register>, tags: Tags) {
    forall i :: 0 <= i < |regs| && regs[i].writable ==> regs[i].tag in tags && tags[regs[i].tag].value.Fin?
  }

  /** The transactions of one write pass over the first n registers, in order. */
  function SentFirst(regs: seq<Register>, tags: Tags, due: Option<set<string>>, n: nat): seq<Request>
    requires AllAccepted(regs) && Known(regs, tags) && n <= |regs|
  {
    if n == 0 then []
    else
      SentFirst(regs, tags, due, n - 1) +
      if IsWritten(regs[n - 1], due) then [SetpointRequest(regs[n - 1], tags[regs[n - 1].tag].value.w)] else []
  }

  /** The due registers among the first n that the device refuses. */
  function RefusedFirst(regs: seq<Register>, due: Option<set<string>>, accepts: seq<bool>, n: nat): seq<string>
    requires |accepts| == |regs| && n <= |regs|
  {
    if n == 0 then []
    else
      RefusedFirst(regs, due, accepts, n - 1) +
      if IsWritten(regs[n - 1], due) && !accepts[n - 1] then [regs[n - 1].tag] else []
  }

  class ModbusDeviceDriver {
    const regs: seq<Register>

    constructor (regs: seq<Register>)
      requires AllAccepted(regs)
      ensures this.regs == regs
    {
      this.regs := regs;
    }

    /** answers[i] is how the device answers for register i. A failed list that is not empty
        stands for the ModbusReadError that names it. */
    method ReadState(answers: seq<Response>, state: SystemState) returns (failed: seq<string>)
      requires WellSized(regs, answers) && forall i :: 0 <= i < |regs| ==> state.Has(regs[i].tag)
      modifies state
      ensures Polled(state.tags, failed) == PolledFirst(regs, answers, old(state.tags), |regs|)
    {
      failed := [];
      hide ValueOf;
      for i := 0 to |regs|
        invariant state.tags.Keys == old(state.tags).Keys
        invariant Polled(state.tags, failed) == PolledFirst(regs, answers, old(state.tags), i)
      {
        var r := regs[i];
        assert answers[i].Some? ==> |answers[i].value| == r.Count();
        if answers[i].None? {
          failed := failed + [r.tag];
        } else {
          var value := ValueOf(r, answers[i].value);
          if !r.writable && !(Le(r.min, value) && Le(value, r.max)) {
            failed := failed + [r.tag];
          } else {
            var _ := state.ApplyDriverValue(r.tag, value);
          }
        }
      }
    }

    /** accepts[i] is whether the device takes a write of register i. All due registers are
        tried; the failed ones are those of the ModbusWriteError, if any. */
    method WriteSetpoints(state: SystemState, due: Option<set<string>>, accepts: seq<bool>)
      returns (sent: seq<Request>, failed: seq<string>)
      requires AllAccepted(regs) && |accepts| == |regs|
      requires Known(regs, state.tags)
      ensures sent == SentFirst(regs, state.tags, due, |regs|)
      ensures failed == RefusedFirst(regs, due, accepts, |regs|)
    {
      sent, failed := [], [];
      for i := 0 to |regs|
        invariant sent == SentFirst(regs, state.tags, due, i)
        invariant failed == RefusedFirst(regs, due, accepts, i)
      {
        var r := regs[i];
        if IsWritten(r, due) {
          var raw := Truncated(state.Get(r.tag).w / r.scale);
          sent := sent + [Request(r.address, Encoded(raw, r.t))];
          if !accepts[i] { failed := failed + [r.tag]; }
        }
      }
    }
  }

  /** The refused list names exactly the due, writable registers that the device did not take. */
  lemma {:induction false} RefusedExact(regs: seq<Register>, due: Option<set<string>>, accepts: seq<bool>, n: nat, tag: string)
    requires |accepts| == |regs| && n <= |regs|
    ensures tag in RefusedFirst(regs, due, accepts, n) <==>
            exists i :: 0 <= i < n && regs[i].tag == tag && !accepts[i] && regs[i].writable && (due == None || tag in due.value)
  {
    if n > 0 { RefusedExact(regs, due, accepts, n - 1, tag); }
  }

  /** A pass that names its tags writes nothing else: every transaction is that of a due,
      writable register, and carries its commanded value. */
  lemma {:induction false} OnlyDueIsSent(regs: seq<Register>, tags: Tags, due: Option<set<string>>, n: nat, q: Request)
    requires AllAccepted(regs) && Known(regs, tags) && n <= |regs|
    ensures q in SentFirst(regs, tags, due, n) <==>
            exists i :: 0 <= i < n && IsWritten(regs[i], due) && q == SetpointRequest(regs[i], tags[regs[i].tag].value.w)
  {
    if n > 0 { OnlyDueIsSent(regs, tags, due, n - 1, q); }
    hide SetpointRequest;
  }
}
