/** The simulated field device: fields served from, and setpoints decoded out of, a block of
    register words (src/pyems/sim/device.py). */
module SimDevice {
  import opened Num
  import opened Codec
  import opened ModbusDevice

  /** The part of a channel's name after its first dot, or all of it. */
  function FieldOf(channel: string): string {
    if '.' !in channel then channel
    else if channel[0] == '.' then channel[1..]
    else FieldOf(channel[1..])
  }

  /** A field's name is its channel's without the device; a name without a dot is a field's. */
  lemma {:induction false} FieldOfChannel(device: string, field: string)
    requires '.' !in device
    ensures FieldOf(device + "." + field) == field && FieldOf(device) == device
  {
    var channel := device + "." + field;
    assert channel[|device|] == '.';
    if device == "" {
      assert channel[1..] == field;
    } else {
      assert channel[0] == device[0] && channel[1..] == device[1..] + "." + field;
      FieldOfChannel(device[1..], field);
    }
  }

  ghost predicate InBlock(regs: seq<Register>, start: int, size: nat) {
    forall i :: 0 <= i < |regs| ==> start <= regs[i].address && regs[i].End() <= start + size
  }

  function Put(block: seq<Word>, at: nat, words: seq<Word>): (after: seq<Word>)
    requires at + |words| <= |block|
    ensures |after| == |block|
  {
    block[..at] + words + block[at + |words|..]
  }

  function Slice(block: seq<Word>, start: int, r: Register): (words: seq<Word>)
    requires start <= r.address && r.End() <= start + |block|
    ensures |words| == r.Count()
  {
    block[r.address - start..r.End() - start]
  }

  function ServedWords(r: Register, x: real): (words: seq<Word>)
    requires r.scale != 0.0
    ensures |words| == r.Count()
  {
    Encoded(Rounded(x / r.scale), r.t)
  }

  predicate IsServed(r: Register, fields: map<string, real>) {
    !r.writable && FieldOf(r.channel) in fields
  }

  /** The block after the first n registers have been refreshed. */
  function RefreshedFirst(regs: seq<Register>, start: int, block: seq<Word>, fields: map<string, real>, n: nat): (after: seq<Word>)
    requires AllAccepted(regs) && InBlock(regs, start, |block|) && n <= |regs|
    ensures |after| == |block|
  {
    if n == 0 then block
    else
      var before, r := RefreshedFirst(regs, start, block, fields, n - 1), regs[n - 1];
      if IsServed(r, fields) then Put(before, r.address - start, ServedWords(r, fields[FieldOf(r.channel)])) else before
  }

  /** A setpoint the device takes out of a write request. */
  datatype Setpoint = Setpoint(field: string, value: real)

  predicate IsCovered(r: Register, address: int, values: seq<Word>) {
    r.writable && address <= r.address && r.End() <= address + |values|
  }

  /** The setpoints among the first n registers that a write request covers fully. */
  function RoutedFirst(regs: seq<Register>, address: int, values: seq<Word>, n: nat): seq<Setpoint>
    requires n <= |regs|
  {
    if n == 0 then []
    else
      var r := regs[n - 1];
      RoutedFirst(regs, address, values, n - 1) +
      if IsCovered(r, address, values)
      then [Setpoint(FieldOf(r.channel), ValueOf(r, Slice(values, address, r)).w)]
      else []
  }

  class SimulatedDevice {
    const regs: seq<Register>
    const start: int
    const registers: array<Word>
    var fields: map<string, real>

    ghost predicate Valid()
      reads this
    {
      AllAccepted(regs) && InBlock(regs, start, registers.Length)
    }

    /** The block spans from the lowest address to the highest end. */
    constructor (regs: seq<Register>)
      requires regs != [] && AllAccepted(regs)
      ensures Valid() && this.regs == regs && fields == map[] && fresh(registers)
      ensures forall k :: 0 <= k < registers.Length ==> registers[k] == 0
      ensures (exists i :: 0 <= i < |regs| && regs[i].address == start)
      ensures (exists i :: 0 <= i < |regs| && regs[i].End() == start + registers.Length)
    {
      var low, high := regs[0].address, regs[0].End();
      for i := 1 to |regs|
        invariant forall k :: 0 <= k < i ==> low <= regs[k].address && regs[k].End() <= high
        invariant (exists k :: 0 <= k < i && regs[k].address == low) && (exists k :: 0 <= k < i && regs[k].End() == high)
      {
        if regs[i].address < low { low := regs[i].address; }
        if regs[i].End() > high { high := regs[i].End(); }
      }
      this.regs, this.start, this.fields := regs, low, map[];
      this.registers := new Word[high - low](_ => 0);
    }

    method SetFields(update: map<string, real>)
      modifies `fields
      ensures fields == old(fields) + update
    {
      fields := fields + update;
    }

    method EncodeInto(r: Register, x: real)
      requires Valid() && r.scale != 0.0 && start <= r.address && r.End() <= start + registers.Length
      modifies registers
      ensures registers[..] == Put(old(registers[..]), r.address - start, ServedWords(r, x))
    {
      var words := Encoded(Rounded(x / r.scale), r.t);
      var offset := r.address - start;
      for k := 0 to |words|
        invariant forall j :: 0 <= j < registers.Length ==>
                    registers[j] == if offset <= j < offset + k then words[j - offset] else old(registers[j])
      {
        registers[offset + k] := words[k];
      }
    }

    method RefreshRegisters()
      requires Valid()
      modifies registers
      ensures registers[..] == RefreshedFirst(regs, start, old(registers[..]), fields, |regs|)
    {
      for i := 0 to |regs|
        invariant registers[..] == RefreshedFirst(regs, start, old(registers[..]), fields, i)
      {
        var r := regs[i];
        if !r.writable && FieldOf(r.channel) in fields {
          EncodeInto(r, fields[FieldOf(r.channel)]);
        }
      }
    }

    method RouteWrite(address: int, values: seq<Word>) returns (got: seq<Setpoint>)
      ensures got == RoutedFirst(regs, address, values, |regs|)
    {
      got := [];
      hide ValueOf;
      for i := 0 to |regs|
        invariant got == RoutedFirst(regs, address, values, i)
      {
        var r := regs[i];
        if r.writable && address <= r.address && r.End() <= address + |values| {
          var at := r.address - address;
          var value := ValueOf(r, values[at..at + r.Count()]);
          assert values[at..at + r.Count()] == Slice(values, address, r);
          got := got + [Setpoint(FieldOf(r.channel), value.w)];
        }
      }
    }
  }

  // --- driver and device are inverse ---------------------------------------------------------------

  predicate Overlap(r: Register, q: Register) {
    r.address < q.End() && q.address < r.End()
  }

  ghost predicate NoOverlap(regs: seq<Register>) {
    forall i, j :: 0 <= i < j < |regs| ==> !Overlap(regs[i], regs[j])
  }

  lemma PutElsewhere(block: seq<Word>, start: int, r: Register, words: seq<Word>, q: Register)
    requires start <= r.address && r.End() <= start + |block| && |words| == r.Count()
    requires start <= q.address && q.End() <= start + |block| && !Overlap(r, q)
    ensures Slice(Put(block, r.address - start, words), start, q) == Slice(block, start, q)
  {}

  lemma PutHere(block: seq<Word>, start: int, r: Register, words: seq<Word>)
    requires start <= r.address && r.End() <= start + |block| && |words| == r.Count()
    ensures Slice(Put(block, r.address - start, words), start, r) == words
  {}

  lemma ServedInto(block: seq<Word>, start: int, r: Register, words: seq<Word>, q: Register)
    requires start <= r.address && r.End() <= start + |block| && |words| == r.Count()
    requires start <= q.address && q.End() <= start + |block| && (q == r || !Overlap(r, q))
    ensures Slice(Put(block, r.address - start, words), start, q) == if q == r then words else Slice(block, start, q)
  {
    if q == r { PutHere(block, start, r, words); } else { PutElsewhere(block, start, r, words, q); }
  }

  lemma Disjoint(regs: seq<Register>, i: nat, j: nat)
    requires NoOverlap(regs) && i < |regs| && j < |regs|
    ensures if i == j then Overlap(regs[i], regs[j]) else !Overlap(regs[i], regs[j])
  {}

  /** Refreshing registers that do not overlap leaves each served register with the encoding of
      its own field, and each other one as it was. */
  lemma {:induction false} RefreshShows(
    regs: seq<Register>, start: int, block: seq<Word>, fields: map<string, real>, n: nat, i: nat)
    requires AllAccepted(regs) && InBlock(regs, start, |block|) && NoOverlap(regs) && n <= |regs| && i < |regs|
    ensures Slice(RefreshedFirst(regs, start, block, fields, n), start, regs[i]) ==
            if i < n && !regs[i].writable && FieldOf(regs[i].channel) in fields
            then ServedWords(regs[i], fields[FieldOf(regs[i].channel)])
            else Slice(block, start, regs[i])
  {
    hide Put, ServedWords, Slice, FieldOf, Overlap;
    if n > 0 {
      RefreshShows(regs, start, block, fields, n - 1, i);
      var before, r := RefreshedFirst(regs, start, block, fields, n - 1), regs[n - 1];
      Disjoint(regs, n - 1, i);
      Disjoint(regs, n - 1, n - 1);
      hide NoOverlap;
      if IsServed(r, fields) { ServedInto(before, start, r, ServedWords(r, fields[FieldOf(r.channel)]), regs[i]); }
    }
  }

  /** Words outside every served register are left alone. */
  lemma {:induction false} RefreshLeaves(
    regs: seq<Register>, start: int, block: seq<Word>, fields: map<string, real>, n: nat, k: nat)
    requires AllAccepted(regs) && InBlock(regs, start, |block|) && n <= |regs| && k < |block|
    requires forall i :: 0 <= i < n && IsServed(regs[i], fields) ==> !(regs[i].address <= start + k < regs[i].End())
    ensures RefreshedFirst(regs, start, block, fields, n)[k] == block[k]
  {
    if n > 0 { RefreshLeaves(regs, start, block, fields, n - 1, k); }
    hide ServedWords, FieldOf;
  }

  /** What the driver decodes of a refreshed block: each field to half a unit, if it fits the
      register's type, and wrapped into the type's range if it does not. */
  lemma ReadingRoundTrip(regs: seq<Register>, start: int, block: seq<Word>, fields: map<string, real>, i: nat)
    requires AllAccepted(regs) && InBlock(regs, start, |block|) && NoOverlap(regs) && i < |regs| && IsServed(regs[i], fields)
    ensures var r := regs[i];
            var x := fields[FieldOf(r.channel)];
            var words := Slice(RefreshedFirst(regs, start, block, fields, |regs|), start, r);
            && Decoded(words, r.t) == Wrapped(Rounded(x / r.scale), r.t)
            && (InRange(Rounded(x / r.scale), r.t) ==>
                  ValueOf(r, words) == Fin(Served(x, r.scale)) && Abs(x - Served(x, r.scale)) <= Abs(r.scale) / 2.0)
  {
    RefreshShows(regs, start, block, fields, |regs|, i);
    var r, x := regs[i], fields[FieldOf(regs[i].channel)];
    CountArrives(r, Rounded(x / r.scale), Served(x, r.scale));
    ServedWithinHalf(x, r.scale);
    hide RefreshedFirst, Rounded, Abs, Wrapped, InRange, Encoded, Served, ValueOf, Decoded, FieldOf, Slice, Overlap;
  }

  /** The value a register gives back of a count written to it: the scaled count itself exactly
      if the count is in the register's range. */
  lemma CountArrives(r: Register, n: int, back: real)
    requires r.scale != 0.0 && back == n as real * r.scale
    ensures Decoded(Encoded(n, r.t), r.t) == Wrapped(n, r.t)
    ensures ValueOf(r, Encoded(n, r.t)).w == back <==> InRange(n, r.t)
  {
    DecodedEncoded(n, r.t);
    hide Decoded, Encoded, Wrapped, InRange, ValueOf;
    CountedValue(r, Encoded(n, r.t), Wrapped(n, r.t));
    SameProduct(Wrapped(n, r.t), n, r.scale);
  }

  lemma CountedValue(r: Register, words: seq<Word>, n: int)
    requires |words| == r.Count() && Decoded(words, r.t) == n
    ensures ValueOf(r, words).w == n as real * r.scale
  {
    hide Decoded;
  }

  /** The setpoint is what the write request says to one writable register that it covers wholly. */
  ghost predicate Says(r: Register, address: int, values: seq<Word>, s: Setpoint) {
    && r.writable && address <= r.address && r.End() <= address + |values|
    && s.field == FieldOf(r.channel) && s.value == Decoded(Slice(values, address, r), r.t) as real * r.scale
  }

  /** A write request sets exactly what it says to the writable registers that it covers wholly. */
  lemma {:induction false} RoutedExact(regs: seq<Register>, address: int, values: seq<Word>, n: nat, s: Setpoint)
    requires n <= |regs|
    ensures s in RoutedFirst(regs, address, values, n) <==> exists i :: 0 <= i < n && Says(regs[i], address, values, s)
  {
    hide FieldOf, Slice, ValueOf, Says, IsCovered;
    if n > 0 {
      RoutedExact(regs, address, values, n - 1, s);
      SaysWhatIsCovered(regs[n - 1], address, values, s);
    }
  }

  lemma SaysWhatIsCovered(r: Register, address: int, values: seq<Word>, s: Setpoint)
    ensures Says(r, address, values, s) <==>
            IsCovered(r, address, values) && s == Setpoint(FieldOf(r.channel), ValueOf(r, Slice(values, address, r)).w)
  {
    hide FieldOf, Slice, Decoded;
  }

  /** A request for one whole register covers no other. */
  lemma CoversOne(regs: seq<Register>, values: seq<Word>, k: nat, i: nat)
    requires NoOverlap(regs) && i < |regs| && k < |regs| && regs[i].writable && |values| == regs[i].Count()
    ensures IsCovered(regs[k], regs[i].address, values) <==> k == i
    ensures Slice(values, regs[i].address, regs[i]) == values
  {
    Disjoint(regs, i, k);
  }

  /** Only the addressed register is covered by its own transaction. */
  lemma {:induction false} RoutesOne(regs: seq<Register>, values: seq<Word>, n: nat, i: nat)
    requires NoOverlap(regs) && i < |regs| && n <= |regs| && regs[i].writable && |values| == regs[i].Count()
    ensures RoutedFirst(regs, regs[i].address, values, n) ==
            if i < n then [Setpoint(FieldOf(regs[i].channel), ValueOf(regs[i], values).w)] else []
  {
    hide ValueOf, FieldOf, NoOverlap, Slice, IsCovered;
    if n > 0 {
      RoutesOne(regs, values, n - 1, i);
      CoversOne(regs, values, n - 1, i);
    }
  }

  lemma Arrival(r: Register, v: real)
    requires r.scale != 0.0
    ensures ValueOf(r, SetpointRequest(r, v).words).w == Arrives(v, r.scale) <==> InRange(Units(v, r.scale), r.t)
  {
    CountArrives(r, Units(v, r.scale), Arrives(v, r.scale));
    hide InRange, Encoded, ValueOf, Units;
  }

  /** A written setpoint arrives at the device as one setpoint of its own field: truncated to
      the scale, never larger in magnitude and less than one unit away, exactly if the
      truncated count fits the register's type. */
  lemma WritingRoundTrip(regs: seq<Register>, i: nat, v: real)
    requires AllAccepted(regs) && NoOverlap(regs) && i < |regs| && regs[i].writable
    ensures var r := regs[i];
            var q := SetpointRequest(r, v);
            var got := RoutedFirst(regs, q.address, q.words, |regs|);
            && |got| == 1 && got[0].field == FieldOf(r.channel)
            && (got[0].value == Arrives(v, r.scale) <==> InRange(Units(v, r.scale), r.t))
            && Abs(Arrives(v, r.scale)) <= Abs(v) && Abs(v - Arrives(v, r.scale)) < Abs(r.scale)
  {
    hide RoutedFirst, InRange, Abs, Encoded, FieldOf, ValueOf, Arrives, Units;
    var r := regs[i];
    RoutesOne(regs, SetpointRequest(r, v).words, |regs|, i);
    Arrival(r, v);
    ArrivesJustBelow(v, r.scale);
  }

  lemma SameProduct(a: int, b: int, scale: real)
    requires scale != 0.0
    ensures a as real * scale == b as real * scale <==> a == b
  {
    if a as real * scale == b as real * scale {
      assert (a as real - b as real) * scale == 0.0;
    }
  }
}
