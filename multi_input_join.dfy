// PySingleMultiInputExample/engine.py: a join tool with one multi-connection
// input anchor. Once every connection has its schema, the connections are put
// in reverse order and the output schema is laid out connection after
// connection, each connection's fields starting where the previous one's
// ended. Every incoming record is cached on its connection, and every push
// sends one record holding the latest cached record of each connection in
// that connection's slot, null where a connection has sent nothing yet.
module MultiInputJoin {
  import opened Host
  import Text

  /* ---------- the order of the connections ---------- */

  /** The elements of s from last to first. */
  function Reversed<T>(s: seq<T>): (r: seq<T>)
    ensures |r| == |s|
    ensures forall k :: 0 <= k < |s| ==> r[k] == s[|s| - 1 - k]
  {
    if s == [] then [] else Reversed(s[1..]) + [s[0]]
  }

  /** Reversing twice gives the original order back. */
  lemma ReversedTwice<T>(s: seq<T>)
    ensures Reversed(Reversed(s)) == s
  {
  }

  /** Reversing keeps exactly the same elements. */
  lemma ReversedMembers<T>(s: seq<T>)
    ensures forall x :: x in Reversed(s) <==> x in s
  {
    var r := Reversed(s);
    forall x | x in s ensures x in r {
      var k :| 0 <= k < |s| && s[k] == x;
      assert r[|s| - 1 - k] == x;
    }
  }

  /* ---------- the concatenated layout ---------- */

  /** The number of fields of all the schemas together. */
  function Width(schemas: seq<Schema>): nat
  {
    if schemas == [] then 0 else Width(schemas[..|schemas| - 1]) + |schemas[|schemas| - 1]|
  }

  /** `field_count` when the layout loop reaches connection k: the fields of the connections before it. */
  function Offset(schemas: seq<Schema>, k: nat): nat
    requires k <= |schemas|
  {
    Width(schemas[..k])
  }

  /** The fields of every schema one after the other. */
  function Concat(schemas: seq<Schema>): (r: Schema)
  {
    if schemas == [] then [] else Concat(schemas[..|schemas| - 1]) + schemas[|schemas| - 1]
  }

  lemma {:induction false} ConcatWidth(schemas: seq<Schema>)
    ensures |Concat(schemas)| == Width(schemas)
    decreases |schemas|
  {
    if schemas != [] {
      ConcatWidth(schemas[..|schemas| - 1]);
    }
  }

  /** Connection k's fields start right after those of the connections before it. */
  lemma OffsetStep(schemas: seq<Schema>, k: nat)
    requires k < |schemas|
    ensures Offset(schemas, k + 1) == Offset(schemas, k) + |schemas[k]|
  {
    assert schemas[..k + 1][..k] == schemas[..k];
  }

  /** A prefix of the connections never has more fields than all of them. */
  lemma {:induction false} OffsetBound(schemas: seq<Schema>, k: nat)
    requires k <= |schemas|
    ensures Offset(schemas, k) <= Width(schemas)
    decreases |schemas|
  {
    if k < |schemas| {
      var n := |schemas| - 1;
      assert schemas[..n][..k] == schemas[..k];
      OffsetBound(schemas[..n], k);
    } else {
      assert schemas[..k] == schemas;
    }
  }

  /** Offsets grow with the position. */
  lemma OffsetMonotone(schemas: seq<Schema>, a: nat, b: nat)
    requires a <= b <= |schemas|
    ensures Offset(schemas, a) <= Offset(schemas, b)
  {
    assert schemas[..b][..a] == schemas[..a];
    OffsetBound(schemas[..b], a);
  }

  /** Appending a connection leaves the offsets of the earlier ones as they were. */
  lemma OffsetAppend(schemas: seq<Schema>, s: Schema, k: nat)
    requires k <= |schemas|
    ensures Offset(schemas + [s], k) == Offset(schemas, k)
  {
    assert (schemas + [s])[..k] == schemas[..k];
  }

  /** Connection k's field i sits at position Offset(k) + i of the concatenated layout. */
  lemma {:induction false} ConcatSlot(schemas: seq<Schema>, k: nat, i: nat)
    requires k < |schemas| && i < |schemas[k]|
    ensures Offset(schemas, k) + i < |Concat(schemas)|
    ensures Concat(schemas)[Offset(schemas, k) + i] == schemas[k][i]
    decreases |schemas|
  {
    var n := |schemas| - 1;
    var prefix := Concat(schemas[..n]);
    ConcatWidth(schemas[..n]);
    assert Concat(schemas) == prefix + schemas[n];
    if k == n {
      assert Offset(schemas, k) == |prefix|;
    } else {
      assert schemas[..n][k] == schemas[k];
      assert schemas[..n][..k] == schemas[..k];
      ConcatSlot(schemas[..n], k, i);
    }
  }

  /* ---------- the copiers ---------- */

  /** `init_child_record_copier_two(child, start)`: input field idx goes to output field start + idx. */
  function Shifted(start: nat, n: nat): (r: seq<Copy>)
    ensures |r| == n
  {
    seq(n, i requires 0 <= i < n => Copy(start + i, i))
  }

  /** Connection k's copier fits the concatenated layout and puts every field on its own descriptor. */
  lemma ShiftedFits(schemas: seq<Schema>, k: nat)
    requires k < |schemas|
    ensures CopiesFit(Shifted(Offset(schemas, k), |schemas[k]|), Width(schemas), |schemas[k]|)
    ensures forall c :: c in Shifted(Offset(schemas, k), |schemas[k]|) ==>
              c.dst < |Concat(schemas)| && Concat(schemas)[c.dst] == schemas[k][c.src]
  {
    var cs := Shifted(Offset(schemas, k), |schemas[k]|);
    OffsetStep(schemas, k);
    OffsetBound(schemas, k + 1);
    ConcatWidth(schemas);
    forall c | c in cs ensures c.dst < |Concat(schemas)| && Concat(schemas)[c.dst] == schemas[k][c.src] {
      var i :| 0 <= i < |cs| && cs[i] == c;
      ConcatSlot(schemas, k, i);
    }
  }

  /** A shifted copier writes source field j - start to target field j inside its range and nothing outside it. */
  lemma ShiftedAt(start: nat, n: nat, target: Record, source: Record, j: nat)
    requires start + n <= |target| && n <= |source| && j < |target|
    ensures CopiesFit(Shifted(start, n), |target|, |source|)
    ensures ApplyCopies(Shifted(start, n), target, source)[j]
            == if start <= j < start + n then source[j - start] else target[j]
  {
    var cs := Shifted(start, n);
    if start <= j < start + n {
      ApplyCopiesAt(cs, target, source, j - start);
    } else {
      ApplyCopiesUntouched(cs, target, source, j);
    }
  }

  /* ---------- the joined record ---------- */

  /** A connection as a push sees it: its copier and its latest record, if any. */
  datatype Cached = Cached(copier: seq<Copy>, record: Option<Record>)

  ghost predicate Applicable(entries: seq<Cached>, width: nat) {
    forall k :: 0 <= k < |entries| && entries[k].record.Some? ==>
      CopiesFit(entries[k].copier, width, |entries[k].record.value|)
  }

  /** The copy loop of `ii_push_record`: each connection with a record, in order, copies it into the target. */
  function Joined(entries: seq<Cached>, target: Record): (r: Record)
    requires Applicable(entries, |target|)
    ensures |r| == |target|
  {
    if entries == [] then target
    else
      var last := entries[|entries| - 1];
      var before := Joined(entries[..|entries| - 1], target);
      if last.record.Some? then ApplyCopies(last.copier, before, last.record.value) else before
  }

  /** One more connection in the copy loop. */
  lemma JoinedStep(entries: seq<Cached>, k: nat, target: Record)
    requires k < |entries| && Applicable(entries, |target|)
    ensures Applicable(entries[..k], |target|) && Applicable(entries[..k + 1], |target|)
    ensures Joined(entries[..k + 1], target)
            == if entries[k].record.Some?
               then ApplyCopies(entries[k].copier, Joined(entries[..k], target), entries[k].record.value)
               else Joined(entries[..k], target)
  {
    assert entries[..k + 1][..k] == entries[..k];
  }

  /** The copiers are shifted by the given starts, and the records are as long as their ranges. */
  ghost predicate Ranged(entries: seq<Cached>, starts: seq<nat>, lens: seq<nat>, width: nat) {
    && |starts| == |entries| && |lens| == |entries|
    && (forall k :: 0 <= k < |entries| ==> starts[k] + lens[k] <= width)
    && (forall k :: 0 <= k < |entries| ==> entries[k].copier == Shifted(starts[k], lens[k]))
    && (forall k :: 0 <= k < |entries| && entries[k].record.Some? ==> |entries[k].record.value| == lens[k])
  }

  lemma RangedApplicable(entries: seq<Cached>, starts: seq<nat>, lens: seq<nat>, width: nat)
    requires Ranged(entries, starts, lens, width)
    ensures Applicable(entries, width)
  {
  }

  lemma RangedPrefix(entries: seq<Cached>, starts: seq<nat>, lens: seq<nat>, width: nat, n: nat)
    requires Ranged(entries, starts, lens, width) && n <= |entries|
    ensures Ranged(entries[..n], starts[..n], lens[..n], width)
  {
  }

  /** A position outside every range keeps the target's value. */
  lemma {:induction false} JoinedOutside(entries: seq<Cached>, starts: seq<nat>, lens: seq<nat>, target: Record, j: nat)
    requires Ranged(entries, starts, lens, |target|) && j < |target|
    requires forall k :: 0 <= k < |entries| ==> !(starts[k] <= j < starts[k] + lens[k])
    ensures Applicable(entries, |target|)
    ensures Joined(entries, target)[j] == target[j]
    decreases |entries|
  {
    RangedApplicable(entries, starts, lens, |target|);
    if entries != [] {
      var n := |entries| - 1;
      RangedPrefix(entries, starts, lens, |target|, n);
      RangedApplicable(entries[..n], starts[..n], lens[..n], |target|);
      JoinedOutside(entries[..n], starts[..n], lens[..n], target, j);
      if entries[n].record.Some? {
        ShiftedAt(starts[n], lens[n], Joined(entries[..n], target), entries[n].record.value, j);
      }
    }
  }

  /**
   * When the ranges do not overlap, position starts[k] + i of the joined
   * record holds field i of connection k's latest record, or the target's
   * value when the connection has no record.
   */
  lemma {:induction false} JoinedInside(entries: seq<Cached>, starts: seq<nat>, lens: seq<nat>, target: Record, k: nat, i: nat)
    requires Ranged(entries, starts, lens, |target|)
    requires forall a, b :: 0 <= a < b < |entries| ==> starts[a] + lens[a] <= starts[b]
    requires k < |entries| && i < lens[k]
    ensures Applicable(entries, |target|)
    ensures Joined(entries, target)[starts[k] + i]
            == if entries[k].record.Some? then entries[k].record.value[i] else target[starts[k] + i]
    decreases |entries|
  {
    RangedApplicable(entries, starts, lens, |target|);
    var n := |entries| - 1;
    var j := starts[k] + i;
    RangedPrefix(entries, starts, lens, |target|, n);
    RangedApplicable(entries[..n], starts[..n], lens[..n], |target|);
    var before := Joined(entries[..n], target);
    if k == n {
      JoinedOutside(entries[..n], starts[..n], lens[..n], target, j);
      if entries[n].record.Some? {
        ShiftedAt(starts[n], lens[n], before, entries[n].record.value, j);
      }
    } else {
      JoinedInside(entries[..n], starts[..n], lens[..n], target, k, i);
      if entries[n].record.Some? {
        ShiftedAt(starts[n], lens[n], before, entries[n].record.value, j);
      }
    }
  }

  /** The starts and lengths the concatenated layout gives the connections. */
  function Starts(schemas: seq<Schema>): (r: seq<nat>)
    ensures |r| == |schemas|
    ensures forall k :: 0 <= k < |schemas| ==> r[k] == Offset(schemas, k)
  {
    seq(|schemas|, k requires 0 <= k < |schemas| => Offset(schemas, k))
  }

  function Lens(schemas: seq<Schema>): (r: seq<nat>)
    ensures |r| == |schemas|
    ensures forall k :: 0 <= k < |schemas| ==> r[k] == |schemas[k]|
  {
    seq(|schemas|, k requires 0 <= k < |schemas| => |schemas[k]|)
  }

  /** Connections laid out one after the other, each with its shifted copier and records of its schema's width. */
  ghost predicate Aligned(entries: seq<Cached>, schemas: seq<Schema>) {
    && |entries| == |schemas|
    && (forall k :: 0 <= k < |schemas| ==> entries[k].copier == Shifted(Offset(schemas, k), |schemas[k]|))
    && (forall k :: 0 <= k < |schemas| && entries[k].record.Some? ==> |entries[k].record.value| == |schemas[k]|)
  }

  lemma AlignedRanged(entries: seq<Cached>, schemas: seq<Schema>)
    requires Aligned(entries, schemas)
    ensures Ranged(entries, Starts(schemas), Lens(schemas), Width(schemas))
    ensures Applicable(entries, Width(schemas))
  {
    forall k | 0 <= k < |schemas| ensures Offset(schemas, k) + |schemas[k]| <= Width(schemas) {
      OffsetStep(schemas, k);
      OffsetBound(schemas, k + 1);
    }
    RangedApplicable(entries, Starts(schemas), Lens(schemas), Width(schemas));
  }

  /**
   * The record a push sends: output field Offset(k) + i, which the layout
   * declares as connection k's field i, holds field i of connection k's
   * latest record, and is null while connection k has sent nothing.
   */
  lemma JoinSlot(entries: seq<Cached>, schemas: seq<Schema>, k: nat, i: nat)
    requires Aligned(entries, schemas)
    requires k < |schemas| && i < |schemas[k]|
    ensures Applicable(entries, Width(schemas))
    ensures Offset(schemas, k) + i < Width(schemas) == |Concat(schemas)|
    ensures Concat(schemas)[Offset(schemas, k) + i] == schemas[k][i]
    ensures Joined(entries, Nulls(Width(schemas)))[Offset(schemas, k) + i]
            == if entries[k].record.Some? then entries[k].record.value[i] else None
  {
    AlignedRanged(entries, schemas);
    ConcatWidth(schemas);
    ConcatSlot(schemas, k, i);
    RangesDisjoint(schemas);
    JoinedInside(entries, Starts(schemas), Lens(schemas), Nulls(Width(schemas)), k, i);
  }

  /** Each connection's range ends before the next one's starts. */
  lemma RangesDisjoint(schemas: seq<Schema>)
    ensures forall a, b :: 0 <= a < b < |schemas| ==> Starts(schemas)[a] + Lens(schemas)[a] <= Starts(schemas)[b]
  {
    forall a, b | 0 <= a < b < |schemas| ensures Offset(schemas, a) + |schemas[a]| <= Offset(schemas, b) {
      OffsetStep(schemas, a);
      OffsetMonotone(schemas, a + 1, b);
    }
  }

  /* ---------- init_two's layout as written ---------- */

  /**
   * The layout loop of `init_two` as written: a connection's fields are added
   * only while `primary_field_names`, the comma-joined names added so far,
   * is empty; afterwards the later connections add nothing.
   */
  function LayoutAsWritten(primary: string, out: Schema, schemas: seq<Schema>): (r: Schema)
    ensures out <= r
    decreases |schemas|
  {
    if schemas == [] then out
    else if |primary| == 0 then
      var grown := out + schemas[0];
      LayoutAsWritten(Text.Join(",", Names(grown)), grown, schemas[1..])
    else LayoutAsWritten(primary, out, schemas[1..])
  }

  /** Once `primary_field_names` is not empty, no connection adds a field. */
  lemma {:induction false} LayoutAsWrittenStays(primary: string, out: Schema, schemas: seq<Schema>)
    requires |primary| != 0
    ensures LayoutAsWritten(primary, out, schemas) == out
    decreases |schemas|
  {
    if schemas != [] {
      LayoutAsWrittenStays(primary, out, schemas[1..]);
    }
  }

  /** A first connection whose comma-joined field names are not empty is the whole announced layout. */
  lemma LayoutAsWrittenFirst(schemas: seq<Schema>)
    requires schemas != [] && Text.Join(",", Names(schemas[0])) != ""
    ensures LayoutAsWritten("", [], schemas) == schemas[0]
  {
    assert [] + schemas[0] == schemas[0];
    LayoutAsWrittenStays(Text.Join(",", Names(schemas[0])), schemas[0], schemas[1..]);
  }

  /**
   * As written, every later connection with a field gets a copier that
   * writes past the end of the announced layout.
   */
  lemma LayoutAsWrittenOverrun(schemas: seq<Schema>, k: nat)
    requires 0 < k < |schemas| && |schemas[k]| > 0
    requires Text.Join(",", Names(schemas[0])) != ""
    ensures !CopiesFit(Shifted(Offset(schemas, k), |schemas[k]|), |LayoutAsWritten("", [], schemas)|, |schemas[k]|)
  {
    LayoutAsWrittenFirst(schemas);
    OffsetStep(schemas, 0);
    OffsetMonotone(schemas, 1, k);
    assert schemas[..0] == [];
    var cs := Shifted(Offset(schemas, k), |schemas[k]|);
    assert cs[0].dst == Offset(schemas, k) >= |schemas[0]|;
  }

  /**
   * Two connections, taken in the reversed order, with fields [test, a] and
   * [test]: the announced layout is the first connection's two fields, and
   * the second connection's copier writes to output field 2, past its end.
   */
  lemma LayoutAsWrittenExample()
    ensures var t := Field("test", Int32, 4, 0);
            var a := Field("a", Int32, 4, 0);
            && LayoutAsWritten("", [], [[t, a], [t]]) == [t, a]
            && Concat([[t, a], [t]]) == [t, a, t]
            && Shifted(Offset([[t, a], [t]], 1), 1) == [Copy(2, 0)]
            && !CopiesFit(Shifted(Offset([[t, a], [t]], 1), 1), 2, 1)
  {
    var t := Field("test", Int32, 4, 0);
    var a := Field("a", Int32, 4, 0);
    var schemas := [[t, a], [t]];
    assert Names([t, a]) == ["test", "a"];
    assert Text.Join(",", ["test", "a"]) == "test" + "," + "a";
    LayoutAsWrittenFirst(schemas);
    assert schemas[..1] == [[t, a]] && schemas[..|schemas| - 1] == [[t, a]];
    assert [[t, a]][..|[[t, a]]| - 1] == [];
    assert Width([[t, a]]) == 2;
    assert Concat([[t, a]]) == [t, a];
    assert Shifted(2, 1)[0] == Copy(2, 0);
  }

  /* ---------- the plugin ---------- */

  /** Every connection has received its schema. */
  predicate AllInitialized(xs: seq<Input>)
    reads xs`initialized
  {
    forall x :: x in xs ==> x.initialized
  }

  /** Every connection has been closed. */
  predicate AllClosed(xs: seq<Input>)
    reads xs`closed
  {
    forall x :: x in xs ==> x.closed
  }

  /** The schemas, copiers and latest records the connections hold, in order. */
  ghost predicate Snapshot(xs: seq<Input>, entries: seq<Cached>, schemas: seq<Schema>)
    reads xs`recordInfoIn, xs`copier, xs`inRecord
  {
    && |entries| == |xs| && |schemas| == |xs|
    && (forall k :: 0 <= k < |xs| ==> xs[k].recordInfoIn == Some(schemas[k]))
    && (forall k :: 0 <= k < |xs| ==> entries[k] == Cached(xs[k].copier, xs[k].inRecord))
  }

  class Plugin {
    const engine: Engine
    const anchor: OutputAnchor
    /** The connections, in registration order until `init_two` reverses them. */
    var inputs: seq<Input>
    /** `record_info_out_two`. */
    var recordInfoOut: Option<Schema>
    /** `record_creator`, by the number of fields of the records it builds. */
    var creator: Option<nat>
    /** The schemas `init_two` laid out, one per connection. */
    ghost var layout: seq<Schema>

    ghost predicate Valid()
      reads this`inputs, inputs`initialized, inputs`recordInfoIn, inputs`inRecord
    {
      && (forall i, j :: 0 <= i < j < |inputs| ==> inputs[i] != inputs[j])
      && (forall x :: x in inputs ==> x.parent == this && x.Valid())
    }

    /**
     * What `init_two` leaves behind: the connections' fields one after the
     * other as the announced layout, a record creator of that width, and each
     * connection's copier shifted to where its fields start.
     */
    ghost predicate Joinable()
      reads this`inputs, this`recordInfoOut, this`creator, this`layout, anchor`schema, inputs`recordInfoIn, inputs`copier
    {
      Prefix(|inputs|, layout) && anchor.schema == recordInfoOut && creator == Some(Width(layout))
    }

    /** Once there are connections and all of them have their schema, the layout is in place. */
    ghost predicate Ready()
      reads this`inputs, this`recordInfoOut, this`creator, this`layout, anchor`schema, inputs`recordInfoIn, inputs`copier,
            inputs`initialized
    {
      inputs != [] && AllInitialized(inputs) ==> Joinable()
    }

    constructor (engine: Engine, anchor: OutputAnchor)
      ensures Valid() && Ready() && inputs == [] && recordInfoOut == None && creator == None
      ensures this.engine == engine && this.anchor == anchor
    {
      this.engine := engine;
      this.anchor := anchor;
      inputs := [];
      recordInfoOut := None;
      creator := None;
      layout := [];
    }

    /** `pi_add_incoming_connection`: a new connection, registered after the others. */
    method PiAddIncomingConnection(connType: string, name: string) returns (input: Input)
      requires Valid()
      modifies this`inputs
      ensures Valid() && Ready() && fresh(input)
      ensures inputs == old(inputs) + [input]
      ensures input.parent == this && input.connType == connType && input.name == name
      ensures !input.initialized && !input.closed && input.recordInfoIn == None && input.inRecord == None
    {
      input := new Input(this, connType, name);
      inputs := inputs + [input];
      assert input in inputs && !input.initialized;
    }

    /** `pi_push_all_records`: this tool needs an input, so it reports an error and fails. */
    method PiPushAllRecords() returns (ok: bool)
      modifies engine`log
      ensures !ok
      ensures engine.log == old(engine.log) + [Message(Error, "pi_push_all_records: Missing Incoming Connection")]
    {
      engine.OutputMessage(Error, "pi_push_all_records: Missing Incoming Connection");
      ok := false;
    }

    /** `init_child_record_copier_two`: input field idx goes to output field start + idx. */
    method InitChildRecordCopierTwo(child: Input, start: nat)
      requires child.recordInfoIn.Some?
      modifies child`copier
      ensures child.copier == Shifted(start, |child.recordInfoIn.value|)
    {
      var n := |child.recordInfoIn.value|;
      var cs: seq<Copy> := [];
      var idx := 0;
      while idx < n
        invariant 0 <= idx <= n
        invariant cs == Shifted(start, idx)
      {
        cs := cs + [Copy(start + idx, idx)];
        idx := idx + 1;
      }
      child.copier := cs;
    }

    /**
     * `init_two`: with no connection it reports an error; otherwise the
     * connections are reversed and laid out one after the other. A connection
     * without a schema stops the layout with an error message.
     */
    method InitTwo() returns (ghost m: nat, ghost schemas: seq<Schema>)
      requires Valid()
      modifies this`inputs, this`recordInfoOut, this`creator, this`layout, inputs`copier, anchor`schema, anchor`sortInfo, engine`log
      ensures Valid()
      ensures old(inputs) == [] ==>
                && engine.log == old(engine.log) + [Message(Error, "init: At least one input is required")]
                && inputs == [] && recordInfoOut == old(recordInfoOut) && creator == old(creator)
                && anchor.schema == old(anchor.schema)
      ensures old(inputs) != [] ==>
                && inputs == Reversed(old(inputs)) && m <= |inputs|
                && (m == |inputs| <==> AllInitialized(inputs))
      ensures old(inputs) != [] && m == |inputs| ==> Joinable() && engine.log == old(engine.log)
      ensures old(inputs) != [] && m < |inputs| ==>
                && !inputs[m].initialized && (forall k :: 0 <= k < m ==> inputs[k].initialized)
                && engine.log == old(engine.log) + [Message(Error, "init: An incoming connection is not initialized")]
                && Prefix(m, schemas)
                && creator == old(creator) && anchor.schema == old(anchor.schema)
    {
      m, schemas := 0, [];
      if |inputs| == 0 {
        engine.OutputMessage(Error, "init: At least one input is required");
        return;
      }
      m, schemas := LayOutReversed();
    }

    /** `init_two` once there is a connection: reverse them, then lay them out. */
    method LayOutReversed() returns (ghost m: nat, ghost schemas: seq<Schema>)
      requires Valid() && inputs != []
      modifies this`inputs, this`recordInfoOut, this`creator, this`layout, inputs`copier, anchor`schema, anchor`sortInfo, engine`log
      ensures Valid()
      ensures inputs == Reversed(old(inputs)) && m <= |inputs| && (m == |inputs| <==> AllInitialized(inputs))
      ensures m == |inputs| ==> Joinable() && engine.log == old(engine.log)
      ensures m < |inputs| ==>
                && !inputs[m].initialized && (forall k :: 0 <= k < m ==> inputs[k].initialized)
                && engine.log == old(engine.log) + [Message(Error, "init: An incoming connection is not initialized")]
                && Prefix(m, schemas)
                && creator == old(creator) && anchor.schema == old(anchor.schema)
    {
      Reverse();
      m, schemas := LayOut();
    }

    /** The first m connections are laid out by their schemas. */
    ghost predicate Prefix(m: nat, schemas: seq<Schema>)
      reads this`inputs, this`recordInfoOut, inputs`recordInfoIn, inputs`copier
    {
      && m <= |inputs| && |schemas| == m
      && (forall k :: 0 <= k < m ==> inputs[k].recordInfoIn == Some(schemas[k]))
      && (forall k :: 0 <= k < m ==> inputs[k].copier == Shifted(Offset(schemas, k), |schemas[k]|))
      && recordInfoOut == Some(Concat(schemas))
    }

    /** The reversal at the head of `init_two`, built by appending from the last connection back. */
    method Reverse()
      requires Valid()
      modifies this`inputs
      ensures Valid() && inputs == Reversed(old(inputs))
    {
      var reversed: seq<Input> := [];
      var i := |inputs|;
      while i > 0
        invariant 0 <= i <= |inputs|
        invariant reversed == Reversed(inputs[i..])
      {
        i := i - 1;
        assert inputs[i..][1..] == inputs[i + 1..];
        reversed := reversed + [inputs[i]];
      }
      assert inputs[0..] == inputs;
      ReversedMembers(inputs);
      inputs := reversed;
    }

    /**
     * The layout loop of `init_two` and what follows it: a connection without
     * a schema stops it with an error message; otherwise the layout is
     * announced and the record creator built.
     */
    method LayOut() returns (ghost m: nat, ghost schemas: seq<Schema>)
      requires Valid()
      modifies this`recordInfoOut, this`creator, this`layout, inputs`copier, anchor`schema, anchor`sortInfo, engine`log
      ensures Valid() && Prefix(m, schemas) && (m == |inputs| <==> AllInitialized(inputs))
      ensures m == |inputs| ==> Joinable() && anchor.sortInfo == "" && engine.log == old(engine.log)
      ensures m < |inputs| ==>
                && !inputs[m].initialized && (forall k :: 0 <= k < m ==> inputs[k].initialized)
                && engine.log == old(engine.log) + [Message(Error, "init: An incoming connection is not initialized")]
                && creator == old(creator) && anchor.schema == old(anchor.schema) && anchor.sortInfo == old(anchor.sortInfo)
    {
      recordInfoOut := Some([]);
      var stop;
      stop, schemas := LayOutWhileInitialized();
      m := stop;
      StopsAtUninitialized(m, schemas);
      Conclude(stop, schemas);
    }

    /** After the layout loop: the error message if it stopped early, otherwise the layout is announced. */
    method Conclude(m: nat, ghost schemas: seq<Schema>)
      requires Valid() && Prefix(m, schemas)
      modifies this`creator, this`layout, anchor`schema, anchor`sortInfo, engine`log
      ensures Valid() && Prefix(m, schemas)
      ensures m == |inputs| ==> Joinable() && anchor.sortInfo == "" && engine.log == old(engine.log)
      ensures m < |inputs| ==>
                && engine.log == old(engine.log) + [Message(Error, "init: An incoming connection is not initialized")]
                && creator == old(creator) && anchor.schema == old(anchor.schema) && anchor.sortInfo == old(anchor.sortInfo)
    {
      if m < |inputs| {
        engine.OutputMessage(Error, "init: An incoming connection is not initialized");
      } else {
        ConcatWidth(schemas);
        Announce();
        layout := schemas;
      }
    }

    /** The layout loop stops at the first connection without a schema, so it reaches the end exactly when all have one. */
    lemma StopsAtUninitialized(m: nat, schemas: seq<Schema>)
      requires Valid() && Prefix(m, schemas)
      requires m < |inputs| ==> !inputs[m].initialized
      ensures forall k :: 0 <= k < m ==> inputs[k].initialized
      ensures m == |inputs| <==> AllInitialized(inputs)
    {
      forall k | 0 <= k < m ensures inputs[k].initialized {
        assert inputs[k] in inputs;
      }
      if m == |inputs| {
        forall x | x in inputs ensures x.initialized {
          var k :| 0 <= k < |inputs| && inputs[k] == x;
        }
      }
    }

    /** The end of `init_two`: the layout is announced and the record creator built for it. */
    method Announce()
      requires recordInfoOut.Some?
      modifies this`creator, anchor`schema, anchor`sortInfo
      ensures anchor.schema == recordInfoOut && anchor.sortInfo == "" && creator == Some(|recordInfoOut.value|)
    {
      anchor.Init(recordInfoOut.value, "");
      creator := Some(|recordInfoOut.value|);
    }

    /** The layout loop of `init_two`, up to the first connection without a schema. */
    method LayOutWhileInitialized() returns (m: nat, ghost schemas: seq<Schema>)
      requires Valid() && recordInfoOut == Some([])
      modifies this`recordInfoOut, inputs`copier
      ensures Valid() && Prefix(m, schemas)
      ensures m < |inputs| ==> !inputs[m].initialized
      ensures forall k :: m <= k < |inputs| ==> inputs[k].copier == old(inputs[k].copier)
    {
      schemas := [];
      var fieldCount := 0;
      var k := 0;
      while k < |inputs| && inputs[k].initialized
        invariant Valid() && Prefix(k, schemas) && fieldCount == Width(schemas)
        invariant forall j :: k <= j < |inputs| ==> inputs[j].copier == old(inputs[j].copier)
      {
        fieldCount := LayOutOne(k, fieldCount, schemas);
        schemas := schemas + [inputs[k].recordInfoIn.value];
        k := k + 1;
      }
      m := k;
    }

    /** One pass of the layout loop: connection k's fields go after the others, its copier is shifted by fieldCount. */
    method LayOutOne(k: nat, fieldCount: nat, ghost schemas: seq<Schema>) returns (count: nat)
      requires Valid() && k < |inputs| && inputs[k].initialized
      requires Prefix(k, schemas) && fieldCount == Width(schemas)
      modifies this`recordInfoOut, inputs`copier
      ensures Valid() && inputs[k].recordInfoIn.Some?
      ensures Prefix(k + 1, schemas + [inputs[k].recordInfoIn.value])
      ensures count == Width(schemas + [inputs[k].recordInfoIn.value])
      ensures forall j :: k < j < |inputs| ==> inputs[j].copier == old(inputs[j].copier)
    {
      var input := inputs[k];
      assert input in inputs && input.Valid();
      var s := input.recordInfoIn.value;
      recordInfoOut := Some(recordInfoOut.value + s);
      InitChildRecordCopierTwo(input, fieldCount);
      AddSchema(k, schemas, s);
      count := fieldCount + |s|;
      ghost var grown := schemas + [s];
      forall j | 0 <= j <= k ensures inputs[j].recordInfoIn == Some(grown[j]) {
      }
      forall j | 0 <= j <= k ensures inputs[j].copier == Shifted(Offset(grown, j), |grown[j]|) {
        if j < k {
          assert inputs[j] != inputs[k];
          assert inputs[j].copier == old(inputs[j].copier);
        }
      }
      assert Prefix(k + 1, grown);
    }

    /** Appending connection k's schema keeps the earlier offsets and gives k the offset of all of them. */
    lemma AddSchema(k: nat, schemas: seq<Schema>, s: Schema)
      requires |schemas| == k
      ensures Width(schemas + [s]) == Width(schemas) + |s|
      ensures Concat(schemas + [s]) == Concat(schemas) + s
      ensures forall j :: 0 <= j <= k ==> Offset(schemas + [s], j) == Offset(schemas, j)
      ensures Offset(schemas + [s], k) == Width(schemas)
    {
      assert (schemas + [s])[..k] == schemas;
      forall j | 0 <= j <= k ensures Offset(schemas + [s], j) == Offset(schemas, j) {
        OffsetAppend(schemas, s, j);
      }
    }

    /**
     * The copy loop of `ii_push_record`: a record from the creator with every
     * field null, then each connection holding a record copies it in.
     */
    method JoinLatest(ghost entries: seq<Cached>, ghost schemas: seq<Schema>) returns (out: Record)
      requires Snapshot(inputs, entries, schemas) && Aligned(entries, schemas)
      requires creator == Some(Width(schemas))
      ensures Applicable(entries, Width(schemas))
      ensures out == Joined(entries, Nulls(Width(schemas)))
    {
      AlignedRanged(entries, schemas);
      var width := creator.value;
      out := Nulls(width);
      var k := 0;
      while k < |inputs|
        invariant 0 <= k <= |inputs|
        invariant Applicable(entries[..k], width) && out == Joined(entries[..k], Nulls(width))
      {
        JoinedStep(entries, k, Nulls(width));
        var x := inputs[k];
        assert entries[k] == Cached(x.copier, x.inRecord);
        if x.inRecord.Some? {
          out := ApplyCopies(x.copier, out, x.inRecord.value);
        }
        k := k + 1;
      }
      assert entries[..k] == entries;
    }

    /** Laid out connections, with records as wide as their schemas, are aligned. */
    lemma AlignedNow(entries: seq<Cached>, schemas: seq<Schema>)
      requires Valid() && Joinable() && Snapshot(inputs, entries, schemas)
      ensures Aligned(entries, schemas) && creator == Some(Width(schemas))
    {
      assert schemas == layout;
      forall k | 0 <= k < |schemas| && entries[k].record.Some?
        ensures |entries[k].record.value| == |schemas[k]|
      {
        assert inputs[k] in inputs && inputs[k].Valid();
      }
    }

    /** The record `ii_push_record` builds: the latest cached record of every connection, each in its own slots. */
    method JoinCached() returns (out: Record, ghost entries: seq<Cached>, ghost schemas: seq<Schema>)
      requires Valid() && Joinable()
      ensures Snapshot(inputs, entries, schemas) && Aligned(entries, schemas) && Applicable(entries, Width(schemas))
      ensures out == Joined(entries, Nulls(Width(schemas)))
    {
      schemas := layout;
      entries := CachedOf(inputs);
      AlignedNow(entries, schemas);
      out := JoinLatest(entries, schemas);
    }

    /** `push_record` on the output anchor: the joined record goes downstream, the layout and the caches stay. */
    method Emit(out: Record, ghost entries: seq<Cached>, ghost schemas: seq<Schema>) returns (ok: bool)
      requires Valid() && Joinable() && Snapshot(inputs, entries, schemas)
      modifies anchor`records
      ensures Valid() && Joinable() && Snapshot(inputs, entries, schemas)
      ensures ok == anchor.accepting && anchor.records == old(anchor.records) + [out]
    {
      ok := anchor.Push(out);
    }

    /** Every connection other than `self` has its schema. */
    ghost predicate OthersInitialized(self: Input)
      reads this`inputs, inputs`initialized
    {
      forall x :: x in inputs && x != self ==> x.initialized
    }

    /** `close`: the output is closed. */
    method Close()
      modifies anchor`closed
      ensures anchor.closed
    {
      anchor.Close();
    }
  }

  class Input {
    const parent: Plugin
    const connType: string
    const name: string
    var closed: bool
    var initialized: bool
    var recordInfoIn: Option<Schema>
    /** `record_copier`; empty until `init_two` sets it up. */
    var copier: seq<Copy>
    /** `in_record`: the latest record this connection received. */
    var inRecord: Option<Record>

    ghost predicate Valid()
      reads this`initialized, this`recordInfoIn, this`inRecord
    {
      && (initialized <==> recordInfoIn.Some?)
      && (inRecord.Some? ==> recordInfoIn.Some? && |inRecord.value| == |recordInfoIn.value|)
    }

    constructor (parent: Plugin, connType: string, name: string)
      ensures Valid() && this.parent == parent && this.connType == connType && this.name == name
      ensures !closed && !initialized && recordInfoIn == None && copier == [] && inRecord == None
    {
      this.parent := parent;
      this.connType := connType;
      this.name := name;
      closed := false;
      initialized := false;
      recordInfoIn := None;
      copier := [];
      inRecord := None;
    }

    /**
     * `ii_init`: the schema is kept; when every connection has its schema,
     * the parent lays out the output.
     */
    method IiInit(recordInfo: Schema) returns (ok: bool)
      requires parent.Valid() && this in parent.inputs && !initialized
      modifies this`recordInfoIn, this`initialized, parent`inputs, parent`recordInfoOut, parent`creator, parent`layout,
               parent.inputs`copier, parent.anchor`schema, parent.anchor`sortInfo, parent.engine`log
      ensures ok && initialized && recordInfoIn == Some(recordInfo)
      ensures parent.Valid() && parent.Ready()
      ensures !old(parent.OthersInitialized(this)) ==>
                && parent.inputs == old(parent.inputs) && parent.recordInfoOut == old(parent.recordInfoOut)
                && parent.creator == old(parent.creator) && parent.anchor.schema == old(parent.anchor.schema)
                && parent.engine.log == old(parent.engine.log)
      ensures old(parent.OthersInitialized(this)) ==>
                parent.inputs == Reversed(old(parent.inputs)) && parent.Joinable() && parent.engine.log == old(parent.engine.log)
    {
      ghost var others := parent.OthersInitialized(this);
      recordInfoIn := Some(recordInfo);
      initialized := true;
      assert AllInitialized(parent.inputs) == others;
      if AllInitialized(parent.inputs) {
        ghost var before := parent.inputs;
        ghost var m, schemas := parent.InitTwo();
        ReversedMembers(before);
        assert AllInitialized(parent.inputs);
      }
      ok := true;
    }

    /**
     * `ii_push_record`: while some connection lacks its schema nothing
     * happens and the call returns False; otherwise the record is cached and
     * one joined record is pushed.
     */
    method IiPushRecord(rec: Record) returns (ok: bool, ghost entries: seq<Cached>, ghost schemas: seq<Schema>)
      requires parent.Valid() && parent.Ready() && this in parent.inputs
      requires recordInfoIn.Some? ==> |rec| == |recordInfoIn.value|
      modifies this`inRecord, parent.anchor`records
      ensures parent.Valid() && parent.Ready()
      ensures !old(AllInitialized(parent.inputs)) ==>
                !ok && inRecord == old(inRecord) && parent.anchor.records == old(parent.anchor.records)
      ensures old(AllInitialized(parent.inputs)) ==>
                && inRecord == Some(rec) && ok == parent.anchor.accepting
                && Snapshot(parent.inputs, entries, schemas) && Aligned(entries, schemas)
                && Applicable(entries, Width(schemas))
                && parent.anchor.records == old(parent.anchor.records) + [Joined(entries, Nulls(Width(schemas)))]
    {
      entries, schemas := [], [];
      if !AllInitialized(parent.inputs) {
        return false, entries, schemas;
      }
      assert parent.Joinable() && this in parent.inputs && Valid();
      Cache(rec);
      var out;
      out, entries, schemas := parent.JoinCached();
      ok := parent.Emit(out, entries, schemas);
    }

    /** The record is cached on its connection; the parent's invariant and layout stay. */
    method Cache(rec: Record)
      requires parent.Valid() && parent.Joinable() && this in parent.inputs
      requires recordInfoIn.Some? && |rec| == |recordInfoIn.value|
      modifies this`inRecord
      ensures inRecord == Some(rec) && parent.Valid() && parent.Joinable()
    {
      inRecord := Some(rec);
      assert parent.Joinable();
      forall x | x in parent.inputs ensures x.parent == parent && x.Valid() {
        if x != this {
          assert old(x.Valid());
        }
      }
    }

    /** `ii_close`: the connection is closed; the last one to close closes the output. */
    method IiClose()
      modifies this`closed, parent.anchor`closed
      ensures closed
      ensures AllClosed(parent.inputs) ==> parent.anchor.closed
      ensures !AllClosed(parent.inputs) ==> parent.anchor.closed == old(parent.anchor.closed)
    {
      closed := true;
      if AllClosed(parent.inputs) {
        parent.Close();
      }
    }
  }

  /** The copiers and latest records of the connections, in order. */
  ghost function CachedOf(xs: seq<Input>): (r: seq<Cached>)
    reads xs`copier, xs`inRecord
    ensures |r| == |xs|
    ensures forall k :: 0 <= k < |xs| ==> r[k] == Cached(xs[k].copier, xs[k].inRecord)
  {
    if xs == [] then [] else CachedOf(xs[..|xs| - 1]) + [Cached(xs[|xs| - 1].copier, xs[|xs| - 1].inRecord)]
  }
}
