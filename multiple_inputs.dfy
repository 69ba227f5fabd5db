// PyMultipleInputsToolExample/PyMultipleInputsToolExampleEngine.py: a tool
// with a Left and a Right input. The left input is read first (its records are
// ignored); every record of the right input then yields one all-Bool record
// that says, field by field, whether the two inputs' fields have the same
// type, size and scale, and finally whether the two schemas hash alike.
module MultipleInputs {
  import opened Host

  /** `Field.equal_type`: same type, size and scale. */
  predicate EqualType(a: Field, b: Field)
  {
    a.ftype == b.ftype && a.size == b.size && a.scale == b.scale
  }

  /** Field comparison ignores names and is symmetric. */
  lemma EqualTypeSymmetric(a: Field, b: Field, name: string)
    ensures EqualType(a, b) <==> EqualType(b, a)
    ensures EqualType(a, b) <==> EqualType(a.(name := name), b)
  {
  }

  /** `change_to_bool`: every field becomes a one-byte Bool; names and scales stay. */
  function ChangeToBool(s: Schema): (r: Schema)
    ensures |r| == |s|
    ensures forall i :: 0 <= i < |s| ==> r[i].ftype == Bool && r[i].size == 1
    ensures forall i :: 0 <= i < |s| ==> r[i].name == s[i].name && r[i].scale == s[i].scale
  {
    seq(|s|, i requires 0 <= i < |s| => s[i].(ftype := Bool, size := 1))
  }

  /** Converting twice is converting once, and conversion keeps the names. */
  lemma ChangeToBoolIdempotent(s: Schema)
    ensures ChangeToBool(ChangeToBool(s)) == ChangeToBool(s)
    ensures Names(ChangeToBool(s)) == Names(s)
  {
    var c := ChangeToBool(s);
    assert forall i :: 0 <= i < |s| ==> ChangeToBool(c)[i] == c[i];
  }

  /** The field appended after both inputs' fields. */
  const Compatible: Field := Field("IsBinaryCompatible", Bool, 1, 0)

  /** The output RecordInfo ii_init builds: left fields, right fields, IsBinaryCompatible, all as Bool. */
  function OutputSchema(left: Schema, right: Schema): (r: Schema)
    ensures |r| == |left| + |right| + 1
    ensures forall i :: 0 <= i < |r| ==> r[i].ftype == Bool && r[i].size == 1
  {
    ChangeToBool(left + right + [Compatible])
  }

  /** The output layout: |left| + |right| + 1 Bool fields, named left, then right, then IsBinaryCompatible. */
  lemma OutputSchemaLayout(left: Schema, right: Schema)
    ensures |OutputSchema(left, right)| == |left| + |right| + 1
    ensures Names(OutputSchema(left, right)) == Names(left) + Names(right) + ["IsBinaryCompatible"]
    ensures forall i :: 0 <= i < |OutputSchema(left, right)| ==>
              OutputSchema(left, right)[i].ftype == Bool && OutputSchema(left, right)[i].size == 1
  {
    var all := left + right + [Compatible];
    ChangeToBoolIdempotent(all);
    NamesConcat(left, right);
    NamesConcat(left + right, [Compatible]);
  }

  /**
   * The record pushed for every right-input record: slot i and slot i + n
   * both say whether right field i has the type of left field i, and slot 2n
   * says whether the schemas are compatible.
   */
  function Comparison(left: Schema, right: Schema, compatible: bool): (r: Record)
    requires |left| == |right|
    ensures |r| == 2 * |right| + 1
  {
    var n := |right|;
    seq(2 * n + 1, k requires 0 <= k < 2 * n + 1 =>
      Some(BoolV(if k < n then EqualType(right[k], left[k])
                 else if k < 2 * n then EqualType(right[k - n], left[k - n])
                 else compatible)))
  }

  /** Every slot is a non-null Bool, the two halves agree, and the last slot is the compatibility flag. */
  lemma ComparisonSlots(left: Schema, right: Schema, compatible: bool)
    requires |left| == |right|
    ensures var r := Comparison(left, right, compatible);
            && r[..|right|] == r[|right|..2 * |right|]
            && r[2 * |right|] == Some(BoolV(compatible))
            && forall k :: 0 <= k < |r| ==> r[k].Some? && r[k].value.BoolV?
  {
  }

  /** The record is all true exactly when every field pair has equal types and the schemas are compatible. */
  lemma ComparisonAllTrue(left: Schema, right: Schema, compatible: bool)
    requires |left| == |right|
    ensures (forall k :: 0 <= k < |Comparison(left, right, compatible)| ==>
               Comparison(left, right, compatible)[k] == Some(BoolV(true)))
            <==> compatible && forall i :: 0 <= i < |right| ==> EqualType(right[i], left[i])
  {
    var r := Comparison(left, right, compatible);
    var n := |right|;
    if forall k :: 0 <= k < |r| ==> r[k] == Some(BoolV(true)) {
      assert r[2 * n] == Some(BoolV(compatible));
      forall i | 0 <= i < n ensures EqualType(right[i], left[i]) {
        assert r[i] == Some(BoolV(EqualType(right[i], left[i])));
      }
    }
  }

  class Plugin {
    const engine: Engine
    const anchor: OutputAnchor
    /** `RecordInfo.get_hash`: the host's hash of a schema. */
    const hashOf: Schema -> int
    var isLeft: bool
    var hashLeft: Option<int>
    var hashRight: Option<int>
    var fieldsLeft: Schema
    var fieldsRight: Schema
    /** The schema `xml_out` describes: the left input's, then the output's once the right one arrives. */
    var xmlOut: Option<Schema>
    var recordInfoOut: Option<Schema>

    /** A recorded hash is the hash of the fields recorded with it. */
    predicate Hashed()
      reads this
    {
      && (hashLeft.Some? ==> hashLeft.value == hashOf(fieldsLeft))
      && (hashRight.Some? ==> hashRight.value == hashOf(fieldsRight))
    }

    ghost predicate Valid()
      reads this, anchor
    {
      && Hashed()
      && (xmlOut == None ==> fieldsLeft == [])
      && (xmlOut.Some? && recordInfoOut == None ==> xmlOut.value == fieldsLeft)
      && (recordInfoOut.Some? ==>
            && xmlOut == recordInfoOut && !isLeft && |fieldsLeft| == |fieldsRight|
            && recordInfoOut.value == OutputSchema(fieldsLeft, fieldsRight))
      && anchor.schema == recordInfoOut
    }

    constructor (engine: Engine, anchor: OutputAnchor, hashOf: Schema -> int)
      requires anchor.schema == None
      ensures Valid() && isLeft && fieldsLeft == [] && fieldsRight == [] && recordInfoOut == None
      ensures hashLeft == None && hashRight == None
      ensures this.engine == engine && this.anchor == anchor && this.hashOf == hashOf
    {
      this.engine := engine;
      this.anchor := anchor;
      this.hashOf := hashOf;
      isLeft := true;
      hashLeft := None;
      hashRight := None;
      fieldsLeft := [];
      fieldsRight := [];
      xmlOut := None;
      recordInfoOut := None;
    }

    /**
     * `is_compatible`: the two schemas' hashes agree. Two inputs with the same
     * fields are compatible; an input whose hash is known is never compatible
     * with one whose hash is not, and before either is known they agree.
     */
    function IsCompatible(): (r: bool)
      reads this
      requires Hashed()
      ensures hashLeft.Some? && hashRight.Some? && fieldsLeft == fieldsRight ==> r
      ensures hashLeft.Some? != hashRight.Some? ==> !r
      ensures hashLeft == None && hashRight == None ==> r
    {
      hashLeft == hashRight
    }

    /**
     * `is_equal(index)`: right field `index` could stand in for left field
     * `index`: given the left field's name, it would be that field.
     */
    function IsEqual(index: nat): (r: bool)
      reads this
      requires index < |fieldsRight| && index < |fieldsLeft|
      ensures r <==> fieldsRight[index].(name := fieldsLeft[index].name) == fieldsLeft[index]
    {
      EqualType(fieldsRight[index], fieldsLeft[index])
    }

    /**
     * `validate_inputs`: a field-count mismatch is reported, and the call then
     * raises, because what it raises is the report's None result.
     */
    method ValidateInputs(leftCount: nat, rightCount: nat) returns (r: Outcome<()>)
      modifies engine`log
      ensures r == Raised <==> leftCount != rightCount
      ensures leftCount != rightCount ==>
                engine.log == old(engine.log) + [Message(Error, "Both inputs must have the same number of fields.")]
      ensures leftCount == rightCount ==> engine.log == old(engine.log)
    {
      if leftCount != rightCount {
        engine.OutputMessage(Error, "Both inputs must have the same number of fields.");
        return Raised;
      }
      r := Returned(());
    }

    /** `pi_push_all_records`: this tool needs its inputs, so it reports an error and fails. */
    method PiPushAllRecords() returns (ok: bool)
      modifies engine`log
      ensures !ok
      ensures engine.log == old(engine.log) + [Message(Error, "Misssing Incoming Connection")]
    {
      engine.OutputMessage(Error, "Misssing Incoming Connection");
      ok := false;
    }

    /**
     * `ii_init`: for the left input the hash and fields are recorded; for the
     * right input too, and then, when both have the same number of fields,
     * the output anchor is initialised with the comparison schema. A count
     * mismatch is reported and raises; so does a right input whose left
     * input never initialised. The host initialises each input once.
     */
    method IiInit(recordInfo: Schema) returns (r: Outcome<bool>)
      requires Valid()
      requires isLeft ==> fieldsLeft == []
      requires !isLeft ==> fieldsRight == [] && recordInfoOut == None
      modifies this`hashLeft, this`hashRight, this`fieldsLeft, this`fieldsRight, this`xmlOut, this`recordInfoOut,
               engine`log, anchor`schema, anchor`sortInfo
      ensures Valid()
      ensures isLeft ==>
                && r == Returned(true) && hashLeft == Some(hashOf(recordInfo)) && fieldsLeft == recordInfo
                && recordInfoOut == None && engine.log == old(engine.log)
      ensures !isLeft ==> hashRight == Some(hashOf(recordInfo)) && fieldsRight == recordInfo
      ensures !isLeft && |fieldsLeft| != |recordInfo| ==>
                && r == Raised && recordInfoOut == None
                && engine.log == old(engine.log) + [Message(Error, "Both inputs must have the same number of fields.")]
      ensures !isLeft && |fieldsLeft| == |recordInfo| && old(xmlOut) == None ==>
                r == Raised && recordInfoOut == None && engine.log == old(engine.log)
      ensures !isLeft && |fieldsLeft| == |recordInfo| && old(xmlOut).Some? ==>
                && r == Returned(true) && engine.log == old(engine.log)
                && recordInfoOut == Some(OutputSchema(fieldsLeft, recordInfo))
                && anchor.schema == recordInfoOut
    {
      var hash := hashOf(recordInfo);
      if isLeft {
        hashLeft := Some(hash);
        var field := 0;
        while field < |recordInfo|
          invariant 0 <= field <= |recordInfo|
          invariant fieldsLeft == recordInfo[..field]
          invariant hashLeft == Some(hash) && hashRight == old(hashRight) && fieldsRight == old(fieldsRight) && recordInfoOut == old(recordInfoOut) && anchor.schema == old(anchor.schema)
          invariant engine.log == old(engine.log)
        {
          fieldsLeft := fieldsLeft + [recordInfo[field]];
          field := field + 1;
        }
        assert recordInfo[..field] == recordInfo;
        xmlOut := Some(recordInfo);
        return Returned(true);
      }
      hashRight := Some(hash);
      var field := 0;
      while field < |recordInfo|
        invariant 0 <= field <= |recordInfo|
        invariant fieldsRight == recordInfo[..field]
        invariant engine.log == old(engine.log) && anchor.schema == recordInfoOut && recordInfoOut == None
        invariant hashRight == Some(hash) && hashLeft == old(hashLeft) && xmlOut == old(xmlOut) && fieldsLeft == old(fieldsLeft)
      {
        fieldsRight := fieldsRight + [recordInfo[field]];
        field := field + 1;
      }
      assert recordInfo[..field] == recordInfo;
      var valid := ValidateInputs(|fieldsLeft|, |fieldsRight|);
      if valid == Raised {
        return Raised;
      }
      if xmlOut == None {
        return Raised;
      }
      var out := OutputSchema(xmlOut.value, recordInfo);
      xmlOut := Some(out);
      recordInfoOut := Some(out);
      anchor.Init(out, "");
      r := Returned(true);
    }

    /**
     * `ii_push_record`: a left record is refused and nothing is pushed. A
     * right record, whatever it holds, yields one comparison record, and the
     * call still answers False.
     */
    method IiPushRecord(inRecord: Record) returns (r: Outcome<bool>)
      requires Valid()
      modifies anchor`records
      ensures isLeft ==> r == Returned(false) && anchor.records == old(anchor.records)
      ensures !isLeft && recordInfoOut == None ==> r == Raised && anchor.records == old(anchor.records)
      ensures !isLeft && recordInfoOut.Some? ==>
                && r == Returned(false)
                && anchor.records == old(anchor.records) + [Comparison(fieldsLeft, fieldsRight, IsCompatible())]
                && |anchor.records[|anchor.records| - 1]| == |recordInfoOut.value|
    {
      if isLeft {
        return Returned(false);
      }
      if recordInfoOut == None {
        return Raised;
      }
      OutputSchemaLayout(fieldsLeft, fieldsRight);
      var rec := BuildComparison();
      var _ := anchor.Push(rec);
      r := Returned(false);
    }

    /**
     * The record ii_push_record builds in a fresh RecordCreator: for each
     * field index the equality flag goes to the slot of the left and of the
     * right field, then the compatibility flag goes last.
     */
    method BuildComparison() returns (rec: Record)
      requires |fieldsLeft| == |fieldsRight| && Hashed()
      ensures rec == Comparison(fieldsLeft, fieldsRight, IsCompatible())
    {
      var n := |fieldsRight|;
      ghost var spec := Comparison(fieldsLeft, fieldsRight, IsCompatible());
      rec := Nulls(2 * n + 1);
      var field := 0;
      while field < n
        invariant 0 <= field <= n
        invariant |rec| == 2 * n + 1
        invariant forall k :: 0 <= k < |rec| ==>
                    rec[k] == if k < field || n <= k < n + field then spec[k] else None
      {
        rec := rec[field := Some(BoolV(IsEqual(field)))];
        rec := rec[field + n := Some(BoolV(IsEqual(field)))];
        field := field + 1;
      }
      rec := rec[n + |fieldsLeft| := Some(BoolV(IsCompatible()))];
      assert rec == spec;
    }

    /** `ii_close`: the first close ends the left phase; any later one closes the output. */
    method IiClose()
      modifies this`isLeft, anchor`closed
      ensures old(isLeft) ==> !isLeft && anchor.closed == old(anchor.closed)
      ensures !old(isLeft) ==> !isLeft && anchor.closed
    {
      if isLeft {
        isLeft := !isLeft;
      } else {
        anchor.Close();
      }
    }
  }
}
