// PyOptionalInputToolExample/PyOptionalInputToolExampleEngine.py: a record-ID
// tool. Without an input it generates EndValue records holding StartValue,
// StartValue + StepByValue, ...; with an input it appends a field holding the
// same sequence of IDs to every record.
module OptionalInput {
  import opened Host

  /** The FieldType setting: only Int16, Int32 and Int64 are recognised. */
  function OutputTypeFor(t: Option<string>): (r: Option<FieldType>)
    ensures r.Some? <==> t in {Some("Int16"), Some("Int32"), Some("Int64")}
    ensures t == Some("Int16") ==> r == Some(Int16)
    ensures t == Some("Int32") ==> r == Some(Int32)
    ensures t == Some("Int64") ==> r == Some(Int64)
  {
    if t == Some("Int16") then Some(Int16)
    else if t == Some("Int32") then Some(Int32)
    else if t == Some("Int64") then Some(Int64)
    else None
  }

  /** The element is present and `int()` reads its text. */
  predicate ReadsInt(n: XmlNode) {
    n.Node? && PyInt(n.text).Some?
  }

  /** The integer `int()` reads from the element's text. */
  function IntOf(n: XmlNode): int
    requires ReadsInt(n)
  {
    PyInt(n.text).value
  }

  /**
   * The first setting pi_init fails on is a missing element (reported) rather
   * than text `int()` cannot read (not reported); false when nothing fails.
   */
  predicate MissingFirst(fieldName: XmlNode, endValue: XmlNode, stepByValue: XmlNode, start: XmlNode, fieldType: XmlNode) {
    || fieldName == Missing
    || endValue == Missing
    || (ReadsInt(endValue) && (stepByValue == Missing || (ReadsInt(stepByValue) && (start == Missing || (ReadsInt(start) && fieldType == Missing)))))
  }

  /** The one-field record carrying the ID `value`. */
  function IdRecord(value: int): Record
  {
    [Some(IntV(value))]
  }

  /**
   * The records pi_push_all_records generates: `count` of them (none when
   * count <= 0), the i-th holding first + i * step.
   */
  function IdRecords(first: int, step: int, count: int): (r: seq<Record>)
    ensures |r| == if count <= 0 then 0 else count
    decreases if count <= 0 then 0 else count
  {
    if count <= 0 then [] else IdRecords(first, step, count - 1) + [IdRecord(first + (count - 1) * step)]
  }

  /** IdRecords holds exactly the arithmetic sequence first, first + step, ... */
  lemma {:induction false} IdRecordsAt(first: int, step: int, count: int, i: nat)
    requires i < count
    ensures IdRecords(first, step, count)[i] == IdRecord(first + i * step)
    decreases count
  {
    if i < count - 1 {
      IdRecordsAt(first, step, count - 1, i);
    }
  }

  /** The counter after `count` records were numbered: one step before `start` at first, one step further per record. */
  function LastId(start: int, step: int, count: nat): int
  {
    if count == 0 then start - step else LastId(start, step, count - 1) + step
  }

  /** The k-th record numbered carries start + (k - 1) * step. */
  lemma {:induction false} LastIdClosed(start: int, step: int, count: nat)
    ensures LastId(start, step, count) == start + (count - 1) * step
  {
    if count > 0 {
      LastIdClosed(start, step, count - 1);
      assert (count - 1) * step == (count - 2) * step + step;
    }
  }

  /**
   * The output schema, copier and ID position ii_init derives from the input
   * schema: the ID goes to the first output field carrying its name.
   */
  ghost predicate LaidOut(inS: Schema, outS: Schema, id: string, t: FieldType, cs: seq<Copy>, field: nat)
  {
    && outS == inS + [Field(id, t, 0, 0)]
    && cs == Identity(|inS|)
    && field < |outS| && outS[field].name == id
    && (forall k :: 0 <= k < field ==> outS[k].name != id)
  }

  class Plugin {
    const engine: Engine
    const anchor: OutputAnchor
    var initialized: bool
    var strRecordId: string
    var totalRecordCount: int
    var recordInc: int
    var nRecordCount: int
    var outputType: Option<FieldType>
    var previousIncValue: int
    var recordInfoIn: Option<Schema>
    var recordInfoOut: Option<Schema>
    var copier: seq<Copy>
    var outputField: nat
    /** The StartValue setting. */
    ghost var startValue: int
    /** How many records ii_push_record has numbered. */
    ghost var numbered: nat

    ghost predicate Valid()
      reads this
    {
      Counting() && Laid()
    }

    /** The counter has moved one step per record numbered. */
    ghost predicate Counting()
      reads this`nRecordCount, this`startValue, this`numbered, this`recordInc
    {
      nRecordCount == LastId(startValue, recordInc, numbered)
    }

    /** After ii_init: the output schema is the input's with the ID field appended. */
    ghost predicate Laid()
      reads this`initialized, this`recordInfoIn, this`recordInfoOut, this`outputType, this`strRecordId,
            this`copier, this`outputField
    {
      initialized ==>
        && recordInfoIn.Some? && recordInfoOut.Some? && outputType.Some?
        && LaidOut(recordInfoIn.value, recordInfoOut.value, strRecordId, outputType.value, copier, outputField)
    }

    constructor (engine: Engine, anchor: OutputAnchor)
      ensures Valid() && !initialized && numbered == 0 && outputType == None
      ensures this.engine == engine && this.anchor == anchor
    {
      this.engine := engine;
      this.anchor := anchor;
      initialized := false;
      strRecordId := "";
      totalRecordCount := 0;
      recordInc := 0;
      nRecordCount := 0;
      outputType := None;
      previousIncValue := 0;
      recordInfoIn := None;
      recordInfoOut := None;
      copier := [];
      outputField := 0;
      startValue := 0;
      numbered := 0;
    }

    /**
     * `pi_init`: the settings are read in the order FieldName, EndValue,
     * StepByValue, StartValue, FieldType, the three numbers through `int()`;
     * the settings read before a failure are kept. A missing element is
     * reported with the raw XML and re-raised; text `int()` cannot read
     * raises with nothing reported. The counter starts one step before
     * StartValue; the output type is set only for the three integer type
     * names, and an empty FieldName is taken as the empty name.
     */
    method PiInit(fieldName: XmlNode, endValue: XmlNode, stepByValue: XmlNode, start: XmlNode,
                  fieldType: XmlNode, rawXml: string) returns (r: Outcome<()>)
      requires Valid() && numbered == 0 && !initialized
      modifies this`strRecordId, this`totalRecordCount, this`recordInc, this`nRecordCount, this`startValue,
               this`outputType, engine`log
      ensures Valid() && numbered == 0 && !initialized
      ensures !(fieldName.Node? && ReadsInt(endValue) && ReadsInt(stepByValue) && ReadsInt(start) && fieldType.Node?) ==>
                r == Raised && outputType == old(outputType)
      ensures engine.log == if MissingFirst(fieldName, endValue, stepByValue, start, fieldType)
                            then old(engine.log) + [Message(Error, "pi_init: Invalid XML: " + rawXml)]
                            else old(engine.log)
      ensures strRecordId == if fieldName == Missing then old(strRecordId)
                             else if fieldName.text.Some? then fieldName.text.value else ""
      ensures totalRecordCount == if fieldName.Node? && ReadsInt(endValue) then IntOf(endValue) else old(totalRecordCount)
      ensures recordInc == if fieldName.Node? && ReadsInt(endValue) && ReadsInt(stepByValue) then IntOf(stepByValue)
                           else old(recordInc)
      ensures nRecordCount == if fieldName.Node? && ReadsInt(endValue) && ReadsInt(stepByValue) && ReadsInt(start)
                              then IntOf(start) - IntOf(stepByValue) else old(nRecordCount)
      ensures fieldName.Node? && ReadsInt(endValue) && ReadsInt(stepByValue) && ReadsInt(start) && fieldType.Node? ==>
                && r == Returned(()) && startValue == IntOf(start)
                && outputType == if OutputTypeFor(fieldType.text).Some? then OutputTypeFor(fieldType.text) else old(outputType)
    {
      if fieldName == Missing {
        engine.OutputMessage(Error, "pi_init: Invalid XML: " + rawXml);
        return Raised;
      }
      strRecordId := if fieldName.text.Some? then fieldName.text.value else "";
      var counted := ReadCounts(endValue, stepByValue, start, rawXml);
      if counted == Raised {
        return Raised;
      }
      if fieldType == Missing {
        engine.OutputMessage(Error, "pi_init: Invalid XML: " + rawXml);
        return Raised;
      }
      var t := OutputTypeFor(fieldType.text);
      if t.Some? {
        outputType := t;
      }
      r := Returned(());
    }

    /**
     * The EndValue, StepByValue and StartValue part of pi_init: each number is
     * stored as soon as it is read, and the first one that fails raises.
     */
    method ReadCounts(endValue: XmlNode, stepByValue: XmlNode, start: XmlNode, rawXml: string) returns (r: Outcome<()>)
      requires Counting() && numbered == 0
      modifies this`totalRecordCount, this`recordInc, this`nRecordCount, this`startValue, engine`log
      ensures Counting()
      ensures r.Returned? <==> ReadsInt(endValue) && ReadsInt(stepByValue) && ReadsInt(start)
      ensures engine.log == if endValue == Missing || (ReadsInt(endValue) && (stepByValue == Missing || (ReadsInt(stepByValue) && start == Missing)))
                            then old(engine.log) + [Message(Error, "pi_init: Invalid XML: " + rawXml)]
                            else old(engine.log)
      ensures totalRecordCount == if ReadsInt(endValue) then IntOf(endValue) else old(totalRecordCount)
      ensures recordInc == if ReadsInt(endValue) && ReadsInt(stepByValue) then IntOf(stepByValue) else old(recordInc)
      ensures nRecordCount == if r.Returned? then IntOf(start) - IntOf(stepByValue) else old(nRecordCount)
      ensures r.Returned? ==> startValue == IntOf(start)
    {
      var total := ReadInt(endValue, rawXml);
      if total == Raised {
        return Raised;
      }
      totalRecordCount := total.value;
      r := ReadStep(stepByValue, start, rawXml);
    }

    /** The StepByValue and StartValue part of ReadCounts. */
    method ReadStep(stepByValue: XmlNode, start: XmlNode, rawXml: string) returns (r: Outcome<()>)
      requires Counting() && numbered == 0
      modifies this`recordInc, this`nRecordCount, this`startValue, engine`log
      ensures Counting()
      ensures r.Returned? <==> ReadsInt(stepByValue) && ReadsInt(start)
      ensures engine.log == if stepByValue == Missing || (ReadsInt(stepByValue) && start == Missing)
                            then old(engine.log) + [Message(Error, "pi_init: Invalid XML: " + rawXml)]
                            else old(engine.log)
      ensures recordInc == if ReadsInt(stepByValue) then IntOf(stepByValue) else old(recordInc)
      ensures nRecordCount == if r.Returned? then IntOf(start) - IntOf(stepByValue) else old(nRecordCount)
      ensures r.Returned? ==> startValue == IntOf(start)
    {
      var step := ReadInt(stepByValue, rawXml);
      if step == Raised {
        return Raised;
      }
      recordInc := step.value;
      startValue := nRecordCount + recordInc;
      var first := ReadInt(start, rawXml);
      if first == Raised {
        return Raised;
      }
      nRecordCount := first.value - recordInc;
      startValue := first.value;
      r := Returned(());
    }

    /**
     * `int(root.find(tag).text)` inside pi_init's handler: a missing element
     * is an AttributeError, which is reported before it is re-raised; text
     * `int()` cannot read raises past the handler with nothing reported.
     */
    method ReadInt(n: XmlNode, rawXml: string) returns (r: Outcome<int>)
      modifies engine`log
      ensures r.Returned? <==> ReadsInt(n)
      ensures ReadsInt(n) ==> r.value == IntOf(n)
      ensures engine.log == if n == Missing then old(engine.log) + [Message(Error, "pi_init: Invalid XML: " + rawXml)]
                            else old(engine.log)
    {
      if n == Missing {
        engine.OutputMessage(Error, "pi_init: Invalid XML: " + rawXml);
        return Raised;
      }
      var v := PyInt(n.text);
      if v == None {
        return Raised;
      }
      r := Returned(v.value);
    }

    /**
     * `pi_push_all_records`: announces the one ID field and pushes EndValue
     * records (a count, not a bound), the i-th holding the next ID after i
     * steps. A missing output type cannot make a field, which raises.
     */
    method PiPushAllRecords() returns (r: Outcome<bool>)
      requires Valid() && !initialized
      modifies this`previousIncValue, this`recordInfoOut, anchor`schema, anchor`sortInfo, anchor`records
      ensures Valid() && !initialized
      ensures outputType == None ==> r == Raised && anchor.records == old(anchor.records)
      ensures outputType.Some? ==>
                && r == Returned(true)
                && anchor.schema == Some([Field(strRecordId, outputType.value, 0, 0)])
                && anchor.records == old(anchor.records) + IdRecords(nRecordCount + recordInc, recordInc, totalRecordCount)
    {
      if outputType == None {
        return Raised;
      }
      var out := [Field(strRecordId, outputType.value, 0, 0)];
      recordInfoOut := Some(out);
      anchor.Init(out, "");
      previousIncValue := nRecordCount;
      var i := 0;
      while i < totalRecordCount
        invariant 0 <= i && (totalRecordCount > 0 ==> i <= totalRecordCount) && (totalRecordCount <= 0 ==> i == 0)
        invariant previousIncValue == nRecordCount + i * recordInc
        invariant anchor.schema == Some(out)
        invariant anchor.records == old(anchor.records) + IdRecords(nRecordCount + recordInc, recordInc, i)
      {
        var loopValue := previousIncValue + recordInc;
        assert loopValue == nRecordCount + recordInc + i * recordInc;
        var _ := anchor.Push(IdRecord(loopValue));
        assert (i + 1) * recordInc == i * recordInc + recordInc;
        previousIncValue := loopValue;
        i := i + 1;
      }
      r := Returned(true);
    }

    /** What ii_init computes from the input schema: the output schema, the copier and the ID field's index. */
    method LayOutFor(recordInfo: Schema) returns (out: Schema, cs: seq<Copy>, field: nat)
      requires outputType.Some?
      ensures LaidOut(recordInfo, out, strRecordId, outputType.value, cs, field)
      ensures strRecordId !in Names(recordInfo) ==> field == |recordInfo|
    {
      out := recordInfo + [Field(strRecordId, outputType.value, 0, 0)];
      NamesAppend(recordInfo, Field(strRecordId, outputType.value, 0, 0));
      cs := AddIdentity(|recordInfo|);
      field := FieldNum(Names(out), strRecordId);
      if strRecordId !in Names(recordInfo) {
        FieldNumAppended(Names(recordInfo), strRecordId);
      }
    }

    /**
     * `ii_init`: the output schema is a clone of the input schema with the ID
     * field appended; input fields are copied to the same index, and the ID
     * goes to the first output field carrying its name.
     */
    method IiInit(recordInfo: Schema) returns (r: Outcome<bool>)
      requires Valid()
      modifies this`recordInfoIn, this`recordInfoOut, this`copier, this`outputField, this`initialized,
               anchor`schema, anchor`sortInfo
      ensures Valid() && recordInfoIn == Some(recordInfo)
      ensures outputType == None ==> r == Raised && initialized == old(initialized) && anchor.schema == old(anchor.schema)
      ensures outputType.Some? ==>
                && r == Returned(true) && initialized
                && anchor.schema == Some(recordInfo + [Field(strRecordId, outputType.value, 0, 0)])
                && copier == Identity(|recordInfo|)
                && (strRecordId !in Names(recordInfo) ==> outputField == |recordInfo|)
    {
      recordInfoIn := Some(recordInfo);
      if outputType == None {
        return Raised;
      }
      var out, cs, field := LayOutFor(recordInfo);
      anchor.Init(out, "");
      recordInfoOut := Some(out);
      copier := cs;
      outputField := field;
      initialized := true;
      r := Returned(true);
    }

    /**
     * `ii_push_record`: refused before ii_init. Otherwise the counter moves on
     * one step, so the k-th record numbered carries StartValue + (k-1) * step;
     * the record is the input record with that ID written into the ID field,
     * and the call fails only when downstream refuses it.
     */
    method IiPushRecord(inRecord: Record) returns (ok: bool)
      requires Valid()
      requires initialized ==> |inRecord| == |recordInfoIn.value|
      modifies this`nRecordCount, this`numbered, anchor`records
      ensures Valid()
      ensures !old(initialized) ==> !ok && anchor.records == old(anchor.records) && numbered == old(numbered)
      ensures old(initialized) ==>
                && numbered == old(numbered) + 1
                && nRecordCount == startValue + (numbered - 1) * recordInc
                && anchor.records == old(anchor.records) + [(inRecord + [None])[outputField := Some(IntV(nRecordCount))]]
                && ok == anchor.accepting
      ensures old(initialized) && outputField == |inRecord| ==>
                anchor.records == old(anchor.records) + [inRecord + [Some(IntV(nRecordCount))]]
    {
      if !initialized {
        return false;
      }
      nRecordCount := nRecordCount + recordInc;
      numbered := numbered + 1;
      LastIdClosed(startValue, recordInc, numbered);
      var width := |recordInfoOut.value|;
      var creator := ApplyCopies(copier, Nulls(width), inRecord);
      IdentityCopy(Nulls(width), inRecord);
      assert Nulls(width)[|inRecord|..] == [None];
      creator := creator[outputField := Some(IntV(nRecordCount))];
      assert outputField == |inRecord| ==> creator == inRecord + [Some(IntV(nRecordCount))];
      ok := anchor.Push(creator);
    }

    /** `ii_close`: the output anchor is closed. */
    method IiClose()
      modifies anchor`closed
      ensures anchor.closed
    {
      anchor.Close();
    }
  }
}
