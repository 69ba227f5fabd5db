// PySingleInputOutputToolExample/PySelectTopNEngine.py: a top-N filter that
// keeps accepting records after the limit and only stops forwarding them.
module SelectTopN {
  import opened Host

  function Min(a: int, b: int): int { if a < b then a else b }

  /** The records a top-n filter forwards: the first n received, none when n <= 0. */
  function TopN(received: seq<Record>, n: int): (r: seq<Record>)
    ensures |r| == if n <= 0 then 0 else Min(n, |received|)
    ensures r <= received
  {
    if n <= 0 then [] else received[..Min(n, |received|)]
  }

  /** One more record is forwarded exactly when fewer than n came before it. */
  lemma TopNStep(received: seq<Record>, r: Record, n: int)
    ensures TopN(received + [r], n) ==
            if |received| + 1 <= n then TopN(received, n) + [r] else TopN(received, n)
  {
    if |received| + 1 <= n {
      assert (received + [r])[..|received| + 1] == received[..|received|] + [r];
    } else if n > 0 {
      assert (received + [r])[..n] == received[..n];
    }
  }

  /**
   * What the filter has forwarded once `received` were counted, with the
   * NRecords setting's text: the first int(setting) of them. When `int()`
   * cannot read the setting the first push raises before forwarding, so
   * nothing is forwarded.
   */
  function Forwarded(received: seq<Record>, setting: Option<string>): (r: seq<Record>)
    ensures r <= received
    ensures PyInt(setting) == None ==> r == []
  {
    match PyInt(setting)
    case Some(n) => TopN(received, n)
    case None => []
  }

  /** Forwarded grows by the new record exactly when the limit reads and the count is within it. */
  lemma ForwardedStep(received: seq<Record>, r: Record, setting: Option<string>)
    ensures Forwarded(received + [r], setting) ==
            if PyInt(setting).Some? && |received| + 1 <= PyInt(setting).value
            then Forwarded(received, setting) + [r] else Forwarded(received, setting)
  {
    if PyInt(setting).Some? {
      TopNStep(received, r, PyInt(setting).value);
    }
  }

  class Plugin {
    const engine: Engine
    const anchor: OutputAnchor
    var initialized: bool
    /** The NRecords element's text, None before pi_init or for an empty element. */
    var nRecordSelect: Option<string>
    var recordCnt: int
    var recordInfoIn: Option<Schema>
    var copier: seq<Copy>
    /** Every record accepted by IiPushRecord, in arrival order. */
    ghost var received: seq<Record>

    ghost predicate Valid()
      reads this, anchor
    {
      && recordCnt == |received|
      && (initialized ==> recordInfoIn.Some? && copier == Identity(|recordInfoIn.value|))
      && (!initialized ==> received == [])
      && anchor.records == Forwarded(received, nRecordSelect)
    }

    constructor (engine: Engine, anchor: OutputAnchor)
      requires anchor.records == []
      ensures Valid() && !initialized && received == []
      ensures this.engine == engine && this.anchor == anchor
    {
      this.engine := engine;
      this.anchor := anchor;
      initialized := false;
      nRecordSelect := None;
      recordCnt := 0;
      recordInfoIn := None;
      copier := [];
      received := [];
    }

    /**
     * `pi_init`: keeps the NRecords element's text as the limit, unparsed. A
     * missing element raises (an AttributeError, with nothing logged) and
     * changes nothing.
     */
    method PiInit(nRecords: XmlNode) returns (r: Outcome<()>)
      requires Valid() && received == []
      modifies this`nRecordSelect
      ensures Valid()
      ensures nRecords == Missing ==> r == Raised && nRecordSelect == old(nRecordSelect)
      ensures nRecords.Node? ==> r == Returned(()) && nRecordSelect == nRecords.text
    {
      if nRecords == Missing {
        return Raised;
      }
      nRecordSelect := nRecords.text;
      r := Returned(());
    }

    /** `pi_push_all_records`: this tool needs an input, so it reports an error and fails. */
    method PiPushAllRecords() returns (ok: bool)
      modifies engine`log
      ensures !ok
      ensures engine.log == old(engine.log) + [Message(Error, "pi_push_all_records: Missing Incoming Connection")]
    {
      engine.OutputMessage(Error, "pi_push_all_records: Missing Incoming Connection");
      ok := false;
    }

    /** `ii_init`: the output schema is the input schema and the copier maps every field to itself. */
    method IiInit(recordInfo: Schema) returns (ok: bool)
      requires Valid()
      modifies this`recordInfoIn, this`copier, this`initialized, anchor`schema, anchor`sortInfo
      ensures Valid() && ok && initialized
      ensures anchor.schema == Some(recordInfo)
      ensures recordInfoIn == Some(recordInfo) && copier == Identity(|recordInfo|)
    {
      recordInfoIn := Some(recordInfo);
      anchor.Init(recordInfo, "");
      var cs := AddIdentity(|recordInfo|);
      copier := cs;
      initialized := true;
      ok := true;
    }

    /**
     * `ii_push_record`: before ii_init the record is refused. Afterwards it is
     * counted and the limit is read with `int()`, which raises when the
     * setting holds no integer; otherwise the record is forwarded while the
     * count is within the limit, and the call fails only when a forwarded
     * record is refused downstream.
     */
    method IiPushRecord(inRecord: Record) returns (r: Outcome<bool>)
      requires Valid()
      requires initialized ==> |inRecord| == |recordInfoIn.value|
      modifies this`recordCnt, this`received, anchor`records
      ensures Valid()
      ensures !old(initialized) ==> r == Returned(false) && recordCnt == old(recordCnt) && anchor.records == old(anchor.records)
      ensures old(initialized) ==> received == old(received) + [inRecord] && recordCnt == old(recordCnt) + 1
      ensures old(initialized) && PyInt(nRecordSelect) == None ==> r == Raised && anchor.records == old(anchor.records)
      ensures old(initialized) && PyInt(nRecordSelect).Some? ==>
                && anchor.records == (if recordCnt <= PyInt(nRecordSelect).value then old(anchor.records) + [inRecord]
                                      else old(anchor.records))
                && r == Returned(recordCnt > PyInt(nRecordSelect).value || anchor.accepting)
    {
      if !initialized {
        return Returned(false);
      }
      recordCnt := recordCnt + 1;
      var outRecord := ApplyCopies(copier, Nulls(|recordInfoIn.value|), inRecord);
      IdentityCopy(Nulls(|recordInfoIn.value|), inRecord);
      ForwardedStep(received, inRecord, nRecordSelect);
      received := received + [inRecord];
      var limit := PyInt(nRecordSelect);
      if limit == None {
        return Raised;
      }
      if recordCnt <= limit.value {
        var pushed := anchor.Push(outRecord);
        if !pushed {
          return Returned(false);
        }
      }
      r := Returned(true);
    }

    /** `ii_close`: the output anchor is closed. */
    method IiClose()
      modifies anchor`closed
      ensures anchor.closed
    {
      anchor.Close();
    }
  }
}
