// PyMultipleOutputsToolExample/PyMultipleOutputsToolExampleEngine.py: a
// de-duplicator with two outputs. Every record's value in the selected field
// is added to a key set; when the set grew the record goes to the Unique
// anchor, otherwise to the Duplicate anchor.
module MultipleOutputs {
  import opened Host

  /** The key set after adding every key of the sequence. */
  function KeySet(keys: seq<Option<string>>): set<Option<string>>
  {
    if keys == [] then {} else KeySet(keys[..|keys| - 1]) + {keys[|keys| - 1]}
  }

  /** The key set holds exactly the keys added. */
  lemma {:induction false} KeySetMembers(keys: seq<Option<string>>, k: Option<string>)
    ensures k in KeySet(keys) <==> k in keys
    decreases |keys|
  {
    if keys != [] {
      var n := |keys| - 1;
      KeySetMembers(keys[..n], k);
      assert keys == keys[..n] + [keys[n]];
    }
  }

  /** The records routed to Unique: those whose key had not been seen before. */
  function Uniques(rs: seq<Record>, keys: seq<Option<string>>): (r: seq<Record>)
    requires |rs| == |keys|
    ensures |r| <= |rs|
  {
    if rs == [] then []
    else
      var n := |rs| - 1;
      Uniques(rs[..n], keys[..n]) + (if keys[n] in keys[..n] then [] else [rs[n]])
  }

  /** The records routed to Duplicate: those whose key had been seen before. */
  function Dupes(rs: seq<Record>, keys: seq<Option<string>>): (r: seq<Record>)
    requires |rs| == |keys|
    ensures |r| <= |rs|
  {
    if rs == [] then []
    else
      var n := |rs| - 1;
      Dupes(rs[..n], keys[..n]) + (if keys[n] in keys[..n] then [rs[n]] else [])
  }

  lemma KeySetStep(keys: seq<Option<string>>, k: Option<string>)
    ensures KeySet(keys + [k]) == KeySet(keys) + {k}
  {
    assert (keys + [k])[..|keys|] == keys;
  }

  /** Adding a key grows a set exactly when the key is new to it. */
  lemma SetGrows(s: set<Option<string>>, k: Option<string>)
    ensures k !in s ==> |s + {k}| == |s| + 1
    ensures k in s ==> s + {k} == s
  {
  }

  /** Each distinct key sends exactly one record to Unique. */
  lemma {:induction false} UniquesCount(rs: seq<Record>, keys: seq<Option<string>>)
    requires |rs| == |keys|
    ensures |Uniques(rs, keys)| == |KeySet(keys)|
    decreases |rs|
  {
    if rs != [] {
      var n := |rs| - 1;
      UniquesCount(rs[..n], keys[..n]);
      KeySetMembers(keys[..n], keys[n]);
      SetGrows(KeySet(keys[..n]), keys[n]);
    }
  }

  /** Every record goes to exactly one of the two anchors. */
  lemma {:induction false} RoutesPartition(rs: seq<Record>, keys: seq<Option<string>>)
    requires |rs| == |keys|
    ensures |Uniques(rs, keys)| + |Dupes(rs, keys)| == |rs|
    decreases |rs|
  {
    if rs != [] {
      var n := |rs| - 1;
      RoutesPartition(rs[..n], keys[..n]);
    }
  }

  /** One more record extends exactly one of the two routes. */
  lemma RouteStep(rs: seq<Record>, keys: seq<Option<string>>, r: Record, k: Option<string>)
    requires |rs| == |keys|
    ensures k !in keys ==>
              Uniques(rs + [r], keys + [k]) == Uniques(rs, keys) + [r] && Dupes(rs + [r], keys + [k]) == Dupes(rs, keys)
    ensures k in keys ==>
              Uniques(rs + [r], keys + [k]) == Uniques(rs, keys) && Dupes(rs + [r], keys + [k]) == Dupes(rs, keys) + [r]
  {
    assert (rs + [r])[..|rs|] == rs;
    assert (keys + [k])[..|keys|] == keys;
  }

  class Plugin {
    const engine: Engine
    const uniqueAnchor: OutputAnchor
    const dupeAnchor: OutputAnchor
    var targetAnchor: OutputAnchor?
    var keySetCurrent: set<Option<string>>
    var keySetPreviousLen: nat
    var initialized: bool
    var fieldSelection: Option<string>
    var fieldIndex: nat
    var recordInfoIn: Option<Schema>
    var copier: seq<Copy>
    /** Every record ii_push_record accepted, and its key, in arrival order. */
    ghost var received: seq<Record>
    ghost var keys: seq<Option<string>>

    ghost predicate Valid()
      reads this, uniqueAnchor, dupeAnchor
    {
      uniqueAnchor != dupeAnchor && Routed() && Counted() && Laid()
    }

    /** Each record received went to Unique when its key was new, to Duplicate otherwise. */
    ghost predicate Routed()
      reads this`keys, this`received, uniqueAnchor`records, dupeAnchor`records
    {
      && |keys| == |received|
      && uniqueAnchor.records == Uniques(received, keys)
      && dupeAnchor.records == Dupes(received, keys)
    }

    /** The key set holds the keys seen, and its last measured size is its size. */
    ghost predicate Counted()
      reads this`keys, this`keySetCurrent, this`keySetPreviousLen
    {
      keySetCurrent == KeySet(keys) && keySetPreviousLen == |keySetCurrent|
    }

    /** After ii_init: the copier maps each field to itself. */
    ghost predicate Laid()
      reads this`initialized, this`recordInfoIn, this`copier
    {
      initialized ==> recordInfoIn.Some? && copier == Identity(|recordInfoIn.value|)
    }

    constructor (engine: Engine, uniqueAnchor: OutputAnchor, dupeAnchor: OutputAnchor)
      requires uniqueAnchor != dupeAnchor
      requires uniqueAnchor.records == [] && dupeAnchor.records == []
      ensures Valid() && !initialized && received == [] && targetAnchor == null
      ensures this.engine == engine && this.uniqueAnchor == uniqueAnchor && this.dupeAnchor == dupeAnchor
    {
      this.engine := engine;
      this.uniqueAnchor := uniqueAnchor;
      this.dupeAnchor := dupeAnchor;
      targetAnchor := null;
      keySetCurrent := {};
      keySetPreviousLen := 0;
      initialized := false;
      fieldSelection := None;
      fieldIndex := 0;
      recordInfoIn := None;
      copier := [];
      received := [];
      keys := [];
    }

    /** `set_key_set_previous_len`: remembers the size of the current key set. */
    method SetKeySetPreviousLen(keySet: set<Option<string>>)
      modifies this`keySetPreviousLen
      ensures keySetPreviousLen == |keySet|
    {
      keySetPreviousLen := |keySet|;
    }

    /** `set_output_direction`: Unique when the key set has grown since it was last measured, else Duplicate. */
    method SetOutputDirection(keySet: set<Option<string>>)
      modifies this`targetAnchor
      ensures targetAnchor == if |keySet| > keySetPreviousLen then uniqueAnchor else dupeAnchor
    {
      if |keySet| > keySetPreviousLen {
        targetAnchor := uniqueAnchor;
      } else {
        targetAnchor := dupeAnchor;
      }
    }

    /** `pi_init`: the selected field; a missing FieldSelect element is reported with the raw XML and re-raised. */
    method PiInit(fieldSelect: XmlNode, rawXml: string) returns (r: Outcome<bool>)
      modifies this`fieldSelection, engine`log
      ensures fieldSelect == Missing ==>
                && r == Raised && fieldSelection == old(fieldSelection)
                && engine.log == old(engine.log) + [Message(Error, "Invalid XML: " + rawXml)]
      ensures fieldSelect.Node? ==>
                r == Returned(true) && fieldSelection == fieldSelect.text && engine.log == old(engine.log)
    {
      if fieldSelect == Missing {
        engine.OutputMessage(Error, "Invalid XML: " + rawXml);
        return Raised;
      }
      fieldSelection := fieldSelect.text;
      r := Returned(true);
    }

    /** `pi_push_all_records`: this tool needs an input, so it reports an error and fails. */
    method PiPushAllRecords() returns (ok: bool)
      modifies engine`log
      ensures !ok
      ensures engine.log == old(engine.log) + [Message(Error, "Missing Incoming Connection")]
    {
      engine.OutputMessage(Error, "Missing Incoming Connection");
      ok := false;
    }

    /**
     * `ii_init`: both anchors announce the input schema unchanged, the copier
     * maps every field to itself and the tool counts as initialised; then the
     * key is looked up as the first field carrying the selected name. The host
     * raises when no field carries it, and the key index keeps its old value.
     */
    method IiInit(recordInfo: Schema) returns (r: Outcome<bool>)
      requires Valid()
      modifies this`recordInfoIn, this`copier, this`initialized, this`fieldIndex,
               uniqueAnchor`schema, uniqueAnchor`sortInfo, dupeAnchor`schema, dupeAnchor`sortInfo
      ensures Valid() && initialized && recordInfoIn == Some(recordInfo)
      ensures uniqueAnchor.schema == Some(recordInfo) && dupeAnchor.schema == Some(recordInfo)
      ensures copier == Identity(|recordInfo|)
      ensures fieldSelection == None || fieldSelection.value !in Names(recordInfo) ==>
                r == Raised && fieldIndex == old(fieldIndex)
      ensures fieldSelection.Some? && fieldSelection.value in Names(recordInfo) ==>
                && r == Returned(true)
                && fieldIndex < |recordInfo| && recordInfo[fieldIndex].name == fieldSelection.value
                && forall k :: 0 <= k < fieldIndex ==> recordInfo[k].name != fieldSelection.value
    {
      recordInfoIn := Some(recordInfo);
      uniqueAnchor.Init(recordInfo, "");
      dupeAnchor.Init(recordInfo, "");
      var cs := AddIdentity(|recordInfo|);
      copier := cs;
      initialized := true;
      if fieldSelection == None || fieldSelection.value !in Names(recordInfo) {
        return Raised;
      }
      fieldIndex := FieldNum(Names(recordInfo), fieldSelection.value);
      r := Returned(true);
    }

    /**
     * `ii_push_record`: refused before ii_init, and raises when the key index
     * is past the schema. Otherwise the record's key is added to the key set;
     * the record goes to Unique exactly when the key is new and to Duplicate
     * otherwise, and the push result is returned.
     */
    method IiPushRecord(inRecord: Record) returns (r: Outcome<bool>)
      requires Valid()
      requires initialized ==> |inRecord| == |recordInfoIn.value|
      modifies this`keySetCurrent, this`keySetPreviousLen, this`targetAnchor, this`received, this`keys,
               uniqueAnchor`records, dupeAnchor`records
      ensures Valid()
      ensures !old(initialized) || fieldIndex >= |inRecord| ==>
                && r == (if old(initialized) then Raised else Returned(false)) && received == old(received)
                && uniqueAnchor.records == old(uniqueAnchor.records) && dupeAnchor.records == old(dupeAnchor.records)
      ensures old(initialized) && fieldIndex < |inRecord| ==>
                var key := GetAsString(inRecord[fieldIndex]);
                && keys == old(keys) + [key] && received == old(received) + [inRecord]
                && keySetCurrent == old(keySetCurrent) + {key}
                && targetAnchor != null && r == Returned(targetAnchor.accepting)
                && (key !in old(keySetCurrent) ==>
                      && targetAnchor == uniqueAnchor
                      && uniqueAnchor.records == old(uniqueAnchor.records) + [inRecord]
                      && dupeAnchor.records == old(dupeAnchor.records))
                && (key in old(keySetCurrent) ==>
                      && targetAnchor == dupeAnchor
                      && dupeAnchor.records == old(dupeAnchor.records) + [inRecord]
                      && uniqueAnchor.records == old(uniqueAnchor.records))
    {
      if !initialized {
        return Returned(false);
      }
      if fieldIndex >= |inRecord| {
        return Raised;
      }
      var outRecord := ApplyCopies(copier, Nulls(|recordInfoIn.value|), inRecord);
      IdentityCopy(Nulls(|recordInfoIn.value|), inRecord);
      var key := GetAsString(inRecord[fieldIndex]);
      var ok := Route(key, outRecord);
      r := Returned(ok);
    }

    /**
     * The routing part of `ii_push_record`: the key joins the key set, the
     * target anchor is Unique exactly when the set grew, the set's size is
     * remembered, and the record goes to the target.
     */
    method Route(key: Option<string>, rec: Record) returns (ok: bool)
      requires Valid()
      modifies this`keySetCurrent, this`keySetPreviousLen, this`targetAnchor, this`received, this`keys,
               uniqueAnchor`records, dupeAnchor`records
      ensures Valid()
      ensures keys == old(keys) + [key] && received == old(received) + [rec]
      ensures keySetCurrent == old(keySetCurrent) + {key}
      ensures targetAnchor != null && ok == targetAnchor.accepting
      ensures key !in old(keySetCurrent) ==>
                && targetAnchor == uniqueAnchor
                && uniqueAnchor.records == old(uniqueAnchor.records) + [rec]
                && dupeAnchor.records == old(dupeAnchor.records)
      ensures key in old(keySetCurrent) ==>
                && targetAnchor == dupeAnchor
                && dupeAnchor.records == old(dupeAnchor.records) + [rec]
                && uniqueAnchor.records == old(uniqueAnchor.records)
    {
      ghost var isNew := key !in keySetCurrent;
      KeySetMembers(keys, key);
      RouteStep(received, keys, rec, key);
      SetGrows(keySetCurrent, key);
      KeySetStep(keys, key);
      keySetCurrent := keySetCurrent + {key};
      SetOutputDirection(keySetCurrent);
      assert targetAnchor == if isNew then uniqueAnchor else dupeAnchor;
      SetKeySetPreviousLen(keySetCurrent);
      keys := keys + [key];
      received := received + [rec];
      ok := targetAnchor.Push(rec);
    }

    /** `ii_close`: both anchors are closed. */
    method IiClose()
      modifies uniqueAnchor`closed, dupeAnchor`closed
      ensures uniqueAnchor.closed && dupeAnchor.closed
    {
      uniqueAnchor.Close();
      dupeAnchor.Close();
    }
  }
}
