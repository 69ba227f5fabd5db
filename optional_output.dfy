// PyOptionalOutputToolExample/PyOptionalOutputToolExampleEngine.py: a
// pass-through tool that writes one configured message to the engine, either
// just before the first record goes out or when the input closes.
module OptionalOutput {
  import opened Host

  /** The message kind a messageType setting selects; any other setting selects none. */
  function MessageKindFor(t: Option<string>): (r: Option<MessageKind>)
    ensures r == Some(Info) <==> t == Some("info")
    ensures r == Some(Warning) <==> t == Some("warning")
    ensures r == Some(FieldConversionError) <==> t == Some("field_conversion_error")
    ensures r == Some(Error) <==> t == Some("error")
    ensures r == None <==> t !in {Some("info"), Some("warning"), Some("field_conversion_error"), Some("error")}
  {
    if t == Some("info") then Some(Info)
    else if t == Some("warning") then Some(Warning)
    else if t == Some("field_conversion_error") then Some(FieldConversionError)
    else if t == Some("error") then Some(Error)
    else None
  }

  /** What one `display_message` call writes to the log: one message of the selected kind, or nothing. */
  function Displayed(t: Option<string>, text: string): (r: seq<Message>)
    ensures |r| <= 1
    ensures |r| == 1 <==> MessageKindFor(t).Some?
    ensures |r| == 1 ==> r[0] == Message(MessageKindFor(t).value, text)
  {
    if MessageKindFor(t).Some? then [Message(MessageKindFor(t).value, text)] else []
  }

  const BeforeFirstRecord: Option<string> := Some("beforeFirstRecord")
  const AfterLastRecord: Option<string> := Some("afterLastRecord")

  class Plugin {
    const engine: Engine
    const anchor: OutputAnchor
    var initialized: bool
    var messageTiming: Option<string>
    var messageType: Option<string>
    var messageString: string
    var recordInfoIn: Option<Schema>
    var copier: seq<Copy>
    var recordCnt: nat
    /** How many records ii_push_record has passed on. */
    ghost var pushes: nat
    /** The messages ii_push_record has written, in order. */
    ghost var pushLog: seq<Message>

    ghost predicate Valid()
      reads this, anchor
    {
      && recordCnt == (if pushes < 2 then pushes else 2)
      && pushLog == (if messageTiming == BeforeFirstRecord && pushes > 0 then Displayed(messageType, messageString) else [])
      && |anchor.records| == pushes
      && (!initialized ==> pushes == 0)
      && (initialized ==> recordInfoIn.Some? && copier == Identity(|recordInfoIn.value|))
    }

    constructor (engine: Engine, anchor: OutputAnchor)
      requires anchor.records == []
      ensures Valid() && !initialized && pushes == 0
      ensures this.engine == engine && this.anchor == anchor
    {
      this.engine := engine;
      this.anchor := anchor;
      initialized := false;
      messageTiming := None;
      messageType := None;
      messageString := "";
      recordInfoIn := None;
      copier := [];
      recordCnt := 0;
      pushes := 0;
      pushLog := [];
    }

    /**
     * `pi_init`: when to write the message, of which kind, and its text. A
     * missing element raises, after the settings read before it.
     */
    method PiInit(timing: XmlNode, kind: XmlNode, text: XmlNode) returns (r: Outcome<bool>)
      requires Valid() && pushes == 0
      modifies this`messageTiming, this`messageType, this`messageString
      ensures Valid()
      ensures timing == Missing ==>
                r == Raised && messageTiming == old(messageTiming) && messageType == old(messageType) && messageString == old(messageString)
      ensures timing.Node? ==> messageTiming == timing.text
      ensures timing.Node? && kind == Missing ==> r == Raised && messageType == old(messageType) && messageString == old(messageString)
      ensures timing.Node? && kind.Node? ==> messageType == kind.text
      ensures timing.Node? && kind.Node? && text == Missing ==> r == Raised && messageString == old(messageString)
      ensures timing.Node? && kind.Node? && text.Node? ==>
                r == Returned(true) && messageString == (if text.text.Some? then text.text.value else "")
    {
      if timing == Missing {
        return Raised;
      }
      messageTiming := timing.text;
      if kind == Missing {
        return Raised;
      }
      messageType := kind.text;
      if text == Missing {
        return Raised;
      }
      messageString := if text.text.Some? then text.text.value else "";
      r := Returned(true);
    }

    /** `pi_push_all_records`: this tool needs an input, so it reports an error and fails. */
    method PiPushAllRecords() returns (ok: bool)
      modifies engine`log
      ensures !ok
      ensures engine.log == old(engine.log) + [Message(Error, "Missing Incoming Connection")]
    {
      engine.OutputMessage(Error, "Missing Incoming Connection");
      ok := false;
    }

    /** `ii_init`: the output schema is the input schema and the copier maps every field to itself. */
    method IiInit(recordInfo: Schema) returns (ok: bool)
      requires Valid()
      modifies this`recordInfoIn, this`copier, this`initialized, anchor`schema, anchor`sortInfo
      ensures Valid() && ok && initialized
      ensures anchor.schema == Some(recordInfo) && copier == Identity(|recordInfo|)
    {
      recordInfoIn := Some(recordInfo);
      anchor.Init(recordInfo, "");
      var cs := AddIdentity(|recordInfo|);
      copier := cs;
      initialized := true;
      ok := true;
    }

    /** `display_message`: one message of the selected kind, or nothing for an unknown kind. */
    method DisplayMessage(kind: Option<string>, text: string)
      modifies engine`log
      ensures engine.log == old(engine.log) + Displayed(kind, text)
    {
      if kind == Some("info") {
        engine.OutputMessage(Info, text);
      } else if kind == Some("warning") {
        engine.OutputMessage(Warning, text);
      } else if kind == Some("field_conversion_error") {
        engine.OutputMessage(FieldConversionError, text);
      } else if kind == Some("error") {
        engine.OutputMessage(Error, text);
      }
    }

    /**
     * `ii_push_record`: refused before ii_init. Otherwise the counter moves on
     * but stops at 2, the message is written when the timing is
     * beforeFirstRecord and this is the first record (so only once), and the
     * record is passed on unchanged with downstream's answer returned.
     */
    method IiPushRecord(inRecord: Record) returns (ok: bool)
      requires Valid()
      requires initialized ==> |inRecord| == |recordInfoIn.value|
      modifies this`recordCnt, this`pushes, this`pushLog, anchor`records, engine`log
      ensures Valid() && recordCnt <= 2
      ensures !old(initialized) ==>
                !ok && pushes == old(pushes) && anchor.records == old(anchor.records) && engine.log == old(engine.log)
      ensures old(initialized) ==>
                && pushes == old(pushes) + 1
                && anchor.records == old(anchor.records) + [inRecord]
                && ok == anchor.accepting
                && engine.log == old(engine.log) + (if messageTiming == BeforeFirstRecord && pushes == 1
                                                    then Displayed(messageType, messageString) else [])
    {
      if !initialized {
        return false;
      }
      if recordCnt < 2 {
        recordCnt := recordCnt + 1;
      }
      pushes := pushes + 1;
      if messageTiming == BeforeFirstRecord && recordCnt == 1 {
        DisplayMessage(messageType, messageString);
        pushLog := pushLog + Displayed(messageType, messageString);
      }
      var outRecord := ApplyCopies(copier, Nulls(|recordInfoIn.value|), inRecord);
      IdentityCopy(Nulls(|recordInfoIn.value|), inRecord);
      ok := anchor.Push(outRecord);
    }

    /** `ii_close`: the message is written when the timing is afterLastRecord, and the anchor is closed. */
    method IiClose()
      modifies engine`log, anchor`closed
      ensures anchor.closed
      ensures engine.log == old(engine.log) + (if messageTiming == AfterLastRecord then Displayed(messageType, messageString) else [])
    {
      if messageTiming == AfterLastRecord {
        DisplayMessage(messageType, messageString);
      }
      anchor.Close();
    }
  }
}
