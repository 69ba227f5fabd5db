// PySingleInputOutputToolExample/PySingleInputOutputToolExampleEngine.py: a
// top-N tool that can ask the engine to pre-sort its input, and that tells
// the engine to stop sending records once the limit is passed.
module SingleInputOutput {
  import opened Host
  import SortXml
  import SelectTopN

  class Plugin {
    const engine: Engine
    const anchor: OutputAnchor
    /** The NRecords element's text, read by `int()` only when records arrive. */
    var nRecordSelect: Option<string>
    var xmlSortInfo: string
    var doSort: bool
    var fieldSelection: Option<string>

    constructor (engine: Engine, anchor: OutputAnchor)
      ensures this.engine == engine && this.anchor == anchor
      ensures nRecordSelect == None && xmlSortInfo == "" && !doSort && fieldSelection == None
    {
      this.engine := engine;
      this.anchor := anchor;
      nRecordSelect := None;
      xmlSortInfo := "";
      doSort := false;
      fieldSelection := None;
    }

    /**
     * `pi_init`: reads the limit, the optional sort field and its order. A
     * missing NRecords or OrderType element is reported with the raw XML and
     * re-raised, after whatever was read before it. Sorting is switched on
     * exactly when a sort field has been read, and then the `<SortInfo>`
     * element for it is appended to the sort XML; an OrderType element
     * without text orders by "None".
     */
    method PiInit(nRecords: XmlNode, fieldSelect: XmlNode, orderType: XmlNode, rawXml: string) returns (r: Outcome<()>)
      modifies this`nRecordSelect, this`fieldSelection, this`doSort, this`xmlSortInfo, engine`log
      ensures nRecords == Missing ==>
                && r == Raised && nRecordSelect == old(nRecordSelect) && fieldSelection == old(fieldSelection)
                && doSort == old(doSort) && xmlSortInfo == old(xmlSortInfo)
                && engine.log == old(engine.log) + [Message(Error, "Invalid XML: " + rawXml)]
      ensures nRecords.Node? ==>
                && nRecordSelect == nRecords.text
                && fieldSelection == if fieldSelect.Node? then fieldSelect.text else old(fieldSelection)
      ensures nRecords.Node? && orderType == Missing ==>
                && r == Raised && doSort == old(doSort) && xmlSortInfo == old(xmlSortInfo)
                && engine.log == old(engine.log) + [Message(Error, "Invalid XML: " + rawXml)]
      ensures nRecords.Node? && orderType.Node? ==>
                && r == Returned(()) && engine.log == old(engine.log)
                && doSort == (old(doSort) || fieldSelection.Some?)
                && xmlSortInfo == if doSort then old(xmlSortInfo) + SortXml.SortElement("SortInfo", PyStr(fieldSelection), PyStr(orderType.text))
                                  else old(xmlSortInfo)
    {
      if nRecords == Missing {
        engine.OutputMessage(Error, "Invalid XML: " + rawXml);
        return Raised;
      }
      nRecordSelect := nRecords.text;
      if fieldSelect.Node? {
        fieldSelection := fieldSelect.text;
      }
      if orderType == Missing {
        engine.OutputMessage(Error, "Invalid XML: " + rawXml);
        return Raised;
      }
      var orderSelection := PyStr(orderType.text);
      if fieldSelection.Some? {
        doSort := true;
      }
      if doSort {
        BuildSortInfo("SortInfo", PyStr(fieldSelection), orderSelection);
      }
      r := Returned(());
    }

    /** `build_sort_info`: appends `<element><Field field="X" [order="O"] /></element>` to the sort XML. */
    method BuildSortInfo(element: string, subelement: string, order: string)
      modifies this`xmlSortInfo
      ensures xmlSortInfo == old(xmlSortInfo) + SortXml.SortElement(element, subelement, order)
    {
      xmlSortInfo := xmlSortInfo + SortXml.SortElement(element, subelement, order);
    }

    /**
     * `pi_add_incoming_connection`: asks the engine to pre-sort the connection
     * only when sorting is on, and hands out a fresh incoming interface.
     */
    method PiAddIncomingConnection(connType: string, connName: string) returns (input: Incoming)
      modifies engine`preSorts
      ensures fresh(input) && input.parent == this && input.recordCnt == 0 && input.received == []
      ensures input.base == anchor.records
      ensures engine.preSorts == if doSort then old(engine.preSorts) + [PreSort(connType, connName, xmlSortInfo)]
                                 else old(engine.preSorts)
    {
      if doSort {
        engine.PreSortRequest(connType, connName, xmlSortInfo);
      }
      input := new Incoming(this);
    }

    /** `pi_push_all_records`: this tool needs an input, so it reports an error and fails. */
    method PiPushAllRecords() returns (ok: bool)
      modifies engine`log
      ensures !ok
      ensures engine.log == old(engine.log) + [Message(Error, "Missing Incoming Connection")]
    {
      engine.OutputMessage(Error, "Missing Incoming Connection");
      ok := false;
    }
  }

  class Incoming {
    const parent: Plugin
    var recordCnt: int
    /** The anchor's records when this connection was added. */
    ghost const base: seq<Record>
    /** Every record this connection has been handed, in arrival order. */
    ghost var received: seq<Record>

    ghost predicate Valid()
      reads this, parent, parent.anchor
    {
      && recordCnt == |received|
      && parent.anchor.records == base + SelectTopN.Forwarded(received, parent.nRecordSelect)
    }

    constructor (parent: Plugin)
      ensures this.parent == parent && recordCnt == 0 && received == []
      ensures base == parent.anchor.records && Valid()
    {
      this.parent := parent;
      recordCnt := 0;
      base := parent.anchor.records;
      received := [];
    }

    /** `ii_init`: the output schema is a clone of the input schema. */
    method IiInit(recordInfo: Schema) returns (ok: bool)
      modifies parent.anchor`schema, parent.anchor`sortInfo
      ensures ok && parent.anchor.schema == Some(recordInfo)
    {
      parent.anchor.Init(recordInfo, "");
      ok := true;
    }

    /**
     * `ii_push_record`: every call is counted, and the limit is read with
     * `int()`, which raises when the setting holds no integer. Otherwise the
     * record is forwarded while the count is within the limit, and past it
     * the call returns False so the engine stops sending.
     */
    method IiPushRecord(inRecord: Record) returns (r: Outcome<bool>)
      requires Valid()
      modifies this`recordCnt, this`received, parent.anchor`records
      ensures Valid()
      ensures received == old(received) + [inRecord] && recordCnt == old(recordCnt) + 1
      ensures PyInt(parent.nRecordSelect) == None ==> r == Raised && parent.anchor.records == old(parent.anchor.records)
      ensures PyInt(parent.nRecordSelect).Some? ==>
                && parent.anchor.records == (if recordCnt <= PyInt(parent.nRecordSelect).value
                                             then old(parent.anchor.records) + [inRecord]
                                             else old(parent.anchor.records))
                && r == Returned(recordCnt <= PyInt(parent.nRecordSelect).value)
    {
      recordCnt := recordCnt + 1;
      SelectTopN.ForwardedStep(received, inRecord, parent.nRecordSelect);
      received := received + [inRecord];
      var limit := PyInt(parent.nRecordSelect);
      if limit == None {
        return Raised;
      }
      if recordCnt <= limit.value {
        var _ := parent.anchor.Push(inRecord);
      } else {
        return Returned(false);
      }
      r := Returned(true);
    }

    /** `ii_close`: the output anchor is closed. */
    method IiClose()
      modifies parent.anchor`closed
      ensures parent.anchor.closed
    {
      parent.anchor.Close();
    }
  }
}
