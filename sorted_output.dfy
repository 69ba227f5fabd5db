// PySortedOutputToolExample/PySortedOutputToolExampleEngine.py: a
// pass-through tool that asks the engine to pre-sort its input on up to three
// fields (Sort1, Sort2, Sort3), keeps only those fields, and announces the
// same sort order downstream.
module SortedOutput {
  import opened Host
  import SortXml

  /** The texts of the sort nodes that have one, in node order. */
  function Present(sorts: seq<XmlNode>): (r: seq<string>)
    requires forall i :: 0 <= i < |sorts| ==> sorts[i].Node?
    ensures |r| <= |sorts|
  {
    if sorts == [] then []
    else if sorts[0].text.Some? then [sorts[0].text.value] + Present(sorts[1..])
    else Present(sorts[1..])
  }

  /** `''.join('<Field field="{}" />'.format(t) ...)`: one order-less field tag per name. */
  function FieldList(names: seq<string>): (r: string)
    ensures names == [] ==> r == ""
  {
    if names == [] then "" else SortXml.FieldTag(names[0], "") + FieldList(names[1..])
  }

  /** Field lists of two runs of names concatenate. */
  lemma {:induction false} FieldListAppend(a: seq<string>, b: seq<string>)
    ensures FieldList(a + b) == FieldList(a) + FieldList(b)
    decreases |a|
  {
    if a != [] {
      assert (a + b)[0] == a[0] && (a + b)[1..] == a[1..] + b;
      FieldListAppend(a[1..], b);
    } else {
      assert a + b == b;
    }
  }

  /** Present keeps the node order: a node added last contributes its text, if any, last. */
  lemma {:induction false} PresentAppend(sorts: seq<XmlNode>, n: XmlNode)
    requires forall i :: 0 <= i < |sorts| ==> sorts[i].Node?
    requires n.Node?
    ensures Present(sorts + [n]) == Present(sorts) + (if n.text.Some? then [n.text.value] else [])
    decreases |sorts|
  {
    if sorts == [] {
      assert sorts + [n] == [n];
    } else {
      assert (sorts + [n])[1..] == sorts[1..] + [n];
      PresentAppend(sorts[1..], n);
    }
  }

  /** A sort element with text adds its field tag at the end of the list. */
  lemma SortFieldStep(sorts: seq<XmlNode>, t: string)
    requires forall i :: 0 <= i < |sorts| ==> sorts[i].Node?
    ensures FieldList(Present(sorts + [Node(Some(t))])) == FieldList(Present(sorts)) + SortXml.FieldTag(t, "")
  {
    PresentAppend(sorts, Node(Some(t)));
    FieldListAppend(Present(sorts), [t]);
    FieldListOne(t);
  }

  /** One name gives one tag. */
  lemma FieldListOne(t: string)
    ensures FieldList([t]) == SortXml.FieldTag(t, "")
  {
    assert [t][1..] == [];
    var tag := SortXml.FieldTag(t, "");
    assert tag + "" == tag;
  }

  /** An empty sort element adds nothing. */
  lemma SortFieldSkip(sorts: seq<XmlNode>)
    requires forall i :: 0 <= i < |sorts| ==> sorts[i].Node?
    ensures FieldList(Present(sorts + [Node(None)])) == FieldList(Present(sorts))
  {
    PresentAppend(sorts, Node(None));
    assert Present(sorts) + [] == Present(sorts);
  }

  /** The sort XML pi_init builds: the same field list as the filter and as the sort order. */
  function SortInfoFor(names: seq<string>): string
  {
    "<FieldFilterList>" + FieldList(names) + "</FieldFilterList>"
    + "<SortInfo noProgress=\"True\">" + FieldList(names) + "</SortInfo>"
  }

  class Plugin {
    const engine: Engine
    const anchor: OutputAnchor
    var initialized: bool
    var closed: bool
    var xmlSortInfo: Option<string>

    constructor (engine: Engine, anchor: OutputAnchor)
      ensures this.engine == engine && this.anchor == anchor
      ensures !initialized && !closed && xmlSortInfo == None
    {
      this.engine := engine;
      this.anchor := anchor;
      initialized := false;
      closed := false;
      xmlSortInfo := None;
    }

    /**
     * `pi_init`: the filter list and the sort order both name the present
     * sort fields in order. A missing sort element is reported with the raw
     * XML and re-raised, leaving only the opening filter tag built.
     */
    method PiInit(sorts: seq<XmlNode>, rawXml: string) returns (r: Outcome<()>)
      modifies this`xmlSortInfo, engine`log
      ensures (exists i :: 0 <= i < |sorts| && sorts[i] == Missing) ==>
                && r == Raised && xmlSortInfo == Some("<FieldFilterList>")
                && engine.log == old(engine.log) + [Message(Error, "pi_init: Invalid XML: " + rawXml)]
      ensures (forall i :: 0 <= i < |sorts| ==> sorts[i].Node?) ==>
                && r == Returned(())
                && xmlSortInfo == Some(SortInfoFor(Present(sorts)))
                && engine.log == old(engine.log)
    {
      var info := "<FieldFilterList>";
      xmlSortInfo := Some(info);
      if exists i :: 0 <= i < |sorts| && sorts[i] == Missing {
        engine.OutputMessage(Error, "pi_init: Invalid XML: " + rawXml);
        return Raised;
      }
      var names := Present(sorts);
      info := info + FieldList(names) + "</FieldFilterList>";
      info := info + "<SortInfo noProgress=\"True\">";
      info := info + FieldList(names) + "</SortInfo>";
      xmlSortInfo := Some(info);
      r := Returned(());
    }

    /** `pi_add_incoming_connection`: the connection is pre-sorted with the sort XML. */
    method PiAddIncomingConnection(connType: string, connName: string)
      requires xmlSortInfo.Some?
      modifies engine`preSorts
      ensures engine.preSorts == old(engine.preSorts) + [PreSort(connType, connName, xmlSortInfo.value)]
    {
      engine.PreSortRequest(connType, connName, xmlSortInfo.value);
    }

    /** `pi_push_all_records`: this tool needs an input, so it reports an error and fails. */
    method PiPushAllRecords() returns (ok: bool)
      modifies engine`log
      ensures !ok
      ensures engine.log == old(engine.log) + [Message(Error, "pi_push_all_records: Missing Incoming Connection")]
    {
      engine.OutputMessage(Error, "pi_push_all_records: Missing Incoming Connection");
      ok := false;
    }

    /** `ii_init`: the input schema is announced with the same sort XML the pre-sort used. */
    method IiInit(recordInfo: Schema) returns (ok: bool)
      requires xmlSortInfo.Some?
      modifies this`initialized, anchor`schema, anchor`sortInfo
      ensures ok && initialized
      ensures anchor.schema == Some(recordInfo) && anchor.sortInfo == xmlSortInfo.value
    {
      anchor.Init(recordInfo, xmlSortInfo.value);
      initialized := true;
      ok := true;
    }

    /** `ii_push_record`: refused before ii_init; otherwise the record goes on unchanged. */
    method IiPushRecord(inRecord: Record) returns (ok: bool)
      modifies anchor`records
      ensures !initialized ==> !ok && anchor.records == old(anchor.records)
      ensures initialized ==> anchor.records == old(anchor.records) + [inRecord] && ok == anchor.accepting
    {
      if !initialized {
        return false;
      }
      ok := anchor.Push(inRecord);
    }

    /** `ii_close`: the anchor is closed and so is the tool. */
    method IiClose()
      modifies this`closed, anchor`closed
      ensures closed && anchor.closed
    {
      anchor.Close();
      closed := true;
    }
  }
}
