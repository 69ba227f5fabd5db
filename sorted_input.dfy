// PySortedInputToolExample/PySortedInputToolExampleEngine.py: a min/max tool.
// The engine pre-sorts the input on the selected field (ascending for "min",
// descending for "max") and filters it down to that field; the tool forwards
// the first record it receives, renamed `<aggregation>_<field>`, and then
// declines every further record.
module SortedInput {
  import opened Host
  import SortXml

  /** One attribute of a `<Field>` element of the record metadata, in document order. */
  datatype Attr = Attr(key: string, value: string)

  /**
   * `extract_field_type`: the value of the last attribute of the first
   * `<Field>` element, or None where Python raises IndexError (no field, or a
   * field without attributes).
   */
  function ExtractFieldType(fields: seq<seq<Attr>>): (r: Option<string>)
    ensures r.Some? <==> |fields| > 0 && |fields[0]| > 0
  {
    if |fields| == 0 || |fields[0]| == 0 then None
    else Some(fields[0][|fields[0]| - 1].value)
  }

  /** The value of the attribute with the given key, looked up by key as an XML attribute is. */
  function AttrValue(attrs: seq<Attr>, key: string): Option<string>
  {
    if attrs == [] then None
    else if attrs[0].key == key then Some(attrs[0].value)
    else AttrValue(attrs[1..], key)
  }

  /** An element never carries the same attribute twice. */
  predicate UniqueKeys(attrs: seq<Attr>) {
    forall i, j :: 0 <= i < j < |attrs| ==> attrs[i].key != attrs[j].key
  }

  /** The last attribute of an element is the one its key finds. */
  lemma {:induction false} AttrValueLast(attrs: seq<Attr>)
    requires attrs != [] && UniqueKeys(attrs)
    ensures AttrValue(attrs, attrs[|attrs| - 1].key) == Some(attrs[|attrs| - 1].value)
    decreases |attrs|
  {
    var last := attrs[|attrs| - 1];
    if |attrs| > 1 {
      assert attrs[0].key != last.key;
      assert attrs[1..][|attrs| - 2] == last;
      AttrValueLast(attrs[1..]);
    }
  }

  /**
   * When the first field's metadata ends with its `type` attribute, as the
   * host writes it, extract_field_type finds that field's type.
   */
  lemma ExtractFieldTypeIsType(fields: seq<seq<Attr>>)
    requires |fields| > 0 && |fields[0]| > 0 && UniqueKeys(fields[0])
    requires fields[0][|fields[0]| - 1].key == "type"
    ensures ExtractFieldType(fields) == AttrValue(fields[0], "type")
  {
    AttrValueLast(fields[0]);
  }

  /** The name the host writes in a `<Field>` element's `type` attribute. */
  function TypeName(t: FieldType): string
  {
    match t
    case Bool => "Bool"
    case Byte => "Byte"
    case Int16 => "Int16"
    case Int32 => "Int32"
    case Int64 => "Int64"
    case FixedDecimal => "FixedDecimal"
    case Float => "Float"
    case Double => "Double"
    case String => "String"
    case WString => "WString"
    case VString => "V_String"
    case VWString => "V_WString"
    case Date => "Date"
    case Time => "Time"
    case DateTime => "DateTime"
    case Blob => "Blob"
    case SpatialObj => "SpatialObj"
  }

  /** The metadata of one field as the host writes it: its name and type, the type last. */
  predicate Describes(attrs: seq<Attr>, f: Field) {
    && attrs != [] && UniqueKeys(attrs)
    && attrs[|attrs| - 1] == Attr("type", TypeName(f.ftype))
    && AttrValue(attrs, "name") == Some(f.name)
  }

  /** The field types the tool aggregates. */
  const NumericFieldTypes: set<FieldType> := {Byte, Int16, Int32, Int64, FixedDecimal, Float, Double}

  const NumericTypes: set<string> := {"Byte", "Int16", "Int32", "Int64", "FixedDecimal", "Float", "Double"}

  /**
   * For metadata that describes the schema, the type check accepts exactly
   * the schemas whose first field has a numeric type.
   */
  lemma NumericFirstField(fields: seq<seq<Attr>>, s: Schema)
    requires |fields| > 0 && |s| > 0 && Describes(fields[0], s[0])
    ensures ExtractFieldType(fields) == Some(TypeName(s[0].ftype))
    ensures TypeName(s[0].ftype) in NumericTypes <==> s[0].ftype in NumericFieldTypes
  {
    ExtractFieldTypeIsType(fields);
    AttrValueLast(fields[0]);
  }

  /** `rename_field_by_name(old, new)`: the field called `old` takes the name `new`. */
  function RenameField(s: Schema, from: Option<string>, to: string): (r: Schema)
    ensures |r| == |s|
    ensures forall i :: 0 <= i < |s| && Some(s[i].name) != from ==> r[i] == s[i]
    ensures forall i :: 0 <= i < |s| && Some(s[i].name) == from ==> r[i] == s[i].(name := to)
  {
    seq(|s|, i requires 0 <= i < |s| => if Some(s[i].name) == from then s[i].(name := to) else s[i])
  }

  /** Renaming the selected field leaves every other name, and every type, size and scale, as it was. */
  lemma RenameFieldKeepsLayout(s: Schema, from: string, to: string, i: nat)
    requires DistinctNames(s) && i < |s|
    requires s[i].name == from
    requires to !in Names(s)
    ensures DistinctNames(RenameField(s, Some(from), to))
    ensures Names(RenameField(s, Some(from), to)) == Names(s)[i := to]
  {
    var r := RenameField(s, Some(from), to);
    var names := Names(s);
    forall k | 0 <= k < |s| && k != i ensures r[k] == s[k] && s[k].name != to {
      if k < i { assert s[k].name != s[i].name; } else { assert s[i].name != s[k].name; }
      assert names[k] in names;
    }
    forall a, b | 0 <= a < b < |r| ensures r[a].name != r[b].name {
      if a != i && b != i { assert s[a].name != s[b].name; }
    }
    assert |Names(r)| == |names[i := to]|;
    forall k | 0 <= k < |s| ensures Names(r)[k] == names[i := to][k] {
    }
  }

  /** The `<SortInfo>` element pi_init builds: ascending for "min", descending for "max", none otherwise. */
  function SortInfoPart(aggregation: Option<string>, field: Option<string>): string
  {
    if aggregation == Some("min") then SortXml.SortElement("SortInfo", PyStr(field), "Asc")
    else if aggregation == Some("max") then SortXml.SortElement("SortInfo", PyStr(field), "Desc")
    else ""
  }

  class Plugin {
    const engine: Engine
    const anchor: OutputAnchor
    var initialized: bool
    var selectedAggregation: Option<string>
    var fieldSelection: Option<string>
    var xmlSortInfo: string
    var recordInfoOut: Option<Schema>
    var copier: seq<Copy>

    ghost predicate Valid()
      reads this
    {
      initialized ==> recordInfoOut.Some? && copier == Identity(|recordInfoOut.value|)
    }

    constructor (engine: Engine, anchor: OutputAnchor)
      ensures Valid() && !initialized && xmlSortInfo == ""
      ensures this.engine == engine && this.anchor == anchor
    {
      this.engine := engine;
      this.anchor := anchor;
      initialized := false;
      selectedAggregation := None;
      fieldSelection := None;
      xmlSortInfo := "";
      recordInfoOut := None;
      copier := [];
    }

    /** `build_sort_info`: appends `<element><Field field="X" [order="O"] /></element>` to the sort XML. */
    method BuildSortInfo(element: string, subelement: string, order: string)
      modifies this`xmlSortInfo
      ensures xmlSortInfo == old(xmlSortInfo) + SortXml.SortElement(element, subelement, order)
    {
      xmlSortInfo := xmlSortInfo + SortXml.SortElement(element, subelement, order);
    }

    /**
     * `pi_init`: a `<SortInfo>` ascending for "min", descending for "max" and
     * absent otherwise, then always an order-less `<FieldFilterList>` on the
     * same field. A missing operationSelect or FieldSelect element raises,
     * after whatever was read before it.
     */
    method PiInit(operationSelect: XmlNode, fieldSelect: XmlNode) returns (r: Outcome<bool>)
      requires Valid()
      modifies this`selectedAggregation, this`fieldSelection, this`xmlSortInfo
      ensures Valid()
      ensures operationSelect == Missing ==>
                && r == Raised && selectedAggregation == old(selectedAggregation)
                && fieldSelection == old(fieldSelection) && xmlSortInfo == old(xmlSortInfo)
      ensures operationSelect.Node? && fieldSelect == Missing ==>
                && r == Raised && selectedAggregation == operationSelect.text
                && fieldSelection == old(fieldSelection) && xmlSortInfo == old(xmlSortInfo)
      ensures operationSelect.Node? && fieldSelect.Node? ==>
                && r == Returned(true)
                && selectedAggregation == operationSelect.text && fieldSelection == fieldSelect.text
                && xmlSortInfo == old(xmlSortInfo) + SortInfoPart(selectedAggregation, fieldSelection)
                                  + SortXml.SortElement("FieldFilterList", PyStr(fieldSelection), "")
    {
      if operationSelect == Missing {
        return Raised;
      }
      selectedAggregation := operationSelect.text;
      if fieldSelect == Missing {
        return Raised;
      }
      fieldSelection := fieldSelect.text;
      ghost var before := xmlSortInfo;
      if selectedAggregation == Some("min") {
        BuildSortInfo("SortInfo", PyStr(fieldSelection), "Asc");
      } else if selectedAggregation == Some("max") {
        BuildSortInfo("SortInfo", PyStr(fieldSelection), "Desc");
      }
      assert xmlSortInfo == before + SortInfoPart(selectedAggregation, fieldSelection);
      BuildSortInfo("FieldFilterList", PyStr(fieldSelection), "");
      r := Returned(true);
    }

    /** `pi_add_incoming_connection`: the connection is pre-sorted with the sort XML built in pi_init. */
    method PiAddIncomingConnection(connType: string, connName: string)
      modifies engine`preSorts
      ensures engine.preSorts == old(engine.preSorts) + [PreSort(connType, connName, xmlSortInfo)]
    {
      engine.PreSortRequest(connType, connName, xmlSortInfo);
    }

    /** `pi_push_all_records`: this tool needs an input, so it reports an error and fails. */
    method PiPushAllRecords() returns (ok: bool)
      modifies engine`log
      ensures !ok
      ensures engine.log == old(engine.log) + [Message(Error, "Missing Incoming Connection")]
    {
      engine.OutputMessage(Error, "Missing Incoming Connection");
      ok := false;
    }

    /**
     * `ii_init`: the type of the (single, pre-filtered) field must be numeric;
     * otherwise an error is reported and the call fails. On acceptance the
     * selected field is renamed `<aggregation>_<field>`, the output anchor is
     * initialised with that schema and the copier maps every field to itself.
     */
    method IiInit(recordInfo: Schema, metadata: seq<seq<Attr>>) returns (r: Outcome<bool>)
      requires Valid()
      modifies this`recordInfoOut, this`copier, this`initialized, anchor`schema, anchor`sortInfo, engine`log
      ensures Valid()
      ensures ExtractFieldType(metadata) == None ==> r == Raised && engine.log == old(engine.log)
      ensures ExtractFieldType(metadata).Some? && ExtractFieldType(metadata).value !in NumericTypes ==>
                r == Returned(false) && engine.log == old(engine.log) + [Message(Error, "Selected A Non-Numeric Field")]
      ensures !r.Returned? || !r.value ==>
                && initialized == old(initialized) && recordInfoOut == old(recordInfoOut) && copier == old(copier)
                && anchor.schema == old(anchor.schema) && anchor.sortInfo == old(anchor.sortInfo)
      ensures |metadata| > 0 && |recordInfo| > 0 && Describes(metadata[0], recordInfo[0]) ==>
                (r == Returned(true) <==> recordInfo[0].ftype in NumericFieldTypes)
      ensures ExtractFieldType(metadata).Some? && ExtractFieldType(metadata).value in NumericTypes ==>
                && r == Returned(true) && initialized && engine.log == old(engine.log)
                && var out := RenameField(recordInfo, fieldSelection, PyStr(selectedAggregation) + "_" + PyStr(fieldSelection));
                   recordInfoOut == Some(out) && anchor.schema == Some(out) && copier == Identity(|recordInfo|)
    {
      var fieldType := ExtractFieldType(metadata);
      if |metadata| > 0 && |recordInfo| > 0 && Describes(metadata[0], recordInfo[0]) {
        NumericFirstField(metadata, recordInfo);
      }
      if fieldType == None {
        return Raised;
      }
      if fieldType.value !in NumericTypes {
        engine.OutputMessage(Error, "Selected A Non-Numeric Field");
        return Returned(false);
      }
      var out := RenameField(recordInfo, fieldSelection, PyStr(selectedAggregation) + "_" + PyStr(fieldSelection));
      recordInfoOut := Some(out);
      anchor.Init(out, "");
      var cs := AddIdentity(|recordInfo|);
      copier := cs;
      initialized := true;
      r := Returned(true);
    }

    /**
     * `ii_push_record`: forwards a copy of the record and always returns
     * False, so the engine sends nothing more: only the first record of the
     * sorted stream (the minimum or maximum) goes out. Before a successful
     * ii_init the record creator does not exist and the call raises.
     */
    method IiPushRecord(inRecord: Record) returns (r: Outcome<bool>)
      requires Valid()
      requires initialized ==> |inRecord| == |recordInfoOut.value|
      modifies anchor`records
      ensures !initialized ==> r == Raised && anchor.records == old(anchor.records)
      ensures initialized ==> r == Returned(false) && anchor.records == old(anchor.records) + [inRecord]
    {
      if !initialized {
        return Raised;
      }
      var outRecord := ApplyCopies(copier, Nulls(|recordInfoOut.value|), inRecord);
      IdentityCopy(Nulls(|recordInfoOut.value|), inRecord);
      var _ := anchor.Push(outRecord);
      r := Returned(false);
    }

    /** `ii_close`: the output anchor is closed. */
    method IiClose()
      modifies anchor`closed
      ensures anchor.closed
    {
      anchor.Close();
    }
  }
}
