// PyOutputToolExample/PyOutputToolExampleEngine.py: a CSV writer. The header
// is the input's field names joined by ','; every record appends one row of
// comma-joined cells to the file at the configured path, the first one
// preceded by the header.
module OutputTool {
  import opened Host
  import Text

  /**
   * `extract_records`: a null is the empty string; bool, byte, int32 and
   * int64 fields are written as Python prints their value, so an integer
   * cell reads back through `int()` as the field's value; a double is
   * written as the host's text for it; every other type as `get_as_string`,
   * which gives a string field's own text.
   */
  function Cell(f: Field, v: Option<Value>): (r: string)
    ensures v == None ==> r == ""
    ensures f.ftype == Bool && v.Some? && v.value.BoolV? ==> (r == "True" || r == "False") && (r == "True" <==> v.value.b)
    ensures f.ftype in {Byte, Int32, Int64} && v.Some? && v.value.IntV? ==>
              && |r| > 0 && (r[0] == '-' <==> v.value.i < 0)
              && Text.IsIntLiteral(r) && Text.IntLiteralValue(r) == v.value.i
    ensures v.Some? && v.value.TextV? ==> r == v.value.s
    ensures v.Some? && v.value.DoubleV? ==> r == v.value.text
  {
    if v == None then ""
    else if f.ftype == Bool && v.value.BoolV? then Text.PyBool(v.value.b)
    else if f.ftype in {Byte, Int32, Int64} && v.value.IntV? then
      Text.IntToStringRoundTrip(v.value.i);
      Text.IntToString(v.value.i)
    else if f.ftype == Double && v.value.DoubleV? then v.value.text
    else HostString(v.value)
  }

  function Cells(s: Schema, rec: Record): (r: seq<string>)
    requires |rec| == |s|
    ensures |r| == |s|
    ensures forall i :: 0 <= i < |s| ==> r[i] == Cell(s[i], rec[i])
  {
    seq(|s|, i requires 0 <= i < |s| => Cell(s[i], rec[i]))
  }

  /** One CSV row: the cells in schema order, joined by ','. */
  function Row(s: Schema, rec: Record): (r: string)
    requires |rec| == |s|
    ensures |s| == 1 ==> r == Cell(s[0], rec[0])
  {
    Text.Join(",", Cells(s, rec))
  }

  /** A row splits back into its cells when no cell holds a comma. */
  lemma RowRoundTrip(s: Schema, rec: Record)
    requires |rec| == |s| >= 1
    requires forall i :: 0 <= i < |s| ==> ',' !in Cell(s[i], rec[i])
    ensures Text.Split(Row(s, rec), ',') == Cells(s, rec)
    ensures |Text.Split(Row(s, rec), ',')| == |s|
  {
    Text.SplitJoin(Cells(s, rec), ',');
  }

  /** The header: the field names joined by ',' with every newline removed. */
  function Header(s: Schema): (r: string)
    ensures '\n' !in r
  {
    Text.Remove(Text.Join(",", Names(s)), '\n')
  }

  /** The header is the newline-free names joined by ',': removing newlines never merges or splits columns. */
  lemma HeaderColumns(s: Schema)
    ensures Header(s) == Text.Join(",", Text.RemoveEach(Names(s), '\n'))
    ensures |s| >= 1 ==> Text.Split(Header(s), ',') == Text.RemoveEach(Names(s), '\n') || exists i :: 0 <= i < |s| && ',' in s[i].name
  {
    Text.RemoveJoin(",", Names(s), '\n');
    var parts := Text.RemoveEach(Names(s), '\n');
    if |s| >= 1 && forall i :: 0 <= i < |s| ==> ',' !in s[i].name {
      forall i | 0 <= i < |parts| ensures ',' !in parts[i] {
        Text.RemoveKeeps(Names(s)[i], '\n', ',');
      }
      Text.SplitJoin(parts, ',');
    }
  }

  /** Every row after the header, each preceded by a newline. */
  function Lines(rows: seq<string>): string
  {
    if rows == [] then "" else "\n" + rows[0] + Lines(rows[1..])
  }

  lemma {:induction false} LinesAppend(rows: seq<string>, row: string)
    ensures Lines(rows + [row]) == Lines(rows) + "\n" + row
    decreases |rows|
  {
    if rows == [] {
      assert [row][1..] == [];
    } else {
      assert (rows + [row])[0] == rows[0] && (rows + [row])[1..] == rows[1..] + [row];
      LinesAppend(rows[1..], row);
    }
  }

  /** What the tool has added to the file after the given rows: nothing, or the header and then the rows. */
  function Written(header: string, rows: seq<string>): string
  {
    if rows == [] then "" else header + Lines(rows)
  }

  class Plugin {
    const engine: Engine
    /** The file at the configured path. */
    const file: TextFile
    var initialized: bool
    var strFilePath: Option<string>

    constructor (engine: Engine, file: TextFile)
      ensures this.engine == engine && this.file == file
      ensures !initialized && strFilePath == None
    {
      this.engine := engine;
      this.file := file;
      initialized := false;
      strFilePath := None;
    }

    /**
     * `pi_init`: the path is the text of the fileOutputPath element. A missing
     * element raises before anything is reported, because the handler's
     * reference to the SDK module is undefined.
     */
    method PiInit(fileOutputPath: XmlNode) returns (r: Outcome<()>)
      modifies this`strFilePath, this`initialized
      ensures fileOutputPath == Missing ==> r == Raised && strFilePath == old(strFilePath) && initialized == old(initialized)
      ensures fileOutputPath.Node? ==> r == Returned(()) && strFilePath == fileOutputPath.text && initialized
    {
      if fileOutputPath == Missing {
        return Raised;
      }
      strFilePath := fileOutputPath.text;
      initialized := true;
      r := Returned(());
    }

    /** `pi_add_incoming_connection`: a fresh incoming interface. */
    method PiAddIncomingConnection() returns (input: Incoming)
      ensures fresh(input) && input.parent == this && input.Valid()
      ensures input.firstRecord && input.recordInfoIn == None && input.base == file.contents
    {
      input := new Incoming(this);
    }

    /**
     * `pi_push_all_records`: the error report refers to an undefined helper,
     * so the call raises and nothing is reported.
     */
    method PiPushAllRecords() returns (r: Outcome<bool>)
      ensures r == Raised
    {
      r := Raised;
    }
  }

  class Incoming {
    const parent: Plugin
    var recordInfoIn: Option<Schema>
    var fieldNames: Option<string>
    var firstRecord: bool
    var initialized: bool
    /** The file's contents when this connection was added. */
    ghost const base: string
    /** The header written with the first row. */
    ghost var header: string
    /** Every row written, in order. */
    ghost var rows: seq<string>

    ghost predicate Valid()
      reads this, parent, parent.file
    {
      && (recordInfoIn.Some? <==> fieldNames.Some?)
      && (firstRecord <==> rows == [])
      && parent.file.contents == base + Written(header, rows)
    }

    constructor (parent: Plugin)
      ensures this.parent == parent && Valid()
      ensures firstRecord && recordInfoIn == None && fieldNames == None && !initialized
      ensures base == parent.file.contents && rows == []
    {
      this.parent := parent;
      recordInfoIn := None;
      fieldNames := None;
      firstRecord := true;
      initialized := false;
      base := parent.file.contents;
      header := "";
      rows := [];
    }

    /**
     * `ii_init`: builds the header. An unset path and an existing file are
     * reported as errors, but the call succeeds either way.
     */
    method IiInit(recordInfo: Schema) returns (ok: bool)
      requires Valid()
      modifies this`recordInfoIn, this`fieldNames, this`initialized, parent.engine`log
      ensures Valid() && ok
      ensures recordInfoIn == Some(recordInfo) && fieldNames == Some(Header(recordInfo))
      ensures parent.strFilePath == None ==>
                parent.engine.log == old(parent.engine.log) + [Message(Error, "Error: Please enter a file path.")]
      ensures parent.strFilePath.Some? && parent.file.present ==>
                && parent.engine.log == old(parent.engine.log)
                     + [Message(Error, "Error: " + parent.strFilePath.value + " already exists. Please enter a different path.")]
                && initialized
      ensures parent.strFilePath.Some? && !parent.file.present ==>
                parent.engine.log == old(parent.engine.log) && initialized == old(initialized)
    {
      recordInfoIn := Some(recordInfo);
      var names := Text.Join(",", Names(recordInfo));
      fieldNames := Some(Text.Remove(names, '\n'));
      if parent.strFilePath == None {
        parent.engine.OutputMessage(Error, "Error: Please enter a file path.");
      } else if parent.file.present {
        parent.engine.OutputMessage(Error, "Error: " + parent.strFilePath.value + " already exists. Please enter a different path.");
        initialized := true;
      }
      ok := true;
    }

    /**
     * `ii_push_record`: the row goes at the end of the file, after the header
     * and a newline for the first record and after a newline for every later
     * one, so the file holds what it held before, the header and every row
     * each preceded by a newline. Before ii_init, or without a path, the call
     * raises.
     */
    method IiPushRecord(inRecord: Record) returns (r: Outcome<bool>)
      requires Valid()
      requires recordInfoIn.Some? ==> |inRecord| == |recordInfoIn.value|
      modifies this`firstRecord, this`header, this`rows, parent.file
      ensures Valid()
      ensures recordInfoIn == None || parent.strFilePath == None ==>
                r == Raised && parent.file.contents == old(parent.file.contents) && rows == old(rows)
      ensures recordInfoIn.Some? && parent.strFilePath.Some? ==>
                && r == Returned(true) && !firstRecord
                && rows == old(rows) + [Row(recordInfoIn.value, inRecord)]
                && parent.file.contents == old(parent.file.contents)
                     + (if old(firstRecord) then fieldNames.value + "\n" else "\n") + Row(recordInfoIn.value, inRecord)
                && parent.file.contents == base + header + Lines(rows)
    {
      if recordInfoIn == None || parent.strFilePath == None {
        return Raised;
      }
      var nthRecord := Row(recordInfoIn.value, inRecord);
      WriteRow(nthRecord);
      r := Returned(true);
    }

    /** The file write of `ii_push_record`: the header before the first row, a newline before every row. */
    method WriteRow(nthRecord: string)
      requires Valid() && fieldNames.Some?
      modifies this`firstRecord, this`header, this`rows, parent.file
      ensures Valid() && !firstRecord
      ensures rows == old(rows) + [nthRecord]
      ensures parent.file.contents == old(parent.file.contents)
                + (if old(firstRecord) then fieldNames.value + "\n" else "\n") + nthRecord
      ensures parent.file.contents == base + header + Lines(rows)
    {
      LinesAppend(rows, nthRecord);
      if firstRecord {
        assert Lines([] + [nthRecord]) == "\n" + nthRecord;
        parent.file.Append(fieldNames.value + "\n" + nthRecord);
        header := fieldNames.value;
        firstRecord := false;
      } else {
        parent.file.Append("\n" + nthRecord);
      }
      rows := rows + [nthRecord];
    }

    /** `ii_close`: reports the file as written whenever a path is set. */
    method IiClose()
      modifies parent.engine`log
      ensures parent.strFilePath == None ==> parent.engine.log == old(parent.engine.log)
      ensures parent.strFilePath.Some? ==>
                parent.engine.log == old(parent.engine.log) + [Message(Info, "Output: " + parent.strFilePath.value + " was written.")]
    {
      if parent.strFilePath.Some? {
        parent.engine.OutputMessage(Info, "Output: " + parent.strFilePath.value + " was written.");
      }
    }
  }
}
