// PyInputToolExample/engine.py: a CSV reader with no input. It checks the
// configured path's extension, announces one 254-character V_String field per
// CSV column, pushes one record per data row and reports how many rows it read.
module InputTool {
  import opened Host
  import Text

  /** The path the tool reads when the configuration names none. */
  const DefaultPath: string := "C:\\Users\\username\\Desktop\\PythonInputTest.csv"

  const Separators: set<char> := {'\\', '/'}

  /** The last index of s holding a character of cs, or -1 when there is none. */
  function LastIndexIn(s: string, cs: set<char>): (r: int)
    ensures -1 <= r < |s|
    ensures r >= 0 ==> s[r] in cs
    ensures forall k :: r < k < |s| ==> s[k] !in cs
  {
    if s == [] then -1
    else if s[|s| - 1] in cs then |s| - 1
    else LastIndexIn(s[..|s| - 1], cs)
  }

  /** Characters after the last index of cs do not move it. */
  lemma {:induction false} LastIndexInPrefix(s: string, t: string, cs: set<char>)
    requires forall k :: 0 <= k < |t| ==> t[k] !in cs
    ensures LastIndexIn(s + t, cs) == LastIndexIn(s, cs)
    decreases |t|
  {
    if t != [] {
      var u := s + t;
      assert u[..|u| - 1] == s + t[..|t| - 1];
      LastIndexInPrefix(s, t[..|t| - 1], cs);
    } else {
      assert s + t == s;
    }
  }

  /** The name holds a character other than a dot. */
  predicate HasNonDot(s: string) {
    exists i :: 0 <= i < |s| && s[i] != '.'
  }

  /**
   * `os.path.splitext` as the Windows host runs it: the extension starts at
   * the last dot, provided that dot is in the last path component and that
   * component does not consist of dots up to it (".csv" alone is a name, not
   * an extension).
   */
  function SplitExt(p: string): (r: (string, string))
    ensures r.0 + r.1 == p
    ensures r.1 == [] || r.1[0] == '.'
  {
    var sepIndex := LastIndexIn(p, Separators);
    var dotIndex := LastIndexIn(p, {'.'});
    if dotIndex > sepIndex && HasNonDot(p[sepIndex + 1..dotIndex]) then (p[..dotIndex], p[dotIndex..])
    else (p, "")
  }

  /** `is_csv`: the extension is exactly ".csv" or ".CSV". */
  function IsCsv(p: string): bool
  {
    SplitExt(p).1 == ".csv" || SplitExt(p).1 == ".CSV"
  }

  /** The last component of a path. */
  function Basename(s: string): string
  {
    s[LastIndexIn(s, Separators) + 1..]
  }

  lemma CsvSuffixChars(t: string)
    requires t == ".csv" || t == ".CSV"
    ensures |t| == 4 && t[0] == '.'
    ensures forall k :: 1 <= k < 4 ==> t[k] != '.'
    ensures forall k :: 0 <= k < 4 ==> t[k] !in Separators
  {
  }

  /** Behind a ".csv" or ".CSV" ending, the last dot is the suffix's and the last separator is the stem's. */
  lemma CsvSuffixIndices(p: string)
    requires |p| >= 4 && (p[|p| - 4..] == ".csv" || p[|p| - 4..] == ".CSV")
    ensures LastIndexIn(p, {'.'}) == |p| - 4
    ensures LastIndexIn(p, Separators) == LastIndexIn(p[..|p| - 4], Separators)
  {
    var b := p[..|p| - 4];
    var t := p[|p| - 4..];
    CsvSuffixChars(t);
    assert p == b + t;
    LastIndexInPrefix(b, t, Separators);
    var d := p[..|p| - 3];
    assert p == d + t[1..] && d[..|d| - 1] == b && d[|d| - 1] == '.';
    LastIndexInPrefix(d, t[1..], {'.'});
  }

  /** A ".csv" or ".CSV" ending is the extension splitext finds, and the stem before it decides. */
  lemma CsvSuffix(p: string)
    requires |p| >= 4 && (p[|p| - 4..] == ".csv" || p[|p| - 4..] == ".CSV")
    ensures IsCsv(p) <==> HasNonDot(Basename(p[..|p| - 4]))
  {
    CsvSuffixIndices(p);
    var sepIndex := LastIndexIn(p, Separators);
    assert p[sepIndex + 1..|p| - 4] == Basename(p[..|p| - 4]);
  }

  /** An accepted path ends in ".csv" or ".CSV". */
  lemma CsvHasSuffix(p: string)
    requires IsCsv(p)
    ensures |p| >= 4 && (p[|p| - 4..] == ".csv" || p[|p| - 4..] == ".CSV")
  {
    var ext := SplitExt(p).1;
    assert p == SplitExt(p).0 + ext;
    assert p[|p| - 4..] == ext;
  }

  /**
   * A path is accepted exactly when it ends in ".csv" or ".CSV" and the file
   * name before that suffix is not empty and not only dots.
   */
  lemma IsCsvIff(p: string)
    ensures IsCsv(p) <==>
              |p| >= 4 && (p[|p| - 4..] == ".csv" || p[|p| - 4..] == ".CSV")
              && HasNonDot(Basename(p[..|p| - 4]))
  {
    if IsCsv(p) {
      CsvHasSuffix(p);
    }
    if |p| >= 4 && (p[|p| - 4..] == ".csv" || p[|p| - 4..] == ".CSV") {
      CsvSuffix(p);
    }
  }

  /** The parsed contents of the CSV file: the first row names the columns. */
  datatype CsvFile =
    | Unreadable
    | Csv(header: Option<seq<string>>, rows: seq<seq<string>>)

  /** `add_field(name, v_string, 254, 0, ...)` for every column. */
  function ColumnSchema(header: seq<string>): (r: Schema)
    ensures |r| == |header|
    ensures Names(r) == header
    ensures forall i :: 0 <= i < |r| ==> r[i].ftype == VString && r[i].size == 254 && r[i].scale == 0
  {
    var r := seq(|header|, i requires 0 <= i < |header| => Field(header[i], VString, 254, 0));
    assert Names(r) == header;
    r
  }

  /**
   * The keys of the dict `DictReader` builds from a row, `dict(zip(header, row))`:
   * the header names in the order they first appear, each once.
   */
  function Keys(header: seq<string>): (r: seq<string>)
    ensures |r| <= |header|
    ensures forall x :: x in r <==> x in header
    ensures forall a, b :: 0 <= a < b < |r| ==> r[a] != r[b]
    decreases |header|
  {
    if header == [] then []
    else
      var prefix := Keys(header[..|header| - 1]);
      var name := header[|header| - 1];
      assert forall x :: x in header <==> x in header[..|header| - 1] || x == name;
      if name in prefix then prefix else prefix + [name]
  }

  /** The value the dict holds for a name: the cell of the last column carrying it. */
  function Lookup(header: seq<string>, row: seq<string>, name: string): (v: string)
    requires |row| == |header| && name in header
    ensures exists i :: 0 <= i < |header| && header[i] == name && row[i] == v &&
                        forall j :: i < j < |header| ==> header[j] != name
    decreases |header|
  {
    var n := |header| - 1;
    if header[n] == name then row[n]
    else
      assert name in header[..n];
      Lookup(header[..n], row[..n], name)
  }

  /** `row.items()`: each key with its value, in key order. */
  function RowItems(header: seq<string>, row: seq<string>): (r: seq<(string, string)>)
    requires |row| == |header|
  {
    var keys := Keys(header);
    seq(|keys|, k requires 0 <= k < |keys| => (keys[k], Lookup(header, row, keys[k])))
  }

  /**
   * The record for one CSV row: the k-th item's value set from its string in
   * output field k; the fields past the last item stay null, as the reset
   * record creator leaves them.
   */
  function RowRecord(header: seq<string>, row: seq<string>): (r: Record)
    requires |row| == |header|
    ensures |r| == |header|
  {
    var items := RowItems(header, row);
    seq(|header|, i requires 0 <= i < |header| => if i < |items| then Some(TextV(items[i].1)) else None)
  }

  /** A header that repeats no name gives each output field its own column's string. */
  lemma {:induction false} KeysDistinct(header: seq<string>)
    requires forall a, b :: 0 <= a < b < |header| ==> header[a] != header[b]
    ensures Keys(header) == header
    decreases |header|
  {
    if header != [] {
      KeysDistinct(header[..|header| - 1]);
    }
  }

  /** The last column with a given name is the one it names when no name repeats. */
  lemma LookupDistinct(header: seq<string>, row: seq<string>, i: nat)
    requires |row| == |header| && i < |header|
    requires forall a, b :: 0 <= a < b < |header| ==> header[a] != header[b]
    ensures Lookup(header, row, header[i]) == row[i]
  {
  }

  /**
   * With distinct column names the record holds the row's strings in column
   * order; with a repeated name, the name's field holds the last of its
   * columns' strings and the record ends in one null per repetition.
   */
  lemma RowRecordDistinct(header: seq<string>, row: seq<string>)
    requires |row| == |header|
    requires forall a, b :: 0 <= a < b < |header| ==> header[a] != header[b]
    ensures forall i :: 0 <= i < |header| ==> RowRecord(header, row)[i] == Some(TextV(row[i]))
  {
    KeysDistinct(header);
    forall i | 0 <= i < |header|
      ensures RowRecord(header, row)[i] == Some(TextV(row[i]))
    {
      LookupDistinct(header, row, i);
    }
  }

  /** A header that repeats a name: the one field takes the later cell, the other stays null. */
  lemma RowRecordRepeated()
    ensures RowRecord(["a", "a"], ["1", "2"]) == [Some(TextV("2")), None]
  {
    var header := ["a", "a"];
    assert header[..1] == ["a"] && header[..1][..0] == [];
    assert Keys(header) == ["a"];
  }

  /** Every field of the record is null or the string of a cell under that field's key. */
  lemma RowRecordFields(header: seq<string>, row: seq<string>, i: nat)
    requires |row| == |header| && i < |header|
    ensures RowRecord(header, row)[i] == None <==> i >= |Keys(header)|
    ensures i < |Keys(header)| ==>
              exists j :: 0 <= j < |header| && header[j] == Keys(header)[i] && RowRecord(header, row)[i] == Some(TextV(row[j]))
  {
    var keys := Keys(header);
    if i < |keys| {
      assert keys[i] in header;
      var v := Lookup(header, row, keys[i]);
    }
  }

  function RowRecords(header: seq<string>, rows: seq<seq<string>>): (r: seq<Record>)
    requires forall i :: 0 <= i < |rows| ==> |rows[i]| == |header|
    ensures |r| == |rows|
    ensures forall i :: 0 <= i < |rows| ==> r[i] == RowRecord(header, rows[i])
  {
    seq(|rows|, i requires 0 <= i < |rows| => RowRecord(header, rows[i]))
  }

  /** The report pi_push_all_records ends with. */
  function ReadReport(count: nat, path: string): string
  {
    "Info: " + Text.IntToString(count) + " records were read from " + path
  }

  /** The report starts with the row count in decimal, which reads back as the count. */
  lemma ReadReportCount(count: nat, path: string)
    ensures ReadReport(count, path) == "Info: " + Text.NatToString(count) + " records were read from " + path
    ensures Text.DigitsValue(Text.NatToString(count)) == count
  {
    Text.NatToStringRoundTrip(count);
  }

  const NoIncoming: string := "This tool does not accept an Incoming Connection"

  class Plugin {
    const engine: Engine
    const anchor: OutputAnchor
    var initialized: bool
    var closed: bool
    var fileInputName: Option<string>
    var recordInfoOut: Option<Schema>

    constructor (engine: Engine, anchor: OutputAnchor)
      ensures this.engine == engine && this.anchor == anchor
      ensures !initialized && !closed && fileInputName == Some(DefaultPath)
    {
      this.engine := engine;
      this.anchor := anchor;
      initialized := false;
      closed := false;
      fileInputName := Some(DefaultPath);
      recordInfoOut := None;
    }

    /**
     * `pi_init`: the path is the text of the browseFiles element (None when it
     * is empty); a missing element is reported with the raw XML and re-raised.
     */
    method PiInit(browseFiles: XmlNode, rawXml: string) returns (r: Outcome<()>)
      modifies this`fileInputName, this`initialized, engine`log
      ensures browseFiles == Missing ==>
                && r == Raised && initialized == old(initialized) && fileInputName == old(fileInputName)
                && engine.log == old(engine.log) + [Message(Error, "pi_init: Invalid XML: " + rawXml)]
      ensures browseFiles.Node? ==>
                r == Returned(()) && initialized && fileInputName == browseFiles.text && engine.log == old(engine.log)
    {
      if browseFiles == Missing {
        engine.OutputMessage(Error, "pi_init: Invalid XML: " + rawXml);
        return Raised;
      }
      fileInputName := browseFiles.text;
      initialized := true;
      r := Returned(());
    }

    /** `pi_close`: the tool and its output anchor are closed. */
    method PiClose()
      modifies this`closed, anchor`closed
      ensures closed && anchor.closed
    {
      closed := true;
      anchor.Close();
    }

    /** `pi_add_incoming_connection`: an input is reported as an error. */
    method PiAddIncomingConnection()
      modifies engine`log
      ensures engine.log == old(engine.log) + [Message(Error, "pi_add_incoming_connection: " + NoIncoming)]
    {
      engine.OutputMessage(Error, "pi_add_incoming_connection: " + NoIncoming);
    }

    /**
     * `pi_push_all_records`: nothing before pi_init; a path without a csv
     * extension is an error. Otherwise one V_String column per header name,
     * one record per row holding the row's strings, and a closing report of
     * the row count. An unset path, a file that cannot be opened and an empty
     * file (no header row) raise; the last two do so after the output schema
     * has been reset to an empty one.
     */
    method PiPushAllRecords(file: CsvFile) returns (r: Outcome<bool>)
      requires file.Csv? && file.header.Some? ==>
                 forall i :: 0 <= i < |file.rows| ==> |file.rows[i]| == |file.header.value|
      modifies this`recordInfoOut, anchor`schema, anchor`sortInfo, anchor`records, engine`log
      ensures !old(initialized) ==> r == Returned(false) && anchor.records == old(anchor.records) && engine.log == old(engine.log)
      ensures r != Returned(true) ==>
                anchor.schema == old(anchor.schema) && anchor.sortInfo == old(anchor.sortInfo) && anchor.records == old(anchor.records)
      ensures !initialized || fileInputName == None || !IsCsv(fileInputName.value) ==> recordInfoOut == old(recordInfoOut)
      ensures initialized && fileInputName == None ==> r == Raised && anchor.records == old(anchor.records) && engine.log == old(engine.log)
      ensures initialized && fileInputName.Some? && !IsCsv(fileInputName.value) ==>
                && r == Returned(false) && anchor.records == old(anchor.records)
                && engine.log == old(engine.log) + [Message(Error, "Error: This tool only accepts csv files")]
      ensures initialized && fileInputName.Some? && IsCsv(fileInputName.value) && (file.Unreadable? || file.header.None?) ==>
                && r == Raised && recordInfoOut == Some([])
                && anchor.records == old(anchor.records) && engine.log == old(engine.log)
      ensures initialized && fileInputName.Some? && IsCsv(fileInputName.value) && file.Csv? && file.header.Some? ==>
                && r == Returned(true) && recordInfoOut == Some(ColumnSchema(file.header.value))
                && anchor.schema == Some(ColumnSchema(file.header.value)) && anchor.sortInfo == ""
                && anchor.records == old(anchor.records) + RowRecords(file.header.value, file.rows)
                && engine.log == old(engine.log) + [Message(Info, ReadReport(|file.rows|, fileInputName.value))]
    {
      if !initialized {
        return Returned(false);
      }
      if fileInputName == None {
        return Raised;
      }
      var path := fileInputName.value;
      if !IsCsv(path) {
        engine.OutputMessage(Error, "Error: This tool only accepts csv files");
        return Returned(false);
      }
      recordInfoOut := Some([]);
      if file.Unreadable? || file.header.None? {
        return Raised;
      }
      var header := file.header.value;
      var out := ColumnSchema(header);
      recordInfoOut := Some(out);
      anchor.Init(out, "");
      var rownum := 0;
      while rownum < |file.rows|
        invariant 0 <= rownum <= |file.rows|
        invariant anchor.schema == Some(out) && anchor.sortInfo == "" && engine.log == old(engine.log)
        invariant recordInfoOut == Some(out)
        invariant anchor.records == old(anchor.records) + RowRecords(header, file.rows[..rownum])
      {
        var row := file.rows[rownum];
        var items := RowItems(header, row);
        var creator := Nulls(|out|);
        var index := 0;
        while index < |items|
          invariant 0 <= index <= |items| <= |header|
          invariant |creator| == |header|
          invariant forall k :: 0 <= k < |header| ==> creator[k] == if k < index then Some(TextV(items[k].1)) else None
        {
          creator := creator[index := Some(TextV(items[index].1))];
          index := index + 1;
        }
        assert creator == RowRecord(header, row);
        var _ := anchor.Push(creator);
        assert file.rows[..rownum + 1] == file.rows[..rownum] + [row];
        assert RowRecords(header, file.rows[..rownum + 1]) == RowRecords(header, file.rows[..rownum]) + [RowRecord(header, row)];
        rownum := rownum + 1;
      }
      assert file.rows[..rownum] == file.rows;
      engine.OutputMessage(Info, ReadReport(rownum, path));
      r := Returned(true);
    }

    /** `ii_init`: an input is reported as an error and refused. */
    method IiInit() returns (ok: bool)
      modifies engine`log
      ensures !ok && engine.log == old(engine.log) + [Message(Error, "ii_init: " + NoIncoming)]
    {
      engine.OutputMessage(Error, "ii_init: " + NoIncoming);
      ok := false;
    }

    /** `ii_push_record`: a record is reported as an error and refused. */
    method IiPushRecord() returns (ok: bool)
      modifies engine`log
      ensures !ok && engine.log == old(engine.log) + [Message(Error, "ii_push_record: " + NoIncoming)]
    {
      engine.OutputMessage(Error, "ii_push_record: " + NoIncoming);
      ok := false;
    }

    /** `ii_update_progress`: reported as an error. */
    method IiUpdateProgress()
      modifies engine`log
      ensures engine.log == old(engine.log) + [Message(Error, "ii_update_progress: " + NoIncoming)]
    {
      engine.OutputMessage(Error, "ii_update_progress: " + NoIncoming);
    }

    /** `ii_close`: reported as an error. */
    method IiClose()
      modifies engine`log
      ensures engine.log == old(engine.log) + [Message(Error, "ii_close: " + NoIncoming)]
    {
      engine.OutputMessage(Error, "ii_close: " + NoIncoming);
    }
  }
}
