// PyOutputToolExample/engine.py: a text writer. The header is Python's
// printed list of field names with the brackets and quotes stripped; every
// record adds a line built the same way from its values; at the end the
// header and the lines are written to a file that must not exist yet.
module OutputEngine {
  import opened Host
  import Text

  /** `str(list)` for a list of strings: each quoted with `'`, joined by ", ", in brackets. */
  function PyList(parts: seq<string>): string
  {
    "[" + Text.Join(", ", Quoted(parts)) + "]"
  }

  function Quoted(parts: seq<string>): (r: seq<string>)
    ensures |r| == |parts|
    ensures forall i :: 0 <= i < |parts| ==> r[i] == "'" + parts[i] + "'"
  {
    seq(|parts|, i requires 0 <= i < |parts| => "'" + parts[i] + "'")
  }

  /** The three `replace` calls: every '[', ']' and quote removed. */
  function Strip(s: string): (r: string)
    ensures '[' !in r && ']' !in r && '\'' !in r
  {
    var a := Text.Remove(s, '[');
    var b := Text.Remove(a, ']');
    Text.RemoveKeeps(a, ']', '[');
    Text.RemoveKeeps(b, '\'', '[');
    Text.RemoveKeeps(b, '\'', ']');
    Text.Remove(b, '\'')
  }

  /** Text holding none of the three characters is left as it is. */
  lemma StripClean(s: string)
    requires '[' !in s && ']' !in s && '\'' !in s
    ensures Strip(s) == s
  {
  }

  function StripEach(parts: seq<string>): (r: seq<string>)
    ensures |r| == |parts|
    ensures forall i :: 0 <= i < |parts| ==> r[i] == Strip(parts[i])
  {
    seq(|parts|, i requires 0 <= i < |parts| => Strip(parts[i]))
  }

  lemma StripConcat(a: string, b: string)
    ensures Strip(a + b) == Strip(a) + Strip(b)
  {
    Text.RemoveConcat(a, b, '[');
    Text.RemoveConcat(Text.Remove(a, '['), Text.Remove(b, '['), ']');
    Text.RemoveConcat(Text.Remove(Text.Remove(a, '['), ']'), Text.Remove(Text.Remove(b, '['), ']'), '\'');
  }

  /** Each of the three characters alone strips to nothing. */
  lemma StripMarks()
    ensures Strip("[") == "" && Strip("]") == "" && Strip("'") == ""
  {
    assert Text.Remove("[", '[') == "";
    assert Text.Remove("]", '[') == "]" && Text.Remove("]", ']') == "";
    assert Text.Remove("'", '[') == "'" && Text.Remove("'", ']') == "'" && Text.Remove("'", '\'') == "";
  }

  /** Stripping a join on ", " strips each part. */
  lemma {:induction false} StripJoin(parts: seq<string>)
    ensures Strip(Text.Join(", ", parts)) == Text.Join(", ", StripEach(parts))
    decreases |parts|
  {
    if |parts| > 1 {
      var rest := Text.Join(", ", parts[1..]);
      assert Text.Join(", ", parts) == parts[0] + ", " + rest;
      StripConcat(parts[0] + ", ", rest);
      StripConcat(parts[0], ", ");
      StripSeparator();
      StripJoin(parts[1..]);
      var e := StripEach(parts);
      assert e[1..] == StripEach(parts[1..]);
      assert Text.Join(", ", e) == e[0] + ", " + Text.Join(", ", e[1..]);
    }
  }

  /** The separator holds none of the three characters. */
  lemma StripSeparator()
    ensures Strip(", ") == ", "
  {
    var sep := ", ";
    assert |sep| == 2 && sep[0] == ',' && sep[1] == ' ';
    StripClean(sep);
  }

  /** The quotes around an item disappear. */
  lemma StripQuoted(p: string)
    ensures Strip("'" + p + "'") == Strip(p)
  {
    StripConcat("'" + p, "'");
    StripConcat("'", p);
    StripMarks();
  }

  lemma StripEachQuoted(parts: seq<string>)
    ensures StripEach(Quoted(parts)) == StripEach(parts)
  {
    forall i | 0 <= i < |parts| ensures StripEach(Quoted(parts))[i] == StripEach(parts)[i] {
      StripQuoted(parts[i]);
    }
  }

  /**
   * Stripping a printed list gives its items stripped and joined by ", ":
   * the brackets and quotes the printing adds disappear, and so do any the
   * items held.
   */
  lemma StripPyList(parts: seq<string>)
    ensures Strip(PyList(parts)) == Text.Join(", ", StripEach(parts))
  {
    var inner := Text.Join(", ", Quoted(parts));
    StripConcat("[" + inner, "]");
    StripConcat("[", inner);
    StripMarks();
    assert Strip(PyList(parts)) == Strip(inner);
    StripJoin(Quoted(parts));
    StripEachQuoted(parts);
  }

  /** Brackets around clean text disappear. */
  lemma StripBracketed(t: string)
    requires '[' !in t && ']' !in t && '\'' !in t
    ensures Strip("[" + t + "]") == t
  {
    StripConcat("[" + t, "]");
    StripConcat("[", t);
    StripMarks();
    StripClean(t);
  }

  /** A null prints as "[Null]" and so shows as "Null". */
  lemma StripNull()
    ensures Strip("[Null]") == "Null"
  {
    StripBracketed("Null");
    NullText();
  }

  lemma NullText()
    ensures "[" + "Null" + "]" == "[Null]"
  {
    var s := "[" + "Null" + "]";
    assert |s| == 6 && s[0] == '[' && s[1] == 'N' && s[2] == 'u' && s[3] == 'l' && s[4] == 'l' && s[5] == ']';
  }

  /** `null_to_str`: the host's text for a value, "[Null]" for a null. */
  function NullToStr(v: Option<Value>): string
  {
    if v == None then "[Null]" else HostString(v.value)
  }

  /** The line for one record: its values printed as a list and stripped. */
  function Line(rec: Record): (r: string)
    ensures '[' !in r && ']' !in r && '\'' !in r
  {
    Strip(PyList(seq(|rec|, i requires 0 <= i < |rec| => NullToStr(rec[i]))))
  }

  /** How a value shows in a line: "Null" for a null, otherwise its text stripped. */
  function Shown(v: Option<Value>): string
  {
    if v == None then "Null" else Strip(HostString(v.value))
  }

  /** Stripping what `null_to_str` prints gives what the line shows. */
  lemma StripNullToStr(v: Option<Value>)
    ensures Strip(NullToStr(v)) == Shown(v)
  {
    if v == None {
      StripNull();
    }
  }

  /** A line is the stripped values joined by ", ", a null showing as "Null". */
  lemma LineValues(rec: Record)
    ensures Line(rec) == Text.Join(", ", seq(|rec|, i requires 0 <= i < |rec| => Shown(rec[i])))
  {
    var texts := seq(|rec|, i requires 0 <= i < |rec| => NullToStr(rec[i]));
    var shown := seq(|rec|, i requires 0 <= i < |rec| => Shown(rec[i]));
    StripPyList(texts);
    forall i | 0 <= i < |rec| ensures StripEach(texts)[i] == shown[i] {
      StripNullToStr(rec[i]);
    }
    assert StripEach(texts) == shown;
  }

  /** `all_records` after the given lines: each followed by " \n". */
  function AllRecords(lines: seq<string>): string
  {
    if lines == [] then "" else AllRecords(lines[..|lines| - 1]) + lines[|lines| - 1] + " \n"
  }

  /** The pieces of `all_records` between its newlines: each line with its trailing space. */
  function Spaced(lines: seq<string>): (r: seq<string>)
    ensures |r| == |lines|
    ensures forall i :: 0 <= i < |lines| ==> r[i] == lines[i] + " "
  {
    seq(|lines|, i requires 0 <= i < |lines| => lines[i] + " ")
  }

  /** The accumulated text is the spaced lines joined by newlines, with a final newline. */
  lemma {:induction false} AllRecordsJoin(lines: seq<string>)
    ensures AllRecords(lines) == Text.Join("\n", Spaced(lines) + [""])
    decreases |lines|
  {
    if lines != [] {
      var front := lines[..|lines| - 1];
      var last := lines[|lines| - 1];
      AllRecordsJoin(front);
      assert Spaced(lines) == Spaced(front) + [last + " "];
      if front == [] {
        assert Spaced(lines) + [""] == [last + " ", ""];
        assert Text.Join("\n", [""]) == "";
      } else {
        Text.JoinAppend("\n", Spaced(front), "");
        Text.JoinAppend("\n", Spaced(front), last + " ");
        Text.JoinAppend("\n", Spaced(front) + [last + " "], "");
      }
    }
  }

  /**
   * One line per record: splitting the accumulated text at its newlines gives
   * every record's line, in order, with its trailing space, and then the
   * empty text after the last newline.
   */
  lemma AllRecordsLines(lines: seq<string>)
    requires forall i :: 0 <= i < |lines| ==> '\n' !in lines[i]
    ensures Text.Split(AllRecords(lines), '\n') == Spaced(lines) + [""]
  {
    var parts := Spaced(lines) + [""];
    assert AllRecords(lines) == Text.Join(['\n'], parts) by {
      AllRecordsJoin(lines);
    }
    SpacedNoNewline(lines);
    Text.SplitJoin(parts, '\n');
  }

  /** Adding the trailing space to lines without a newline introduces none. */
  lemma SpacedNoNewline(lines: seq<string>)
    requires forall i :: 0 <= i < |lines| ==> '\n' !in lines[i]
    ensures forall i :: 0 <= i < |lines| + 1 ==> '\n' !in (Spaced(lines) + [""])[i]
  {
    var parts := Spaced(lines) + [""];
    forall i | 0 <= i < |parts| ensures '\n' !in parts[i] {
      if i < |lines| {
        assert parts[i] == lines[i] + " ";
      }
    }
  }

  class Plugin {
    const engine: Engine
    /** The file at the configured path. */
    const file: TextFile
    var initialized: bool
    var strFilePath: Option<string>
    var recordInfoIn: Option<Schema>
    var fieldNames: Option<string>
    var allRecords: string
    /** The lines added since the last ii_init. */
    ghost var lines: seq<string>

    ghost predicate Valid()
      reads this
    {
      && (recordInfoIn.Some? <==> fieldNames.Some?)
      && allRecords == AllRecords(lines)
    }

    constructor (engine: Engine, file: TextFile)
      ensures Valid() && this.engine == engine && this.file == file
      ensures !initialized && strFilePath == None && recordInfoIn == None
    {
      this.engine := engine;
      this.file := file;
      initialized := false;
      strFilePath := None;
      recordInfoIn := None;
      fieldNames := None;
      allRecords := "";
      lines := [];
    }

    /** `pi_init`: the path is the text of the TextBox1 element; a missing one is reported with the raw XML and re-raised. */
    method PiInit(textBox: XmlNode, rawXml: string) returns (r: Outcome<()>)
      modifies this`strFilePath, this`initialized, engine`log
      ensures textBox == Missing ==>
                && r == Raised && strFilePath == old(strFilePath) && initialized == old(initialized)
                && engine.log == old(engine.log) + [Message(Error, "pi_init: Invalid XML: " + rawXml)]
      ensures textBox.Node? ==>
                r == Returned(()) && strFilePath == textBox.text && initialized && engine.log == old(engine.log)
    {
      if textBox == Missing {
        engine.OutputMessage(Error, "pi_init: Invalid XML: " + rawXml);
        return Raised;
      }
      strFilePath := textBox.text;
      initialized := true;
      r := Returned(());
    }

    /** `pi_add_outgoing_connection`: an output is reported as an error, under the wrong method name, but accepted. */
    method PiAddOutgoingConnection() returns (ok: bool)
      modifies engine`log
      ensures ok
      ensures engine.log == old(engine.log) + [Message(Error, "ii_push_record: This tool does not accept an Outgoing Connection")]
    {
      engine.OutputMessage(Error, "ii_push_record: This tool does not accept an Outgoing Connection");
      ok := true;
    }

    /** `pi_push_all_records`: this tool needs an input, so it reports an error and fails. */
    method PiPushAllRecords() returns (ok: bool)
      modifies engine`log
      ensures !ok
      ensures engine.log == old(engine.log) + [Message(Error, "pi_push_all_records: Missing Incoming Connection")]
    {
      engine.OutputMessage(Error, "pi_push_all_records: Missing Incoming Connection");
      ok := false;
    }

    /** `get_field_names`: the field names in schema order. */
    method GetFieldNames(recordInfo: Schema) returns (ret: seq<string>)
      ensures ret == Names(recordInfo)
    {
      ret := [];
      var idx := 0;
      while idx < |recordInfo|
        invariant 0 <= idx <= |recordInfo|
        invariant ret == Names(recordInfo[..idx])
      {
        assert recordInfo[..idx + 1] == recordInfo[..idx] + [recordInfo[idx]];
        NamesAppend(recordInfo[..idx], recordInfo[idx]);
        ret := ret + [recordInfo[idx].name];
        idx := idx + 1;
      }
      assert recordInfo[..idx] == recordInfo;
    }

    /** `ii_init`: the header is the stripped printed list of field names, and the accumulated lines start over. */
    method IiInit(recordInfo: Schema) returns (ok: bool)
      modifies this`recordInfoIn, this`fieldNames, this`allRecords, this`lines, this`initialized
      ensures Valid() && ok && initialized
      ensures recordInfoIn == Some(recordInfo) && lines == []
      ensures fieldNames == Some(Text.Join(", ", StripEach(Names(recordInfo))))
    {
      recordInfoIn := Some(recordInfo);
      var names := GetFieldNames(recordInfo);
      StripPyList(names);
      fieldNames := Some(Strip(PyList(names)));
      allRecords := "";
      lines := [];
      initialized := true;
      ok := true;
    }

    /**
     * `ii_push_record`: refused before pi_init or ii_init has run; raises when
     * only pi_init has (no schema yet). Otherwise the record's line and " \n"
     * are added to the accumulated text.
     */
    method IiPushRecord(inRecord: Record) returns (r: Outcome<bool>)
      requires Valid()
      modifies this`allRecords, this`lines
      ensures Valid()
      ensures !initialized ==> r == Returned(false) && lines == old(lines)
      ensures initialized && recordInfoIn == None ==> r == Raised && lines == old(lines)
      ensures initialized && recordInfoIn.Some? ==>
                && r == Returned(true) && lines == old(lines) + [Line(inRecord)]
                && allRecords == old(allRecords) + Line(inRecord) + " \n"
    {
      if !initialized {
        return Returned(false);
      }
      if recordInfoIn == None {
        return Raised;
      }
      var line := Line(inRecord);
      allRecords := allRecords + line + " \n";
      lines := lines + [line];
      assert lines[..|lines| - 1] == old(lines);
      r := Returned(true);
    }

    /**
     * `ii_close`: when the file already exists an error is reported and
     * nothing is written; otherwise the header, a newline and every line are
     * written and reported. Without a path the call raises, and without a
     * header it raises after the file was created.
     */
    method IiClose() returns (r: Outcome<()>)
      requires Valid()
      modifies file, engine`log
      ensures strFilePath == None ==>
                r == Raised && file.contents == old(file.contents) && file.present == old(file.present)
      ensures strFilePath.Some? && old(file.present) ==>
                && r == Returned(()) && file.contents == old(file.contents)
                && engine.log == old(engine.log)
                     + [Message(Error, "Error : " + strFilePath.value + " already exists. Please enter a different path.")]
      ensures strFilePath.Some? && !old(file.present) && fieldNames == None ==>
                r == Raised && file.present && file.contents == old(file.contents)
      ensures strFilePath.Some? && !old(file.present) && fieldNames.Some? ==>
                && r == Returned(()) && file.present
                && file.contents == old(file.contents) + fieldNames.value + "\n" + AllRecords(lines)
                && engine.log == old(engine.log) + [Message(Info, "Output : " + strFilePath.value + " was written.")]
    {
      if strFilePath == None {
        return Raised;
      }
      if file.present {
        engine.OutputMessage(Error, "Error : " + strFilePath.value + " already exists. Please enter a different path.");
        return Returned(());
      }
      if fieldNames == None {
        file.Append("");
        return Raised;
      }
      file.Append(fieldNames.value + "\n" + allRecords);
      engine.OutputMessage(Info, "Output : " + strFilePath.value + " was written.");
      r := Returned(());
    }
  }
}
