// The host engine as the plugins see it: field descriptors, schemas (a
// RecordInfo), records, the record copier, output anchors and the engine's
// message sink. The host's own implementation is foreign code; only what the
// plugins rely on is modelled here.
module Host {
  import Text

  datatype Option<T> = None | Some(value: T)

  /** The result of a callback: the value it returns, or an exception it raises. */
  datatype Outcome<T> = Returned(value: T) | Raised

  /** A child element of the configuration XML: absent, or present with its (possibly empty) text. */
  datatype XmlNode = Missing | Node(text: Option<string>)

  /** `'{0}'.format(x)` for a value that is a string or None. */
  function PyStr(x: Option<string>): (r: string)
    ensures x.Some? ==> r == x.value
  {
    if x.Some? then x.value else "None"
  }

  datatype FieldType =
    | Bool | Byte | Int16 | Int32 | Int64 | FixedDecimal | Float | Double
    | String | WString | VString | VWString
    | Date | Time | DateTime | Blob | SpatialObj

  /** One field of a RecordInfo: name, type, size and scale. */
  datatype Field = Field(name: string, ftype: FieldType, size: int, scale: int)

  /** A RecordInfo: the ordered field descriptors of a stream. */
  type Schema = seq<Field>

  /** A field value. `DoubleV` carries the host's text for a floating-point value. */
  datatype Value = BoolV(b: bool) | IntV(i: int) | DoubleV(text: string) | TextV(s: string)

  /** A record: one optional value per field, None being a null. */
  type Record = seq<Option<Value>>

  /** `get_as_string` as the host renders a value. */
  function HostString(v: Value): string
  {
    match v
    case BoolV(b) => if b then "True" else "False"
    case IntV(i) => Text.IntToString(i)
    case DoubleV(t) => t
    case TextV(s) => s
  }

  /** `Field.get_as_string(record)`: the host's text for the value, None for a null. */
  function GetAsString(v: Option<Value>): (r: Option<string>)
    ensures r == None <==> v == None
  {
    if v == None then None else Some(HostString(v.value))
  }

  /** Two integer values of a field read as the same text only when they are equal. */
  lemma GetAsStringInt(a: int, b: int)
    ensures GetAsString(Some(IntV(a))) == GetAsString(Some(IntV(b))) <==> a == b
  {
    Text.IntToStringRoundTrip(a);
    Text.IntToStringRoundTrip(b);
  }

  /**
   * `int(x)` for a setting read from the configuration XML: None (the text
   * of an empty element) raises a TypeError and text that is not an integer
   * literal raises a ValueError, both modelled as no value.
   */
  function PyInt(x: Option<string>): (r: Option<int>)
    ensures r.Some? ==> x.Some? && |x.value| > 0
  {
    if x.Some? && Text.IsIntLiteral(x.value) then Some(Text.IntLiteralValue(x.value)) else None
  }

  /** A value is read only from present text of whitespace, signs, digits and underscores, holding a digit. */
  lemma PyIntChars(x: Option<string>)
    requires PyInt(x).Some?
    ensures x.Some? && forall k :: 0 <= k < |x.value| ==> Text.LiteralChar(x.value[k])
    ensures exists k :: 0 <= k < |x.value| && '0' <= x.value[k] <= '9'
  {
    Text.LiteralChars(x.value);
  }

  /** `int(str(i)) == i`; `int()` reads "1_000" but no value from a missing text, "abc", "" or "1__0". */
  lemma PyIntExamples(i: int)
    ensures PyInt(Some(Text.IntToString(i))) == Some(i)
    ensures PyInt(None) == None && PyInt(Some("abc")) == None && PyInt(Some("")) == None
    ensures PyInt(Some("1_000")) == Some(1000) && PyInt(Some("1__0")) == None
  {
    assert PyInt(Some(Text.IntToString(i))) == Some(i) by { Text.IntToStringRoundTrip(i); }
    assert PyInt(Some("abc")) == None by { assert !Text.LiteralChar("abc"[0]); }
    assert PyInt(Some("1_000")) == Some(1000) && PyInt(Some("1__0")) == None by { Text.UnderscoredLiteral(); }
  }

  datatype MessageKind = Info | Warning | FieldConversionError | Error

  datatype Message = Message(kind: MessageKind, text: string)

  /** A pre_sort request: connection type, connection name and the sort XML. */
  datatype PreSort = PreSort(connType: string, connName: string, sortInfo: string)

  /** One `RecordCopier.add(dst, src)` mapping: output field dst receives input field src. */
  datatype Copy = Copy(dst: nat, src: nat)

  function Names(s: Schema): (r: seq<string>)
    ensures |r| == |s|
    ensures forall i :: 0 <= i < |s| ==> r[i] == s[i].name
  {
    if s == [] then [] else [s[0].name] + Names(s[1..])
  }

  /** `add_field` appends one descriptor, so one name. */
  lemma NamesAppend(s: Schema, f: Field)
    ensures Names(s + [f]) == Names(s) + [f.name]
  {
    assert forall i :: 0 <= i < |s| ==> Names(s + [f])[i] == (s + [f])[i].name == s[i].name;
  }

  /** The names of two schemas side by side. */
  lemma NamesConcat(a: Schema, b: Schema)
    ensures Names(a + b) == Names(a) + Names(b)
  {
    var l := Names(a + b);
    var m := Names(a) + Names(b);
    forall i | 0 <= i < |l| ensures l[i] == m[i] {
      if i < |a| {
        assert (a + b)[i] == a[i];
      } else {
        assert (a + b)[i] == b[i - |a|];
      }
    }
  }

  /** `get_field_num(name)`: the first position of the name. */
  function FieldNum(names: seq<string>, name: string): (r: nat)
    requires name in names
    ensures r < |names| && names[r] == name
    ensures forall k :: 0 <= k < r ==> names[k] != name
  {
    if names[0] == name then 0 else 1 + FieldNum(names[1..], name)
  }

  /** A name new to a schema is found at the position appended after it. */
  lemma FieldNumAppended(names: seq<string>, name: string)
    requires name !in names
    ensures FieldNum(names + [name], name) == |names|
  {
  }

  /** No two fields of the schema share a name: an assumption where a tool's proofs need it, not a host guarantee. */
  ghost predicate DistinctNames(s: Schema) {
    forall i, j :: 0 <= i < j < |s| ==> s[i].name != s[j].name
  }

  /** A record with every field null, as a fresh RecordCreator holds. */
  function Nulls(n: nat): (r: Record)
    ensures |r| == n
    ensures forall i :: 0 <= i < n ==> r[i] == None
  {
    seq(n, _ => None)
  }

  /** The copier that maps every input field to the output field of the same index. */
  function Identity(n: nat): (r: seq<Copy>)
    ensures |r| == n
    ensures forall i :: 0 <= i < n ==> r[i] == Copy(i, i)
  {
    seq(n, i requires 0 <= i < n => Copy(i, i))
  }

  /** The loop the tools run in `ii_init`: one mapping added per input field, each to the same index. */
  method AddIdentity(n: nat) returns (cs: seq<Copy>)
    ensures cs == Identity(n)
  {
    cs := [];
    var idx := 0;
    while idx < n
      invariant 0 <= idx <= n
      invariant cs == Identity(idx)
    {
      cs := cs + [Copy(idx, idx)];
      idx := idx + 1;
    }
  }

  ghost predicate CopiesFit(cs: seq<Copy>, width: nat, source: nat) {
    forall k :: 0 <= k < |cs| ==> cs[k].dst < width && cs[k].src < source
  }

  /** `RecordCopier.copy(target, source)`: every mapping in the order it was added. */
  function ApplyCopies(cs: seq<Copy>, target: Record, source: Record): (r: Record)
    requires CopiesFit(cs, |target|, |source|)
    ensures |r| == |target|
    decreases |cs|
  {
    if cs == [] then target
    else ApplyCopies(cs[1..], target[cs[0].dst := source[cs[0].src]], source)
  }

  /** A field no mapping writes keeps the target's value. */
  lemma {:induction false} ApplyCopiesUntouched(cs: seq<Copy>, target: Record, source: Record, j: nat)
    requires CopiesFit(cs, |target|, |source|)
    requires j < |target|
    requires forall k :: 0 <= k < |cs| ==> cs[k].dst != j
    ensures ApplyCopies(cs, target, source)[j] == target[j]
    decreases |cs|
  {
    if cs != [] {
      ApplyCopiesUntouched(cs[1..], target[cs[0].dst := source[cs[0].src]], source, j);
    }
  }

  /** When no two mappings share a destination, mapping k delivers source[src] to dst. */
  lemma {:induction false} ApplyCopiesAt(cs: seq<Copy>, target: Record, source: Record, k: nat)
    requires CopiesFit(cs, |target|, |source|)
    requires k < |cs|
    requires forall a, b :: 0 <= a < b < |cs| ==> cs[a].dst != cs[b].dst
    ensures ApplyCopies(cs, target, source)[cs[k].dst] == source[cs[k].src]
    decreases |cs|
  {
    var t' := target[cs[0].dst := source[cs[0].src]];
    if k == 0 {
      ApplyCopiesUntouched(cs[1..], t', source, cs[0].dst);
    } else {
      ApplyCopiesAt(cs[1..], t', source, k - 1);
    }
  }

  /**
   * The identity copier reproduces the source record in the first fields of
   * the target and leaves the rest of the target as it was.
   */
  lemma IdentityCopy(target: Record, source: Record)
    requires |target| >= |source|
    ensures ApplyCopies(Identity(|source|), target, source) == source + target[|source|..]
    ensures |target| == |source| ==> ApplyCopies(Identity(|source|), target, source) == source
  {
    var cs := Identity(|source|);
    var r := ApplyCopies(cs, target, source);
    forall j | 0 <= j < |target| ensures r[j] == (source + target[|source|..])[j] {
      if j < |source| {
        ApplyCopiesAt(cs, target, source, j);
      } else {
        ApplyCopiesUntouched(cs, target, source, j);
      }
    }
    assert |target| == |source| ==> source + target[|source|..] == source;
  }

  /** The engine: the message sink and the pre_sort requests made of it. */
  class Engine {
    var log: seq<Message>
    var preSorts: seq<PreSort>

    constructor ()
      ensures log == [] && preSorts == []
    {
      log := [];
      preSorts := [];
    }

    /** `output_message(tool_id, kind, text)`. */
    method OutputMessage(kind: MessageKind, text: string)
      modifies this`log
      ensures log == old(log) + [Message(kind, text)]
    {
      log := log + [Message(kind, text)];
    }

    /** `pre_sort(type, name, sort_info)`. */
    method PreSortRequest(connType: string, connName: string, sortInfo: string)
      modifies this`preSorts
      ensures preSorts == old(preSorts) + [PreSort(connType, connName, sortInfo)]
    {
      preSorts := preSorts + [PreSort(connType, connName, sortInfo)];
    }
  }

  /**
   * An output anchor: the schema it was initialised with (and the optional
   * sort XML passed with it), every record pushed to it, and whether it is
   * closed. `accepting` is what downstream answers to a push.
   */
  class OutputAnchor {
    var schema: Option<Schema>
    var sortInfo: string
    var records: seq<Record>
    var closed: bool
    var accepting: bool

    constructor (accepting: bool)
      ensures schema == None && sortInfo == "" && records == [] && !closed
      ensures this.accepting == accepting
    {
      schema := None;
      sortInfo := "";
      records := [];
      closed := false;
      this.accepting := accepting;
    }

    /** `init(record_info, sort_info)`. */
    method Init(s: Schema, info: string)
      modifies this`schema, this`sortInfo
      ensures schema == Some(s) && sortInfo == info
    {
      schema := Some(s);
      sortInfo := info;
    }

    /** `push_record(record)`: the record goes downstream; downstream's answer is returned. */
    method Push(r: Record) returns (ok: bool)
      modifies this`records
      ensures records == old(records) + [r]
      ensures ok == accepting
    {
      records := records + [r];
      ok := accepting;
    }

    /** `close()`. */
    method Close()
      modifies this`closed
      ensures closed
    {
      closed := true;
    }
  }

  /** The text file at a configured path: whether it exists and what it holds. */
  class TextFile {
    var present: bool
    var contents: string

    constructor (present: bool, contents: string)
      requires !present ==> contents == ""
      ensures this.present == present && this.contents == contents
    {
      this.present := present;
      this.contents := contents;
    }

    /** `open(path, 'a').write(s)`: the file is created if needed and s goes at its end. */
    method Append(s: string)
      modifies this
      ensures present && contents == old(contents) + s
    {
      present := true;
      contents := contents + s;
    }

    /** `open(path, 'w').write(s)`: the file is created or truncated and then holds s. */
    method Write(s: string)
      modifies this
      ensures present && contents == s
    {
      present := true;
      contents := s;
    }
  }
}
