// PySingleMultiInputToolExample/PySingleMultiInputToolExampleEngine.py: a
// union tool with one multi-connection input anchor. Every connection buffers
// its records; when the last one closes, the connections are ordered by the
// digit in their name, the output schema becomes the union of their field
// names (first connection first, then each later one's new names), and every
// buffered record goes out with its fields moved to the same-named output
// fields and every other output field null.
module MultiInputUnion {
  import opened Host
  import Text

  /* ---------- connection order ---------- */

  /** The last character of the name that `[\d+]` matches: a digit or '+'. */
  function LastKeyChar(name: string): (r: Option<char>)
    ensures r.Some? ==> r.value in name && (('0' <= r.value <= '9') || r.value == '+')
  {
    if name == [] then None
    else
      var c := name[|name| - 1];
      if ('0' <= c <= '9') || c == '+' then Some(c) else LastKeyChar(name[..|name| - 1])
  }

  /**
   * `int(re.findall('[\d+]', name)[-1])`: the value of that character. A
   * name without one (an index error) or ending its matches in '+' (not a
   * number) makes the sort raise.
   */
  function ConnectionKey(name: string): (r: Option<nat>)
    ensures r.Some? ==> r.value < 10
  {
    match LastKeyChar(name)
    case None => None
    case Some(c) => if c == '+' then None else Some(Text.DigitValue(c))
  }

  /** A trailing digit decides the key; a trailing character the pattern ignores does not change it. */
  lemma ConnectionKeyLast(prefix: string, c: char)
    ensures '0' <= c <= '9' ==> ConnectionKey(prefix + [c]) == Some(Text.DigitValue(c))
    ensures c == '+' ==> ConnectionKey(prefix + [c]) == None
    ensures !('0' <= c <= '9') && c != '+' ==> ConnectionKey(prefix + [c]) == ConnectionKey(prefix)
  {
    assert (prefix + [c])[..|prefix|] == prefix;
  }

  /** The host names the connections `#1`, `#2`, ...: each sorts by its number. */
  lemma HostNamesKeyed(d: nat)
    requires 1 <= d <= 9
    ensures ConnectionKey("#" + [Text.DigitChar(d)]) == Some(d)
  {
    ConnectionKeyLast("#", Text.DigitChar(d));
  }

  /* ---------- the stable sort by key ---------- */

  /** Every value has a key. */
  predicate Keyed<T>(s: seq<T>, key: T -> Option<nat>) {
    forall i :: 0 <= i < |s| ==> key(s[i]).Some? && key(s[i]).value < 10
  }

  /** The elements whose key is d, in their original order. */
  function Bucket<T>(s: seq<T>, key: T -> Option<nat>, d: nat): (r: seq<T>)
    requires Keyed(s, key)
    ensures |r| <= |s|
    ensures forall i :: 0 <= i < |r| ==> key(r[i]) == Some(d)
  {
    if s == [] then []
    else (if key(s[0]) == Some(d) then [s[0]] else []) + Bucket(s[1..], key, d)
  }

  /** The elements whose key is at least d, in their original order. */
  function AtLeast<T>(s: seq<T>, key: T -> Option<nat>, d: nat): (r: seq<T>)
    requires Keyed(s, key)
  {
    if s == [] then []
    else (if key(s[0]).value >= d then [s[0]] else []) + AtLeast(s[1..], key, d)
  }

  /** Buckets d, d + 1, ..., 9 one after the other. */
  function SortFrom<T>(s: seq<T>, key: T -> Option<nat>, d: nat): (r: seq<T>)
    requires Keyed(s, key)
    ensures Keyed(r, key)
    ensures forall i :: 0 <= i < |r| ==> key(r[i]).value >= d
    decreases 10 - d
  {
    if d >= 10 then [] else Bucket(s, key, d) + SortFrom(s, key, d + 1)
  }

  /**
   * `list.sort(key=...)`: Python's sort is stable, so with keys 0..9 it lists
   * every key-0 element in its original order, then every key-1 element, and
   * so on.
   */
  function SortByKey<T>(s: seq<T>, key: T -> Option<nat>): seq<T>
    requires Keyed(s, key)
  {
    SortFrom(s, key, 0)
  }

  lemma {:induction false} SortFromSorted<T>(s: seq<T>, key: T -> Option<nat>, d: nat)
    requires Keyed(s, key)
    ensures var r := SortFrom(s, key, d);
            forall i, j :: 0 <= i < j < |r| ==> key(r[i]).value <= key(r[j]).value
    decreases 10 - d
  {
    if d < 10 {
      SortFromSorted(s, key, d + 1);
      var b := Bucket(s, key, d);
      var r := SortFrom(s, key, d);
      assert r == b + SortFrom(s, key, d + 1);
      forall i, j | 0 <= i < j < |r| ensures key(r[i]).value <= key(r[j]).value {
        if j < |b| {
          assert r[i] == b[i] && r[j] == b[j];
        } else if i < |b| {
          assert r[i] == b[i] && r[j] == SortFrom(s, key, d + 1)[j - |b|];
        } else {
          assert r[i] == SortFrom(s, key, d + 1)[i - |b|] && r[j] == SortFrom(s, key, d + 1)[j - |b|];
        }
      }
    }
  }

  /** Splitting the elements of key at least d into bucket d and those of key at least d + 1. */
  lemma {:induction false} AtLeastSplit<T>(s: seq<T>, key: T -> Option<nat>, d: nat)
    requires Keyed(s, key)
    ensures multiset(AtLeast(s, key, d)) == multiset(Bucket(s, key, d)) + multiset(AtLeast(s, key, d + 1))
    decreases |s|
  {
    if s != [] {
      assert Keyed(s[1..], key);
      AtLeastSplit(s[1..], key, d);
    }
  }

  lemma {:induction false} AtLeastBounds<T>(s: seq<T>, key: T -> Option<nat>)
    requires Keyed(s, key)
    ensures AtLeast(s, key, 0) == s && AtLeast(s, key, 10) == []
    decreases |s|
  {
    if s != [] {
      assert Keyed(s[1..], key);
      AtLeastBounds(s[1..], key);
    }
  }

  lemma {:induction false} SortFromPermutes<T>(s: seq<T>, key: T -> Option<nat>, d: nat)
    requires Keyed(s, key)
    requires d <= 10
    ensures multiset(SortFrom(s, key, d)) == multiset(AtLeast(s, key, d))
    decreases 10 - d
  {
    if d < 10 {
      SortFromPermutes(s, key, d + 1);
      AtLeastSplit(s, key, d);
    } else {
      AtLeastBounds(s, key);
    }
  }

  /** The sort orders by key and loses and adds nothing. */
  lemma SortByKeySpec<T>(s: seq<T>, key: T -> Option<nat>)
    requires Keyed(s, key)
    ensures var r := SortByKey(s, key);
            && multiset(r) == multiset(s) && |r| == |s|
            && forall i, j :: 0 <= i < j < |r| ==> key(r[i]).value <= key(r[j]).value
  {
    SortFromSorted(s, key, 0);
    SortFromPermutes(s, key, 0);
    AtLeastBounds(s, key);
    assert |multiset(SortByKey(s, key))| == |multiset(s)|;
  }

  /** Elements with equal keys keep their original order. */
  lemma {:induction false} SortByKeyStable<T>(s: seq<T>, key: T -> Option<nat>, d: nat)
    requires Keyed(s, key)
    requires d < 10
    ensures Bucket(SortByKey(s, key), key, d) == Bucket(s, key, d)
  {
    BucketOfSorted(s, key, 0, d);
  }

  /** Bucket d of buckets lo, lo + 1, ... is bucket d itself when d >= lo. */
  lemma {:induction false} BucketOfSorted<T>(s: seq<T>, key: T -> Option<nat>, lo: nat, d: nat)
    requires Keyed(s, key)
    requires lo <= d < 10
    ensures Bucket(SortFrom(s, key, lo), key, d) == Bucket(s, key, d)
    decreases 10 - lo
  {
    var b := Bucket(s, key, lo);
    var rest := SortFrom(s, key, lo + 1);
    assert Keyed(b, key);
    assert SortFrom(s, key, lo) == b + rest;
    BucketConcat(b, rest, key, d);
    if lo == d {
      BucketAll(b, key, d);
      BucketNone(rest, key, d);
    } else {
      BucketNone(b, key, d);
      BucketOfSorted(s, key, lo + 1, d);
    }
  }

  lemma KeyedConcat<T>(a: seq<T>, b: seq<T>, key: T -> Option<nat>)
    requires Keyed(a, key) && Keyed(b, key)
    ensures Keyed(a + b, key)
  {
    forall i | 0 <= i < |a + b| ensures key((a + b)[i]).Some? && key((a + b)[i]).value < 10 {
      if i < |a| {
        assert (a + b)[i] == a[i];
      } else {
        assert (a + b)[i] == b[i - |a|];
      }
    }
  }

  lemma {:induction false} BucketConcat<T>(a: seq<T>, b: seq<T>, key: T -> Option<nat>, d: nat)
    requires Keyed(a, key) && Keyed(b, key)
    ensures Keyed(a + b, key)
    ensures Bucket(a + b, key, d) == Bucket(a, key, d) + Bucket(b, key, d)
    decreases |a|
  {
    KeyedConcat(a, b, key);
    if a == [] {
      assert a + b == b;
    } else {
      var t := a[1..];
      assert Keyed(t, key);
      BucketConcat(t, b, key, d);
      var head := if key(a[0]) == Some(d) then [a[0]] else [];
      assert (a + b)[0] == a[0] && (a + b)[1..] == t + b;
      assert Bucket(a + b, key, d) == head + Bucket(t + b, key, d);
      assert Bucket(a, key, d) == head + Bucket(t, key, d);
      assert head + (Bucket(t, key, d) + Bucket(b, key, d)) == (head + Bucket(t, key, d)) + Bucket(b, key, d);
    }
  }

  lemma {:induction false} BucketAll<T>(s: seq<T>, key: T -> Option<nat>, d: nat)
    requires Keyed(s, key)
    requires forall i :: 0 <= i < |s| ==> key(s[i]) == Some(d)
    ensures Bucket(s, key, d) == s
    decreases |s|
  {
    if s != [] {
      BucketAll(s[1..], key, d);
    }
  }

  lemma {:induction false} BucketNone<T>(s: seq<T>, key: T -> Option<nat>, d: nat)
    requires Keyed(s, key)
    requires forall i :: 0 <= i < |s| ==> key(s[i]) != Some(d)
    ensures Bucket(s, key, d) == []
    decreases |s|
  {
    if s != [] {
      BucketNone(s[1..], key, d);
    }
  }

  /* ---------- the union of field names ---------- */

  /** `new_fields`: the fields of s whose names are not yet taken, in s's order. */
  function NewFields(taken: seq<string>, s: Schema): (r: Schema)
    ensures |r| <= |s|
    ensures forall i :: 0 <= i < |r| ==> r[i] in s && r[i].name !in taken
  {
    if s == [] then []
    else (if s[0].name in taken then [] else [s[0]]) + NewFields(taken, s[1..])
  }

  /** Every field of s is either taken already or among the new fields. */
  lemma {:induction false} NewFieldsCover(taken: seq<string>, s: Schema, i: nat)
    requires i < |s|
    ensures s[i].name in taken || s[i] in NewFields(taken, s)
    decreases |s|
  {
    if i > 0 {
      NewFieldsCover(taken, s[1..], i - 1);
    }
  }

  /** Distinct names stay distinct among the new fields. */
  lemma {:induction false} NewFieldsDistinct(taken: seq<string>, s: Schema)
    requires DistinctNames(s)
    ensures DistinctNames(NewFields(taken, s))
    decreases |s|
  {
    if s != [] {
      NewFieldsDistinct(taken, s[1..]);
      var rest := NewFields(taken, s[1..]);
      forall k | 0 <= k < |rest| ensures rest[k].name != s[0].name {
        var j :| 0 <= j < |s[1..]| && s[1..][j] == rest[k];
        assert s[j + 1] == rest[k];
      }
    }
  }

  /** No name is taken, so every field is new. */
  lemma {:induction false} NewFieldsNoneTaken(s: Schema)
    ensures NewFields([], s) == s
    decreases |s|
  {
    if s != [] {
      NewFieldsNoneTaken(s[1..]);
    }
  }

  /**
   * The output RecordInfo after the given inputs: the first input's fields
   * (what `init_from_xml` copies), then each later input's new fields.
   */
  function Layout(schemas: seq<Schema>): (r: Schema)
  {
    if schemas == [] then []
    else
      var acc := Layout(schemas[..|schemas| - 1]);
      acc + NewFields(Names(acc), schemas[|schemas| - 1])
  }
  /** The layout of one more schema is the old layout and that schema's new fields. */
  lemma LayoutStep(schemas: seq<Schema>, k: nat)
    requires k < |schemas|
    ensures Layout(schemas[..k + 1]) == Layout(schemas[..k]) + NewFields(Names(Layout(schemas[..k])), schemas[k])
  {
    assert schemas[..k + 1][..k] == schemas[..k];
  }


  /** The layout never repeats a name. */
  lemma {:induction false} LayoutDistinct(schemas: seq<Schema>)
    requires forall k :: 0 <= k < |schemas| ==> DistinctNames(schemas[k])
    ensures DistinctNames(Layout(schemas))
    decreases |schemas|
  {
    if schemas != [] {
      var n := |schemas| - 1;
      var acc := Layout(schemas[..n]);
      var nf := NewFields(Names(acc), schemas[n]);
      LayoutDistinct(schemas[..n]);
      NewFieldsDistinct(Names(acc), schemas[n]);
      var l := acc + nf;
      forall i, j | 0 <= i < j < |l| ensures l[i].name != l[j].name {
        if j < |acc| {
          assert l[i] == acc[i] && l[j] == acc[j];
        } else if i >= |acc| {
          assert l[i] == nf[i - |acc|] && l[j] == nf[j - |acc|];
        } else {
          assert l[i] == acc[i] && l[j] == nf[j - |acc|];
          assert Names(acc)[i] == acc[i].name;
        }
      }
    }
  }

  /** The layout of the first k inputs is where the layout of all of them starts. */
  lemma {:induction false} LayoutPrefix(schemas: seq<Schema>, k: nat)
    requires k <= |schemas|
    ensures |Layout(schemas[..k])| <= |Layout(schemas)|
    ensures Layout(schemas)[..|Layout(schemas[..k])|] == Layout(schemas[..k])
    decreases |schemas|
  {
    if k < |schemas| {
      var n := |schemas| - 1;
      assert schemas[..n][..k] == schemas[..k];
      LayoutPrefix(schemas[..n], k);
    } else {
      assert schemas[..k] == schemas;
    }
  }

  /** The first input's fields open the layout, in its order. */
  lemma LayoutFirst(schemas: seq<Schema>)
    requires |schemas| >= 1
    ensures |schemas[0]| <= |Layout(schemas)| && Layout(schemas)[..|schemas[0]|] == schemas[0]
  {
    LayoutPrefix(schemas, 1);
    assert schemas[..1][..0] == [];
    NewFieldsNoneTaken(schemas[0]);
  }

  /** Every field name of every input is in the layout. */
  lemma {:induction false} LayoutCovers(schemas: seq<Schema>, k: nat, i: nat)
    requires k < |schemas| && i < |schemas[k]|
    ensures schemas[k][i].name in Names(Layout(schemas))
    decreases |schemas|
  {
    var n := |schemas| - 1;
    var acc := Layout(schemas[..n]);
    var nf := NewFields(Names(acc), schemas[n]);
    assert Layout(schemas) == acc + nf;
    NamesConcat(acc, nf);
    if k < n {
      assert schemas[..n][k] == schemas[k];
      LayoutCovers(schemas[..n], k, i);
    } else {
      NewFieldsCover(Names(acc), schemas[n], i);
      if schemas[n][i].name !in Names(acc) {
        var j :| 0 <= j < |nf| && nf[j] == schemas[n][i];
        assert Names(nf)[j] == schemas[n][i].name;
      }
    }
  }

  /** Every field of input k is named in the layout. */
  lemma LayoutCoversAll(schemas: seq<Schema>, k: nat)
    requires k < |schemas|
    ensures Covered(Names(Layout(schemas)), schemas[k])
  {
    forall i | 0 <= i < |schemas[k]| ensures schemas[k][i].name in Names(Layout(schemas)) {
      LayoutCovers(schemas, k, i);
    }
  }

  /* ---------- the copier and the output records ---------- */

  /** Every field name of s is among the names. */
  ghost predicate Covered(names: seq<string>, s: Schema) {
    forall i :: 0 <= i < |s| ==> s[i].name in names
  }

  /** `setup_record_copier`: input field i goes to the first output field with its name. */
  function CopierFor(names: seq<string>, s: Schema): (r: seq<Copy>)
    requires Covered(names, s)
    ensures |r| == |s|
    ensures forall i :: 0 <= i < |s| ==> r[i] == Copy(FieldNum(names, s[i].name), i)
  {
    seq(|s|, i requires 0 <= i < |s| => Copy(FieldNum(names, s[i].name), i))
  }

  /** A name's first position does not move when names are appended. */
  lemma {:induction false} FieldNumPrefix(a: seq<string>, b: seq<string>, name: string)
    requires name in a
    ensures FieldNum(a + b, name) == FieldNum(a, name)
    decreases |a|
  {
    assert (a + b)[0] == a[0];
    if a[0] != name {
      assert (a + b)[1..] == a[1..] + b;
      FieldNumPrefix(a[1..], b, name);
    }
  }

  /** The copier built against part of the names stays valid as later names are appended. */
  lemma CopierForPrefix(a: seq<string>, b: seq<string>, s: Schema)
    requires Covered(a, s)
    ensures forall i :: 0 <= i < |s| ==> s[i].name in a + b
    ensures CopierFor(a + b, s) == CopierFor(a, s)
  {
    forall i | 0 <= i < |s| ensures CopierFor(a + b, s)[i] == CopierFor(a, s)[i] {
      FieldNumPrefix(a, b, s[i].name);
    }
  }

  /**
   * Every input field lands in an output field of the same name, the copier
   * fits the output and the input, and no two input fields share a target.
   */
  lemma CopierLands(names: seq<string>, s: Schema)
    requires Covered(names, s)
    requires DistinctNames(s)
    ensures var c := CopierFor(names, s);
            && CopiesFit(c, |names|, |s|)
            && (forall i :: 0 <= i < |s| ==> names[c[i].dst] == s[i].name)
            && (forall a, b :: 0 <= a < b < |c| ==> c[a].dst != c[b].dst)
  {
  }

  /**
   * One output record: all null, then the input record copied in. Each input
   * value sits in the output field of its name; an output field whose name
   * the input lacks stays null.
   */
  lemma Remap(names: seq<string>, s: Schema, rec: Record)
    requires Covered(names, s)
    requires DistinctNames(s) && |rec| == |s|
    ensures var out := ApplyCopies(CopierFor(names, s), Nulls(|names|), rec);
            && |out| == |names|
            && (forall i :: 0 <= i < |s| ==> out[FieldNum(names, s[i].name)] == rec[i])
            && (forall j :: 0 <= j < |names| && names[j] !in Names(s) ==> out[j] == None)
  {
    var c := CopierFor(names, s);
    CopierLands(names, s);
    var out := ApplyCopies(c, Nulls(|names|), rec);
    forall i | 0 <= i < |s| ensures out[FieldNum(names, s[i].name)] == rec[i] {
      ApplyCopiesAt(c, Nulls(|names|), rec, i);
    }
    forall j | 0 <= j < |names| && names[j] !in Names(s) ensures out[j] == None {
      forall k | 0 <= k < |c| ensures c[k].dst != j {
        assert names[c[k].dst] == Names(s)[k];
      }
      ApplyCopiesUntouched(c, Nulls(|names|), rec, j);
    }
  }

  /** What one connection holds when the records go out: its copier and its buffered records. */
  datatype Buffered = Buffered(copier: seq<Copy>, records: seq<Record>)

  ghost predicate Fits(b: Buffered, width: nat) {
    forall j :: 0 <= j < |b.records| ==> CopiesFit(b.copier, width, |b.records[j]|)
  }

  /**
   * The state the record processing leaves behind: the output names are the
   * union layout of the schemas, each connection's copier maps its fields to
   * the first output field of the same name, and its buffered records fit
   * that copier.
   */
  ghost predicate LaidOut(names: seq<string>, schemas: seq<Schema>, bufs: seq<Buffered>) {
    && |bufs| == |schemas|
    && names == Names(Layout(schemas))
    && (forall k :: 0 <= k < |schemas| ==> Covered(names, schemas[k]) && bufs[k].copier == CopierFor(names, schemas[k]))
    && AllFit(bufs, |names|)
  }

  /** The layout, the copiers and the buffers, related as the record processing leaves them. */
  lemma LaidOutIntro(names: seq<string>, schemas: seq<Schema>, bufs: seq<Buffered>)
    requires |bufs| == |schemas| && names == Names(Layout(schemas))
    requires forall k :: 0 <= k < |schemas| ==> Covered(names, schemas[k])
    requires forall k :: 0 <= k < |schemas| ==> bufs[k].copier == CopierFor(names, schemas[k])
    requires forall k :: 0 <= k < |schemas| ==>
               DistinctNames(schemas[k]) && forall r :: r in bufs[k].records ==> |r| == |schemas[k]|
    ensures LaidOut(names, schemas, bufs)
  {
    CopiersFit(names, schemas, bufs);
  }

  /** The schemas and buffers are those the connections hold, in order. */
  ghost predicate Snapshot(xs: seq<Incoming>, schemas: seq<Schema>, bufs: seq<Buffered>)
    reads xs`recordInfoIn, xs`copier, xs`recordList
  {
    && |schemas| == |xs| && |bufs| == |xs|
    && (forall k :: 0 <= k < |xs| ==> xs[k].recordInfoIn == Some(schemas[k]))
    && (forall k :: 0 <= k < |xs| ==> bufs[k] == Buffered(xs[k].copier, xs[k].recordList))
  }

  /** A permutation has the same members. */
  lemma SameMembers<T>(a: seq<T>, b: seq<T>)
    requires multiset(a) == multiset(b)
    ensures forall x :: x in a <==> x in b
  {
    forall x ensures x in a <==> x in b {
      assert x in a <==> x in multiset(a);
      assert x in b <==> x in multiset(b);
    }
  }

  /** Every connection's buffered records fit its copier and the given width. */
  ghost predicate AllFit(bs: seq<Buffered>, width: nat) {
    forall k :: 0 <= k < |bs| ==> Fits(bs[k], width)
  }

  /** Copiers built by `CopierFor` fit records of their schema's width. */
  lemma CopiersFit(names: seq<string>, schemas: seq<Schema>, bufs: seq<Buffered>)
    requires |bufs| == |schemas|
    requires forall j :: 0 <= j < |bufs| ==> Covered(names, schemas[j]) && bufs[j].copier == CopierFor(names, schemas[j])
    requires forall j :: 0 <= j < |bufs| ==>
               DistinctNames(schemas[j]) && forall r :: r in bufs[j].records ==> |r| == |schemas[j]|
    ensures AllFit(bufs, |names|)
  {
    forall j | 0 <= j < |bufs| ensures Fits(bufs[j], |names|) {
      CopierLands(names, schemas[j]);
    }
  }

  /** One connection's records as they go out: each copied into an all-null record of the given width. */
  function Remapped(b: Buffered, width: nat): (r: seq<Record>)
    requires Fits(b, width)
    ensures |r| == |b.records|
  {
    seq(|b.records|, i requires 0 <= i < |b.records| => ApplyCopies(b.copier, Nulls(width), b.records[i]))
  }

  /** Every connection's records, connection by connection, in buffered order. */
  function Pushed(bs: seq<Buffered>, width: nat): seq<Record>
    requires AllFit(bs, width)
  {
    if bs == [] then [] else Pushed(bs[..|bs| - 1], width) + Remapped(bs[|bs| - 1], width)
  }

  lemma PushedStep(bs: seq<Buffered>, k: nat, width: nat)
    requires k < |bs|
    requires AllFit(bs, width)
    ensures AllFit(bs[..k], width) && AllFit(bs[..k + 1], width)
    ensures Pushed(bs[..k + 1], width) == Pushed(bs[..k], width) + Remapped(bs[k], width)
  {
    assert bs[..k + 1][..k] == bs[..k];
  }

  lemma RemappedStep(c: seq<Copy>, rs: seq<Record>, j: nat, width: nat)
    requires j < |rs|
    requires Fits(Buffered(c, rs), width)
    ensures Fits(Buffered(c, rs[..j]), width) && Fits(Buffered(c, rs[..j + 1]), width)
    ensures Remapped(Buffered(c, rs[..j + 1]), width)
            == Remapped(Buffered(c, rs[..j]), width) + [ApplyCopies(c, Nulls(width), rs[j])]
  {
    assert forall r :: r in rs[..j + 1] ==> r in rs;
  }

  /** The records of the first k connections, as the push loop has sent them. */
  function PushedFirst(bs: seq<Buffered>, k: nat, width: nat): seq<Record>
    requires AllFit(bs, width) && k <= |bs|
  {
    if k == 0 then [] else PushedFirst(bs, k - 1, width) + Remapped(bs[k - 1], width)
  }

  lemma PushedFirstStep(bs: seq<Buffered>, k: nat, width: nat)
    requires AllFit(bs, width) && k < |bs|
    ensures Fits(bs[k], width)
    ensures PushedFirst(bs, k + 1, width) == PushedFirst(bs, k, width) + Remapped(bs[k], width)
  {
  }

  lemma {:induction false} PushedFirstAll(bs: seq<Buffered>, k: nat, width: nat)
    requires AllFit(bs, width) && k <= |bs|
    ensures AllFit(bs[..k], width) && PushedFirst(bs, k, width) == Pushed(bs[..k], width)
  {
    if k > 0 {
      PushedFirstAll(bs, k - 1, width);
      PushedStep(bs, k - 1, width);
    }
  }

  function Total(bs: seq<Buffered>): nat
  {
    if bs == [] then 0 else Total(bs[..|bs| - 1]) + |bs[|bs| - 1].records|
  }

  /** As many records go out as were buffered. */
  lemma {:induction false} PushedCount(bs: seq<Buffered>, width: nat)
    requires AllFit(bs, width)
    ensures |Pushed(bs, width)| == Total(bs)
    decreases |bs|
  {
    if bs != [] {
      PushedCount(bs[..|bs| - 1], width);
    }
  }

  /* ---------- the plugin ---------- */

  /** A connection's sort key: the digit its name ends its digits and pluses with. */
  function InputKey(x: Incoming): Option<nat>
  {
    ConnectionKey(x.name)
  }

  /** Every connection has received its schema. */
  predicate AllSchemas(xs: seq<Incoming>)
    reads xs`recordInfoIn
  {
    forall x :: x in xs ==> x.recordInfoIn.Some?
  }

  /** Every connection has been closed. */
  predicate AllComplete(xs: seq<Incoming>)
    reads xs`inputComplete
  {
    forall x :: x in xs ==> x.inputComplete
  }

  /** Some connection other than `self` is still open. */
  ghost predicate OthersPending(xs: seq<Incoming>, self: Incoming)
    reads xs`inputComplete
  {
    exists x :: x in xs && x != self && !x.inputComplete
  }

  /** The connections' schemas, in connection order. */
  ghost function SchemasOf(xs: seq<Incoming>): (r: seq<Schema>)
    requires AllSchemas(xs)
    reads xs`recordInfoIn
    ensures |r| == |xs|
    ensures forall k :: 0 <= k < |xs| ==> r[k] == xs[k].recordInfoIn.value
  {
    if xs == [] then [] else SchemasOf(xs[..|xs| - 1]) + [xs[|xs| - 1].recordInfoIn.value]
  }

  /** The connections' copiers and buffered records, in connection order. */
  function BuffersOf(xs: seq<Incoming>): (r: seq<Buffered>)
    reads xs`copier, xs`recordList
    ensures |r| == |xs|
    ensures forall k :: 0 <= k < |xs| ==> r[k] == Buffered(xs[k].copier, xs[k].recordList)
  {
    if xs == [] then [] else BuffersOf(xs[..|xs| - 1]) + [Buffered(xs[|xs| - 1].copier, xs[|xs| - 1].recordList)]
  }

  class Plugin {
    const engine: Engine
    const anchor: OutputAnchor
    /** The connections, in the order they were added until the records go out. */
    var inputs: seq<Incoming>
    var uniqueFieldNames: seq<string>
    var recordInfoOut: Option<Schema>

    ghost predicate Valid()
      reads this`inputs, inputs`recordInfoIn, inputs`recordList
    {
      forall x :: x in inputs ==> x.parent == this && x.Valid()
    }

    constructor (engine: Engine, anchor: OutputAnchor)
      ensures Valid() && inputs == [] && uniqueFieldNames == [] && recordInfoOut == None
      ensures this.engine == engine && this.anchor == anchor
    {
      this.engine := engine;
      this.anchor := anchor;
      inputs := [];
      uniqueFieldNames := [];
      recordInfoOut := None;
    }

    /** `pi_add_incoming_connection`: a new connection, registered after the others. */
    method PiAddIncomingConnection(connType: string, name: string) returns (input: Incoming)
      requires Valid()
      modifies this`inputs
      ensures Valid() && fresh(input)
      ensures inputs == old(inputs) + [input]
      ensures input.parent == this && input.connType == connType && input.name == name
      ensures input.recordInfoIn == None && input.recordList == [] && !input.inputComplete
    {
      input := new Incoming(this, connType, name);
      inputs := inputs + [input];
    }

    /** `pi_push_all_records`: this tool needs an input, so it reports an error and fails. */
    method PiPushAllRecords() returns (ok: bool)
      modifies engine`log
      ensures !ok
      ensures engine.log == old(engine.log) + [Message(Error, "Missing Incoming Connection")]
    {
      engine.OutputMessage(Error, "Missing Incoming Connection");
      ok := false;
    }

    /** `setup_record_copier`: each input field is mapped to the first output field with its name. */
    method SetupRecordCopier(input: Incoming)
      requires input.recordInfoIn.Some?
      requires forall i :: 0 <= i < |input.recordInfoIn.value| ==> input.recordInfoIn.value[i].name in uniqueFieldNames
      modifies input`copier
      ensures input.copier == CopierFor(uniqueFieldNames, input.recordInfoIn.value)
    {
      var s := input.recordInfoIn.value;
      var cs: seq<Copy> := [];
      var inputIdx := 0;
      while inputIdx < |s|
        invariant 0 <= inputIdx <= |s|
        invariant |cs| == inputIdx
        invariant forall i :: 0 <= i < inputIdx ==> cs[i] == Copy(FieldNum(uniqueFieldNames, s[i].name), i)
      {
        var outputIdx := FieldNum(uniqueFieldNames, s[inputIdx].name);
        cs := cs + [Copy(outputIdx, inputIdx)];
        inputIdx := inputIdx + 1;
      }
      input.copier := cs;
    }

    /**
     * `record_processor`: sorts the connections by key, builds the union
     * layout and each connection's copier, announces the layout, pushes every
     * buffered record of every connection in that order, and closes the
     * output. A connection name without a usable key, or a connection that
     * never received its schema, makes it raise.
     */
    method RecordProcessor() returns (r: Outcome<()>, ghost schemas: seq<Schema>, ghost bufs: seq<Buffered>)
      requires Valid() && uniqueFieldNames == []
      modifies this`inputs, this`uniqueFieldNames, this`recordInfoOut, anchor, inputs`copier
      ensures !Keyed(old(inputs), InputKey) ==>
                r == Raised && inputs == old(inputs) && anchor.records == old(anchor.records)
      ensures Keyed(old(inputs), InputKey) ==> inputs == SortByKey(old(inputs), InputKey)
      ensures Keyed(old(inputs), InputKey) && !old(AllSchemas(inputs)) ==>
                r == Raised && anchor.records == old(anchor.records)
      ensures Keyed(old(inputs), InputKey) && old(AllSchemas(inputs)) ==>
                && r == Returned(())
                && Snapshot(inputs, schemas, bufs) && LaidOut(uniqueFieldNames, schemas, bufs)
                && recordInfoOut == Some(Layout(schemas))
                && anchor.schema == recordInfoOut && anchor.closed
                && anchor.records == old(anchor.records) + Pushed(bufs, |uniqueFieldNames|)
    {
      schemas, bufs := [], [];
      if !Keyed(inputs, InputKey) {
        return Raised, schemas, bufs;
      }
      SortInputs();
      r, schemas, bufs := Process();
    }

    /** `record_processor` after the sort: a connection without a schema makes it raise, otherwise everything goes out. */
    method Process() returns (r: Outcome<()>, ghost schemas: seq<Schema>, ghost bufs: seq<Buffered>)
      requires Valid() && uniqueFieldNames == []
      modifies this`uniqueFieldNames, this`recordInfoOut, anchor, inputs`copier
      ensures !old(AllSchemas(inputs)) ==> r == Raised && anchor.records == old(anchor.records)
      ensures old(AllSchemas(inputs)) ==>
                && r == Returned(())
                && Snapshot(inputs, schemas, bufs) && LaidOut(uniqueFieldNames, schemas, bufs)
                && recordInfoOut == Some(Layout(schemas))
                && anchor.schema == recordInfoOut && anchor.closed
                && anchor.records == old(anchor.records) + Pushed(bufs, |uniqueFieldNames|)
    {
      schemas, bufs := [], [];
      recordInfoOut := Some([]);
      if !AllSchemas(inputs) {
        return Raised, schemas, bufs;
      }
      schemas, bufs := Emit();
      r := Returned(());
    }

    /** The sort at the head of `record_processor`: the connections in ascending key order, ties kept in order. */
    method SortInputs()
      requires Valid() && Keyed(inputs, InputKey)
      modifies this`inputs
      ensures Valid() && inputs == SortByKey(old(inputs), InputKey)
      ensures forall k :: 0 <= k < |inputs| ==> inputs[k] in old(inputs)
      ensures AllSchemas(inputs) == old(AllSchemas(inputs))
    {
      SortByKeySpec(inputs, InputKey);
      ghost var before := inputs;
      inputs := SortByKey(inputs, InputKey);
      SameMembers(inputs, before);
    }

    /**
     * The rest of `record_processor`: the layout is built and announced, then
     * every buffered record goes out. The ghost results are the connections'
     * schemas and buffers as they stand at the end.
     */
    method Emit() returns (ghost schemas: seq<Schema>, ghost bufs: seq<Buffered>)
      requires Valid() && uniqueFieldNames == [] && AllSchemas(inputs)
      modifies this`uniqueFieldNames, this`recordInfoOut, anchor, inputs`copier
      ensures Snapshot(inputs, schemas, bufs) && LaidOut(uniqueFieldNames, schemas, bufs)
      ensures recordInfoOut == Some(Layout(schemas)) && anchor.schema == recordInfoOut && anchor.closed
      ensures anchor.records == old(anchor.records) + Pushed(bufs, |uniqueFieldNames|)
    {
      var out;
      out, schemas, bufs := Prepare();
      recordInfoOut := Some(out);
      Announce(out, bufs);
    }

    /** The layout loop of `record_processor`, with the schemas and buffers it leaves behind. */
    method Prepare() returns (out: Schema, ghost schemas: seq<Schema>, ghost bufs: seq<Buffered>)
      requires Valid() && uniqueFieldNames == [] && AllSchemas(inputs)
      modifies this`uniqueFieldNames, inputs`copier
      ensures Snapshot(inputs, schemas, bufs) && LaidOut(uniqueFieldNames, schemas, bufs)
      ensures out == Layout(schemas) && |out| == |uniqueFieldNames|
    {
      schemas := SchemasOf(inputs);
      out := BuildLayout(schemas);
      bufs := BuffersOf(inputs);
      assert Snapshot(inputs, schemas, bufs);
      LaidOutFrom(schemas, bufs);
    }

    /** Once the layout loop has run, the connections' schemas and buffers are laid out as `record_processor` needs. */
    lemma LaidOutFrom(schemas: seq<Schema>, bufs: seq<Buffered>)
      requires Valid() && Snapshot(inputs, schemas, bufs)
      requires uniqueFieldNames == Names(Layout(schemas))
      requires forall k :: 0 <= k < |inputs| ==> Covered(uniqueFieldNames, schemas[k])
      requires forall k :: 0 <= k < |inputs| ==> inputs[k].copier == CopierFor(uniqueFieldNames, schemas[k])
      ensures LaidOut(uniqueFieldNames, schemas, bufs)
    {
      forall k | 0 <= k < |bufs|
        ensures DistinctNames(schemas[k]) && forall r :: r in bufs[k].records ==> |r| == |schemas[k]|
      {
        assert inputs[k] in inputs && inputs[k].Valid();
      }
      LaidOutIntro(uniqueFieldNames, schemas, bufs);
    }

    /** The output side of `record_processor`: the layout is announced, the records pushed, the output closed. */
    method Announce(out: Schema, ghost bufs: seq<Buffered>)
      requires |bufs| == |inputs|
      requires forall k :: 0 <= k < |bufs| ==> bufs[k] == Buffered(inputs[k].copier, inputs[k].recordList)
      requires AllFit(bufs, |out|)
      modifies anchor
      ensures anchor.schema == Some(out) && anchor.closed
      ensures anchor.records == old(anchor.records) + Pushed(bufs, |out|)
    {
      var buffered := BuffersOf(inputs);
      assert buffered == bufs;
      anchor.Init(out, "");
      PushBuffered(out, buffered);
      anchor.Close();
    }

    /** The layout loop of `record_processor`: the union layout, and every connection's copier into it. */
    method BuildLayout(ghost schemas: seq<Schema>) returns (out: Schema)
      requires |schemas| == |inputs| && uniqueFieldNames == []
      requires forall k :: 0 <= k < |inputs| ==> inputs[k].recordInfoIn == Some(schemas[k])
      modifies this`uniqueFieldNames, inputs`copier
      ensures out == Layout(schemas) && uniqueFieldNames == Names(out)
      ensures forall k :: 0 <= k < |inputs| ==> Covered(uniqueFieldNames, schemas[k])
      ensures forall k :: 0 <= k < |inputs| ==> inputs[k].copier == CopierFor(uniqueFieldNames, schemas[k])
    {
      out := [];
      var k := 0;
      while k < |inputs|
        invariant 0 <= k <= |inputs|
        invariant out == Layout(schemas[..k]) && uniqueFieldNames == Names(out)
        invariant forall j :: 0 <= j < k ==> Covered(uniqueFieldNames, schemas[j])
        invariant forall j :: 0 <= j < k ==> inputs[j].copier == CopierFor(uniqueFieldNames, schemas[j])
      {
        out := AddLayout(k, out, schemas);
        k := k + 1;
      }
      assert schemas[..k] == schemas;
    }

    /**
     * One pass of the layout loop: connection k's new fields are appended to
     * the layout, and its copier is set up against the grown names.
     */
    method AddLayout(k: nat, out: Schema, ghost schemas: seq<Schema>) returns (grown: Schema)
      requires k < |inputs| == |schemas|
      requires forall j :: 0 <= j < |inputs| ==> inputs[j].recordInfoIn == Some(schemas[j])
      requires out == Layout(schemas[..k]) && uniqueFieldNames == Names(out)
      requires forall j :: 0 <= j < k ==> Covered(uniqueFieldNames, schemas[j])
      requires forall j :: 0 <= j < k ==> inputs[j].copier == CopierFor(uniqueFieldNames, schemas[j])
      modifies this`uniqueFieldNames, inputs`copier
      ensures grown == Layout(schemas[..k + 1]) && uniqueFieldNames == Names(grown)
      ensures forall j :: 0 <= j <= k ==> Covered(uniqueFieldNames, schemas[j])
      ensures forall j :: 0 <= j <= k ==> inputs[j].copier == CopierFor(uniqueFieldNames, schemas[j])
    {
      ghost var before := uniqueFieldNames;
      grown := GrowLayout(k, out, schemas);
      CopiersExtend(k, schemas, before, uniqueFieldNames);
      LayoutCoversAll(schemas[..k + 1], k);
      assert schemas[..k + 1][k] == schemas[k];
      SetupRecordCopier(inputs[k]);
      forall j | 0 <= j <= k ensures inputs[j].copier == CopierFor(uniqueFieldNames, schemas[j]) {
        if inputs[j] == inputs[k] {
          assert schemas[j] == schemas[k];
        }
      }
    }

    /** The layout grows by connection k's fields whose names it does not have yet. */
    method GrowLayout(k: nat, out: Schema, ghost schemas: seq<Schema>) returns (grown: Schema)
      requires k < |inputs| == |schemas| && inputs[k].recordInfoIn == Some(schemas[k])
      requires out == Layout(schemas[..k]) && uniqueFieldNames == Names(out)
      modifies this`uniqueFieldNames
      ensures grown == Layout(schemas[..k + 1]) && uniqueFieldNames == Names(grown)
      ensures old(uniqueFieldNames) <= uniqueFieldNames
    {
      var schema := inputs[k].recordInfoIn.value;
      LayoutStep(schemas, k);
      if |uniqueFieldNames| == 0 {
        NewFieldsNoneTaken(schema);
        grown := schema;
        uniqueFieldNames := Names(grown);
      } else {
        var newFields := NewFields(uniqueFieldNames, schema);
        NamesConcat(out, newFields);
        grown := out + newFields;
        uniqueFieldNames := uniqueFieldNames + Names(newFields);
      }
    }

    /** Names appended to the layout leave the earlier connections' copiers as they were. */
    lemma CopiersExtend(k: nat, schemas: seq<Schema>, names: seq<string>, full: seq<string>)
      requires k <= |inputs| == |schemas| && names <= full
      requires forall j :: 0 <= j < k ==> Covered(names, schemas[j])
      requires forall j :: 0 <= j < k ==> inputs[j].copier == CopierFor(names, schemas[j])
      ensures forall j :: 0 <= j < k ==> Covered(full, schemas[j])
      ensures forall j :: 0 <= j < k ==> inputs[j].copier == CopierFor(full, schemas[j])
    {
      var ext := full[|names|..];
      assert full == names + ext;
      forall j | 0 <= j < k
        ensures Covered(full, schemas[j])
        ensures inputs[j].copier == CopierFor(full, schemas[j])
      {
        CopierForPrefix(names, ext, schemas[j]);
      }
    }

    /** The push loops of `record_processor`: every buffered record of every connection, in connection order. */
    method PushBuffered(out: Schema, bufs: seq<Buffered>)
      requires AllFit(bufs, |out|)
      modifies anchor`records
      ensures anchor.records == old(anchor.records) + Pushed(bufs, |out|)
    {
      var k := 0;
      while k < |bufs|
        invariant 0 <= k <= |bufs|
        invariant anchor.records == old(anchor.records) + PushedFirst(bufs, k, |out|)
      {
        PushedFirstStep(bufs, k, |out|);
        PushConnection(bufs[k], out);
        k := k + 1;
      }
      PushedFirstAll(bufs, k, |out|);
      assert bufs[..k] == bufs;
    }

    /** The inner push loop: one connection's records, each copied into an all-null record. */
    method PushConnection(input: Buffered, out: Schema)
      requires Fits(input, |out|)
      modifies anchor`records
      ensures anchor.records == old(anchor.records) + Remapped(input, |out|)
    {
      var j := 0;
      while j < |input.records|
        invariant 0 <= j <= |input.records|
        invariant Fits(Buffered(input.copier, input.records[..j]), |out|)
        invariant anchor.records == old(anchor.records) + Remapped(Buffered(input.copier, input.records[..j]), |out|)
      {
        RemappedStep(input.copier, input.records, j, |out|);
        var outRecord := ApplyCopies(input.copier, Nulls(|out|), input.records[j]);
        var _ := anchor.Push(outRecord);
        j := j + 1;
      }
      assert input.records[..j] == input.records;
      assert input == Buffered(input.copier, input.records);
    }
  }

  class Incoming {
    const parent: Plugin
    const connType: string
    const name: string
    var recordInfoIn: Option<Schema>
    var copier: seq<Copy>
    /** The records received so far, in arrival order. */
    var recordList: seq<Record>
    var inputComplete: bool

    ghost predicate Valid()
      reads this`recordInfoIn, this`recordList
    {
      && (recordInfoIn == None ==> recordList == [])
      && (recordInfoIn.Some? ==>
            && DistinctNames(recordInfoIn.value)
            && forall r :: r in recordList ==> |r| == |recordInfoIn.value|)
    }

    constructor (parent: Plugin, connType: string, name: string)
      ensures Valid() && this.parent == parent && this.connType == connType && this.name == name
      ensures recordInfoIn == None && recordList == [] && !inputComplete
    {
      this.parent := parent;
      this.connType := connType;
      this.name := name;
      recordInfoIn := None;
      copier := [];
      recordList := [];
      inputComplete := false;
    }

    /** `ii_init`: the schema is kept and the copier maps every field to itself. */
    method IiInit(recordInfo: Schema) returns (ok: bool)
      requires Valid() && recordList == []
      requires DistinctNames(recordInfo)
      modifies this`recordInfoIn, this`copier
      ensures Valid() && ok
      ensures recordInfoIn == Some(recordInfo) && copier == Identity(|recordInfo|)
    {
      var cs: seq<Copy> := [];
      var index := 0;
      while index < |recordInfo|
        invariant 0 <= index <= |recordInfo|
        invariant cs == Identity(index)
      {
        cs := cs + [Copy(index, index)];
        index := index + 1;
      }
      copier := cs;
      recordInfoIn := Some(recordInfo);
      ok := true;
    }

    /** `ii_push_record`: the record is buffered unchanged; before ii_init the call raises. */
    method IiPushRecord(inRecord: Record) returns (r: Outcome<bool>)
      requires Valid()
      requires recordInfoIn.Some? ==> |inRecord| == |recordInfoIn.value| && copier == Identity(|recordInfoIn.value|)
      modifies this`recordList
      ensures Valid()
      ensures recordInfoIn == None ==> r == Raised && recordList == old(recordList)
      ensures recordInfoIn.Some? ==> r == Returned(true) && recordList == old(recordList) + [inRecord]
    {
      if recordInfoIn == None {
        return Raised;
      }
      var stored := ApplyCopies(copier, Nulls(|recordInfoIn.value|), inRecord);
      IdentityCopy(Nulls(|recordInfoIn.value|), inRecord);
      recordList := recordList + [stored];
      r := Returned(true);
    }

    /**
     * `ii_close`: the connection is complete; when every registered
     * connection is, the records go out.
     */
    method IiClose() returns (r: Outcome<()>, ghost schemas: seq<Schema>, ghost bufs: seq<Buffered>)
      requires parent.Valid() && parent.uniqueFieldNames == []
      modifies this`inputComplete, parent`inputs, parent`uniqueFieldNames, parent`recordInfoOut, parent.anchor,
               parent.inputs`copier
      ensures inputComplete
      ensures old(OthersPending(parent.inputs, this)) ==>
                && r == Returned(()) && parent.inputs == old(parent.inputs)
                && parent.anchor.records == old(parent.anchor.records) && parent.recordInfoOut == old(parent.recordInfoOut)
      ensures !old(OthersPending(parent.inputs, this)) && !Keyed(old(parent.inputs), InputKey) ==>
                r == Raised && parent.inputs == old(parent.inputs) && parent.anchor.records == old(parent.anchor.records)
      ensures !old(OthersPending(parent.inputs, this)) && Keyed(old(parent.inputs), InputKey) ==>
                parent.inputs == SortByKey(old(parent.inputs), InputKey)
      ensures !old(OthersPending(parent.inputs, this)) && Keyed(old(parent.inputs), InputKey) && !old(AllSchemas(parent.inputs)) ==>
                r == Raised && parent.anchor.records == old(parent.anchor.records)
      ensures !old(OthersPending(parent.inputs, this)) && Keyed(old(parent.inputs), InputKey) && old(AllSchemas(parent.inputs)) ==>
                && r == Returned(())
                && Snapshot(parent.inputs, schemas, bufs) && LaidOut(parent.uniqueFieldNames, schemas, bufs)
                && parent.recordInfoOut == Some(Layout(schemas))
                && parent.anchor.schema == parent.recordInfoOut && parent.anchor.closed
                && parent.anchor.records == old(parent.anchor.records) + Pushed(bufs, |parent.uniqueFieldNames|)
    {
      ghost var pending := OthersPending(parent.inputs, this);
      inputComplete := true;
      assert AllComplete(parent.inputs) == !pending;
      schemas, bufs := [], [];
      if AllComplete(parent.inputs) {
        r, schemas, bufs := parent.RecordProcessor();
      } else {
        r := Returned(());
      }
    }
  }
}
