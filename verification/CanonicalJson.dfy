/** Canonical request text: two values have the same text exactly when they differ in key order alone. */
module CanonicalJson {
  import opened Basics
  import opened JsonText

  /** A value as the program holds it: an object's entries in insertion order, some of them undefined. */
  datatype Json = Null | Bool(b: bool) | Num(n: int) | Str(s: string) | Arr(items: seq<Json>) | Obj(entries: seq<Entry>)

  datatype Entry = Entry(key: string, value: Option<Json>)

  /** What it stands for: an object is a map from keys to values. */
  datatype Value =
    | VNull | VBool(b: bool) | VNum(n: int) | VStr(s: string)
    | VArr(items: seq<Value>) | VObj(fields: map<string, Value>)

  type Order = (string, string) -> bool

  /** The comparison used for sorting keys is a total order. */
  ghost predicate TotalOrder(le: Order) {
    && (forall a, b :: le(a, b) || le(b, a))
    && (forall a, b :: le(a, b) && le(b, a) ==> a == b)
    && (forall a, b, c :: le(a, b) && le(b, c) ==> le(a, c))
  }

  // ----- the canonical text -----

  function Insert(f: Field, sorted: seq<Field>, le: Order): seq<Field> {
    if sorted == [] || le(f.key, sorted[0].key) then [f] + sorted else [sorted[0]] + Insert(f, sorted[1..], le)
  }

  function Sort(fields: seq<Field>, le: Order): seq<Field> {
    if fields == [] then [] else Insert(fields[0], Sort(fields[1..], le), le)
  }

  /** Drops undefined entries and sorts the others, at every depth. */
  function Norm(v: Json, le: Order): Tree
    decreases v, 1
  {
    match v
    case Null => TNull
    case Bool(b) => TBool(b)
    case Num(n) => TNum(n)
    case Str(s) => TStr(s)
    case Arr(items) => TArr(NormItems(items, le))
    case Obj(entries) => TObj(Sort(NormEntries(entries, le), le))
  }

  function NormItems(items: seq<Json>, le: Order): (r: seq<Tree>)
    ensures |r| == |items|
    decreases items, 0
  {
    if items == [] then [] else [Norm(items[0], le)] + NormItems(items[1..], le)
  }

  function NormEntries(entries: seq<Entry>, le: Order): seq<Field>
    decreases entries, 0
  {
    if entries == [] then []
    else
      match entries[0]
      case Entry(_, None) => NormEntries(entries[1..], le)
      case Entry(key, Some(value)) => [Field(key, Norm(value, le))] + NormEntries(entries[1..], le)
  }

  function CanonicalText(v: Json, le: Order): string {
    Print(Norm(v, le))
  }

  // ----- meanings -----

  /** No object repeats a key. */
  predicate WellFormed(v: Json)
    decreases v, 1
  {
    match v
    case Arr(items) => AllWellFormed(items)
    case Obj(entries) => EntriesWellFormed(entries) && forall i, j :: 0 <= i < j < |entries| ==>
                                                                        entries[i].key != entries[j].key
    case _ => true
  }

  predicate AllWellFormed(items: seq<Json>)
    decreases items, 0
  {
    items == [] || (WellFormed(items[0]) && AllWellFormed(items[1..]))
  }

  predicate EntriesWellFormed(entries: seq<Entry>)
    decreases entries, 0
  {
    entries == [] ||
    match entries[0]
    case Entry(_, None) => EntriesWellFormed(entries[1..])
    case Entry(_, Some(value)) => WellFormed(value) && EntriesWellFormed(entries[1..])
  }

  function Meaning(v: Json): Value
    decreases v, 1
  {
    match v
    case Null => VNull
    case Bool(b) => VBool(b)
    case Num(n) => VNum(n)
    case Str(s) => VStr(s)
    case Arr(items) => VArr(Meanings(items))
    case Obj(entries) => VObj(EntryMap(entries))
  }

  function Meanings(items: seq<Json>): (r: seq<Value>)
    ensures |r| == |items|
    decreases items, 0
  {
    if items == [] then [] else [Meaning(items[0])] + Meanings(items[1..])
  }

  function EntryMap(entries: seq<Entry>): map<string, Value>
    decreases entries, 0
  {
    if entries == [] then map[]
    else
      match entries[0]
      case Entry(_, None) => EntryMap(entries[1..])
      case Entry(key, Some(value)) => EntryMap(entries[1..])[key := Meaning(value)]
  }

  function TreeMeaning(t: Tree): Value
    decreases t, 1
  {
    match t
    case TNull => VNull
    case TBool(b) => VBool(b)
    case TNum(n) => VNum(n)
    case TStr(s) => VStr(s)
    case TArr(items) => VArr(TreeMeanings(items))
    case TObj(fields) => VObj(FieldMap(fields))
  }

  function TreeMeanings(items: seq<Tree>): (r: seq<Value>)
    ensures |r| == |items|
    decreases items, 0
  {
    if items == [] then [] else [TreeMeaning(items[0])] + TreeMeanings(items[1..])
  }

  function FieldMap(fields: seq<Field>): map<string, Value>
    decreases fields, 0
  {
    if fields == [] then map[]
    else
      match fields[0]
      case Field(key, value) => FieldMap(fields[1..])[key := TreeMeaning(value)]
  }

  function KeysOf(fields: seq<Field>): set<string> {
    set f | f in fields :: f.key
  }

  // ----- sorting keeps the meaning -----

  lemma {:induction false} FieldMapKeys(fields: seq<Field>)
    ensures FieldMap(fields).Keys == KeysOf(fields)
  {
    if fields != [] {
      FieldMapKeys(fields[1..]);
      match fields[0]
      case Field(key, value) =>
        assert fields == [fields[0]] + fields[1..];
        assert KeysOf(fields) == KeysOf(fields[1..]) + {key};
    }
  }

  lemma FieldMapCons(f: Field, rest: seq<Field>)
    ensures FieldMap([f] + rest) == FieldMap(rest)[f.key := TreeMeaning(f.value)]
  {
    assert ([f] + rest)[1..] == rest;
    match f
    case Field(key, value) => assert ([f] + rest)[0] == Field(key, value);
  }

  lemma {:induction false} InsertMap(f: Field, sorted: seq<Field>, le: Order)
    requires f.key !in KeysOf(sorted)
    ensures FieldMap(Insert(f, sorted, le)) == FieldMap(sorted)[f.key := TreeMeaning(f.value)]
  {
    if sorted == [] || le(f.key, sorted[0].key) {
      FieldMapCons(f, sorted);
    } else {
      var g, rest := sorted[0], sorted[1..];
      assert sorted == [g] + rest;
      assert g in sorted && forall h :: h in rest ==> h in sorted;
      InsertMap(f, rest, le);
      FieldMapCons(g, Insert(f, rest, le));
      FieldMapCons(g, rest);
    }
  }

  lemma {:induction false} InsertKeys(f: Field, sorted: seq<Field>, le: Order)
    ensures forall g :: g in Insert(f, sorted, le) <==> g == f || g in sorted
  {
    if sorted != [] && !le(f.key, sorted[0].key) {
      InsertKeys(f, sorted[1..], le);
      assert sorted == [sorted[0]] + sorted[1..];
    }
  }

  lemma {:induction false} SortMembers(fields: seq<Field>, le: Order)
    ensures forall g :: g in Sort(fields, le) <==> g in fields
  {
    if fields != [] {
      SortMembers(fields[1..], le);
      InsertKeys(fields[0], Sort(fields[1..], le), le);
      assert fields == [fields[0]] + fields[1..];
    }
  }

  predicate DistinctKeys(fields: seq<Field>) {
    forall i, j :: 0 <= i < j < |fields| ==> fields[i].key != fields[j].key
  }

  lemma {:induction false} SortMap(fields: seq<Field>, le: Order)
    requires DistinctKeys(fields)
    ensures FieldMap(Sort(fields, le)) == FieldMap(fields)
  {
    if fields != [] {
      var f, rest := fields[0], fields[1..];
      assert fields == [f] + rest;
      SortMap(rest, le);
      SortMembers(rest, le);
      forall g | g in rest ensures g.key != f.key {
        var k :| 0 <= k < |rest| && rest[k] == g; assert fields[k + 1] == g;
      }
      InsertMap(f, Sort(rest, le), le);
      FieldMapCons(f, rest);
    }
  }

  /** Entries become fields in the same order, so their keys stay apart. */
  lemma {:induction false} NormEntriesKeys(entries: seq<Entry>, le: Order)
    requires forall i, j :: 0 <= i < j < |entries| ==> entries[i].key != entries[j].key
    ensures DistinctKeys(NormEntries(entries, le))
    ensures forall f :: f in NormEntries(entries, le) ==> exists k :: 0 <= k < |entries| && entries[k].key == f.key
  {
    if entries != [] {
      NormEntriesKeys(entries[1..], le);
      var rest := NormEntries(entries[1..], le);
      forall f | f in rest
        ensures f.key != entries[0].key && exists k :: 0 <= k < |entries| && entries[k].key == f.key {
        var k :| 0 <= k < |entries[1..]| && entries[1..][k].key == f.key;
        assert entries[k + 1].key == f.key;
      }
      match entries[0]
      case Entry(_, None) =>
      case Entry(key, Some(value)) =>
        var all := [Field(key, Norm(value, le))] + rest;
        forall i, j | 0 <= i < j < |all| ensures all[i].key != all[j].key { assert all[j] in rest; }
    }
  }

  lemma {:induction false} NormMeans(v: Json, le: Order)
    requires WellFormed(v)
    ensures TreeMeaning(Norm(v, le)) == Meaning(v)
    decreases v, 1
  {
    match v
    case Arr(items) => NormItemsMean(items, le);
    case Obj(entries) =>
      NormEntriesKeys(entries, le);
      SortMap(NormEntries(entries, le), le);
      NormEntriesMean(entries, le);
    case _ =>
  }

  lemma {:induction false} NormItemsMean(items: seq<Json>, le: Order)
    requires AllWellFormed(items)
    ensures TreeMeanings(NormItems(items, le)) == Meanings(items)
    decreases items, 0
  {
    if items != [] {
      NormMeans(items[0], le);
      NormItemsMean(items[1..], le);
      assert NormItems(items, le)[1..] == NormItems(items[1..], le);
    }
  }

  lemma {:induction false} NormEntriesMean(entries: seq<Entry>, le: Order)
    requires EntriesWellFormed(entries)
    ensures FieldMap(NormEntries(entries, le)) == EntryMap(entries)
    decreases entries, 0
  {
    if entries != [] {
      NormEntriesMean(entries[1..], le);
      match entries[0]
      case Entry(_, None) =>
      case Entry(key, Some(value)) =>
        NormMeans(value, le);
        FieldMapCons(Field(key, Norm(value, le)), NormEntries(entries[1..], le));
    }
  }

  // ----- normal trees are determined by their meaning -----

  ghost predicate StrictlySorted(fields: seq<Field>, le: Order) {
    forall i, j :: 0 <= i < j < |fields| ==> le(fields[i].key, fields[j].key) && fields[i].key != fields[j].key
  }

  ghost predicate Normal(t: Tree, le: Order)
    decreases t, 1
  {
    match t
    case TArr(items) => AllNormal(items, le)
    case TObj(fields) => StrictlySorted(fields, le) && FieldsNormal(fields, le)
    case _ => true
  }

  ghost predicate AllNormal(items: seq<Tree>, le: Order)
    decreases items, 0
  {
    items == [] || (Normal(items[0], le) && AllNormal(items[1..], le))
  }

  ghost predicate FieldsNormal(fields: seq<Field>, le: Order)
    decreases fields, 0
  {
    fields == [] ||
    match fields[0]
    case Field(_, value) => Normal(value, le) && FieldsNormal(fields[1..], le)
  }

  /** A field with a key below all others goes first. */
  lemma ConsSorted(g: Field, tail: seq<Field>, le: Order)
    requires StrictlySorted(tail, le) && FieldsNormal(tail, le) && Normal(g.value, le)
    requires forall h :: h in tail ==> le(g.key, h.key) && g.key != h.key
    ensures StrictlySorted([g] + tail, le) && FieldsNormal([g] + tail, le)
  {
    hide Normal;
    var all := [g] + tail;
    assert all[1..] == tail;
    forall i, j | 0 <= i < j < |all| ensures le(all[i].key, all[j].key) && all[i].key != all[j].key {
      if i == 0 { assert all[j] in tail; } else { assert all[i] == tail[i - 1] && all[j] == tail[j - 1]; }
    }
    match g case Field(_, _) =>
  }

  lemma TailSorted(fields: seq<Field>, le: Order)
    requires fields != [] && StrictlySorted(fields, le) && FieldsNormal(fields, le)
    ensures StrictlySorted(fields[1..], le) && FieldsNormal(fields[1..], le) && Normal(fields[0].value, le)
    ensures forall h :: h in fields[1..] ==> h in fields && le(fields[0].key, h.key) && fields[0].key != h.key
  {
    hide Normal;
    var rest := fields[1..];
    forall h | h in rest ensures h in fields && le(fields[0].key, h.key) && fields[0].key != h.key {
      var k :| 0 <= k < |rest| && rest[k] == h;
      assert fields[k + 1] == h;
    }
    match fields[0] case Field(_, _) =>
  }

  lemma {:induction false} InsertSorted(f: Field, sorted: seq<Field>, le: Order)
    requires TotalOrder(le) && StrictlySorted(sorted, le) && FieldsNormal(sorted, le) && Normal(f.value, le)
             && f.key !in KeysOf(sorted)
    ensures StrictlySorted(Insert(f, sorted, le), le) && FieldsNormal(Insert(f, sorted, le), le)
  {
    hide StrictlySorted, FieldsNormal, Normal;
    if sorted == [] {
      ConsSorted(f, sorted, le);
    } else {
      TailSorted(sorted, le);
      var g, rest := sorted[0], sorted[1..];
      assert g in sorted;
      if le(f.key, g.key) {
        forall h | h in sorted ensures le(f.key, h.key) && f.key != h.key { if h != g { assert sorted == [g] + rest; } }
        ConsSorted(f, sorted, le);
      } else {
        InsertSorted(f, rest, le);
        InsertKeys(f, rest, le);
        ConsSorted(g, Insert(f, rest, le), le);
      }
    }
  }

  lemma {:induction false} SortSorted(fields: seq<Field>, le: Order)
    requires TotalOrder(le) && DistinctKeys(fields) && FieldsNormal(fields, le)
    ensures StrictlySorted(Sort(fields, le), le) && FieldsNormal(Sort(fields, le), le)
  {
    if fields != [] {
      var f, rest := fields[0], fields[1..];
      match f case Field(_, _) =>
      SortSorted(rest, le);
      SortMembers(rest, le);
      forall g | g in rest ensures g.key != f.key {
        var k :| 0 <= k < |rest| && rest[k] == g; assert fields[k + 1] == g;
      }
      InsertSorted(f, Sort(rest, le), le);
    }
  }

  lemma {:induction false} NormIsNormal(v: Json, le: Order)
    requires TotalOrder(le) && WellFormed(v)
    ensures Normal(Norm(v, le), le)
    decreases v, 1
  {
    match v
    case Arr(items) => NormItemsNormal(items, le);
    case Obj(entries) =>
      NormEntriesKeys(entries, le);
      NormEntriesNormal(entries, le);
      SortSorted(NormEntries(entries, le), le);
    case _ =>
  }

  lemma {:induction false} NormItemsNormal(items: seq<Json>, le: Order)
    requires TotalOrder(le) && AllWellFormed(items)
    ensures AllNormal(NormItems(items, le), le)
    decreases items, 0
  {
    if items != [] {
      NormIsNormal(items[0], le);
      NormItemsNormal(items[1..], le);
      assert NormItems(items, le)[1..] == NormItems(items[1..], le);
    }
  }

  lemma {:induction false} NormEntriesNormal(entries: seq<Entry>, le: Order)
    requires TotalOrder(le) && EntriesWellFormed(entries)
    ensures FieldsNormal(NormEntries(entries, le), le)
    decreases entries, 0
  {
    if entries != [] {
      NormEntriesNormal(entries[1..], le);
      match entries[0]
      case Entry(_, None) =>
      case Entry(key, Some(value)) =>
        NormIsNormal(value, le);
        assert ([Field(key, Norm(value, le))] + NormEntries(entries[1..], le))[1..] == NormEntries(entries[1..], le);
    }
  }

  lemma {:induction false} NormalDetermined(t: Tree, u: Tree, le: Order)
    requires TotalOrder(le) && Normal(t, le) && Normal(u, le) && TreeMeaning(t) == TreeMeaning(u)
    ensures t == u
    decreases t, 1
  {
    match t
    case TArr(items) => ItemsDetermined(items, u.items, le);
    case TObj(fields) => FieldsDetermined(fields, u.fields, le);
    case _ =>
  }

  lemma {:induction false} ItemsDetermined(a: seq<Tree>, b: seq<Tree>, le: Order)
    requires TotalOrder(le) && AllNormal(a, le) && AllNormal(b, le) && TreeMeanings(a) == TreeMeanings(b)
    ensures a == b
    decreases a, 0
  {
    if a != [] {
      assert TreeMeanings(a)[0] == TreeMeaning(a[0]) && TreeMeanings(b)[0] == TreeMeaning(b[0]);
      assert TreeMeanings(a)[1..] == TreeMeanings(a[1..]) && TreeMeanings(b)[1..] == TreeMeanings(b[1..]);
      NormalDetermined(a[0], b[0], le);
      ItemsDetermined(a[1..], b[1..], le);
    }
  }

  /** The first field of a sorted object has its least key, and its map entry. */
  lemma FirstField(fields: seq<Field>, le: Order)
    requires TotalOrder(le) && StrictlySorted(fields, le) && FieldsNormal(fields, le) && fields != []
    ensures fields[0].key in FieldMap(fields) && FieldMap(fields)[fields[0].key] == TreeMeaning(fields[0].value)
    ensures forall k :: k in FieldMap(fields) ==> le(fields[0].key, k)
    ensures FieldMap(fields[1..]) == FieldMap(fields) - {fields[0].key}
  {
    hide StrictlySorted, FieldsNormal, FieldMap, TreeMeaning;
    var f, rest := fields[0], fields[1..];
    TailSorted(fields, le);
    assert fields == [f] + rest;
    FieldMapCons(f, rest);
    FieldMapKeys(rest);
    assert f.key !in KeysOf(rest);
  }

  lemma NoFieldsNoMap(fields: seq<Field>)
    ensures FieldMap(fields) == map[] <==> fields == []
  {
    FieldMapKeys(fields);
    if fields != [] { assert fields[0] in fields && fields[0].key in FieldMap(fields); }
  }

  lemma {:induction false} FieldsDetermined(a: seq<Field>, b: seq<Field>, le: Order)
    requires TotalOrder(le) && StrictlySorted(a, le) && FieldsNormal(a, le) && StrictlySorted(b, le)
             && FieldsNormal(b, le)
    requires FieldMap(a) == FieldMap(b)
    ensures a == b
    decreases a, 0
  {
    hide StrictlySorted, FieldsNormal, Normal, TreeMeaning, FieldMap;
    NoFieldsNoMap(a);
    NoFieldsNoMap(b);
    if a != [] {
      TailSorted(a, le);
      TailSorted(b, le);
      FirstField(a, le);
      FirstField(b, le);
      assert a[0].key == b[0].key;
      match a[0]
      case Field(key, value) =>
        NormalDetermined(value, b[0].value, le);
        FieldsDetermined(a[1..], b[1..], le);
        assert a == [a[0]] + a[1..] && b == [b[0]] + b[1..];
    }
  }

  /** The texts are equal exactly when the values are equal up to key order and undefined entries. */
  lemma CanonicalTextDecides(a: Json, b: Json, le: Order)
    requires TotalOrder(le) && WellFormed(a) && WellFormed(b)
    ensures CanonicalText(a, le) == CanonicalText(b, le) <==> Meaning(a) == Meaning(b)
  {
    NormMeans(a, le);
    NormMeans(b, le);
    if CanonicalText(a, le) == CanonicalText(b, le) {
      PrintInjective(Norm(a, le), Norm(b, le));
    }
    if Meaning(a) == Meaning(b) {
      NormIsNormal(a, le);
      NormIsNormal(b, le);
      NormalDetermined(Norm(a, le), Norm(b, le), le);
    }
  }
}
