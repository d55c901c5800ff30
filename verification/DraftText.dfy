/** A draft's text after normalisation: the order of its lists leaves no trace, everything else does. */
module DraftText {
  import opened Basics
  import opened JsonText
  import opened CanonicalJson

  /** A list element with the id it is sorted by. */
  datatype Item = Item(id: string, json: Json)

  /** The id can be read off the element: a bare product id, or the host id an object carries. */
  function IdOf(v: Value): Option<string> {
    match v
    case VStr(s) => Some(s)
    case VObj(m) => if "vpsProviderId" in m && m["vpsProviderId"].VStr? then Some(m["vpsProviderId"].s) else None
    case _ => None
  }

  ghost predicate Listed(items: seq<Item>) {
    && (forall k :: 0 <= k < |items| ==> WellFormed(items[k].json) && IdOf(Meaning(items[k].json)) == Some(items[k].id))
    && (forall j, k :: 0 <= j < k < |items| ==> items[j].id != items[k].id)
  }

  /** An update that carries its host's id, and whatever other fields, is such an element, and so is a product id. */
  lemma ElementsCarryIds(host: string, others: seq<Entry>)
    requires WellFormed(Obj(others)) && forall k :: 0 <= k < |others| ==> others[k].key != "vpsProviderId"
    ensures Listed([Item(host, Str(host))])
    ensures Listed([Item(host, Obj([Entry("vpsProviderId", Some(Str(host)))] + others))])
  {
    var entries := [Entry("vpsProviderId", Some(Str(host)))] + others;
    assert entries[1..] == others && WellFormed(Str(host)) && Meaning(Str(host)) == VStr(host);
    assert EntriesWellFormed(entries) && EntryMap(entries) == EntryMap(others)["vpsProviderId" := VStr(host)];
    assert Meaning(Obj(entries)) == VObj(EntryMap(entries));
  }

  // ----- sorting by id -----

  function InsertItem(x: Item, sorted: seq<Item>, le: Order): seq<Item> {
    if sorted == [] || le(x.id, sorted[0].id) then [x] + sorted else [sorted[0]] + InsertItem(x, sorted[1..], le)
  }

  function SortItems(items: seq<Item>, le: Order): seq<Item> {
    if items == [] then [] else InsertItem(items[0], SortItems(items[1..], le), le)
  }

  function JsonsOf(items: seq<Item>): (r: seq<Json>)
    ensures |r| == |items| && forall k :: 0 <= k < |r| ==> r[k] == items[k].json
  {
    if items == [] then [] else [items[0].json] + JsonsOf(items[1..])
  }

  /** What a list says: which element stands under which id. */
  function ItemMap(items: seq<Item>): map<string, Value> {
    if items == [] then map[] else ItemMap(items[1..])[items[0].id := Meaning(items[0].json)]
  }

  /** The list as the fields of an object: sorting the one sorts the other. */
  function AsFields(items: seq<Item>, le: Order): (r: seq<Field>)
    ensures |r| == |items| && forall k :: 0 <= k < |r| ==> r[k] == Field(items[k].id, Norm(items[k].json, le))
  {
    if items == [] then [] else [Field(items[0].id, Norm(items[0].json, le))] + AsFields(items[1..], le)
  }

  lemma {:induction false} InsertItemAsFields(x: Item, sorted: seq<Item>, le: Order)
    ensures AsFields(InsertItem(x, sorted, le), le) == Insert(Field(x.id, Norm(x.json, le)), AsFields(sorted, le), le)
  {
    hide Norm;
    if sorted != [] && !le(x.id, sorted[0].id) {
      InsertItemAsFields(x, sorted[1..], le);
      assert AsFields(sorted, le)[1..] == AsFields(sorted[1..], le);
      assert ([sorted[0]] + InsertItem(x, sorted[1..], le))[1..] == InsertItem(x, sorted[1..], le);
    } else {
      assert ([x] + sorted)[1..] == sorted;
    }
  }

  lemma {:induction false} SortItemsAsFields(items: seq<Item>, le: Order)
    ensures AsFields(SortItems(items, le), le) == Sort(AsFields(items, le), le)
  {
    hide Norm;
    if items != [] {
      SortItemsAsFields(items[1..], le);
      InsertItemAsFields(items[0], SortItems(items[1..], le), le);
      assert AsFields(items, le)[1..] == AsFields(items[1..], le);
    }
  }

  lemma {:induction false} FieldsMean(items: seq<Item>, le: Order)
    requires forall k :: 0 <= k < |items| ==> WellFormed(items[k].json)
    ensures FieldMap(AsFields(items, le)) == ItemMap(items)
  {
    hide Norm, Meaning, WellFormed;
    if items != [] {
      FieldsMean(items[1..], le);
      NormMeans(items[0].json, le);
      FieldMapCons(Field(items[0].id, Norm(items[0].json, le)), AsFields(items[1..], le));
    }
  }

  lemma {:induction false} ItemFieldsNormal(items: seq<Item>, le: Order)
    requires TotalOrder(le) && forall k :: 0 <= k < |items| ==> WellFormed(items[k].json)
    ensures FieldsNormal(AsFields(items, le), le)
  {
    hide Norm, Normal, WellFormed;
    if items != [] {
      ItemFieldsNormal(items[1..], le);
      NormIsNormal(items[0].json, le);
      assert AsFields(items, le)[1..] == AsFields(items[1..], le);
      match AsFields(items, le)[0] case Field(_, _) =>
    }
  }

  lemma {:induction false} InsertItemMembers(x: Item, sorted: seq<Item>, le: Order)
    ensures forall y :: y in InsertItem(x, sorted, le) <==> y == x || y in sorted
    ensures |InsertItem(x, sorted, le)| == |sorted| + 1
  {
    if sorted != [] && !le(x.id, sorted[0].id) {
      InsertItemMembers(x, sorted[1..], le);
      assert sorted == [sorted[0]] + sorted[1..];
    }
  }

  lemma {:induction false} SortItemsMembers(items: seq<Item>, le: Order)
    ensures forall y :: y in SortItems(items, le) <==> y in items
    ensures |SortItems(items, le)| == |items|
  {
    if items != [] {
      SortItemsMembers(items[1..], le);
      InsertItemMembers(items[0], SortItems(items[1..], le), le);
      assert items == [items[0]] + items[1..];
    }
  }

  /** Sorting changes no id's element. */
  lemma SortedMap(items: seq<Item>, le: Order)
    requires Listed(items)
    ensures ItemMap(SortItems(items, le)) == ItemMap(items)
  {
    hide Norm, Meaning, WellFormed;
    SortItemsMembers(items, le);
    forall k | 0 <= k < |items| ensures WellFormed(SortItems(items, le)[k].json) {
      assert SortItems(items, le)[k] in items;
    }
    FieldsMean(items, le);
    FieldsMean(SortItems(items, le), le);
    SortItemsAsFields(items, le);
    assert DistinctKeys(AsFields(items, le));
    SortMap(AsFields(items, le), le);
  }

  /** A list of elements that carry their ids is told by their meanings alone. */
  lemma {:induction false} MeaningsTellMap(a: seq<Item>, b: seq<Item>)
    requires |a| == |b| && Meanings(JsonsOf(a)) == Meanings(JsonsOf(b))
    requires forall k :: 0 <= k < |a| ==>
                           IdOf(Meaning(a[k].json)) == Some(a[k].id) && IdOf(Meaning(b[k].json)) == Some(b[k].id)
    ensures ItemMap(a) == ItemMap(b)
  {
    hide Meaning, IdOf;
    if a != [] {
      FirstMeaning(a);
      FirstMeaning(b);
      assert a[0].id == b[0].id;
      MeaningsTellMap(a[1..], b[1..]);
    }
  }

  lemma FirstMeaning(items: seq<Item>)
    requires items != []
    ensures Meanings(JsonsOf(items))[0] == Meaning(items[0].json)
            && Meanings(JsonsOf(items))[1..] == Meanings(JsonsOf(items[1..]))
  {
    hide Meaning;
    assert JsonsOf(items)[1..] == JsonsOf(items[1..]);
  }

  lemma {:induction false} FieldsTellMeanings(a: seq<Item>, b: seq<Item>, le: Order)
    requires AsFields(a, le) == AsFields(b, le)
    requires forall k :: 0 <= k < |a| ==> WellFormed(a[k].json)
    requires forall k :: 0 <= k < |b| ==> WellFormed(b[k].json)
    ensures |a| == |b| && Meanings(JsonsOf(a)) == Meanings(JsonsOf(b))
  {
    hide Meaning, Norm, WellFormed;
    if a != [] {
      assert AsFields(a, le)[0] == AsFields(b, le)[0];
      NormMeans(a[0].json, le);
      NormMeans(b[0].json, le);
      assert AsFields(a, le)[1..] == AsFields(a[1..], le) && AsFields(b, le)[1..] == AsFields(b[1..], le);
      FieldsTellMeanings(a[1..], b[1..], le);
      FirstMeaning(a);
      FirstMeaning(b);
      assert Meanings(JsonsOf(a)) == [Meaning(a[0].json)] + Meanings(JsonsOf(a[1..]));
      assert Meanings(JsonsOf(b)) == [Meaning(b[0].json)] + Meanings(JsonsOf(b[1..]));
    }
  }

  /** Sorted by id, two lists mean the same exactly when they put the same element under every id. */
  lemma ListsDecide(a: seq<Item>, b: seq<Item>, le: Order)
    requires TotalOrder(le) && Listed(a) && Listed(b)
    ensures Meanings(JsonsOf(SortItems(a, le))) == Meanings(JsonsOf(SortItems(b, le))) <==> ItemMap(a) == ItemMap(b)
  {
    hide Meaning, Norm, WellFormed, IdOf, Normal;
    var sa, sb := SortItems(a, le), SortItems(b, le);
    SortedListed(a, le);
    SortedListed(b, le);
    SortedMap(a, le);
    SortedMap(b, le);
    if Meanings(JsonsOf(sa)) == Meanings(JsonsOf(sb)) {
      assert |sa| == |Meanings(JsonsOf(sa))| && |sb| == |Meanings(JsonsOf(sb))|;
      MeaningsTellMap(sa, sb);
    }
    if ItemMap(a) == ItemMap(b) {
      SortedFields(a, le);
      SortedFields(b, le);
      FieldsDetermined(AsFields(sa, le), AsFields(sb, le), le);
      FieldsTellMeanings(sa, sb, le);
    }
  }

  lemma SortedListed(items: seq<Item>, le: Order)
    requires Listed(items)
    ensures forall k :: 0 <= k < |SortItems(items, le)| ==>
                          WellFormed(SortItems(items, le)[k].json)
                          && IdOf(Meaning(SortItems(items, le)[k].json)) == Some(SortItems(items, le)[k].id)
  {
    SortItemsMembers(items, le);
    forall k | 0 <= k < |items| ensures SortItems(items, le)[k] in items {}
  }

  lemma SortedFields(items: seq<Item>, le: Order)
    requires TotalOrder(le) && Listed(items)
    ensures var fields := AsFields(SortItems(items, le), le);
            StrictlySorted(fields, le) && FieldsNormal(fields, le) && FieldMap(fields) == ItemMap(items)
  {
    hide Meaning, Norm, WellFormed, IdOf, Normal;
    SortItemsAsFields(items, le);
    assert DistinctKeys(AsFields(items, le));
    ItemFieldsNormal(items, le);
    SortSorted(AsFields(items, le), le);
    SortMap(AsFields(items, le), le);
    FieldsMean(items, le);
  }

  // ----- whole drafts -----

  /** A confirmed shared limit: its other entries, and the products it names. */
  datatype Impact = Impact(host: string, entries: seq<Entry>, products: seq<string>)

  datatype RawDraft = RawDraft(scalars: seq<Entry>, links: seq<Item>, updates: seq<Item>, identities: seq<Item>,
                               shared: seq<Impact>)

  function ProductItems(products: seq<string>): (r: seq<Item>)
    ensures |r| == |products| && forall k :: 0 <= k < |r| ==> r[k] == Item(products[k], Str(products[k]))
  {
    seq(|products|, k requires 0 <= k < |products| => Item(products[k], Str(products[k])))
  }

  function SortedList(items: seq<Item>, le: Order): Json {
    Arr(JsonsOf(SortItems(items, le)))
  }

  /** Product ids are sorted by their own order, not by the one for hosts and keys. */
  function ImpactJson(i: Impact, plain: Order): Json {
    Obj(i.entries + [Entry("productIds", Some(SortedList(ProductItems(i.products), plain)))])
  }

  function ImpactItems(shared: seq<Impact>, plain: Order): (r: seq<Item>)
    ensures |r| == |shared| && forall k :: 0 <= k < |r| ==> r[k] == Item(shared[k].host, ImpactJson(shared[k], plain))
  {
    seq(|shared|, k requires 0 <= k < |shared| => Item(shared[k].host, ImpactJson(shared[k], plain)))
  }

  function ConfirmationsJson(d: RawDraft, plain: Order, le: Order): Json {
    Obj([Entry("identities", Some(SortedList(d.identities, le))),
         Entry("sharedLimits", Some(SortedList(ImpactItems(d.shared, plain), le)))])
  }

  /** `normalizeDraft`: every list sorted by host, product ids sorted, the rest as it is. */
  function NormalizedJson(d: RawDraft, plain: Order, le: Order): Json {
    Obj(d.scalars + [Entry("links", Some(SortedList(d.links, le)))]
        + [Entry("providerUpdates", Some(SortedList(d.updates, le)))]
        + [Entry("confirmations", Some(ConfirmationsJson(d, plain, le)))])
  }

  predicate Lacks(entries: seq<Entry>, key: string) {
    forall k :: 0 <= k < |entries| ==> entries[k].key != key
  }

  ghost predicate ImpactReady(i: Impact) {
    && WellFormed(Obj(i.entries)) && Lacks(i.entries, "productIds") && IdOf(Meaning(Obj(i.entries))) == Some(i.host)
    && (forall j, k :: 0 <= j < k < |i.products| ==> i.products[j] != i.products[k])
  }

  ghost predicate SharedReady(shared: seq<Impact>) {
    && (forall k :: 0 <= k < |shared| ==> ImpactReady(shared[k]))
    && (forall j, k :: 0 <= j < k < |shared| ==> shared[j].host != shared[k].host)
  }

  /** What the request schema guarantees. */
  ghost predicate DraftReady(d: RawDraft) {
    && WellFormed(Obj(d.scalars)) && Lacks(d.scalars, "links") && Lacks(d.scalars, "providerUpdates")
       && Lacks(d.scalars, "confirmations")
    && Listed(d.links) && Listed(d.updates) && Listed(d.identities)
    && SharedReady(d.shared)
  }

  lemma {:induction false} EntryMapSnoc(entries: seq<Entry>, key: string, value: Json)
    requires Lacks(entries, key)
    ensures EntryMap(entries + [Entry(key, Some(value))]) == EntryMap(entries)[key := Meaning(value)]
            && key !in EntryMap(entries)
  {
    hide Meaning;
    var all := entries + [Entry(key, Some(value))];
    if entries == [] {
      assert all[1..] == [];
      match all[0] case Entry(_, _) =>
    } else {
      assert all[1..] == entries[1..] + [Entry(key, Some(value))];
      EntryMapSnoc(entries[1..], key, value);
      match entries[0]
      case Entry(_, None) =>
      case Entry(_, Some(_)) =>
    }
  }

  lemma {:induction false} EntriesSnoc(entries: seq<Entry>, key: string, value: Json)
    requires WellFormed(Obj(entries)) && WellFormed(value) && Lacks(entries, key)
    ensures WellFormed(Obj(entries + [Entry(key, Some(value))]))
  {
    hide Meaning;
    EntriesAllSnoc(entries, key, value);
  }

  lemma {:induction false} EntriesAllSnoc(entries: seq<Entry>, key: string, value: Json)
    requires EntriesWellFormed(entries) && WellFormed(value)
    ensures EntriesWellFormed(entries + [Entry(key, Some(value))])
  {
    var all := entries + [Entry(key, Some(value))];
    if entries == [] {
      assert all[1..] == [];
      match all[0] case Entry(_, _) =>
    } else {
      assert all[1..] == entries[1..] + [Entry(key, Some(value))];
      match entries[0]
      case Entry(_, None) => EntriesAllSnoc(entries[1..], key, value);
      case Entry(_, Some(_)) => EntriesAllSnoc(entries[1..], key, value);
    }
  }

  /** Adding the same new key to two objects keeps them as equal as they and the values were. */
  lemma SnocDecides(a: seq<Entry>, u: Json, b: seq<Entry>, v: Json, key: string)
    requires Lacks(a, key) && Lacks(b, key)
    ensures EntryMap(a + [Entry(key, Some(u))]) == EntryMap(b + [Entry(key, Some(v))]) <==>
              EntryMap(a) == EntryMap(b) && Meaning(u) == Meaning(v)
  {
    hide Meaning, EntryMap;
    EntryMapSnoc(a, key, u);
    EntryMapSnoc(b, key, v);
    var m, n := EntryMap(a)[key := Meaning(u)], EntryMap(b)[key := Meaning(v)];
    if m == n {
      assert m[key] == n[key];
      assert EntryMap(a) == m - {key} && EntryMap(b) == n - {key};
    }
  }

  lemma SortedListDecides(a: seq<Item>, b: seq<Item>, le: Order)
    requires TotalOrder(le) && Listed(a) && Listed(b)
    ensures Meaning(SortedList(a, le)) == Meaning(SortedList(b, le)) <==> ItemMap(a) == ItemMap(b)
    ensures WellFormed(SortedList(a, le)) && WellFormed(SortedList(b, le))
  {
    hide WellFormed, IdOf, Listed, TotalOrder, SortItems;
    ListsDecide(a, b, le);
    SortedListWellFormed(a, le);
    SortedListWellFormed(b, le);
  }

  lemma SortedListWellFormed(items: seq<Item>, le: Order)
    requires Listed(items)
    ensures WellFormed(SortedList(items, le))
  {
    hide Meaning, IdOf;
    SortedListed(items, le);
    JsonsWellFormed(SortItems(items, le));
  }

  lemma {:induction false} JsonsWellFormed(items: seq<Item>)
    requires forall k :: 0 <= k < |items| ==> WellFormed(items[k].json)
    ensures AllWellFormed(JsonsOf(items))
  {
    if items != [] {
      JsonsWellFormed(items[1..]);
      assert JsonsOf(items)[1..] == JsonsOf(items[1..]);
    }
  }

  /** Product ids, as elements of a sorted list. */
  lemma ProductsListed(products: seq<string>)
    requires forall j, k :: 0 <= j < k < |products| ==> products[j] != products[k]
    ensures Listed(ProductItems(products))
  {}

  lemma {:induction false} ItemMapOf(items: seq<Item>)
    requires forall j, k :: 0 <= j < k < |items| ==> items[j].id != items[k].id
    ensures forall k :: 0 <= k < |items| ==>
                          items[k].id in ItemMap(items) && ItemMap(items)[items[k].id] == Meaning(items[k].json)
    ensures forall id :: id in ItemMap(items) ==> exists k :: 0 <= k < |items| && items[k].id == id
  {
    hide Meaning;
    if items != [] {
      var rest := items[1..];
      ItemMapOf(rest);
      forall k | 0 <= k < |items|
        ensures items[k].id in ItemMap(items) && ItemMap(items)[items[k].id] == Meaning(items[k].json) {
        if k > 0 { assert items[k] == rest[k - 1] && items[0].id != items[k].id; }
      }
      forall id | id in ItemMap(items) ensures exists k :: 0 <= k < |items| && items[k].id == id {
        if id != items[0].id { var k :| 0 <= k < |rest| && rest[k].id == id; assert items[k + 1].id == id; }
      }
    }
  }

  /** Two lists of product ids are the same under sorting exactly when they are the same set. */
  lemma ProductsDecide(a: seq<string>, b: seq<string>)
    requires forall j, k :: 0 <= j < k < |a| ==> a[j] != a[k]
    requires forall j, k :: 0 <= j < k < |b| ==> b[j] != b[k]
    ensures ItemMap(ProductItems(a)) == ItemMap(ProductItems(b)) <==> (set p | p in a) == (set p | p in b)
  {
    var m, n := ItemMap(ProductItems(a)), ItemMap(ProductItems(b));
    ProductMap(a);
    ProductMap(b);
    assert m == n <==> m.Keys == n.Keys;
  }

  lemma ProductMap(a: seq<string>)
    requires forall j, k :: 0 <= j < k < |a| ==> a[j] != a[k]
    ensures var m := ItemMap(ProductItems(a)); m.Keys == (set p | p in a) && forall p :: p in m ==> m[p] == VStr(p)
  {
    var items := ProductItems(a);
    ItemMapOf(items);
    var m := ItemMap(items);
    forall p | p in a ensures p in m { var k :| 0 <= k < |a| && a[k] == p; assert items[k].id == p; }
    forall p | p in m ensures p in a && m[p] == VStr(p) {
      var k :| 0 <= k < |items| && items[k].id == p;
      assert items[k] == Item(a[k], Str(a[k]));
    }
  }

  /** Two shared limits read the same exactly when their entries do and they name the same products. */
  lemma ImpactsDecide(a: Impact, b: Impact, plain: Order)
    requires TotalOrder(plain) && ImpactReady(a) && ImpactReady(b)
    ensures Meaning(ImpactJson(a, plain)) == Meaning(ImpactJson(b, plain)) <==>
              EntryMap(a.entries) == EntryMap(b.entries) && (set p | p in a.products) == (set p | p in b.products)
  {
    hide EntryMap, SortedList, WellFormed;
    ProductsListed(a.products);
    ProductsListed(b.products);
    SortedListDecides(ProductItems(a.products), ProductItems(b.products), plain);
    ProductsDecide(a.products, b.products);
    SnocDecides(a.entries, SortedList(ProductItems(a.products), plain), b.entries,
                SortedList(ProductItems(b.products), plain), "productIds");
  }

  lemma ImpactListed(i: Impact, plain: Order)
    requires ImpactReady(i)
    ensures WellFormed(ImpactJson(i, plain)) && IdOf(Meaning(ImpactJson(i, plain))) == Some(i.host)
  {
    hide WellFormed, SortedList, Lacks, EntryMap;
    var products := SortedList(ProductItems(i.products), plain);
    ProductsListed(i.products);
    SortedListWellFormed(ProductItems(i.products), plain);
    EntriesSnoc(i.entries, "productIds", products);
    EntryMapSnoc(i.entries, "productIds", products);
  }

  lemma ImpactsListed(shared: seq<Impact>, plain: Order)
    requires SharedReady(shared)
    ensures Listed(ImpactItems(shared, plain))
  {
    hide WellFormed, IdOf, Meaning, ImpactJson, ImpactReady;
    forall k | 0 <= k < |shared|
      ensures WellFormed(ImpactJson(shared[k], plain))
              && IdOf(Meaning(ImpactJson(shared[k], plain))) == Some(shared[k].host)
    {
      ImpactListed(shared[k], plain);
    }
  }

  lemma ConfirmationsDecide(a: RawDraft, b: RawDraft, plain: Order, le: Order)
    requires TotalOrder(plain) && TotalOrder(le) && DraftReady(a) && DraftReady(b)
    ensures Meaning(ConfirmationsJson(a, plain, le)) == Meaning(ConfirmationsJson(b, plain, le)) <==>
              ItemMap(a.identities) == ItemMap(b.identities)
              && ItemMap(ImpactItems(a.shared, plain)) == ItemMap(ImpactItems(b.shared, plain))
    ensures WellFormed(ConfirmationsJson(a, plain, le))
  {
    hide SortedList, Listed, ItemMap;
    var x, y := SortedList(a.identities, le), SortedList(b.identities, le);
    var u, v := SortedList(ImpactItems(a.shared, plain), le), SortedList(ImpactItems(b.shared, plain), le);
    ImpactsListed(a.shared, plain);
    ImpactsListed(b.shared, plain);
    SortedListDecides(a.identities, b.identities, le);
    SortedListDecides(ImpactItems(a.shared, plain), ImpactItems(b.shared, plain), le);
    TwoEntries("identities", x, "sharedLimits", u);
    TwoEntries("identities", y, "sharedLimits", v);
    SnocDecides([], x, [], y, "identities");
    SnocDecides([] + [Entry("identities", Some(x))], u, [] + [Entry("identities", Some(y))], v, "sharedLimits");
  }

  lemma TwoEntries(k: string, x: Json, l: string, u: Json)
    requires k != l && WellFormed(x) && WellFormed(u)
    ensures [Entry(k, Some(x)), Entry(l, Some(u))] == [] + [Entry(k, Some(x))] + [Entry(l, Some(u))]
    ensures WellFormed(Obj([Entry(k, Some(x)), Entry(l, Some(u))]))
  {
    hide Meaning;
    assert WellFormed(Obj([]));
    EntriesSnoc([], k, x);
    assert [] + [Entry(k, Some(x))] == [Entry(k, Some(x))];
    EntriesSnoc([Entry(k, Some(x))], l, u);
    assert [Entry(k, Some(x))] + [Entry(l, Some(u))] == [Entry(k, Some(x)), Entry(l, Some(u))];
  }

  /** The same host, entries and set of products. */
  ghost predicate SameImpact(x: Impact, y: Impact) {
    x.host == y.host && EntryMap(x.entries) == EntryMap(y.entries)
    && (set p | p in x.products) == (set p | p in y.products)
  }

  ghost predicate StandsIn(x: Impact, shared: seq<Impact>) {
    exists k :: 0 <= k < |shared| && SameImpact(x, shared[k])
  }

  /** Every shared limit of the one stands in the other. */
  ghost predicate SharedWithin(a: seq<Impact>, b: seq<Impact>) {
    forall j :: 0 <= j < |a| ==> StandsIn(a[j], b)
  }

  /** The sorted shared limits read the same exactly when each stands in the other list, wherever. */
  lemma SharedDecides(a: seq<Impact>, b: seq<Impact>, plain: Order)
    requires TotalOrder(plain) && SharedReady(a) && SharedReady(b)
    ensures ItemMap(ImpactItems(a, plain)) == ItemMap(ImpactItems(b, plain)) <==>
              SharedWithin(a, b) && SharedWithin(b, a)
  {
    hide ImpactReady, ItemMap, TotalOrder, SameImpact, SharedWithin, WellFormed, IdOf;
    var m, n := ItemMap(ImpactItems(a, plain)), ItemMap(ImpactItems(b, plain));
    SharedIncluded(a, b, plain);
    SharedIncluded(b, a, plain);
    assert m == n <==> Submap(m, n) && Submap(n, m);
  }

  ghost predicate Submap(m: map<string, Value>, n: map<string, Value>) {
    forall id :: id in m ==> id in n && n[id] == m[id]
  }

  lemma SharedIncluded(a: seq<Impact>, b: seq<Impact>, plain: Order)
    requires TotalOrder(plain) && SharedReady(a) && SharedReady(b)
    ensures Submap(ItemMap(ImpactItems(a, plain)), ItemMap(ImpactItems(b, plain))) <==> SharedWithin(a, b)
  {
    hide ImpactReady, ItemMap, TotalOrder, WellFormed, IdOf, EntryMap, ImpactJson, Meaning;
    var x, y := ImpactItems(a, plain), ImpactItems(b, plain);
    ImpactsListed(a, plain);
    ImpactsListed(b, plain);
    ItemMapOf(x);
    ItemMapOf(y);
    forall j, k | 0 <= j < |a| && 0 <= k < |b|
      ensures SameImpact(a[j], b[k]) <==> x[j].id == y[k].id && Meaning(x[j].json) == Meaning(y[k].json)
    {
      ImpactsDecide(a[j], b[k], plain);
    }
    if Submap(ItemMap(x), ItemMap(y)) {
      forall j | 0 <= j < |a| ensures StandsIn(a[j], b) {
        assert x[j].id in ItemMap(x);
        var k :| 0 <= k < |y| && y[k].id == x[j].id;
        assert SameImpact(a[j], b[k]);
      }
    }
    if SharedWithin(a, b) {
      forall id | id in ItemMap(x) ensures id in ItemMap(y) && ItemMap(y)[id] == ItemMap(x)[id] {
        var j :| 0 <= j < |x| && x[j].id == id;
        assert StandsIn(a[j], b);
        var k :| 0 <= k < |b| && SameImpact(a[j], b[k]);
        assert y[k].id == id;
      }
    }
  }

  /** The same scalars and, list by list, the same element under every id. */
  ghost predicate SameContent(a: RawDraft, b: RawDraft) {
    && EntryMap(a.scalars) == EntryMap(b.scalars)
    && ItemMap(a.links) == ItemMap(b.links) && ItemMap(a.updates) == ItemMap(b.updates)
    && ItemMap(a.identities) == ItemMap(b.identities)
       && SharedWithin(a.shared, b.shared) && SharedWithin(b.shared, a.shared)
  }

  /**
   Two requests have the same text, and so the same hash, exactly when they differ in the order
   of lists and keys alone.
   */
  lemma DraftTextDecides(a: RawDraft, b: RawDraft, plain: Order, le: Order)
    requires TotalOrder(plain) && TotalOrder(le) && DraftReady(a) && DraftReady(b)
    ensures CanonicalText(NormalizedJson(a, plain, le), le) == CanonicalText(NormalizedJson(b, plain, le), le) <==>
              SameContent(a, b)
  {
    hide CanonicalText, ConfirmationsJson, SortedList, ItemMap, Listed, TotalOrder, ImpactReady, EntryMap;
    NormalizedWellFormed(a, plain, le);
    NormalizedWellFormed(b, plain, le);
    CanonicalTextDecides(NormalizedJson(a, plain, le), NormalizedJson(b, plain, le), le);
    NormalizedDecides(a, b, plain, le);
  }

  function WithLinks(d: RawDraft, le: Order): seq<Entry> {
    d.scalars + [Entry("links", Some(SortedList(d.links, le)))]
  }

  function WithUpdates(d: RawDraft, le: Order): seq<Entry> {
    WithLinks(d, le) + [Entry("providerUpdates", Some(SortedList(d.updates, le)))]
  }

  lemma ReservedKeys(d: RawDraft, le: Order)
    requires Lacks(d.scalars, "links") && Lacks(d.scalars, "providerUpdates") && Lacks(d.scalars, "confirmations")
    ensures Lacks(WithLinks(d, le), "providerUpdates") && Lacks(WithUpdates(d, le), "confirmations")
  {
    hide SortedList;
  }

  lemma NormalizedDecides(a: RawDraft, b: RawDraft, plain: Order, le: Order)
    requires TotalOrder(plain) && TotalOrder(le) && DraftReady(a) && DraftReady(b)
    ensures EntryMap(NormalizedJson(a, plain, le).entries) == EntryMap(NormalizedJson(b, plain, le).entries) <==>
              SameContent(a, b)
    ensures Meaning(NormalizedJson(a, plain, le)) == Meaning(NormalizedJson(b, plain, le)) <==> SameContent(a, b)
  {
    hide SortedList, ConfirmationsJson, ItemMap, EntryMap, Listed, TotalOrder, Lacks, ImpactReady, WellFormed;
    ReservedKeys(a, le);
    ReservedKeys(b, le);
    SortedListDecides(a.links, b.links, le);
    SortedListDecides(a.updates, b.updates, le);
    ConfirmationsDecide(a, b, plain, le);
    SharedDecides(a.shared, b.shared, plain);
    SnocDecides(a.scalars, SortedList(a.links, le), b.scalars, SortedList(b.links, le), "links");
    SnocDecides(WithLinks(a, le), SortedList(a.updates, le), WithLinks(b, le), SortedList(b.updates, le),
                "providerUpdates");
    SnocDecides(WithUpdates(a, le), ConfirmationsJson(a, plain, le), WithUpdates(b, le),
                ConfirmationsJson(b, plain, le),
                "confirmations");
  }

  lemma NormalizedWellFormed(d: RawDraft, plain: Order, le: Order)
    requires TotalOrder(plain) && TotalOrder(le) && DraftReady(d)
    ensures WellFormed(NormalizedJson(d, plain, le))
  {
    hide SortedList, ConfirmationsJson, ItemMap, EntryMap, Listed, TotalOrder, Lacks, ImpactReady, WellFormed;
    ReservedKeys(d, le);
    SortedListWellFormed(d.links, le);
    SortedListWellFormed(d.updates, le);
    ConfirmationsDecide(d, d, plain, le);
    EntriesSnoc(d.scalars, "links", SortedList(d.links, le));
    EntriesSnoc(WithLinks(d, le), "providerUpdates", SortedList(d.updates, le));
    EntriesSnoc(WithUpdates(d, le), "confirmations", ConfirmationsJson(d, plain, le));
  }
}
