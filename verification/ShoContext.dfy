/**
 * Building the context that is uploaded for a company
 * (packages/assistant-runtime/src/sho-context.ts): every list clipped to its cap,
 * and every cap halved until the upload fits.
 *
 * `trim` stands for the language's own trimming of a name.
 */
module ShoContext {
  const ID_MAX := 64
  const NAME_MAX := 120
  const MAX_CONTEXT_BYTES := 8 * 1024 * 1024

  datatype Entry = Entry(id: string, name: string)

  datatype Record = Record(id: string, name: string)

  datatype NameList = NameList(items: seq<Entry>, truncated: bool)

  datatype Clipped<T> = Clipped(items: seq<T>, partial: bool)

  type Trim = string -> string

  function Cut(s: string, most: nat): string {
    if |s| <= most then s else s[..most]
  }

  /** An entry with a name and an id that fits. */
  predicate Usable(trim: Trim, e: Entry) {
    trim(e.name) != "" && 0 < |e.id| <= ID_MAX
  }

  function RecordOf(trim: Trim, e: Entry): Record {
    Record(e.id, Cut(trim(e.name), NAME_MAX))
  }

  predicate HasId(records: seq<Record>, id: string) {
    exists i :: 0 <= i < |records| && records[i].id == id
  }

  // ------------------------------------------------------------------- one list

  /** The records of a list with no cap: the first usable entry of each id. */
  function Records(trim: Trim, items: seq<Entry>): seq<Record> {
    if items == [] then []
    else
      var before, e := Records(trim, items[..|items| - 1]), items[|items| - 1];
      if Usable(trim, e) && !HasId(before, e.id) then before + [RecordOf(trim, e)] else before
  }

  /** A usable entry whose id no earlier usable entry has. */
  ghost predicate FirstOfItsId(trim: Trim, items: seq<Entry>, i: nat)
    requires i < |items|
  {
    Usable(trim, items[i]) && forall j :: 0 <= j < i && items[j].id == items[i].id ==> !Usable(trim, items[j])
  }

  /** Places in a list, ascending. */
  ghost predicate Ascending(places: seq<nat>, limit: nat) {
    && (forall a, b :: 0 <= a < b < |places| ==> places[a] < places[b])
    && (forall a :: 0 <= a < |places| ==> places[a] < limit)
  }

  /** The records are those of these places of the list. */
  ghost predicate TakenFrom(trim: Trim, records: seq<Record>, items: seq<Entry>, places: seq<nat>) {
    && |places| == |records| && Ascending(places, |items|)
    && forall a :: 0 <= a < |places| ==> FirstOfItsId(trim, items, places[a]) && records[a] == RecordOf(trim, items[places[a]])
  }

  lemma {:induction false} IdsAreTaken(trim: Trim, items: seq<Entry>, id: string)
    ensures HasId(Records(trim, items), id) <==> exists i :: 0 <= i < |items| && items[i].id == id && Usable(trim, items[i])
  {
    if items != [] {
      var most, e := items[..|items| - 1], items[|items| - 1];
      IdsAreTaken(trim, most, id);
      IdsPushed(Records(trim, most), RecordOf(trim, e), id);
      if e.id == id {
        IdsAreTaken(trim, most, e.id);
      }
      if i :| 0 <= i < |most| && most[i].id == id && Usable(trim, most[i]) {
        assert items[i] == most[i];
      }
      assert forall i :: 0 <= i < |most| ==> items[i] == most[i];
    }
  }

  lemma IdsPushed(records: seq<Record>, r: Record, id: string)
    ensures HasId(records + [r], id) <==> HasId(records, id) || r.id == id
  {
    assert (records + [r])[|records|] == r;
    assert forall i :: 0 <= i < |records| ==> (records + [r])[i] == records[i];
  }

  /**
   * The records of a list are its usable entries in source order, each id once, and
   * every usable entry's id is among them.
   */
  lemma {:induction false} RecordsAreFirsts(trim: Trim, items: seq<Entry>) returns (places: seq<nat>)
    ensures TakenFrom(trim, Records(trim, items), items, places)
    ensures forall i :: 0 <= i < |items| && FirstOfItsId(trim, items, i) ==> i in places
  {
    hide Usable, HasId, RecordOf, TakenFrom, FirstOfItsId, Ascending;
    if items == [] {
      places := [];
      NothingTaken(trim);
    } else {
      var n := |items| - 1;
      var most, e := items[..n], items[n];
      places := RecordsAreFirsts(trim, most);
      NewestIsFirst(trim, items);
      FirstsStay(trim, items, Records(trim, most), places);
      if FirstOfItsId(trim, items, n) {
        TakenPushed(trim, items, Records(trim, most), places);
        places := places + [n];
      }
    }
  }

  lemma NothingTaken(trim: Trim)
    ensures TakenFrom(trim, [], [], [])
  {
  }

  /** The newest entry is the first of its id exactly when it is usable and its id is not taken. */
  lemma NewestIsFirst(trim: Trim, items: seq<Entry>)
    requires items != []
    ensures var n := |items| - 1;
            FirstOfItsId(trim, items, n) <==> Usable(trim, items[n]) && !HasId(Records(trim, items[..n]), items[n].id)
  {
    hide Usable, HasId;
    var n := |items| - 1;
    IdsAreTaken(trim, items[..n], items[n].id);
    assert forall i :: 0 <= i < n ==> items[..n][i] == items[i];
  }

  /** One more entry changes nothing for those before it. */
  lemma FirstsStay(trim: Trim, items: seq<Entry>, records: seq<Record>, places: seq<nat>)
    requires items != [] && TakenFrom(trim, records, items[..|items| - 1], places)
    requires forall i :: 0 <= i < |items| - 1 && FirstOfItsId(trim, items[..|items| - 1], i) ==> i in places
    ensures TakenFrom(trim, records, items, places) && Ascending(places, |items| - 1)
    ensures forall i :: 0 <= i < |items| - 1 && FirstOfItsId(trim, items, i) ==> i in places
  {
    hide Usable, RecordOf;
    var most := items[..|items| - 1];
    assert forall i :: 0 <= i < |most| ==> most[i] == items[i];
    assert forall i :: 0 <= i < |most| ==> (FirstOfItsId(trim, items, i) <==> FirstOfItsId(trim, most, i));
  }

  lemma TakenPushed(trim: Trim, items: seq<Entry>, records: seq<Record>, places: seq<nat>)
    requires items != [] && TakenFrom(trim, records, items, places) && FirstOfItsId(trim, items, |items| - 1)
    requires Ascending(places, |items| - 1)
    ensures TakenFrom(trim, records + [RecordOf(trim, items[|items| - 1])], items, places + [|items| - 1])
  {
    hide FirstOfItsId, RecordOf;
  }

  /** No id twice. */
  ghost predicate DistinctIds(records: seq<Record>) {
    forall a, b :: 0 <= a < b < |records| ==> records[a].id != records[b].id
  }

  lemma {:induction false} RecordsAreDistinct(trim: Trim, items: seq<Entry>)
    ensures DistinctIds(Records(trim, items))
    ensures |Records(trim, items)| <= |items|
  {
    if items != [] {
      RecordsAreDistinct(trim, items[..|items| - 1]);
    }
  }

  lemma {:induction false} MoreRecords(trim: Trim, items: seq<Entry>, n: nat)
    requires n <= |items|
    ensures |Records(trim, items[..n])| <= |Records(trim, items)|
    ensures Records(trim, items)[..|Records(trim, items[..n])|] == Records(trim, items[..n])
    ensures |Records(trim, items)| <= |Records(trim, items[..n])| + |items| - n
    decreases |items|
  {
    if n == |items| {
      assert items[..n] == items;
    } else {
      var most := items[..|items| - 1];
      assert most[..n] == items[..n];
      MoreRecords(trim, most, n);
    }
  }

  function Take<T>(s: seq<T>, most: nat): seq<T> {
    if |s| <= most then s else s[..most]
  }

  /** A list clipped: the first records up to the cap, partial when any entry is missing. */
  function ClippedList(trim: Trim, list: NameList, most: nat): Clipped<Record> {
    var items := Take(Records(trim, list.items), most);
    Clipped(items, list.truncated || |items| < |list.items|)
  }

  method ClipList(trim: Trim, list: NameList, most: nat) returns (clipped: Clipped<Record>)
    ensures clipped == ClippedList(trim, list, most)
  {
    var items: seq<Record> := [];
    var partial := list.truncated;
    var n := 0;
    while n < |list.items|
      invariant n <= |list.items|
      invariant items == Records(trim, list.items[..n]) && |items| <= most && |items| <= n
      invariant partial <==> list.truncated || |items| < n
    {
      if |items| >= most {
        partial := true;
        break;
      }
      assert list.items[..n + 1][..n] == list.items[..n];
      var entry := list.items[n];
      if !Usable(trim, entry) || HasId(items, entry.id) {
        partial := true;
      } else {
        items := items + [RecordOf(trim, entry)];
      }
      n := n + 1;
    }
    MoreRecords(trim, list.items, n);
    assert list.items[..|list.items|] == list.items;
    clipped := Clipped(items, partial);
  }

  /** An entry that can be kept: its trimmed name is not empty, and its id is not empty nor longer than 64. */
  predicate Good(trim: Trim, e: Entry) {
    trim(e.name) != "" && e.id != "" && |e.id| <= 64
  }

  /** What is kept of it: its id, and the first 120 of its trimmed name. */
  predicate Keeps(trim: Trim, r: Record, e: Entry) {
    && r.id == e.id && r.name <= trim(e.name)
    && |r.name| == if |trim(e.name)| < 120 then |trim(e.name)| else 120
  }

  /** A good entry is wanted, unless an earlier good one has its id. */
  ghost predicate Wanted(trim: Trim, items: seq<Entry>, i: int)
    requires 0 <= i < |items|
  {
    Good(trim, items[i]) && forall j :: 0 <= j < i && items[j].id == items[i].id ==> !Good(trim, items[j])
  }

  /** The records are the wanted entries, up to so many: what is left out of them comes after them all. */
  ghost predicate FirstsUpTo(trim: Trim, records: seq<Record>, items: seq<Entry>, most: nat, places: seq<nat>) {
    && |records| <= most && DistinctIds(records)
    && |places| == |records| && Ascending(places, |items|)
    && (forall a :: 0 <= a < |places| ==> Wanted(trim, items, places[a]) && Keeps(trim, records[a], items[places[a]]))
    && forall i :: 0 <= i < |items| && Wanted(trim, items, i) ==>
         i in places || (|records| == most && forall a :: 0 <= a < |places| ==> places[a] < i)
  }

  lemma WantedIsFirst(trim: Trim, items: seq<Entry>, i: nat)
    requires i < |items|
    ensures Wanted(trim, items, i) <==> FirstOfItsId(trim, items, i)
    ensures Keeps(trim, RecordOf(trim, items[i]), items[i])
  {
  }

  /** What is taken off is past what is kept. */
  lemma PastTheCut<T>(s: seq<T>, most: nat, x: T) returns (k: nat)
    requires x in s && x !in Take(s, most)
    ensures most == |Take(s, most)| <= k < |s| && s[k] == x
  {
    assert s == Take(s, most) + s[|Take(s, most)|..];
    var j :| 0 <= j < |s[|Take(s, most)|..]| && s[|Take(s, most)|..][j] == x;
    k := |Take(s, most)| + j;
  }

  /**
   * A clipped list is the first records of their ids up to its cap, in source order;
   * it is partial exactly when the source said so or an entry is missing.
   */
  lemma ClippedListIs(trim: Trim, list: NameList, most: nat) returns (places: seq<nat>)
    ensures var c := ClippedList(trim, list, most);
            && FirstsUpTo(trim, c.items, list.items, most, places)
            && (c.partial <==> list.truncated || |c.items| != |list.items|)
  {
    hide Records, FirstOfItsId, RecordOf, Wanted, Keeps;
    var all := RecordsAreFirsts(trim, list.items);
    RecordsAreDistinct(trim, list.items);
    places := Take(all, most);
    var c := ClippedList(trim, list, most);
    forall i | 0 <= i < |list.items|
      ensures Wanted(trim, list.items, i) <==> FirstOfItsId(trim, list.items, i)
      ensures Keeps(trim, RecordOf(trim, list.items[i]), list.items[i])
    {
      WantedIsFirst(trim, list.items, i);
    }
    forall i | 0 <= i < |list.items| && Wanted(trim, list.items, i) && i !in places
      ensures |c.items| == most && forall a :: 0 <= a < |places| ==> places[a] < i
    {
      var k := PastTheCut(all, most, i);
    }
  }

  // -------------------------------------------------------- products and variants

  datatype Variant = Variant(productId: string, entry: Entry)

  datatype VariantList = VariantList(items: seq<Variant>, truncated: bool)

  datatype Catalog = Catalog(products: NameList, variants: VariantList)

  datatype Product = Product(record: Record, variants: seq<Record>)

  datatype Caps = Caps(products: nat, variantsPerProduct: nat, variants: nat, customers: nat, groups: nat,
                       counterparties: nat, priceLists: nat)

  /** The variants kept so far, by product, and how many there are. */
  datatype Shelf = Shelf(buckets: map<string, seq<Record>>, total: nat)

  predicate Accepts(trim: Trim, caps: Caps, s: Shelf, v: Variant) {
    && v.productId in s.buckets
    && |s.buckets[v.productId]| < caps.variantsPerProduct && s.total < caps.variants
    && Usable(trim, v.entry) && !HasId(s.buckets[v.productId], v.entry.id)
  }

  function Placed(trim: Trim, caps: Caps, s: Shelf, v: Variant): Shelf {
    if Accepts(trim, caps, s, v)
    then Shelf(s.buckets[v.productId := s.buckets[v.productId] + [RecordOf(trim, v.entry)]], s.total + 1)
    else s
  }

  function Empty(products: seq<Record>): Shelf {
    Shelf(map r | r in products :: r.id := [], 0)
  }

  function Shelved(trim: Trim, caps: Caps, products: seq<Record>, variants: seq<Variant>): Shelf {
    if variants == [] then Empty(products)
    else Placed(trim, caps, Shelved(trim, caps, products, variants[..|variants| - 1]), variants[|variants| - 1])
  }

  lemma {:induction false} ShelfHolds(trim: Trim, caps: Caps, products: seq<Record>, variants: seq<Variant>)
    ensures var s := Shelved(trim, caps, products, variants);
            && (forall id :: id in s.buckets <==> HasId(products, id))
            && (forall id :: id in s.buckets ==> |s.buckets[id]| <= caps.variantsPerProduct && DistinctIds(s.buckets[id]))
            && s.total <= caps.variants && s.total <= |variants|
  {
    if variants == [] {
    } else {
      ShelfHolds(trim, caps, products, variants[..|variants| - 1]);
    }
  }

  function ProductsWith(products: seq<Record>, s: Shelf): (r: seq<Product>)
    ensures |r| == |products|
    ensures forall i :: 0 <= i < |r| ==>
              r[i] == Product(products[i], if products[i].id in s.buckets then s.buckets[products[i].id] else [])
  {
    seq(|products|, i requires 0 <= i < |products| =>
      Product(products[i], if products[i].id in s.buckets then s.buckets[products[i].id] else []))
  }

  function ClippedProducts(trim: Trim, catalog: Catalog, caps: Caps): Clipped<Product> {
    var listed := ClippedList(trim, catalog.products, caps.products);
    var s := Shelved(trim, caps, listed.items, catalog.variants.items);
    Clipped(ProductsWith(listed.items, s),
            listed.partial || catalog.variants.truncated || s.total < |catalog.variants.items|)
  }

  lemma ShelvedNext(trim: Trim, caps: Caps, products: seq<Record>, variants: seq<Variant>, n: nat)
    requires n < |variants|
    ensures Shelved(trim, caps, products, variants[..n + 1]) ==
            Placed(trim, caps, Shelved(trim, caps, products, variants[..n]), variants[n])
  {
    assert variants[..n + 1][..n] == variants[..n];
  }

  lemma NothingShelved(trim: Trim, caps: Caps, products: seq<Record>, variants: seq<Variant>)
    ensures Shelved(trim, caps, products, variants[..0]) == Shelf(map r | r in products :: r.id := [], 0)
  {
  }

  method ClipProducts(trim: Trim, catalog: Catalog, caps: Caps) returns (clipped: Clipped<Product>)
    ensures clipped == ClippedProducts(trim, catalog, caps)
  {
    hide Usable, HasId, RecordOf, ClippedList, Shelved;
    var listed := ClipList(trim, catalog.products, caps.products);
    var variants := catalog.variants.items;
    var perProduct := map r | r in listed.items :: r.id := [];
    NothingShelved(trim, caps, listed.items, variants);
    var partial := listed.partial || catalog.variants.truncated;
    var total := 0;
    for n := 0 to |variants|
      invariant Shelf(perProduct, total) == Shelved(trim, caps, listed.items, variants[..n])
      invariant total <= n
      invariant partial <==> listed.partial || catalog.variants.truncated || total < n
    {
      ShelvedNext(trim, caps, listed.items, variants, n);
      var variant := variants[n];
      if variant.productId !in perProduct {
        partial := true;
        continue;
      }
      var bucket := perProduct[variant.productId];
      if |bucket| >= caps.variantsPerProduct || total >= caps.variants {
        partial := true;
        continue;
      }
      if !Usable(trim, variant.entry) || HasId(bucket, variant.entry.id) {
        partial := true;
        continue;
      }
      perProduct := perProduct[variant.productId := bucket + [RecordOf(trim, variant.entry)]];
      total := total + 1;
    }
    assert variants[..|variants|] == variants;
    clipped := Clipped(ProductsWith(listed.items, Shelf(perProduct, total)), partial);
  }

  /** How many variants the products hold in all. */
  function VariantCount(products: seq<Product>): nat {
    if products == [] then 0
    else VariantCount(products[..|products| - 1]) + |products[|products| - 1].variants|
  }

  function Held(products: seq<Record>, buckets: map<string, seq<Record>>): nat {
    if products == [] then 0
    else
      var id := products[|products| - 1].id;
      Held(products[..|products| - 1], buckets) + if id in buckets then |buckets[id]| else 0
  }

  lemma {:induction false} HeldIsCount(products: seq<Record>, s: Shelf)
    ensures VariantCount(ProductsWith(products, s)) == Held(products, s.buckets)
  {
    if products != [] {
      var most := products[..|products| - 1];
      HeldIsCount(most, s);
      assert ProductsWith(products, s)[..|products| - 1] == ProductsWith(most, s);
    }
  }

  /** One more record in one bucket. */
  lemma {:induction false} HeldPushed(products: seq<Record>, buckets: map<string, seq<Record>>, id: string, r: Record)
    requires DistinctIds(products) && id in buckets
    ensures Held(products, buckets[id := buckets[id] + [r]]) == Held(products, buckets) + if HasId(products, id) then 1 else 0
  {
    if products != [] {
      var most, last := products[..|products| - 1], products[|products| - 1];
      HeldPushed(most, buckets, id, r);
      assert most + [last] == products;
      IdsPushed(most, last, id);
      assert last.id == id ==> !HasId(most, id);
    }
  }

  lemma {:induction false} NothingHeld(products: seq<Record>, all: seq<Record>)
    ensures Held(products, Empty(all).buckets) == 0
  {
    if products != [] {
      NothingHeld(products[..|products| - 1], all);
    }
  }

  lemma {:induction false} TotalIsHeld(trim: Trim, caps: Caps, products: seq<Record>, variants: seq<Variant>)
    requires DistinctIds(products)
    ensures Held(products, Shelved(trim, caps, products, variants).buckets) == Shelved(trim, caps, products, variants).total
  {
    if variants == [] {
      NothingHeld(products, products);
    } else {
      var most, v := variants[..|variants| - 1], variants[|variants| - 1];
      TotalIsHeld(trim, caps, products, most);
      ShelfHolds(trim, caps, products, most);
      var s := Shelved(trim, caps, products, most);
      if Accepts(trim, caps, s, v) {
        HeldPushed(products, s.buckets, v.productId, RecordOf(trim, v.entry));
      }
    }
  }

  /** The records of one product are usable variants of it, in source order. */
  ghost predicate VariantsFrom(trim: Trim, records: seq<Record>, variants: seq<Variant>, id: string, places: seq<nat>) {
    && |places| == |records| && Ascending(places, |variants|)
    && forall a :: 0 <= a < |places| ==>
         && variants[places[a]].productId == id && Usable(trim, variants[places[a]].entry)
         && records[a] == RecordOf(trim, variants[places[a]].entry)
  }

  lemma {:induction false} BucketIsFrom(trim: Trim, caps: Caps, products: seq<Record>, variants: seq<Variant>, id: string)
    returns (places: seq<nat>)
    requires id in Shelved(trim, caps, products, variants).buckets
    ensures VariantsFrom(trim, Shelved(trim, caps, products, variants).buckets[id], variants, id, places)
  {
    if variants == [] {
      places := [];
    } else {
      var n := |variants| - 1;
      var most, v := variants[..n], variants[n];
      var s := Shelved(trim, caps, products, most);
      places := BucketIsFrom(trim, caps, products, most, id);
      assert forall i :: 0 <= i < n ==> variants[i] == most[i];
      if Accepts(trim, caps, s, v) && v.productId == id {
        places := places + [n];
      }
    }
  }

  function RecordsOf(products: seq<Product>): (r: seq<Record>)
    ensures |r| == |products| && forall i :: 0 <= i < |r| ==> r[i] == products[i].record
  {
    seq(|products|, i requires 0 <= i < |products| => products[i].record)
  }

  /** Some variants of this product in source order, no more than its share, each id once. */
  ghost predicate BucketSound(trim: Trim, p: Product, variants: seq<Variant>, most: nat) {
    && |p.variants| <= most && DistinctIds(p.variants)
    && exists places :: VariantsFrom(trim, p.variants, variants, p.record.id, places)
  }

  ghost predicate ProductsSound(trim: Trim, products: seq<Product>, catalog: Catalog, caps: Caps) {
    && (exists places :: FirstsUpTo(trim, RecordsOf(products), catalog.products.items, caps.products, places))
    && VariantCount(products) <= caps.variants
    && forall i :: 0 <= i < |products| ==> BucketSound(trim, products[i], catalog.variants.items, caps.variantsPerProduct)
  }

  /** The products that are kept, their variants, and what is missing. */
  lemma ClippedProductsAre(trim: Trim, catalog: Catalog, caps: Caps)
    ensures var c := ClippedProducts(trim, catalog, caps);
            && ProductsSound(trim, c.items, catalog, caps)
            && (c.partial <==> catalog.products.truncated || catalog.variants.truncated ||
                               |c.items| != |catalog.products.items| || VariantCount(c.items) != |catalog.variants.items|)
  {
    hide ClippedList, Shelved, Held, VariantCount, Wanted, Keeps;
    var listed := ClippedList(trim, catalog.products, caps.products);
    var places := ClippedListIs(trim, catalog.products, caps.products);
    var s := Shelved(trim, caps, listed.items, catalog.variants.items);
    ShelfHolds(trim, caps, listed.items, catalog.variants.items);
    TotalIsHeld(trim, caps, listed.items, catalog.variants.items);
    HeldIsCount(listed.items, s);
    var c := ClippedProducts(trim, catalog, caps);
    assert RecordsOf(c.items) == listed.items;
    forall i | 0 <= i < |c.items| ensures BucketSound(trim, c.items[i], catalog.variants.items, caps.variantsPerProduct) {
      assert HasId(listed.items, listed.items[i].id);
      var from := BucketIsFrom(trim, caps, listed.items, catalog.variants.items, listed.items[i].id);
    }
  }
}
