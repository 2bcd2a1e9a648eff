/**
 * The halving loop of buildShoContext (packages/assistant-runtime/src/sho-context.ts).
 * `bytes` stands for the length of the upload; the hashes put beside the context
 * are not modelled.
 */
module ShoContextBuild {
  import opened Wrappers
  import opened ShoContext

  const FULL_CAPS := Caps(20_000, 200, 100_000, 50_000, 2_000, 50_000, 2_000)

  datatype Customers = Customers(customers: NameList, groups: NameList, counterparties: NameList)

  /** What the caller may see: a scope that is hidden is None. */
  datatype Snapshot = Snapshot(catalog: Option<Catalog>, customers: Option<Customers>, pricing: Option<NameList>)

  datatype ListName = ProductList | CustomerList | GroupList | CounterpartyList | PriceListList

  datatype Context = Context(
    products: Option<seq<Product>>, customers: Option<seq<Record>>, groups: Option<seq<Record>>,
    counterparties: Option<seq<Record>>, priceLists: Option<seq<Record>>, partial: seq<ListName>)

  function Items<T>(c: Option<Clipped<T>>): Option<seq<T>> {
    if c.Some? then Some(c.value.items) else None
  }

  function NameIf<T>(c: Option<Clipped<T>>, name: ListName): seq<ListName> {
    if c.Some? && c.value.partial then [name] else []
  }

  function ClippedOption(trim: Trim, list: Option<NameList>, most: nat): Option<Clipped<Record>> {
    if list.Some? then Some(ClippedList(trim, list.value, most)) else None
  }

  function Part(customers: Option<Customers>, f: Customers -> NameList): Option<NameList> {
    if customers.Some? then Some(f(customers.value)) else None
  }

  function Assembled(products: Option<Clipped<Product>>, customers: Option<Clipped<Record>>, groups: Option<Clipped<Record>>,
                     counterparties: Option<Clipped<Record>>, priceLists: Option<Clipped<Record>>): Context
  {
    Context(Items(products), Items(customers), Items(groups), Items(counterparties), Items(priceLists),
            NameIf(products, ProductList) + NameIf(customers, CustomerList) + NameIf(groups, GroupList) +
            NameIf(counterparties, CounterpartyList) + NameIf(priceLists, PriceListList))
  }

  /** The context under these caps. */
  function Composed(trim: Trim, snapshot: Snapshot, caps: Caps): Context {
    Assembled(
      if snapshot.catalog.Some? then Some(ClippedProducts(trim, snapshot.catalog.value, caps)) else None,
      ClippedOption(trim, Part(snapshot.customers, (c: Customers) => c.customers), caps.customers),
      ClippedOption(trim, Part(snapshot.customers, (c: Customers) => c.groups), caps.groups),
      ClippedOption(trim, Part(snapshot.customers, (c: Customers) => c.counterparties), caps.counterparties),
      ClippedOption(trim, snapshot.pricing, caps.priceLists))
  }

  method Compose(trim: Trim, snapshot: Snapshot, caps: Caps) returns (context: Context)
    ensures context == Composed(trim, snapshot, caps)
  {
    var products: Option<Clipped<Product>> := None;
    var customers, groups, counterparties, priceLists: Option<Clipped<Record>> := None, None, None, None;
    if snapshot.catalog.Some? {
      var clipped := ClipProducts(trim, snapshot.catalog.value, caps);
      products := Some(clipped);
    }
    if snapshot.customers.Some? {
      var first := ClipList(trim, snapshot.customers.value.customers, caps.customers);
      var second := ClipList(trim, snapshot.customers.value.groups, caps.groups);
      var third := ClipList(trim, snapshot.customers.value.counterparties, caps.counterparties);
      customers, groups, counterparties := Some(first), Some(second), Some(third);
    }
    if snapshot.pricing.Some? {
      var clipped := ClipList(trim, snapshot.pricing.value, caps.priceLists);
      priceLists := Some(clipped);
    }
    context := Assembled(products, customers, groups, counterparties, priceLists);
  }

  // --------------------------------------------------------------------- halving

  function Halved(c: Caps): Caps {
    Caps(c.products / 2, c.variantsPerProduct / 2, c.variants / 2, c.customers / 2, c.groups / 2,
         c.counterparties / 2, c.priceLists / 2)
  }

  function CapSum(c: Caps): nat {
    c.products + c.variantsPerProduct + c.variants + c.customers + c.groups + c.counterparties + c.priceLists
  }

  predicate Shedable(c: Caps) {
    c.products > 0 || c.variantsPerProduct > 0 || c.variants > 0 || c.customers > 0 || c.groups > 0 ||
    c.counterparties > 0 || c.priceLists > 0
  }

  /** The full caps halved so many times. */
  function CapsAfter(n: nat): Caps {
    if n == 0 then FULL_CAPS else Halved(CapsAfter(n - 1))
  }

  ghost predicate AtMost(a: Caps, b: Caps) {
    && a.products <= b.products && a.variantsPerProduct <= b.variantsPerProduct && a.variants <= b.variants
    && a.customers <= b.customers && a.groups <= b.groups && a.counterparties <= b.counterparties
    && a.priceLists <= b.priceLists
  }

  lemma {:induction false} CapsOnlyShrink(n: nat)
    ensures AtMost(CapsAfter(n), FULL_CAPS)
    decreases n
  {
    if n > 0 {
      CapsOnlyShrink(n - 1);
    }
  }

  function Pow2(n: nat): (p: nat)
    ensures p > 0
  {
    if n == 0 then 1 else 2 * Pow2(n - 1)
  }

  function Quotient(a: nat, d: nat): nat
    requires d > 0
  {
    a / d
  }

  /** What is left of a cap when it is divided by a power of two. */
  function Share(cap: nat, n: nat): nat {
    Quotient(cap, Pow2(n))
  }

  lemma QuotientIs(a: nat, d: nat, q: nat, r: nat)
    requires d > 0 && a == d * q + r && r < d
    ensures a / d == q
  {
    assert a == d * (a / d) + a % d;
    OnlyZeroIsSmall(d, a / d - q, r - a % d);
  }

  lemma OnlyZeroIsSmall(d: int, x: int, y: int)
    requires d > 0 && d * x == y && -d < y < d
    ensures x == 0
  {
  }

  /** Halving what is left, rounded down, is one division by the next power. */
  lemma ShareHalves(cap: nat, n: nat)
    ensures Share(cap, n) / 2 == Share(cap, n + 1)
  {
    var d, q := Pow2(n), Share(cap, n);
    var half, odd := q / 2, q % 2;
    assert q == 2 * half + odd;
    assert d * q == (2 * d) * half + d * odd;
    QuotientIs(cap, 2 * d, half, d * odd + cap % d);
  }

  /** After so many halvings each cap is its full value divided by that power of two. */
  lemma {:induction false} CapsAreHalves(n: nat)
    ensures CapsAfter(n) ==
            Caps(Share(20_000, n), Share(200, n), Share(100_000, n), Share(50_000, n), Share(2_000, n),
                 Share(50_000, n), Share(2_000, n))
    decreases n
  {
    if n == 0 {
      assert Pow2(0) == 1;
    } else {
      hide Share;
      CapsAreHalves(n - 1);
      ShareHalves(20_000, n - 1);
      ShareHalves(200, n - 1);
      ShareHalves(100_000, n - 1);
      ShareHalves(50_000, n - 1);
      ShareHalves(2_000, n - 1);
    }
  }

  /** The widest caps of the series under which the upload is of 8 mebibytes at most, or no caps at all. */
  ghost predicate FirstThatFits(trim: Trim, snapshot: Snapshot, bytes: Context -> nat, n: nat) {
    && (bytes(Composed(trim, snapshot, CapsAfter(n))) <= 8_388_608 || CapSum(CapsAfter(n)) == 0)
    && forall k :: 0 <= k < n ==> bytes(Composed(trim, snapshot, CapsAfter(k))) > 8_388_608
  }

  /** Halving sheds something as long as any cap is left. */
  lemma HalvingSheds(c: Caps)
    ensures Shedable(c) <==> CapSum(c) > 0
    ensures Shedable(c) ==> CapSum(Halved(c)) < CapSum(c)
  {
  }

  method BuildShoContext(trim: Trim, snapshot: Snapshot, bytes: Context -> nat) returns (context: Context)
    ensures exists n: nat :: FirstThatFits(trim, snapshot, bytes, n) && context == Composed(trim, snapshot, CapsAfter(n))
  {
    hide Composed, Halved, CapSum, Shedable;
    var caps := FULL_CAPS;
    ghost var n: nat := 0;
    context := Compose(trim, snapshot, caps);
    while bytes(context) > MAX_CONTEXT_BYTES && Shedable(caps)
      invariant caps == CapsAfter(n) && context == Composed(trim, snapshot, caps)
      invariant forall k :: 0 <= k < n ==> bytes(Composed(trim, snapshot, CapsAfter(k))) > MAX_CONTEXT_BYTES
      decreases CapSum(caps)
    {
      HalvingSheds(caps);
      caps := Halved(caps);
      n := n + 1;
      context := Compose(trim, snapshot, caps);
    }
    HalvingSheds(caps);
    assert FirstThatFits(trim, snapshot, bytes, n);
  }

  // ------------------------------------------------------------------ every context

  ghost predicate ListSound(trim: Trim, items: Option<seq<Record>>, list: Option<NameList>, most: nat) {
    && (items.Some? <==> list.Some?)
    && (items.Some? ==> exists places :: FirstsUpTo(trim, items.value, list.value.items, most, places))
  }

  ghost predicate CatalogSound(trim: Trim, items: Option<seq<Product>>, catalog: Option<Catalog>, caps: Caps) {
    && (items.Some? <==> catalog.Some?)
    && (items.Some? ==> ProductsSound(trim, items.value, catalog.value, caps))
  }

  /** An entry of the list is missing, or the source said one is. */
  predicate Short<T>(items: Option<seq<T>>, list: Option<NameList>) {
    items.Some? && list.Some? && (list.value.truncated || |items.value| != |list.value.items|)
  }

  predicate ShortCatalog(items: Option<seq<Product>>, catalog: Option<Catalog>) {
    items.Some? && catalog.Some? &&
    (catalog.value.products.truncated || catalog.value.variants.truncated ||
     |items.value| != |catalog.value.products.items| || VariantCount(items.value) != |catalog.value.variants.items|)
  }

  /**
   * Whatever the caps, a list is there exactly when its scope is, holds the first
   * records of the source up to its cap, and is named partial exactly when it is
   * short; products also keep to both caps on their variants.
   */
  lemma EveryContextIsSound(trim: Trim, snapshot: Snapshot, caps: Caps)
    ensures var c := Composed(trim, snapshot, caps);
            && ListSound(trim, c.customers, Part(snapshot.customers, (x: Customers) => x.customers), caps.customers)
            && ListSound(trim, c.groups, Part(snapshot.customers, (x: Customers) => x.groups), caps.groups)
            && ListSound(trim, c.counterparties, Part(snapshot.customers, (x: Customers) => x.counterparties), caps.counterparties)
            && ListSound(trim, c.priceLists, snapshot.pricing, caps.priceLists)
            && CatalogSound(trim, c.products, snapshot.catalog, caps)
    ensures var c := Composed(trim, snapshot, caps);
            && (ProductList in c.partial <==> ShortCatalog(c.products, snapshot.catalog))
            && (CustomerList in c.partial <==> Short(c.customers, Part(snapshot.customers, (x: Customers) => x.customers)))
            && (GroupList in c.partial <==> Short(c.groups, Part(snapshot.customers, (x: Customers) => x.groups)))
            && (CounterpartyList in c.partial <==>
                  Short(c.counterparties, Part(snapshot.customers, (x: Customers) => x.counterparties)))
            && (PriceListList in c.partial <==> Short(c.priceLists, snapshot.pricing))
  {
    hide ClippedOption, ListSound, CatalogSound, Short, ShortCatalog, Items, Part;
    var products := if snapshot.catalog.Some? then Some(ClippedProducts(trim, snapshot.catalog.value, caps)) else None;
    CatalogIsSound(trim, snapshot.catalog, caps);
    var a := Part(snapshot.customers, (x: Customers) => x.customers);
    var b := Part(snapshot.customers, (x: Customers) => x.groups);
    var c := Part(snapshot.customers, (x: Customers) => x.counterparties);
    ListIsSound(trim, a, caps.customers);
    ListIsSound(trim, b, caps.groups);
    ListIsSound(trim, c, caps.counterparties);
    ListIsSound(trim, snapshot.pricing, caps.priceLists);
    NamesAre(products, ClippedOption(trim, a, caps.customers), ClippedOption(trim, b, caps.groups),
             ClippedOption(trim, c, caps.counterparties), ClippedOption(trim, snapshot.pricing, caps.priceLists));
  }

  predicate IsPartial<T>(c: Option<Clipped<T>>) {
    c.Some? && c.value.partial
  }

  lemma NamesAre(products: Option<Clipped<Product>>, customers: Option<Clipped<Record>>, groups: Option<Clipped<Record>>,
                 counterparties: Option<Clipped<Record>>, priceLists: Option<Clipped<Record>>)
    ensures var names := Assembled(products, customers, groups, counterparties, priceLists).partial;
            && (ProductList in names <==> IsPartial(products)) && (CustomerList in names <==> IsPartial(customers))
            && (GroupList in names <==> IsPartial(groups)) && (CounterpartyList in names <==> IsPartial(counterparties))
            && (PriceListList in names <==> IsPartial(priceLists))
  {
    hide NameIf, IsPartial, Items;
    NameIfIs(products, ProductList);
    NameIfIs(customers, CustomerList);
    NameIfIs(groups, GroupList);
    NameIfIs(counterparties, CounterpartyList);
    NameIfIs(priceLists, PriceListList);
    InFive(NameIf(products, ProductList), NameIf(customers, CustomerList), NameIf(groups, GroupList),
           NameIf(counterparties, CounterpartyList), NameIf(priceLists, PriceListList));
  }

  lemma InFive(a: seq<ListName>, b: seq<ListName>, c: seq<ListName>, d: seq<ListName>, e: seq<ListName>)
    ensures forall name ::
              name in a + b + c + d + e <==> name in a || name in b || name in c || name in d || name in e
  {
  }

  lemma NameIfIs<T>(c: Option<Clipped<T>>, name: ListName)
    ensures forall other :: other in NameIf(c, name) <==> other == name && IsPartial(c)
  {
  }

  lemma ListIsSound(trim: Trim, list: Option<NameList>, most: nat)
    ensures var c := ClippedOption(trim, list, most);
            ListSound(trim, Items(c), list, most) && (IsPartial(c) <==> Short(Items(c), list))
  {
    hide ClippedList, FirstsUpTo;
    if list.Some? {
      var places := ClippedListIs(trim, list.value, most);
    }
  }

  lemma CatalogIsSound(trim: Trim, catalog: Option<Catalog>, caps: Caps)
    ensures var c := if catalog.Some? then Some(ClippedProducts(trim, catalog.value, caps)) else None;
            CatalogSound(trim, Items(c), catalog, caps) && (IsPartial(c) <==> ShortCatalog(Items(c), catalog))
  {
    hide ClippedProducts, VariantCount, ProductsSound;
    if catalog.Some? {
      ClippedProductsAre(trim, catalog.value, caps);
    }
  }
}
