/**
 * The context cache of a worker (apps/sho/src/contexts.ts): an insertion-ordered
 * map under a byte budget, where a read moves its entry to the end and a put
 * drops the oldest entries until the rest fit.
 */
module ContextCache {
  import opened Wrappers

  datatype Entry = Entry(fingerprint: string, uploadBytes: nat)

  datatype Item = Item(key: string, entry: Entry)

  predicate Has(items: seq<Item>, key: string) {
    exists i :: 0 <= i < |items| && items[i].key == key
  }

  predicate Distinct(items: seq<Item>) {
    forall i, j :: 0 <= i < j < |items| ==> items[i].key != items[j].key
  }

  function IndexOf(items: seq<Item>, key: string): (at: nat)
    requires Has(items, key)
    ensures at < |items| && items[at].key == key
  {
    if items[0].key == key then 0
    else
      assert Has(items[1..], key) by {
        var i :| 0 <= i < |items| && items[i].key == key;
        assert items[1..][i - 1].key == key;
      }
      1 + IndexOf(items[1..], key)
  }

  function Without(items: seq<Item>, key: string): seq<Item> {
    if Has(items, key) then items[..IndexOf(items, key)] + items[IndexOf(items, key) + 1..] else items
  }

  function Sum(items: seq<Item>): nat {
    if items == [] then 0 else items[0].entry.uploadBytes + Sum(items[1..])
  }

  /** What is left when the oldest go until the rest fit or one is left. */
  function Fitting(items: seq<Item>, max: int): seq<Item> {
    if |items| <= 1 || Sum(items) <= max then items else Fitting(items[1..], max)
  }

  lemma {:induction false} SumWithout(items: seq<Item>, at: nat)
    requires at < |items|
    ensures Sum(items[..at] + items[at + 1..]) + items[at].entry.uploadBytes == Sum(items)
    decreases items
  {
    if at == 0 {
      assert items[..0] + items[1..] == items[1..];
    } else {
      SumWithout(items[1..], at - 1);
      var rest := items[..at] + items[at + 1..];
      assert rest[1..] == items[1..][..at - 1] + items[1..][at..];
    }
  }

  lemma {:induction false} SumPushed(items: seq<Item>, last: Item)
    ensures Sum(items + [last]) == Sum(items) + last.entry.uploadBytes
  {
    if items != [] {
      assert (items + [last])[1..] == items[1..] + [last];
      SumPushed(items[1..], last);
    }
  }

  /** Taking the item of a key out leaves the others. */
  lemma WithoutKeeps(items: seq<Item>, key: string)
    requires Distinct(items)
    ensures Distinct(Without(items, key)) && !Has(Without(items, key), key)
  {
    hide IndexOf;
    if Has(items, key) {
      var at := IndexOf(items, key);
      var rest := items[..at] + items[at + 1..];
      assert forall k :: 0 <= k < |rest| ==> rest[k] == items[if k < at then k else k + 1];
    }
  }

  lemma PushedIsDistinct(items: seq<Item>, item: Item)
    requires Distinct(items) && !Has(items, item.key)
    ensures Distinct(items + [item])
  {
  }

  /** Moving an item to the end. */
  lemma MovedKeeps(items: seq<Item>, key: string, entry: Entry)
    requires Distinct(items)
    ensures Distinct(Without(items, key) + [Item(key, entry)])
  {
    hide Distinct, Without, Has;
    WithoutKeeps(items, key);
    PushedIsDistinct(Without(items, key), Item(key, entry));
  }

  /**
   * What fits is a suffix; it fits the budget or is one entry alone; and every
   * longer suffix is over the budget.
   */
  lemma {:induction false} FittingIsLongest(items: seq<Item>, max: int)
    ensures exists n: nat :: n <= |items| && IsLongest(items, max, n)
  {
    if |items| <= 1 || Sum(items) <= max {
      assert items[0..] == items;
      assert IsLongest(items, max, 0);
    } else {
      FittingIsLongest(items[1..], max);
      var n: nat :| n <= |items[1..]| && IsLongest(items[1..], max, n);
      assert items[1..][n..] == items[n + 1..];
      forall k | 0 <= k < n + 1 ensures |items[k..]| > 1 && Sum(items[k..]) > max {
        if k == 0 {
          assert items[0..] == items;
        } else {
          assert items[1..][k - 1..] == items[k..];
        }
      }
      assert IsLongest(items, max, n + 1);
    }
  }

  ghost predicate IsLongest(items: seq<Item>, max: int, n: nat)
    requires n <= |items|
  {
    && Fitting(items, max) == items[n..]
    && (Sum(items[n..]) <= max || |items[n..]| <= 1)
    && forall k :: 0 <= k < n ==> |items[k..]| > 1 && Sum(items[k..]) > max
  }

  // -------------------------------------------------------------------- the cache

  class Cache {
    const maxUploadBytes: int
    var entries: seq<Item>
    var held: int

    ghost predicate Valid()
      reads this
    {
      Distinct(entries) && held == Sum(entries)
    }

    constructor (maxUploadBytes: int)
      ensures Valid() && entries == [] && this.maxUploadBytes == maxUploadBytes
    {
      this.maxUploadBytes := maxUploadBytes;
      entries, held := [], 0;
    }

    method Drop(key: string)
      requires Valid()
      modifies this
      ensures Valid() && entries == Without(old(entries), key) && !Has(entries, key)
    {
      WithoutKeeps(entries, key);
      if Has(entries, key) {
        var at := IndexOf(entries, key);
        SumWithout(entries, at);
        held := held - entries[at].entry.uploadBytes;
        entries := entries[..at] + entries[at + 1..];
      }
    }

    method Read(key: string) returns (entry: Option<Entry>)
      requires Valid()
      modifies this
      ensures Valid() && entries == Touched(old(entries), key)
      ensures entry == if Has(old(entries), key) then Some(old(entries)[IndexOf(old(entries), key)].entry) else None
    {
      if !Has(entries, key) {
        return None;
      }
      var item := entries[IndexOf(entries, key)];
      MovedKeeps(entries, key, item.entry);
      SumWithout(entries, IndexOf(entries, key));
      SumPushed(Without(entries, key), item);
      entries := Without(entries, key) + [item];
      entry := Some(item.entry);
    }

    method Fresh(key: string, fingerprint: string) returns (entry: Option<Entry>)
      requires Valid()
      modifies this
      ensures Valid() && entries == Touched(old(entries), key)
      ensures entry.Some? <==> Has(old(entries), key) && old(entries)[IndexOf(old(entries), key)].entry.fingerprint == fingerprint
      ensures entry.Some? ==> entry.value == old(entries)[IndexOf(old(entries), key)].entry
    {
      entry := Read(key);
      if entry.None? || entry.value.fingerprint != fingerprint {
        entry := None;
      }
    }

    method Put(key: string, entry: Entry)
      requires Valid()
      modifies this
      ensures Valid() && entries == Stored(old(entries), key, entry, maxUploadBytes)
      ensures entries != [] && entries[|entries| - 1] == Item(key, entry)
      ensures held <= maxUploadBytes || |entries| == 1
    {
      Drop(key);
      MovedKeeps(old(entries), key, entry);
      SumPushed(entries, Item(key, entry));
      entries := entries + [Item(key, entry)];
      held := held + entry.uploadBytes;
      Evict();
    }

    /** The loop of put: the oldest go, one by one. */
    method Evict()
      requires Valid() && entries != []
      modifies this
      ensures Valid() && entries == Fitting(old(entries), maxUploadBytes)
      ensures entries != [] && entries[|entries| - 1] == old(entries)[|old(entries)| - 1]
      ensures held <= maxUploadBytes || |entries| == 1
    {
      hide Has, Without, Distinct, Sum;
      var all := entries;
      assert all[0..] == all;
      for i := 0 to |all|
        invariant entries == all[i..] && entries != [] && Valid()
        invariant Fitting(entries, maxUploadBytes) == Fitting(all, maxUploadBytes)
      {
        if held <= maxUploadBytes || |entries| <= 1 {
          break;
        }
        assert entries[0] == all[i] && entries[1..] == all[i + 1..];
        WithoutFirst(entries);
        Drop(all[i].key);
      }
    }
  }

  lemma WithoutFirst(items: seq<Item>)
    requires items != []
    ensures Without(items, items[0].key) == items[1..]
  {
    assert Has(items, items[0].key);
    assert items[..0] + items[1..] == items[1..];
  }

  /** A read makes its entry the newest. */
  function Touched(items: seq<Item>, key: string): seq<Item> {
    if Has(items, key) then Without(items, key) + [items[IndexOf(items, key)]] else items
  }

  function Stored(items: seq<Item>, key: string, entry: Entry, max: int): seq<Item> {
    Fitting(Without(items, key) + [Item(key, entry)], max)
  }

  // --------------------------------------------------------------------- every run

  datatype Op = ReadOp(key: string) | PutOp(key: string, entry: Entry)

  function Step(max: int, items: seq<Item>, op: Op): seq<Item> {
    match op
    case ReadOp(key) => Touched(items, key)
    case PutOp(key, entry) => Stored(items, key, entry, max)
  }

  function Run(max: int, ops: seq<Op>): seq<Item> {
    if ops == [] then [] else Step(max, Run(max, ops[..|ops| - 1]), ops[|ops| - 1])
  }

  /** The same uses with no budget: everything ever put, the most recently used last.  A miss uses nothing. */
  function Recency(max: int, ops: seq<Op>): seq<Item> {
    if ops == [] then []
    else
      var before, op := Recency(max, ops[..|ops| - 1]), ops[|ops| - 1];
      match op
      case ReadOp(key) => if Has(Run(max, ops[..|ops| - 1]), key) then Touched(before, key) else before
      case PutOp(key, entry) => Without(before, key) + [Item(key, entry)]
  }

  ghost predicate Suffix(a: seq<Item>, b: seq<Item>) {
    |a| <= |b| && a == b[|b| - |a|..]
  }

  lemma SuffixHas(a: seq<Item>, b: seq<Item>, key: string)
    requires Suffix(a, b) && Distinct(b) && Has(a, key)
    ensures Has(b, key) && IndexOf(b, key) == |b| - |a| + IndexOf(a, key) && b[IndexOf(b, key)] == a[IndexOf(a, key)]
  {
    var at := IndexOf(a, key);
    assert b[|b| - |a| + at] == a[at];
  }

  /** Taking a key out of both keeps one a suffix of the other. */
  lemma SuffixWithout(a: seq<Item>, b: seq<Item>, key: string)
    requires Suffix(a, b) && Distinct(b)
    ensures Suffix(Without(a, key), Without(b, key))
  {
    hide IndexOf, Distinct, Suffix;
    if Has(a, key) {
      SuffixHas(a, b, key);
      SuffixCut(a, b, IndexOf(a, key));
    } else if Has(b, key) {
      SuffixMisses(a, b, key);
      SuffixCutBefore(a, b, IndexOf(b, key));
    }
  }

  lemma SuffixCut(a: seq<Item>, b: seq<Item>, at: nat)
    requires Suffix(a, b) && at < |a|
    ensures Suffix(a[..at] + a[at + 1..], b[..|b| - |a| + at] + b[|b| - |a| + at + 1..])
  {
    var n := |b| - |a|;
    assert b[..n + at][n..] == a[..at] && b[n + at + 1..] == a[at + 1..];
  }

  lemma SuffixCutBefore(a: seq<Item>, b: seq<Item>, at: nat)
    requires Suffix(a, b) && at < |b| - |a|
    ensures Suffix(a, b[..at] + b[at + 1..])
  {
    var n := |b| - |a|;
    assert (b[..at] + b[at + 1..])[n - 1..] == b[n..];
  }

  lemma SuffixMisses(a: seq<Item>, b: seq<Item>, key: string)
    requires Suffix(a, b) && Has(b, key) && !Has(a, key)
    ensures IndexOf(b, key) < |b| - |a|
  {
    hide IndexOf;
    var n := |b| - |a|;
    assert forall i :: n <= i < |b| ==> b[i] == a[i - n];
  }

  lemma SuffixPushed(a: seq<Item>, b: seq<Item>, item: Item)
    requires Suffix(a, b)
    ensures Suffix(a + [item], b + [item])
  {
  }

  lemma FittingIsSuffix(a: seq<Item>, b: seq<Item>, max: int)
    requires Suffix(a, b)
    ensures Suffix(Fitting(a, max), b)
  {
    FittingIsLongest(a, max);
    var n: nat :| n <= |a| && IsLongest(a, max, n);
    assert a[n..] == b[|b| - |a[n..]|..];
  }

  /** An end that fits the budget or is one entry, and every longer end is over it. */
  ghost predicate LongestEnd(kept: seq<Item>, all: seq<Item>, max: int) {
    && Suffix(kept, all) && (Sum(kept) <= max || |kept| <= 1)
    && forall k :: 0 <= k < |all| - |kept| ==> Sum(all[k..]) > max
  }

  /**
   * Whatever the reads and puts, the cache holds the most recently used end of all
   * that was ever put and fits its budget or is one entry; a put drops no more than it
   * must, leaving the longest end of what was there with the new entry that fits, and
   * a read drops nothing.
   */
  lemma {:induction false} CacheIsTheRecentEnd(max: int, ops: seq<Op>)
    ensures Suffix(Run(max, ops), Recency(max, ops)) && Distinct(Recency(max, ops))
    ensures Sum(Run(max, ops)) <= max || |Run(max, ops)| <= 1
    ensures ops != [] && ops[|ops| - 1].PutOp? ==>
              var op, before := ops[|ops| - 1], Run(max, ops[..|ops| - 1]);
              LongestEnd(Run(max, ops), Without(before, op.key) + [Item(op.key, op.entry)], max)
    ensures ops != [] && ops[|ops| - 1].ReadOp? ==> |Run(max, ops)| == |Run(max, ops[..|ops| - 1])|
  {
    hide Has, Without, Distinct, Fitting, IndexOf, LongestEnd;
    if ops == [] {
      NothingHeld();
    } else {
      var most, op := ops[..|ops| - 1], ops[|ops| - 1];
      CacheIsTheRecentEnd(max, most);
      var a, b := Run(max, most), Recency(max, most);
      match op {
        case PutOp(key, entry) =>
          SuffixWithout(a, b, key);
          SuffixPushed(Without(a, key), Without(b, key), Item(key, entry));
          MovedKeeps(b, key, entry);
          FittingIsSuffix(Without(a, key) + [Item(key, entry)], Without(b, key) + [Item(key, entry)], max);
          FittingIsLongestEnd(Without(a, key) + [Item(key, entry)], max);
        case ReadOp(key) =>
          if Has(a, key) {
            HitKeeps(a, b, key);
          }
      }
    }
  }

  lemma NothingHeld()
    ensures Distinct([]) && Suffix([], [])
  {
  }

  lemma FittingIsLongestEnd(items: seq<Item>, max: int)
    ensures LongestEnd(Fitting(items, max), items, max)
    ensures Sum(Fitting(items, max)) <= max || |Fitting(items, max)| <= 1
  {
    FittingIsLongest(items, max);
    var k: nat :| k <= |items| && IsLongest(items, max, k);
    assert items[|items| - |items[k..]|..] == items[k..];
  }

  lemma HitKeeps(a: seq<Item>, b: seq<Item>, key: string)
    requires Suffix(a, b) && Distinct(b) && Has(a, key)
    ensures Suffix(Touched(a, key), Touched(b, key)) && Distinct(Touched(b, key))
    ensures Sum(Touched(a, key)) == Sum(a) && |Touched(a, key)| == |a|
  {
    hide IndexOf, Distinct, Sum;
    SuffixHas(a, b, key);
    SuffixWithout(a, b, key);
    var item := a[IndexOf(a, key)];
    SuffixPushed(Without(a, key), Without(b, key), item);
    MovedKeeps(b, key, item.entry);
    SumWithout(a, IndexOf(a, key));
    SumPushed(Without(a, key), item);
  }
}
