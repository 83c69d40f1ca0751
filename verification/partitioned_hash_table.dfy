/**
 * Model of Ryujinx.Common/Cache/PartitionedHashTable.cs: a content-addressed
 * table keyed by byte strings, split into one bucket per key length.
 *
 * The per-length bucket (PartitionHashTable<T> in the source, not part of this
 * model) is represented by the value `SizeEntry`: a map from complete keys of
 * exactly `size` bytes to their items, and the set of digests of `size`-byte
 * prefixes of longer keys ("partial" markers). The digest function is an
 * arbitrary function of the bytes, fixed when the table is created.
 */
module Cache {
  import opened Wrappers

  type byte = bv8
  type Digest = bv32

  /** Outcome of probing one bucket with data of unknown length. */
  datatype SearchResult<T> = NotFound | FoundPartial | FoundFull(item: T)

  /** One element of the size list: the bucket for keys of exactly `size` bytes. */
  datatype SizeEntry<T> = SizeEntry(size: nat, full: map<seq<byte>, T>, partials: set<Digest>)
  {
    /** The bucket only holds complete keys of its own length. */
    ghost predicate WellFormed()
    {
      forall k :: k in full ==> |k| == size
    }

    /** Number of markers held by the bucket, complete and partial. */
    function TableCount(): (r: nat)
      ensures |full| <= r && |partials| <= r
      ensures r == 0 <==> full == map[] && partials == {}
    {
      |full| + |partials|
    }

    /**
     * Stores `item` under `data` unless `data` is already present; returns the
     * updated bucket and the item now stored under `data`.
     */
    function GetOrAdd(data: seq<byte>, item: T): (r: (SizeEntry<T>, T))
      requires |data| == size
      ensures r.0.size == size && r.0.partials == partials
      ensures r.0.full.Keys == full.Keys + {data}
      ensures forall k :: k in full ==> r.0.full[k] == full[k]
      ensures r.0.full[data] == r.1
      ensures data !in full ==> r.1 == item
      ensures WellFormed() ==> r.0.WellFormed()
    {
      if data in full then (this, full[data]) else (this.(full := full[data := item]), item)
    }

    /** Like GetOrAdd, but reports whether `data` was newly stored. */
    function Add(data: seq<byte>, item: T): (r: (SizeEntry<T>, bool))
      requires |data| == size
      ensures r.1 <==> data !in full
      ensures r.0.full.Keys == full.Keys + {data} && r.0.full[data] == (if r.1 then item else full[data])
      ensures forall k :: k in full ==> r.0.full[k] == full[k]
      ensures r.0.size == size && r.0.partials == partials
    {
      var (e, _) := GetOrAdd(data, item);
      (e, data !in full)
    }

    /** Registers a partial marker: some longer key has a prefix with digest `dataHash`. */
    function AddPartial(dataHash: Digest): (e: SizeEntry<T>)
      ensures e.size == size && e.full == full
      ensures e.partials == partials + {dataHash}
    {
      this.(partials := partials + {dataHash})
    }

    /** The digests of the `n`-byte prefixes of the complete keys held here. */
    ghost function PrefixDigests(n: nat, digest: seq<byte> -> Digest): set<Digest>
    {
      set k | k in full && n <= |k| :: digest(k[..n])
    }

    /**
     * Back-fills the newly created, shorter bucket `newEntry` with the
     * prefixes of this bucket's complete keys; returns the updated `newEntry`.
     */
    function FillPartials(newEntry: SizeEntry<T>, digest: seq<byte> -> Digest): (e: SizeEntry<T>)
      requires newEntry.size < size
      requires WellFormed()
      ensures e.size == newEntry.size && e.full == newEntry.full
      ensures forall k :: k in full ==> digest(k[..newEntry.size]) in e.partials
      ensures e.partials == newEntry.partials + PrefixDigests(newEntry.size, digest)
    {
      newEntry.(partials := newEntry.partials + set k | k in full :: digest(k[..newEntry.size]))
    }

    /**
     * Probes this bucket with the first `size` bytes of `data`. Data too short
     * to supply them is not found; a complete match is byte-exact; a partial
     * match is decided on the digest alone.
     */
    function TryFindItem(data: seq<byte>, digest: seq<byte> -> Digest): (r: SearchResult<T>)
      ensures r.FoundFull? ==> size <= |data| && data[..size] in full && r.item == full[data[..size]]
      ensures r.FoundPartial? ==> size <= |data| && data[..size] !in full && digest(data[..size]) in partials
      ensures r.NotFound? ==> |data| < size || (data[..size] !in full && digest(data[..size]) !in partials)
    {
      if |data| < size then NotFound
      else if data[..size] in full then FoundFull(full[data[..size]])
      else if digest(data[..size]) in partials then FoundPartial
      else NotFound
    }

    /** In a well-formed bucket, a complete match means exactly that some stored key is a prefix of the data. */
    lemma TryFindItemFull(data: seq<byte>, digest: seq<byte> -> Digest)
      requires WellFormed()
      ensures TryFindItem(data, digest).FoundFull? <==> exists k :: k in full && k <= data
    {
      if exists k :: k in full && k <= data {
        var k :| k in full && k <= data;
        assert k == data[..size];
      }
    }
  }

  // -----------------------------------------------------------------------
  // The size list and its invariant

  /** Sizes strictly increase along the list (so no size occurs twice). */
  ghost predicate Sorted<T>(t: seq<SizeEntry<T>>)
  {
    forall i, j :: 0 <= i < j < |t| ==> t[i].size < t[j].size
  }

  /** Every key of a longer bucket has its prefix marked in every shorter bucket. */
  ghost predicate Backfilled<T>(t: seq<SizeEntry<T>>, digest: seq<byte> -> Digest)
  {
    forall i, j, k :: 0 <= i < j < |t| && k in t[j].full && t[i].size <= |k| ==>
      digest(k[..t[i].size]) in t[i].partials
  }

  /** Every bucket holds only keys of its own length. */
  ghost predicate AllWellFormed<T>(t: seq<SizeEntry<T>>)
  {
    forall i :: 0 <= i < |t| ==> t[i].WellFormed()
  }

  /** The invariant of the size list. */
  ghost predicate ValidTable<T>(t: seq<SizeEntry<T>>, digest: seq<byte> -> Digest)
  {
    Sorted(t) && AllWellFormed(t) && Backfilled(t, digest)
  }

  function Sizes<T>(t: seq<SizeEntry<T>>): (s: seq<nat>)
    ensures |s| == |t| && forall i :: 0 <= i < |t| ==> s[i] == t[i].size
  {
    seq(|t|, i requires 0 <= i < |t| => t[i].size)
  }

  /** Number of leading entries smaller than `n`: the position of size `n` in a sorted list. */
  function InsertionIndex<T>(t: seq<SizeEntry<T>>, n: nat): (p: nat)
    ensures p <= |t|
    ensures forall j :: 0 <= j < p ==> t[j].size < n
    ensures p < |t| ==> t[p].size >= n
  {
    InsertionIndexFrom(t, n, 0)
  }

  /** The first index from `i` on whose entry is not smaller than `n`. */
  function InsertionIndexFrom<T>(t: seq<SizeEntry<T>>, n: nat, i: nat): (p: nat)
    requires i <= |t|
    ensures i <= p <= |t|
    ensures forall j :: i <= j < p ==> t[j].size < n
    ensures p < |t| ==> t[p].size >= n
    decreases |t| - i
  {
    if i == |t| || t[i].size >= n then i else InsertionIndexFrom(t, n, i + 1)
  }

  /** `p` splits the list into entries smaller than `n` and entries larger than `n`. */
  ghost predicate InsertionPoint<T>(t: seq<SizeEntry<T>>, n: nat, p: int)
  {
    && 0 <= p <= |t|
    && (forall j :: 0 <= j < p ==> t[j].size < n)
    && (forall j :: p <= j < |t| ==> t[j].size > n)
  }

  /** The item stored under the complete key `k`, if any. */
  function Lookup<T>(t: seq<SizeEntry<T>>, k: seq<byte>): Option<T>
  {
    var p := InsertionIndex(t, |k|);
    if p < |t| && k in t[p].full then Some(t[p].full[k]) else None
  }

  /** The digests of the `n`-byte prefixes of all keys held in the entries `t[a..b]`. */
  ghost function LongerDigests<T>(t: seq<SizeEntry<T>>, a: nat, b: nat, n: nat, digest: seq<byte> -> Digest): set<Digest>
  {
    set j, k | a <= j < b && j < |t| && k in t[j].full && n <= |k| :: digest(k[..n])
  }

  /** Every entry of `s` with a partial marker for the prefix of `data` of its length. */
  ghost function AddPrefixDigests<T>(s: seq<SizeEntry<T>>, data: seq<byte>, digest: seq<byte> -> Digest): (r: seq<SizeEntry<T>>)
    requires forall j :: 0 <= j < |s| ==> s[j].size <= |data|
  {
    seq(|s|, j requires 0 <= j < |s| => s[j].AddPartial(digest(data[..s[j].size])))
  }

  /**
   * The bucket that receives `data` in GetOrAdd, before the final store: the
   * existing bucket of length `n`, or a new one back-filled from every
   * longer bucket.
   */
  ghost function Target<T>(t: seq<SizeEntry<T>>, digest: seq<byte> -> Digest, n: nat): (e: SizeEntry<T>)
    ensures e.size == n
  {
    var p := InsertionIndex(t, n);
    if p < |t| && t[p].size == n then t[p] else SizeEntry(n, map[], LongerDigests(t, p, |t|, n, digest))
  }

  /** Whether GetOrAdd finds an existing bucket of length `n`. */
  ghost predicate Present<T>(t: seq<SizeEntry<T>>, n: nat)
  {
    var p := InsertionIndex(t, n);
    p < |t| && t[p].size == n
  }

  /**
   * What GetOrAdd does to the size list: locate the bucket for |data|
   * (creating it if absent), mark the prefixes of `data` in every shorter
   * bucket, then store or deduplicate `data` in its own bucket.
   */
  ghost function GetOrAddTable<T>(t: seq<SizeEntry<T>>, digest: seq<byte> -> Digest, data: seq<byte>, item: T): seq<SizeEntry<T>>
  {
    var p := InsertionIndex(t, |data|);
    AddPrefixDigests(t[..p], data, digest)
      + [Target(t, digest, |data|).GetOrAdd(data, item).0]
      + (if Present(t, |data|) then t[p + 1..] else t[p..])
  }

  /** The item GetOrAdd returns. */
  ghost function GetOrAddItem<T>(t: seq<SizeEntry<T>>, digest: seq<byte> -> Digest, data: seq<byte>, item: T): T
  {
    Target(t, digest, |data|).GetOrAdd(data, item).1
  }

  /** The blind binary search of TryFindItem over the index interval [left, right). */
  function Find<T>(t: seq<SizeEntry<T>>, digest: seq<byte> -> Digest, data: seq<byte>, left: nat, right: nat): Option<T>
    requires left <= right <= |t|
    decreases right - left
  {
    if left == right then None
    else
      var index := left + (right - left) / 2;
      match t[index].TryFindItem(data, digest)
      case FoundFull(item) => Some(item)
      case NotFound => Find(t, digest, data, left, index)
      case FoundPartial => Find(t, digest, data, index + 1, right)
  }

  // -----------------------------------------------------------------------
  // The table object

  class PartitionedHashTable<T> {
    const digest: seq<byte> -> Digest
    var sizeTable: seq<SizeEntry<T>>

    ghost predicate Valid()
      reads this
    {
      ValidTable(sizeTable, digest)
    }

    constructor (digest: seq<byte> -> Digest)
      ensures Valid() && this.digest == digest && sizeTable == []
    {
      this.digest := digest;
      sizeTable := [];
    }

    /** GetOrAdd with the result discarded. */
    method Add(data: seq<byte>, item: T)
      requires Valid()
      modifies this
      ensures Valid()
      ensures sizeTable == GetOrAddTable(old(sizeTable), digest, data, item)
    {
      var _ := GetOrAdd(data, item);
    }

    method GetOrAdd(data: seq<byte>, item: T) returns (r: T)
      requires Valid()
      modifies this
      ensures Valid()
      ensures sizeTable == GetOrAddTable(old(sizeTable), digest, data, item)
      ensures r == GetOrAddItem(old(sizeTable), digest, data, item)
      ensures r == match old(Lookup(sizeTable, data)) case Some(v) => v case None => item
      ensures forall k :: Lookup(sizeTable, k) == if k == data then Some(r) else old(Lookup(sizeTable, k))
    {
      GetOrAddKeepsValid(sizeTable, digest, data, item);
      GetOrAddLookup(sizeTable, digest, data, item);
      r := Store(data, item);
    }

    /**
     * The steps of GetOrAdd: find the bucket for |data| by binary search,
     * create and back-fill it if absent, mark the prefixes of `data` in
     * every shorter bucket, then store `data` in its bucket.
     */
    method Store(data: seq<byte>, item: T) returns (r: T)
      requires Sorted(sizeTable) && AllWellFormed(sizeTable)
      modifies this
      ensures sizeTable == GetOrAddTable(old(sizeTable), digest, data, item)
      ensures r == GetOrAddItem(old(sizeTable), digest, data, item)
    {
      ghost var t0 := sizeTable;
      var index := FindOrInsertBucket(|data|);
      ghost var s := sizeTable;
      PhasesAreGetOrAddTable(t0, digest, data, item, s, index);
      MarkPrefixes(data, index);
      assert sizeTable[index] == s[index];
      var added := sizeTable[index].GetOrAdd(data, item);
      sizeTable := sizeTable[index := added.0];
      r := added.1;
    }

    /**
     * The first step of GetOrAdd: the index of the bucket of length `n`,
     * found by binary search, or created there and back-filled.
     */
    method FindOrInsertBucket(n: nat) returns (index: nat)
      requires Sorted(sizeTable) && AllWellFormed(sizeTable)
      modifies this
      ensures index == InsertionIndex(old(sizeTable), n)
      ensures sizeTable == Inserted(old(sizeTable), digest, n)
    {
      ghost var t0 := sizeTable;
      var i := BinarySearch(sizeTable, n);
      BinarySearchIsInsertionIndex(sizeTable, n, i);
      if !(i < |sizeTable| && sizeTable[i].size == n) {
        if i < |sizeTable| && sizeTable[i].size < n {
          i := i + 1;
        }
        AbsentAboveIndex(t0, n);
        InsertBucket(i, n);
      }
      index := i;
    }

    /**
     * The new-bucket step of GetOrAdd: inserts an empty bucket of length `n`
     * at `index` and back-fills it from every longer bucket above it.
     */
    method InsertBucket(index: nat, n: nat)
      requires index <= |sizeTable|
      requires forall j :: index <= j < |sizeTable| ==> sizeTable[j].size > n && sizeTable[j].WellFormed()
      modifies this
      ensures sizeTable == old(sizeTable)[..index] + [SizeEntry(n, map[], LongerDigests(old(sizeTable), index, |old(sizeTable)|, n, digest))] + old(sizeTable)[index..]
    {
      ghost var t0 := sizeTable;
      // The new bucket is shared by reference between the list and the loop
      // in the source; here the loop fills the value and stores it at the end.
      var sizeEntry := SizeEntry(n, map[], {});
      var table := sizeTable[..index] + [sizeEntry] + sizeTable[index..];
      for i := index + 1 to |table|
        invariant sizeEntry == SizeEntry(n, map[], LongerDigests(t0, index, i - 1, n, digest))
      {
        assert table[i] == t0[i - 1];
        LongerDigestsExtend(t0, index, i - 1, n, digest);
        sizeEntry := table[i].FillPartials(sizeEntry, digest);
        assert sizeEntry.partials == LongerDigests(t0, index, i, n, digest);
      }
      sizeTable := table[index := sizeEntry];
      assert sizeTable == t0[..index] + [sizeEntry] + t0[index..];
    }

    /** The marking step of GetOrAdd: every entry below `index` gains the marker of its prefix of `data`. */
    method MarkPrefixes(data: seq<byte>, index: nat)
      requires index <= |sizeTable|
      requires forall j :: 0 <= j < index ==> sizeTable[j].size <= |data|
      modifies this
      ensures sizeTable == AddPrefixDigests(old(sizeTable)[..index], data, digest) + old(sizeTable)[index..]
      ensures |sizeTable| == |old(sizeTable)| && sizeTable[index..] == old(sizeTable)[index..]
    {
      ghost var t1 := sizeTable;
      for i := 0 to index
        invariant |sizeTable| == |t1|
        invariant sizeTable[..i] == AddPrefixDigests(t1[..index], data, digest)[..i]
        invariant sizeTable[i..] == t1[i..]
      {
        sizeTable := sizeTable[i := sizeTable[i].AddPartial(digest(data[..sizeTable[i].size]))];
      }
    }

    /**
     * Binary search of the size list for `size`: an index holding `size` when
     * there is one; otherwise the last probed index, which is next to the
     * insertion point; 0 on an empty list.
     */
    static method BinarySearch(entries: seq<SizeEntry<T>>, size: nat) returns (r: int)
      requires Sorted(entries)
      ensures |entries| == 0 ==> r == 0
      ensures |entries| > 0 ==> 0 <= r < |entries|
      ensures (exists j :: 0 <= j < |entries| && entries[j].size == size) ==> entries[r].size == size
      ensures (forall j :: 0 <= j < |entries| ==> entries[j].size != size) ==>
        InsertionPoint(entries, size, if r < |entries| && entries[r].size < size then r + 1 else r)
    {
      var left := 0;
      var middle := 0;
      var right := |entries| - 1;
      while left <= right
        invariant 0 <= left <= right + 1 <= |entries|
        invariant forall j :: 0 <= j < left ==> entries[j].size < size
        invariant forall j :: right < j < |entries| ==> entries[j].size > size
        invariant
          || (middle == 0 && left == 0 && right == |entries| - 1)
          || (0 <= middle < |entries| && middle == left - 1 && entries[middle].size < size)
          || (0 <= middle < |entries| && middle == right + 1 && entries[middle].size > size)
      {
        middle := left + (right - left) / 2;
        var entry := entries[middle];
        if size == entry.size {
          break;
        }
        if size < entry.size {
          right := middle - 1;
        } else {
          left := middle + 1;
        }
      }
      r := middle;
    }

    /**
     * Looks up data of unknown length: binary search over the sizes, where a
     * complete match stops, "not found" goes to shorter sizes and "partial"
     * goes to longer sizes.
     */
    method TryFindItem(data: seq<byte>) returns (item: Option<T>)
      ensures item == Find(sizeTable, digest, data, 0, |sizeTable|)
      ensures |sizeTable| == 0 ==> item == None
    {
      var entries := sizeTable;
      ghost var answer := Find(entries, digest, data, 0, |entries|);
      var left := 0;
      var right := |entries|;
      while left != right
        invariant 0 <= left <= right <= |entries|
        invariant Find(entries, digest, data, left, right) == answer
        decreases right - left
      {
        var index := left + (right - left) / 2;
        var result := entries[index].TryFindItem(data, digest);
        FindStep(entries, digest, data, left, right, index, result);
        if result.FoundFull? {
          return Some(result.item);
        }
        if result.NotFound? {
          right := index;
        } else {
          left := index + 1;
        }
      }
      return None;
    }

    /** The first index whose bucket holds the most markers. */
    method GetSearchStartIndex() returns (r: nat)
      requires |sizeTable| > 0
      ensures r < |sizeTable|
      ensures forall j :: 0 <= j < |sizeTable| ==> sizeTable[j].TableCount() <= sizeTable[r].TableCount()
      ensures forall j :: 0 <= j < r ==> sizeTable[j].TableCount() < sizeTable[r].TableCount()
    {
      var idealSize := sizeTable[0].TableCount();
      var idealIndex := 0;
      for i := 1 to |sizeTable|
        invariant idealIndex < i && idealSize == sizeTable[idealIndex].TableCount()
        invariant forall j :: 0 <= j < i ==> sizeTable[j].TableCount() <= idealSize
        invariant forall j :: 0 <= j < idealIndex ==> sizeTable[j].TableCount() < idealSize
      {
        if sizeTable[i].TableCount() > idealSize {
          idealSize := sizeTable[i].TableCount();
          idealIndex := i;
        }
      }
      r := idealIndex;
    }
  }

  // -----------------------------------------------------------------------
  // Lemmas

  /** One probe of the search: its outcome decides the rest of the search. */
  lemma FindStep<T>(t: seq<SizeEntry<T>>, digest: seq<byte> -> Digest, data: seq<byte>, left: nat, right: nat, index: nat, result: SearchResult<T>)
    requires left < right <= |t| && index == left + (right - left) / 2
    requires result == t[index].TryFindItem(data, digest)
    ensures result.FoundFull? ==> Find(t, digest, data, left, right) == Some(result.item)
    ensures result.NotFound? ==> Find(t, digest, data, left, right) == Find(t, digest, data, left, index)
    ensures result.FoundPartial? ==> Find(t, digest, data, left, right) == Find(t, digest, data, index + 1, right)
  {
  }

  /** BinarySearch followed by GetOrAdd's adjustment lands on InsertionIndex. */
  lemma BinarySearchIsInsertionIndex<T>(t: seq<SizeEntry<T>>, n: nat, index: int)
    requires Sorted(t)
    requires |t| == 0 ==> index == 0
    requires |t| > 0 ==> 0 <= index < |t|
    requires (exists j :: 0 <= j < |t| && t[j].size == n) ==> t[index].size == n
    requires (forall j :: 0 <= j < |t| ==> t[j].size != n) ==>
      InsertionPoint(t, n, if index < |t| && t[index].size < n then index + 1 else index)
    ensures index < |t| && t[index].size == n ==> InsertionIndex(t, n) == index
    ensures !(index < |t| && t[index].size == n) ==>
      InsertionIndex(t, n) == (if index < |t| && t[index].size < n then index + 1 else index)
  {
    if index < |t| && t[index].size == n {
      InsertionIndexUnique(t, n, index);
    } else {
      var p := if index < |t| && t[index].size < n then index + 1 else index;
      InsertionIndexUnique(t, n, p);
    }
  }

  /** In a sorted list, InsertionIndex is the only split point between smaller and not smaller. */
  lemma InsertionIndexUnique<T>(t: seq<SizeEntry<T>>, n: nat, p: nat)
    requires Sorted(t) && p <= |t|
    requires forall j :: 0 <= j < p ==> t[j].size < n
    requires forall j :: p <= j < |t| ==> t[j].size >= n
    ensures InsertionIndex(t, n) == p
  {
    InsertionIndexFromUnique(t, n, 0, p);
  }

  lemma {:induction false} InsertionIndexFromUnique<T>(t: seq<SizeEntry<T>>, n: nat, i: nat, p: nat)
    requires i <= p <= |t|
    requires forall j :: i <= j < p ==> t[j].size < n
    requires forall j :: p <= j < |t| ==> t[j].size >= n
    ensures InsertionIndexFrom(t, n, i) == p
    decreases |t| - i
  {
    if i < p {
      InsertionIndexFromUnique(t, n, i + 1, p);
    }
  }

  /** Lookup of a key inspects the bucket of the key's length. */
  lemma LookupAt<T>(t: seq<SizeEntry<T>>, j: nat, k: seq<byte>)
    requires Sorted(t)
    requires j < |t| && t[j].size == |k|
    ensures Lookup(t, k) == if k in t[j].full then Some(t[j].full[k]) else None
  {
    InsertionIndexUnique(t, |k|, j);
  }

  /** Without a bucket of the key's length, Lookup finds nothing. */
  lemma LookupNoBucket<T>(t: seq<SizeEntry<T>>, k: seq<byte>)
    requires AllWellFormed(t)
    requires forall j :: 0 <= j < |t| ==> t[j].size != |k|
    ensures Lookup(t, k) == None
  {
    var p := InsertionIndex(t, |k|);
  }

  /** Extending the range by one entry adds that entry's prefix digests. */
  lemma LongerDigestsExtend<T>(t: seq<SizeEntry<T>>, a: nat, b: nat, n: nat, digest: seq<byte> -> Digest)
    requires a <= b < |t|
    ensures LongerDigests(t, a, b + 1, n, digest) == LongerDigests(t, a, b, n, digest) + t[b].PrefixDigests(n, digest)
  {
    forall d | d in LongerDigests(t, a, b + 1, n, digest)
      ensures d in LongerDigests(t, a, b, n, digest) + t[b].PrefixDigests(n, digest)
    {
      var j, k :| a <= j < b + 1 && j < |t| && k in t[j].full && n <= |k| && d == digest(k[..n]);
      if j < b {
        assert d in LongerDigests(t, a, b, n, digest);
      } else {
        assert d in t[b].PrefixDigests(n, digest);
      }
    }
    forall d | d in LongerDigests(t, a, b, n, digest) + t[b].PrefixDigests(n, digest)
      ensures d in LongerDigests(t, a, b + 1, n, digest)
    {
      if d in LongerDigests(t, a, b, n, digest) {
        var j, k :| a <= j < b && j < |t| && k in t[j].full && n <= |k| && d == digest(k[..n]);
      } else {
        var k :| k in t[b].full && n <= |k| && d == digest(k[..n]);
      }
    }
  }

  /** Index in the old list of the entry at index `j` of the list after GetOrAdd, for `j` past the target. */
  ghost function Origin<T>(t: seq<SizeEntry<T>>, n: nat, j: int): int
  {
    if Present(t, n) then j else j - 1
  }

  /**
   * Where each entry of the list `u` after GetOrAdd comes from: shorter
   * entries gain the prefix marker of `data`, the target bucket receives
   * `data`, longer entries are kept.
   */
  ghost predicate Shape<T>(t: seq<SizeEntry<T>>, digest: seq<byte> -> Digest, data: seq<byte>, item: T, u: seq<SizeEntry<T>>)
  {
    var n := |data|;
    var p := InsertionIndex(t, n);
    && |u| == (if Present(t, n) then |t| else |t| + 1)
    && p < |u|
    && (forall j :: 0 <= j < p ==> t[j].size < n && u[j] == t[j].AddPartial(digest(data[..t[j].size])))
    && u[p] == Target(t, digest, n).GetOrAdd(data, item).0
    && (forall j :: p < j < |u| ==> p <= Origin(t, n, j) < |t| && u[j] == t[Origin(t, n, j)] && t[Origin(t, n, j)].size > n)
  }

  /** The size list once the bucket of length `n` exists, before any marker or key is added. */
  ghost function Inserted<T>(t: seq<SizeEntry<T>>, digest: seq<byte> -> Digest, n: nat): seq<SizeEntry<T>>
  {
    var p := InsertionIndex(t, n);
    if Present(t, n) then t else t[..p] + [Target(t, digest, n)] + t[p..]
  }

  lemma InsertedShape<T>(t: seq<SizeEntry<T>>, digest: seq<byte> -> Digest, n: nat)
    ensures var s := Inserted(t, digest, n);
      var p := InsertionIndex(t, n);
      && |s| == (if Present(t, n) then |t| else |t| + 1) && p < |s|
      && s[..p] == t[..p] && s[p] == Target(t, digest, n)
      && s[p + 1..] == (if Present(t, n) then t[p + 1..] else t[p..])
  {
  }

  /** Without a bucket of length `n`, every entry from the insertion index on is longer and well formed. */
  lemma AbsentAboveIndex<T>(t: seq<SizeEntry<T>>, n: nat)
    requires Sorted(t) && AllWellFormed(t) && !Present(t, n)
    ensures forall j :: InsertionIndex(t, n) <= j < |t| ==> t[j].size > n && t[j].WellFormed()
  {
    AbsentHasNoBucket(t, n);
  }

  /** The steps of the GetOrAdd method compose to GetOrAddTable and GetOrAddItem. */
  lemma PhasesAreGetOrAddTable<T>(t: seq<SizeEntry<T>>, digest: seq<byte> -> Digest, data: seq<byte>, item: T, s: seq<SizeEntry<T>>, p: nat)
    requires s == Inserted(t, digest, |data|) && p == InsertionIndex(t, |data|)
    ensures p < |s| && s[p].size == |data|
    ensures forall j :: 0 <= j < p ==> s[j].size <= |data|
    ensures (AddPrefixDigests(s[..p], data, digest) + s[p..])[p := s[p].GetOrAdd(data, item).0] == GetOrAddTable(t, digest, data, item)
    ensures s[p].GetOrAdd(data, item).1 == GetOrAddItem(t, digest, data, item)
  {
    var n := |data|;
    InsertedShape(t, digest, n);
    var m := AddPrefixDigests(s[..p], data, digest) + s[p..];
    var v := GetOrAddTable(t, digest, data, item);
    var w := m[p := s[p].GetOrAdd(data, item).0];
    assert |w| == |v|;
    forall j | 0 <= j < |w|
      ensures w[j] == v[j]
    {
      if j > p {
        assert w[j] == s[j];
      }
    }
  }

  /** Shape determines the list: it is exactly GetOrAddTable. */
  lemma ShapeIsGetOrAddTable<T>(t: seq<SizeEntry<T>>, digest: seq<byte> -> Digest, data: seq<byte>, item: T, u: seq<SizeEntry<T>>)
    requires Sorted(t) && Shape(t, digest, data, item, u)
    ensures u == GetOrAddTable(t, digest, data, item)
  {
    var v := GetOrAddTable(t, digest, data, item);
    GetOrAddTableShape(t, digest, data, item);
    forall j | 0 <= j < |u|
      ensures u[j] == v[j]
    {
    }
  }

  lemma GetOrAddTableShape<T>(t: seq<SizeEntry<T>>, digest: seq<byte> -> Digest, data: seq<byte>, item: T)
    requires Sorted(t)
    ensures Shape(t, digest, data, item, GetOrAddTable(t, digest, data, item))
  {
    var u := GetOrAddTable(t, digest, data, item);
    var n := |data|;
    var p := InsertionIndex(t, n);
    forall j | p < j < |u|
      ensures p <= Origin(t, n, j) < |t| && u[j] == t[Origin(t, n, j)] && t[Origin(t, n, j)].size > n
    {
      var o := Origin(t, n, j);
      if Present(t, n) {
        assert t[p].size < t[o].size;
      } else if o > p {
        assert t[p].size < t[o].size;
      }
    }
  }

  /** GetOrAdd keeps the size list sorted, its buckets well formed, and every prefix marked. */
  lemma GetOrAddKeepsValid<T>(t: seq<SizeEntry<T>>, digest: seq<byte> -> Digest, data: seq<byte>, item: T)
    requires ValidTable(t, digest)
    ensures ValidTable(GetOrAddTable(t, digest, data, item), digest)
  {
    GetOrAddTableShape(t, digest, data, item);
    ShapeKeepsValid(t, digest, data, item, GetOrAddTable(t, digest, data, item));
  }

  lemma {:induction false} ShapeKeepsValid<T>(t: seq<SizeEntry<T>>, digest: seq<byte> -> Digest, data: seq<byte>, item: T, u: seq<SizeEntry<T>>)
    requires ValidTable(t, digest) && Shape(t, digest, data, item, u)
    ensures ValidTable(u, digest)
  {
    forall i, j | 0 <= i < j < |u|
      ensures u[i].size < u[j].size
    {
      ShapeSortedPair(t, digest, data, item, u, i, j);
    }
    forall i | 0 <= i < |u|
      ensures u[i].WellFormed()
    {
      ShapeWellFormedAt(t, digest, data, item, u, i);
    }
    forall i, j, k | 0 <= i < j < |u| && k in u[j].full && u[i].size <= |k|
      ensures digest(k[..u[i].size]) in u[i].partials
    {
      var p := InsertionIndex(t, |data|);
      if i < p {
        ShapeBackfilledBelow(t, digest, data, item, u, i, j, k);
      } else if i == p {
        ShapeBackfilledTarget(t, digest, data, item, u, j, k);
      } else {
        ShapeBackfilledAbove(t, digest, data, item, u, i, j, k);
      }
    }
  }

  lemma ShapeSortedPair<T>(t: seq<SizeEntry<T>>, digest: seq<byte> -> Digest, data: seq<byte>, item: T, u: seq<SizeEntry<T>>, i: int, j: int)
    requires Sorted(t) && Shape(t, digest, data, item, u)
    requires 0 <= i < j < |u|
    ensures u[i].size < u[j].size
  {
    var n := |data|;
    var p := InsertionIndex(t, n);
    if i > p {
      assert t[Origin(t, n, i)].size < t[Origin(t, n, j)].size;
    }
  }

  lemma ShapeWellFormedAt<T>(t: seq<SizeEntry<T>>, digest: seq<byte> -> Digest, data: seq<byte>, item: T, u: seq<SizeEntry<T>>, i: int)
    requires AllWellFormed(t) && Shape(t, digest, data, item, u)
    requires 0 <= i < |u|
    ensures u[i].WellFormed()
  {
    var n := |data|;
    var p := InsertionIndex(t, n);
    if i < p {
      assert t[i].WellFormed();
    } else if i > p {
      assert t[Origin(t, n, i)].WellFormed();
    } else if Present(t, n) {
      assert t[p].WellFormed();
    }
  }

  /** A key above a shorter entry has its prefix marked there. */
  lemma ShapeBackfilledBelow<T>(t: seq<SizeEntry<T>>, digest: seq<byte> -> Digest, data: seq<byte>, item: T, u: seq<SizeEntry<T>>, i: int, j: int, k: seq<byte>)
    requires Backfilled(t, digest) && Shape(t, digest, data, item, u)
    requires 0 <= i < InsertionIndex(t, |data|) && i < j < |u|
    requires k in u[j].full && u[i].size <= |k|
    ensures digest(k[..u[i].size]) in u[i].partials
  {
    var n := |data|;
    var p := InsertionIndex(t, n);
    assert u[i].size == t[i].size;
    if j < p {
      assert digest(k[..t[i].size]) in t[i].partials;
    } else if j == p {
      if k != data {
        assert k in t[p].full;
        assert digest(k[..t[i].size]) in t[i].partials;
      }
    } else {
      var o := Origin(t, n, j);
      assert k in t[o].full;
      assert digest(k[..t[i].size]) in t[i].partials;
    }
  }

  /** A key above the target bucket has its prefix marked in it. */
  lemma ShapeBackfilledTarget<T>(t: seq<SizeEntry<T>>, digest: seq<byte> -> Digest, data: seq<byte>, item: T, u: seq<SizeEntry<T>>, j: int, k: seq<byte>)
    requires Backfilled(t, digest) && Shape(t, digest, data, item, u)
    requires InsertionIndex(t, |data|) < j < |u|
    requires k in u[j].full && u[InsertionIndex(t, |data|)].size <= |k|
    ensures digest(k[..u[InsertionIndex(t, |data|)].size]) in u[InsertionIndex(t, |data|)].partials
  {
    var n := |data|;
    var p := InsertionIndex(t, n);
    var o := Origin(t, n, j);
    assert k in t[o].full && u[p].partials == Target(t, digest, n).partials;
    if Present(t, n) {
      BackfilledAt(t, digest, p, o, k);
    } else {
      LongerDigestsHas(t, p, o, k, n, digest);
    }
  }

  lemma BackfilledAt<T>(t: seq<SizeEntry<T>>, digest: seq<byte> -> Digest, i: nat, j: nat, k: seq<byte>)
    requires Backfilled(t, digest) && i < j < |t| && k in t[j].full && t[i].size <= |k|
    ensures digest(k[..t[i].size]) in t[i].partials
  {
  }

  lemma LongerDigestsHas<T>(t: seq<SizeEntry<T>>, a: nat, j: nat, k: seq<byte>, n: nat, digest: seq<byte> -> Digest)
    requires a <= j < |t| && k in t[j].full && n <= |k|
    ensures digest(k[..n]) in LongerDigests(t, a, |t|, n, digest)
  {
  }

  /** Above the target bucket, the old invariant carries over. */
  lemma ShapeBackfilledAbove<T>(t: seq<SizeEntry<T>>, digest: seq<byte> -> Digest, data: seq<byte>, item: T, u: seq<SizeEntry<T>>, i: int, j: int, k: seq<byte>)
    requires Backfilled(t, digest) && Shape(t, digest, data, item, u)
    requires InsertionIndex(t, |data|) < i < j < |u|
    requires k in u[j].full && u[i].size <= |k|
    ensures digest(k[..u[i].size]) in u[i].partials
  {
    var n := |data|;
    var o, o' := Origin(t, n, i), Origin(t, n, j);
    assert k in t[o'].full;
    assert digest(k[..t[o].size]) in t[o].partials;
  }

  /** Without an existing bucket of length `n`, the old list has no entry of that length. */
  lemma AbsentHasNoBucket<T>(t: seq<SizeEntry<T>>, n: nat)
    requires Sorted(t) && !Present(t, n)
    ensures forall j :: 0 <= j < |t| ==> t[j].size != n
  {
    var p := InsertionIndex(t, n);
    forall j | 0 <= j < |t| ensures t[j].size != n {
      if j > p {
        assert t[p].size < t[j].size;
      }
    }
  }

  /**
   * GetOrAdd returns the item already stored under `data` if there is one and
   * `item` otherwise, and afterwards `data` maps to that result while every
   * other key keeps its item (or stays absent).
   */
  lemma GetOrAddLookup<T>(t: seq<SizeEntry<T>>, digest: seq<byte> -> Digest, data: seq<byte>, item: T)
    requires ValidTable(t, digest)
    ensures GetOrAddItem(t, digest, data, item) == match Lookup(t, data) case Some(v) => v case None => item
    ensures forall k :: Lookup(GetOrAddTable(t, digest, data, item), k) ==
                         if k == data then Some(GetOrAddItem(t, digest, data, item)) else Lookup(t, k)
  {
    var u := GetOrAddTable(t, digest, data, item);
    GetOrAddTableShape(t, digest, data, item);
    ShapeKeepsValid(t, digest, data, item, u);
    ShapeLookupData(t, digest, data, item, u);
    forall k | k != data
      ensures Lookup(u, k) == Lookup(t, k)
    {
      ShapeLookupOther(t, digest, data, item, u, k);
    }
  }

  lemma ShapeLookupData<T>(t: seq<SizeEntry<T>>, digest: seq<byte> -> Digest, data: seq<byte>, item: T, u: seq<SizeEntry<T>>)
    requires Sorted(t) && AllWellFormed(t) && Sorted(u) && AllWellFormed(u) && Shape(t, digest, data, item, u)
    ensures GetOrAddItem(t, digest, data, item) == match Lookup(t, data) case Some(v) => v case None => item
    ensures Lookup(u, data) == Some(GetOrAddItem(t, digest, data, item))
  {
    var n := |data|;
    var p := InsertionIndex(t, n);
    if Present(t, n) {
      LookupAt(t, p, data);
    } else {
      AbsentHasNoBucket(t, n);
      LookupNoBucket(t, data);
    }
    LookupAt(u, p, data);
  }

  lemma ShapeLookupOther<T>(t: seq<SizeEntry<T>>, digest: seq<byte> -> Digest, data: seq<byte>, item: T, u: seq<SizeEntry<T>>, k: seq<byte>)
    requires Sorted(t) && AllWellFormed(t) && Sorted(u) && AllWellFormed(u) && Shape(t, digest, data, item, u)
    requires k != data
    ensures Lookup(u, k) == Lookup(t, k)
  {
    if j :| 0 <= j < |u| && u[j].size == |k| {
      ShapeLookupBucket(t, digest, data, item, u, j, k);
    } else {
      ShapeLookupNoBucket(t, digest, data, item, u, k);
    }
  }

  /** A key of the length of entry `j` of the new list. */
  lemma ShapeLookupBucket<T>(t: seq<SizeEntry<T>>, digest: seq<byte> -> Digest, data: seq<byte>, item: T, u: seq<SizeEntry<T>>, j: int, k: seq<byte>)
    requires Sorted(t) && AllWellFormed(t) && Sorted(u) && AllWellFormed(u) && Shape(t, digest, data, item, u)
    requires k != data && 0 <= j < |u| && u[j].size == |k|
    ensures Lookup(u, k) == Lookup(t, k)
  {
    var n := |data|;
    var p := InsertionIndex(t, n);
    LookupAt(u, j, k);
    if j < p {
      LookupAt(t, j, k);
    } else if j == p {
      if Present(t, n) {
        LookupAt(t, p, k);
      } else {
        AbsentHasNoBucket(t, n);
        LookupNoBucket(t, k);
      }
    } else {
      LookupAt(t, Origin(t, n, j), k);
    }
  }

  /** A key of a length the new list has no entry for. */
  lemma ShapeLookupNoBucket<T>(t: seq<SizeEntry<T>>, digest: seq<byte> -> Digest, data: seq<byte>, item: T, u: seq<SizeEntry<T>>, k: seq<byte>)
    requires AllWellFormed(t) && AllWellFormed(u) && Shape(t, digest, data, item, u)
    requires forall j :: 0 <= j < |u| ==> u[j].size != |k|
    ensures Lookup(u, k) == Lookup(t, k)
  {
    LookupNoBucket(u, k);
    forall j | 0 <= j < |t|
      ensures t[j].size != |k|
    {
      ShapeSizeOf(t, digest, data, item, u, j);
    }
    LookupNoBucket(t, k);
  }

  /** Every entry of the old list reappears in the new one with the same size. */
  lemma ShapeSizeOf<T>(t: seq<SizeEntry<T>>, digest: seq<byte> -> Digest, data: seq<byte>, item: T, u: seq<SizeEntry<T>>, j: int)
    requires Shape(t, digest, data, item, u) && 0 <= j < |t|
    ensures exists i :: 0 <= i < |u| && u[i].size == t[j].size
  {
    var n := |data|;
    var p := InsertionIndex(t, n);
    if j < p {
      assert u[j].size == t[j].size;
    } else if Present(t, n) {
      assert u[j].size == t[j].size;
    } else {
      assert Origin(t, n, j + 1) == j;
      assert u[j + 1].size == t[j].size;
    }
  }


  // -----------------------------------------------------------------------
  // What the blind search finds

  /** A result of the search is the item of a stored key that is a prefix of `data`. */
  lemma {:induction false} FindSound<T>(t: seq<SizeEntry<T>>, digest: seq<byte> -> Digest, data: seq<byte>, left: nat, right: nat)
    requires left <= right <= |t|
    ensures Find(t, digest, data, left, right).Some? ==>
              exists j :: left <= j < right && t[j].size <= |data| && data[..t[j].size] in t[j].full &&
                          t[j].full[data[..t[j].size]] == Find(t, digest, data, left, right).value
    decreases right - left
  {
    if left < right {
      var index := left + (right - left) / 2;
      match t[index].TryFindItem(data, digest)
      case FoundFull(_) =>
      case NotFound => FindSound(t, digest, data, left, index);
      case FoundPartial => FindSound(t, digest, data, index + 1, right);
    }
  }

  /**
   * When `data` itself is stored (in bucket `p`) and the interval contains
   * `p`, the search finds something; it finds exactly the item of `data`
   * when no shorter bucket of the interval holds a prefix of `data`.
   */
  lemma {:induction false} FindComplete<T>(t: seq<SizeEntry<T>>, digest: seq<byte> -> Digest, data: seq<byte>, left: nat, right: nat, p: nat)
    requires Sorted(t) && Backfilled(t, digest)
    requires left <= p < right <= |t| && t[p].size == |data| && data in t[p].full
    ensures Find(t, digest, data, left, right).Some?
    ensures (forall j :: left <= j < p ==> data[..t[j].size] !in t[j].full) ==>
              Find(t, digest, data, left, right) == Some(t[p].full[data])
    decreases right - left
  {
    var index := left + (right - left) / 2;
    var r := t[index].TryFindItem(data, digest);
    FindStep(t, digest, data, left, right, index, r);
    if index < p {
      assert t[index].size < t[p].size;
      if data[..t[index].size] !in t[index].full {
        BackfilledAt(t, digest, index, p, data);
        assert r == FoundPartial;
        FindComplete(t, digest, data, index + 1, right, p);
      }
    } else if index == p {
      assert data[..t[p].size] == data;
      assert r == FoundFull(t[p].full[data]);
    } else {
      assert t[p].size < t[index].size;
      assert r == NotFound;
      FindComplete(t, digest, data, left, index, p);
    }
  }

  /** A hit of TryFindItem is the item stored under some prefix of the data. */
  lemma TryFindItemSound<T>(t: seq<SizeEntry<T>>, digest: seq<byte> -> Digest, data: seq<byte>)
    requires Sorted(t)
    ensures Find(t, digest, data, 0, |t|).Some? ==>
              exists m :: 0 <= m <= |data| && Lookup(t, data[..m]) == Find(t, digest, data, 0, |t|)
  {
    FindSound(t, digest, data, 0, |t|);
    if Find(t, digest, data, 0, |t|).Some? {
      var j :| 0 <= j < |t| && t[j].size <= |data| && data[..t[j].size] in t[j].full &&
               t[j].full[data[..t[j].size]] == Find(t, digest, data, 0, |t|).value;
      LookupAt(t, j, data[..t[j].size]);
    }
  }

  /**
   * A stored key is always hit by TryFindItem, and it yields its own item
   * when no proper prefix of it is stored.
   */
  lemma TryFindItemComplete<T>(t: seq<SizeEntry<T>>, digest: seq<byte> -> Digest, data: seq<byte>)
    requires ValidTable(t, digest)
    ensures Lookup(t, data).Some? ==> Find(t, digest, data, 0, |t|).Some?
    ensures Lookup(t, data).Some? && (forall m :: 0 <= m < |data| ==> Lookup(t, data[..m]).None?) ==>
              Find(t, digest, data, 0, |t|) == Lookup(t, data)
  {
    var p := InsertionIndex(t, |data|);
    if Lookup(t, data).Some? {
      FindComplete(t, digest, data, 0, |t|, p);
      if forall m :: 0 <= m < |data| ==> Lookup(t, data[..m]).None? {
        NoStoredPrefix(t, data, p);
      }
    }
  }

  lemma NoStoredPrefix<T>(t: seq<SizeEntry<T>>, data: seq<byte>, p: nat)
    requires Sorted(t) && p == InsertionIndex(t, |data|)
    requires forall m :: 0 <= m < |data| ==> Lookup(t, data[..m]).None?
    ensures forall j :: 0 <= j < p ==> data[..t[j].size] !in t[j].full
  {
    forall j | 0 <= j < p
      ensures data[..t[j].size] !in t[j].full
    {
      LookupAt(t, j, data[..t[j].size]);
    }
  }

  // -----------------------------------------------------------------------
  // What GetOrAdd does to the sizes and the new bucket

  /**
   * An existing bucket leaves the size list as it was; otherwise |data| is
   * inserted at the point where every size before it is smaller and every
   * size after it is larger.
   */
  lemma GetOrAddSizes<T>(t: seq<SizeEntry<T>>, digest: seq<byte> -> Digest, data: seq<byte>, item: T)
    requires ValidTable(t, digest)
    ensures var p := InsertionIndex(t, |data|);
      Sizes(GetOrAddTable(t, digest, data, item)) ==
        if Present(t, |data|) then Sizes(t) else Sizes(t)[..p] + [|data|] + Sizes(t)[p..]
    ensures !Present(t, |data|) ==> InsertionPoint(t, |data|, InsertionIndex(t, |data|))
  {
    GetOrAddTableShape(t, digest, data, item);
    ShapeSizes(t, digest, data, item, GetOrAddTable(t, digest, data, item));
    if !Present(t, |data|) {
      AbsentAboveIndex(t, |data|);
    }
  }

  lemma ShapeSizes<T>(t: seq<SizeEntry<T>>, digest: seq<byte> -> Digest, data: seq<byte>, item: T, u: seq<SizeEntry<T>>)
    requires Shape(t, digest, data, item, u)
    ensures var p := InsertionIndex(t, |data|);
      Sizes(u) == if Present(t, |data|) then Sizes(t) else Sizes(t)[..p] + [|data|] + Sizes(t)[p..]
  {
    if Present(t, |data|) {
      ShapeSizesPresent(t, digest, data, item, u);
    } else {
      ShapeSizesAbsent(t, digest, data, item, u);
    }
  }

  lemma ShapeSizesPresent<T>(t: seq<SizeEntry<T>>, digest: seq<byte> -> Digest, data: seq<byte>, item: T, u: seq<SizeEntry<T>>)
    requires Shape(t, digest, data, item, u) && Present(t, |data|)
    ensures Sizes(u) == Sizes(t)
  {
    var n := |data|;
    var p := InsertionIndex(t, n);
    forall j | 0 <= j < |u|
      ensures u[j].size == t[j].size
    {
      if j > p {
        assert u[j] == t[Origin(t, n, j)];
      }
    }
  }

  lemma ShapeSizesAbsent<T>(t: seq<SizeEntry<T>>, digest: seq<byte> -> Digest, data: seq<byte>, item: T, u: seq<SizeEntry<T>>)
    requires Shape(t, digest, data, item, u) && !Present(t, |data|)
    ensures var p := InsertionIndex(t, |data|);
      Sizes(u) == Sizes(t)[..p] + [|data|] + Sizes(t)[p..]
  {
    var n := |data|;
    var p := InsertionIndex(t, n);
    var a := Sizes(u);
    var s := Sizes(t);
    var b := s[..p] + [n] + s[p..];
    assert |a| == |b|;
    forall j | 0 <= j < |a|
      ensures a[j] == b[j]
    {
      ShapeSizeAt(t, digest, data, item, u, j);
      if j < p {
        assert b[j] == s[j];
      } else if j > p {
        assert b[j] == s[j - 1];
      }
    }
  }

  /** The size of entry `j` of the new list, when the size of `data` was absent. */
  lemma ShapeSizeAt<T>(t: seq<SizeEntry<T>>, digest: seq<byte> -> Digest, data: seq<byte>, item: T, u: seq<SizeEntry<T>>, j: nat)
    requires Shape(t, digest, data, item, u) && !Present(t, |data|) && j < |u|
    ensures var p := InsertionIndex(t, |data|);
      u[j].size == if j < p then t[j].size else if j == p then |data| else t[j - 1].size
  {
    var p := InsertionIndex(t, |data|);
    if j > p {
      assert u[j] == t[Origin(t, |data|, j)];
    }
  }

  /**
   * A bucket created by GetOrAdd holds `data` alone, and as partial markers
   * the digests of the |data|-byte prefixes of exactly the keys of the
   * strictly longer buckets.
   */
  lemma NewBucketPartials<T>(t: seq<SizeEntry<T>>, digest: seq<byte> -> Digest, data: seq<byte>, item: T)
    requires ValidTable(t, digest) && !Present(t, |data|)
    ensures var u := GetOrAddTable(t, digest, data, item);
      var p := InsertionIndex(t, |data|);
      && p < |u| && u[p].size == |data| && u[p].full == map[data := item]
      && u[p].partials == set j, k | 0 <= j < |t| && |data| < t[j].size && k in t[j].full :: digest(k[..|data|])
  {
    GetOrAddTableShape(t, digest, data, item);
    AbsentAboveIndex(t, |data|);
    LongerDigestsAbove(t, digest, |data|);
  }

  /** Past the insertion index of an absent length, the entries are exactly the longer ones. */
  lemma LongerDigestsAbove<T>(t: seq<SizeEntry<T>>, digest: seq<byte> -> Digest, n: nat)
    requires AllWellFormed(t)
    requires forall j :: InsertionIndex(t, n) <= j < |t| ==> t[j].size > n
    ensures LongerDigests(t, InsertionIndex(t, n), |t|, n, digest) ==
              set j, k | 0 <= j < |t| && n < t[j].size && k in t[j].full :: digest(k[..n])
  {
    var p := InsertionIndex(t, n);
    var longer := set j, k | 0 <= j < |t| && n < t[j].size && k in t[j].full :: digest(k[..n]);
    forall d | d in longer
      ensures d in LongerDigests(t, p, |t|, n, digest)
    {
      var j, k :| 0 <= j < |t| && n < t[j].size && k in t[j].full && d == digest(k[..n]);
      assert p <= j;
      assert |k| == t[j].size;
    }
    forall d | d in LongerDigests(t, p, |t|, n, digest)
      ensures d in longer
    {
      var j, k :| p <= j < |t| && k in t[j].full && n <= |k| && d == digest(k[..n]);
    }
  }

  /**
   * The table that storing `[1, 2, 3]`, then `[5, 5]`, then `[1]` builds: one
   * key in each of the buckets of sizes 1, 2 and 3.
   */
  ghost function ExtendedKeyTable(digest: seq<byte> -> Digest): seq<SizeEntry<int>>
  {
    var k3: seq<byte> := [1, 2, 3];
    var k2: seq<byte> := [5, 5];
    [SizeEntry(1, map[[1] := 10], {digest(k3[..1]), digest(k2[..1])}),
     SizeEntry(2, map[k2 := 30], {digest(k3[..2])}),
     SizeEntry(3, map[k3 := 20], {})]
  }

  /** The table after storing `[1, 2, 3]` in an empty one. */
  ghost function ExtendedKeyFirst(): seq<SizeEntry<int>>
  {
    var k3: seq<byte> := [1, 2, 3];
    [SizeEntry(3, map[k3 := 20], {})]
  }

  /** The table after storing `[1, 2, 3]`, then `[5, 5]`. */
  ghost function ExtendedKeySecond(digest: seq<byte> -> Digest): seq<SizeEntry<int>>
  {
    var k3: seq<byte> := [1, 2, 3];
    var k2: seq<byte> := [5, 5];
    [SizeEntry(2, map[k2 := 30], {digest(k3[..2])}),
     SizeEntry(3, map[k3 := 20], {})]
  }

  /** Storing `[1, 2, 3]` in an empty table creates its bucket of size 3. */
  lemma ExtendedKeyFirstStep(digest: seq<byte> -> Digest)
    ensures GetOrAddTable([], digest, [1, 2, 3], 20) == ExtendedKeyFirst()
  {
    var e: seq<SizeEntry<int>> := [];
    assert InsertionIndex(e, 3) == 0;
    assert LongerDigests(e, 0, 0, 3, digest) == {};
  }

  /** Storing `[5, 5]` next creates a bucket of size 2, back-filled with the prefix of `[1, 2, 3]`. */
  lemma ExtendedKeySecondStep(digest: seq<byte> -> Digest)
    ensures GetOrAddTable(ExtendedKeyFirst(), digest, [5, 5], 30) == ExtendedKeySecond(digest)
  {
    var t := ExtendedKeyFirst();
    var k3: seq<byte> := [1, 2, 3];
    assert InsertionIndex(t, 2) == 0;
    assert !Present(t, 2);
    forall d | d in LongerDigests(t, 0, 1, 2, digest)
      ensures d == digest(k3[..2])
    {
      var j, k :| 0 <= j < 1 && j < |t| && k in t[j].full && 2 <= |k| && d == digest(k[..2]);
      assert k == k3;
    }
    assert k3 in t[0].full;
    assert LongerDigests(t, 0, 1, 2, digest) == {digest(k3[..2])};
  }

  /** Storing `[1]` last creates a bucket of size 1, back-filled with the prefixes of both keys. */
  lemma ExtendedKeyThirdStep(digest: seq<byte> -> Digest)
    ensures GetOrAddTable(ExtendedKeySecond(digest), digest, [1], 10) == ExtendedKeyTable(digest)
  {
    var t := ExtendedKeySecond(digest);
    var k3: seq<byte> := [1, 2, 3];
    var k2: seq<byte> := [5, 5];
    assert InsertionIndex(t, 1) == 0;
    assert !Present(t, 1);
    forall d | d in LongerDigests(t, 0, 2, 1, digest)
      ensures d == digest(k3[..1]) || d == digest(k2[..1])
    {
      var j, k :| 0 <= j < 2 && j < |t| && k in t[j].full && 1 <= |k| && d == digest(k[..1]);
      assert (j == 0 && k == k2) || (j == 1 && k == k3);
    }
    assert k2 in t[0].full && k3 in t[1].full;
    assert LongerDigests(t, 0, 2, 1, digest) == {digest(k3[..1]), digest(k2[..1])};
  }

  /** The example table is reachable: storing `[1, 2, 3]`, `[5, 5]` and `[1]` in an empty table builds it. */
  lemma {:induction false} ExtendedKeyTableReachable(digest: seq<byte> -> Digest)
    ensures GetOrAddTable(GetOrAddTable(GetOrAddTable([], digest, [1, 2, 3], 20), digest, [5, 5], 30), digest, [1], 10)
            == ExtendedKeyTable(digest)
  {
    ExtendedKeyFirstStep(digest);
    ExtendedKeySecondStep(digest);
    ExtendedKeyThirdStep(digest);
  }

  /** The example table is valid, and `[1]` is stored in it. */
  lemma ExtendedKeyTableValid(digest: seq<byte> -> Digest)
    ensures ValidTable(ExtendedKeyTable(digest), digest)
    ensures Lookup(ExtendedKeyTable(digest), [1]) == Some(10)
  {
    var t := ExtendedKeyTable(digest);
    ExtendedKeyTableBackfilled(digest);
    assert Sorted(t) && AllWellFormed(t);
    InsertionIndexUnique(t, 1, 0);
  }

  /** The prefixes of `[1, 2, 3]` and `[5, 5]` are marked in the shorter buckets of the example table. */
  lemma ExtendedKeyTableBackfilled(digest: seq<byte> -> Digest)
    ensures Backfilled(ExtendedKeyTable(digest), digest)
  {
    var t := ExtendedKeyTable(digest);
    var k3: seq<byte> := [1, 2, 3];
    var k2: seq<byte> := [5, 5];
    forall i, j, k | 0 <= i < j < |t| && k in t[j].full && t[i].size <= |k|
      ensures digest(k[..t[i].size]) in t[i].partials
    {
      assert (j == 2 && k == k3) || (j == 1 && k == k2);
    }
  }

  /**
   * The blind search is complete only for data that is exactly a stored key:
   * data extending a stored key with more bytes can be steered away from it
   * by the partial markers of another key. In the example table, which
   * storing `[1, 2, 3]`, `[5, 5]` and `[1]` builds, `[1, 2, 9]` starts with
   * the stored key `[1]` but is not found.
   */
  lemma {:induction false} ExtendedKeyMissed(digest: seq<byte> -> Digest)
    ensures var t := ExtendedKeyTable(digest);
            && t == GetOrAddTable(GetOrAddTable(GetOrAddTable([], digest, [1, 2, 3], 20), digest, [5, 5], 30), digest, [1], 10)
            && ValidTable(t, digest) && Lookup(t, [1]) == Some(10) && Find(t, digest, [1, 2, 9], 0, 3) == None
  {
    ExtendedKeyTableReachable(digest);
    ExtendedKeyTableValid(digest);
    ExtendedKeyFindMisses(digest);
  }

  /** The blind search of the example table for `[1, 2, 9]` moves up at size 2 and misses at size 3. */
  lemma ExtendedKeyFindMisses(digest: seq<byte> -> Digest)
    ensures Find(ExtendedKeyTable(digest), digest, [1, 2, 9], 0, 3) == None
  {
    var t := ExtendedKeyTable(digest);
    var data: seq<byte> := [1, 2, 9];
    var k3: seq<byte> := [1, 2, 3];
    var k2: seq<byte> := [5, 5];
    assert data[..2] == k3[..2];
    assert data[..2][0] != k2[0];
    assert t[1].TryFindItem(data, digest) == FoundPartial;
    assert data[..3][2] != k3[2];
    assert t[2].TryFindItem(data, digest) == NotFound;
  }

}
