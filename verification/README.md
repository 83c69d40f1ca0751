# Ryujinx shader cache core, modelled in Dafny

This project models the content-addressed shader cache of the Ryujinx GPU
emulator and the small pieces of state the shader translator consults, and
proves their properties.

- **`Cache`** (`partitioned_hash_table.dfy`) — `PartitionedHashTable<T>`.
  It keeps a list of buckets sorted by key length, one bucket per exact byte
  length. Each bucket (`SizeEntry`) holds two things:
  - its complete keys, mapped to their items;
  - "partial" markers, which are the digests of prefixes of longer keys.

  `GetOrAdd` finds or creates the bucket for the key's length. A new bucket
  is back-filled from every longer bucket. The key's prefixes are marked in
  every shorter bucket, and then the key is stored or deduplicated in its own
  bucket. `TryFindItem` is a blind binary search over the sizes, for data of
  unknown length.

  The class keeps the size list in a `seq` field, and its methods are loops
  with invariants. Each method is proved against a value-level specification:
  - `GetOrAddTable` / `GetOrAddItem` for insertion;
  - `Find` for lookup.

  The lemmas connect those specifications to:
  - the table invariant `ValidTable`: sizes strictly increasing, buckets
    well formed, prefixes back-filled;
  - the dictionary view `Lookup`.
- **`ShaderCache`** (`shader_cache_hash_table.dfy`) — `ShaderCacheHashTable`.
  It has six per-stage `IdCache`s and a map from six-id `IdTable`s to shader
  bundles.
  - `IdCache.Add` hands out ids speculatively and gives the id back on a
    deduplication hit.
  - `TryFind` resolves the stages in order and stops at the first that fails.
    Address 0 stands for an absent stage.
  - The ghost field `IdCache.codes` lists the stored codes by id. It is the
    specification the caches are proved against.
- **`ShaderTranslation`** (`uint128.dfy`) — the 128-bit mask value `UInt128`
  as two `bv64` halves: `Pow2`, `TrailingZeroCount`, `~`, `&`, `|` and
  equality.
- **`Specialization`** (`shader_specialization_state.dfy`) — `ShaderSpecializationState`:
  - the sticky "queried" flag byte;
  - the three recorded state values;
  - the per-texture record of the coordinate-normalization answer;
  - `Matches`, which checks those records against the current texture
    descriptors.
- **`Gpu`** (`gpu_accessor.dfy`) — the parts of `GpuAccessor` that compute
  without touching GPU memory:
  - the stage-index permutations;
  - the binding-slot arithmetic;
  - the input-topology mapping;
  - the monotone `Cb1DataSize` tracker;
  - the code-size rule of `GetCode`.
- `GraphicsTypes` (`graphics_types.dfy`) holds the enumerations these
  modules share. `Wrappers` (`wrappers.dfy`) holds `Option`.

Things outside the model are parameters:
- The digest of a byte string is a function fixed when a table is built.
- GPU memory is a function from an address to the bytes stored there.
- The texture descriptors are functions of the texture's stage, handle and
  constant buffer slot.
- The address of constant buffer 1 is an argument of `ConstantBuffer1Read`.

## Model

| member | source | states |
|---|---|---|
| Cache.SizeEntry.TableCount | Ryujinx.Common/Cache/PartitionedHashTable.cs:12 | the count is at least the number of complete keys and at least the number of partial markers, and it is 0 exactly for an empty bucket |
| Cache.SizeEntry.GetOrAdd | Ryujinx.Common/Cache/PartitionedHashTable.cs:22-26 | the bucket gains `data`; every existing item is kept; the result is the item now stored under `data`, which is the new item exactly when `data` was absent |
| Cache.SizeEntry.Add | Ryujinx.Common/Cache/PartitionedHashTable.cs:28-32 | the result flag is true iff `data` was absent; the bucket gains `data` with the new item only in that case, and old items are kept |
| Cache.SizeEntry.AddPartial | Ryujinx.Common/Cache/PartitionedHashTable.cs:34-37 | the partial markers gain exactly the given digest; complete keys are unchanged (the source's bool result is dropped, see Left out) |
| Cache.SizeEntry.FillPartials | Ryujinx.Common/Cache/PartitionedHashTable.cs:39-43 | the shorter new bucket gains the digest of the prefix of every key of this bucket, and nothing else changes |
| Cache.SizeEntry.TryFindItem | Ryujinx.Common/Cache/PartitionedHashTable.cs:45-48 | a complete match carries the item of the data's prefix of the bucket's length; a partial match means no complete key matches but that prefix's digest is marked; not-found means the data is too short or neither holds |
| Cache.SizeEntry.TryFindItemFull | Ryujinx.Common/Cache/PartitionedHashTable.cs:45-48 | in a well-formed bucket, the probe finds a complete match iff some stored key is a prefix of the data |
| Cache.PartitionedHashTable.constructor | Ryujinx.Common/Cache/PartitionedHashTable.cs:53-56 | the size list starts empty and valid |
| Cache.PartitionedHashTable.Add | Ryujinx.Common/Cache/PartitionedHashTable.cs:58-61 | same effect on the size list as GetOrAdd, and the invariant is kept |
| Cache.PartitionedHashTable.GetOrAdd | Ryujinx.Common/Cache/PartitionedHashTable.cs:63-103 | keeps the table invariant; returns the item already stored under `data`, or the new item when `data` was absent; afterwards `data` maps to the result and every other key maps to what it did before |
| Cache.PartitionedHashTable.Store | Ryujinx.Common/Cache/PartitionedHashTable.cs:63-103 | the search / insert / back-fill / mark / store steps produce exactly `GetOrAddTable` and `GetOrAddItem` |
| Cache.PartitionedHashTable.FindOrInsertBucket | Ryujinx.Common/Cache/PartitionedHashTable.cs:65-87 | the index is the insertion index of the size; the list is unchanged when a bucket of that size exists, and otherwise gains the back-filled new bucket there |
| Cache.PartitionedHashTable.InsertBucket | Ryujinx.Common/Cache/PartitionedHashTable.cs:74-87 | a bucket of the new size is inserted at the index; its markers are the prefix digests of every key in the longer buckets above it, and the other buckets are unchanged |
| Cache.PartitionedHashTable.MarkPrefixes | Ryujinx.Common/Cache/PartitionedHashTable.cs:94-99 | every bucket below the index gains the digest of the prefix of `data` of its own length; the buckets from the index on are unchanged |
| Cache.PartitionedHashTable.BinarySearch | Ryujinx.Common/Cache/PartitionedHashTable.cs:105-133 | returns 0 on an empty list and an index in range otherwise; the index holds the requested size when one exists; otherwise the index, after the `++` adjustment, splits the list into smaller and larger sizes |
| Cache.BinarySearchIsInsertionIndex | Ryujinx.Common/Cache/PartitionedHashTable.cs:67-77 | the index GetOrAdd uses after the adjustment is the unique sorted insertion index of the size |
| Cache.InsertionIndexUnique | Ryujinx.Common/Cache/PartitionedHashTable.cs:74-81 | an index with only smaller sizes before it and no smaller size after it is the insertion index |
| Cache.PartitionedHashTable.TryFindItem | Ryujinx.Common/Cache/PartitionedHashTable.cs:135-170 | the loop computes the blind search `Find` (stop on a complete match, shorter on not-found, longer on partial); nothing is found in an empty table |
| Cache.FindStep | Ryujinx.Common/Cache/PartitionedHashTable.cs:146-166 | one probe's three-way outcome fixes the remaining search: stop, the lower half, or the upper half |
| Cache.FindSound | Ryujinx.Common/Cache/PartitionedHashTable.cs:135-170 | an item the search returns is stored in some bucket under the prefix of the data of that bucket's length |
| Cache.FindComplete | Ryujinx.Common/Cache/PartitionedHashTable.cs:135-170 | on a valid table, data that is exactly a stored key is found; when no shorter prefix of it is stored, its own item is found |
| Cache.TryFindItemSound | Ryujinx.Common/Cache/PartitionedHashTable.cs:135-170 | what TryFindItem finds is the item of a stored prefix of the data |
| Cache.ExtendedKeyMissed | Ryujinx.Common/Cache/PartitionedHashTable.cs:135-170 | on the valid table that GetOrAdd builds by storing `[1, 2, 3]`, `[5, 5]` and `[1]` in an empty one (one key in each of the buckets of sizes 1, 2 and 3), the data `[1, 2, 9]` is not found although its prefix `[1]` is stored |
| Cache.ExtendedKeyTableReachable | Ryujinx.Common/Cache/PartitionedHashTable.cs:63-103 | storing `[1, 2, 3]`, then `[5, 5]`, then `[1]` in an empty table gives exactly the example table: each new bucket is back-filled with the prefixes of the longer keys |
| Cache.TryFindItemComplete | Ryujinx.Common/Cache/PartitionedHashTable.cs:135-170 | on a valid table, data that is exactly a stored key is found; when none of its proper prefixes is stored, its own item is found |
| Cache.PartitionedHashTable.GetSearchStartIndex | Ryujinx.Common/Cache/PartitionedHashTable.cs:172-188 | on a non-empty list, returns the first index whose bucket holds the most markers |
| Cache.GetOrAddKeepsValid | Ryujinx.Common/Cache/PartitionedHashTable.cs:63-103 | GetOrAdd keeps the sizes strictly increasing, every bucket well formed and all prefixes back-filled |
| Cache.GetOrAddLookup | Ryujinx.Common/Cache/PartitionedHashTable.cs:63-103 | as a dictionary, GetOrAdd returns the existing item or the new one, binds `data` to it and changes no other key |
| Cache.GetOrAddSizes | Ryujinx.Common/Cache/PartitionedHashTable.cs:67-87 | an existing size leaves the size list unchanged; a new size is inserted at its insertion point and nowhere else |
| Cache.NewBucketPartials | Ryujinx.Common/Cache/PartitionedHashTable.cs:79-86 | a new bucket holds only `data`, and its markers are exactly the prefix digests of the keys of the strictly longer buckets |
| ShaderCache.SlotOf | Ryujinx.Graphics.Gpu/Shader/ShaderCacheHashTable.cs:103-120 | compute code has no id slot, and no stage's main code goes to the VertexA slot |
| ShaderCache.ContributionsOf | Ryujinx.Graphics.Gpu/Shader/ShaderCacheHashTable.cs:103-125 | a holder's code goes to the slot of its stage, and its second code goes to VertexA |
| ShaderCache.LastCodeIsLast | Ryujinx.Graphics.Gpu/Shader/ShaderCacheHashTable.cs:96-126 | a slot's id names the code of the last holder contributing to it, and stays 0 when none does |
| ShaderCache.IdTable.Equals | Ryujinx.Graphics.Gpu/Shader/ShaderCacheHashTable.cs:55-63 | true iff the two id tables are the same value |
| ShaderCache.EqualsIsValueEquality | Ryujinx.Graphics.Gpu/Shader/ShaderCacheHashTable.cs:55-63 | `IdTable.Equals` holds iff all six ids are equal, which is value equality |
| ShaderCache.RegisteredExtends | Ryujinx.Graphics.Gpu/Shader/ShaderCacheHashTable.cs:96-126 | adding a bundle appends to a cache's code list exactly the new codes given to that slot, and keeps the list free of duplicates |
| ShaderCache.StoreKeepsIndexed | Ryujinx.Graphics.Gpu/Shader/ShaderCacheHashTable.cs:23-33 | after GetOrAdd with the speculative id, a known code keeps its id, and a new code gets the next id |
| ShaderCache.IdCache.constructor | Ryujinx.Graphics.Gpu/Shader/ShaderCacheHashTable.cs:17-21 | an empty table, and the counter at 0 |
| ShaderCache.IdCache.NamesIsLookup | Ryujinx.Graphics.Gpu/Shader/ShaderCacheHashTable.cs:23-33 | the table maps a code to `v` iff the code is the `v`-th code handed out |
| ShaderCache.IdCache.Add | Ryujinx.Graphics.Gpu/Shader/ShaderCacheHashTable.cs:23-33 | a new code gets id `old counter + 1` and the counter goes up by one; a known code gets its earlier id and the counter is rolled back; the result is always in `1..counter` |
| ShaderCache.IdCache.TryFind | Ryujinx.Graphics.Gpu/Shader/ShaderCacheHashTable.cs:35-38 | the flag and the id are what the blind search finds, with 0 when nothing is found |
| ShaderCache.IdCache.ResolvedIdIsStored | Ryujinx.Graphics.Gpu/Shader/ShaderCacheHashTable.cs:35-38 | a found id was handed out by Add, for a stored prefix of the data |
| ShaderCache.IdCache.StoredIsResolved | Ryujinx.Graphics.Gpu/Shader/ShaderCacheHashTable.cs:35-38 | data that is exactly a stored code is found, under its own id when no proper prefix of it is stored |
| ShaderCache.ShaderCacheHashTable.constructor | Ryujinx.Graphics.Gpu/Shader/ShaderCacheHashTable.cs:80-90 | six empty, separate id caches and no bundles |
| ShaderCache.ShaderCacheHashTable.Add | Ryujinx.Graphics.Gpu/Shader/ShaderCacheHashTable.cs:92-131 | every slot's cache registers the codes of the bundle's holders in order; each id names the last code for its slot, or is 0; the bundle is stored iff its id table was not already a key, and an existing bundle is never replaced |
| ShaderCache.ShaderCacheHashTable.AddShaders | Ryujinx.Graphics.Gpu/Shader/ShaderCacheHashTable.cs:94-126 | the loop over the holders registers their codes in order in all six caches and builds the id table |
| ShaderCache.ShaderCacheHashTable.AddHolder | Ryujinx.Graphics.Gpu/Shader/ShaderCacheHashTable.cs:98-125 | a null holder changes nothing; otherwise the code goes to its stage's cache and the second code to VertexA, and only those ids change |
| ShaderCache.ShaderCacheHashTable.AddVertexA | Ryujinx.Graphics.Gpu/Shader/ShaderCacheHashTable.cs:122-125 | the VertexA cache registers the code and the id names it; the other five caches are unchanged |
| ShaderCache.ShaderCacheHashTable.AddVertexB | Ryujinx.Graphics.Gpu/Shader/ShaderCacheHashTable.cs:105-107 | the vertex cache registers the code and the id names it; the other caches are unchanged |
| ShaderCache.ShaderCacheHashTable.AddTessControl | Ryujinx.Graphics.Gpu/Shader/ShaderCacheHashTable.cs:108-110 | the tessellation control cache registers the code; the other caches are unchanged |
| ShaderCache.ShaderCacheHashTable.AddTessEvaluation | Ryujinx.Graphics.Gpu/Shader/ShaderCacheHashTable.cs:111-113 | the tessellation evaluation cache registers the code; the other caches are unchanged |
| ShaderCache.ShaderCacheHashTable.AddGeometry | Ryujinx.Graphics.Gpu/Shader/ShaderCacheHashTable.cs:114-116 | the geometry cache registers the code; the other caches are unchanged |
| ShaderCache.ShaderCacheHashTable.AddFragment | Ryujinx.Graphics.Gpu/Shader/ShaderCacheHashTable.cs:117-119 | the fragment cache registers the code; the other caches are unchanged |
| ShaderCache.ShaderCacheHashTable.FirstUnresolvedIsFirst | Ryujinx.Graphics.Gpu/Shader/ShaderCacheHashTable.cs:139-167 | in the order VertexA, Vertex, TessControl, TessEvaluation, Geometry, Fragment, every stage before the first failing one resolves; no stage fails iff all six resolve |
| ShaderCache.ShaderCacheHashTable.TryGetId | Ryujinx.Graphics.Gpu/Shader/ShaderCacheHashTable.cs:172-182 | address 0 yields true with id 0 and does not consult the cache; otherwise the result is the cache's search over the code at the address |
| ShaderCache.IdCache.ResolvesToOwnId | Ryujinx.Graphics.Gpu/Shader/ShaderCacheHashTable.cs:35-38 | a stored code none of whose proper prefixes is stored is found under exactly the id Add gave it |
| ShaderCache.IdCache.LocatedResolves | Ryujinx.Graphics.Gpu/Shader/ShaderCacheHashTable.cs:172-182 | the code at a non-zero address resolves to its own id, and address 0 to id 0, when the code is stored with no proper prefix stored |
| ShaderCache.ShaderCacheHashTable.TryFind | Ryujinx.Graphics.Gpu/Shader/ShaderCacheHashTable.cs:133-170 | true iff all six stages resolve and their id table is a key of the bundle map, and then the result is that key's bundle; stages are tried up to and including the first that fails, and the later caches are not consulted |
| ShaderCache.ShaderCacheHashTable.AddedIsFound | Ryujinx.Graphics.Gpu/Shader/ShaderCacheHashTable.cs:92-170 | after Add registers a bundle's holders under the id table `ids`, and when each stage's code lies at its address (0 for an absent stage) with no proper prefix stored in its cache, every stage of TryFind resolves and the id table TryFind looks up is `ids` |
| ShaderCache.ShaderCacheHashTable.AddThenTryFind | Ryujinx.Graphics.Gpu/Shader/ShaderCacheHashTable.cs:92-170 | when each stage's memory at its address holds exactly the code registered for it, with no proper prefix of it stored, Add followed by TryFind finds a bundle, and finds this very bundle when Add stored it |
| ShaderTranslation.TrailingZeroCount | Ryujinx.Graphics.Shader/Translation/UInt128.cs:13-22 | the count is at most 128, and a count below 128 is a set bit |
| ShaderTranslation.Pow2 | Ryujinx.Graphics.Shader/Translation/UInt128.cs:24-32 | for `x` in 0..127 bit `x` of the result is set (`Pow2SingleBit`: it is the only one) |
| ShaderTranslation.ZeroHasNoBit | Ryujinx.Graphics.Shader/Translation/UInt128.cs:8 | `Zero` has none of the 128 bits set |
| ShaderTranslation.Equals | Ryujinx.Graphics.Shader/Translation/UInt128.cs:49-52 | `Equals` (and `==`, which calls it) is true iff the two values are the same |
| ShaderTranslation.NotEquals | Ryujinx.Graphics.Shader/Translation/UInt128.cs:54-57 | `!=` is true iff the two values differ |
| ShaderTranslation.TrailingZeroCount64 | Ryujinx.Graphics.Shader/Translation/UInt128.cs:15-18 | the count is at most 64; every bit below it is clear, and the bit at it is set when it is below 64 |
| ShaderTranslation.ShiftSingleBit | Ryujinx.Graphics.Shader/Translation/UInt128.cs:28-31 | `1UL << x` has bit `j` set iff `j == x` |
| ShaderTranslation.Pow2Halves | Ryujinx.Graphics.Shader/Translation/UInt128.cs:24-32 | for `x` in 0..127 the shift count is not wrapped, and the bit goes to the low half iff `x < 64` |
| ShaderTranslation.Pow2SingleBit | Ryujinx.Graphics.Shader/Translation/UInt128.cs:24-32 | for `x` in 0..127, `Pow2(x)` has exactly one set bit, at position `x`, and the other half is zero |
| ShaderTranslation.TrailingZeroCountZeroWord | Ryujinx.Graphics.Shader/Translation/UInt128.cs:15-18 | a zero 64-bit word counts 64, so the count goes on into the upper half |
| ShaderTranslation.TrailingZeroCountShift | Ryujinx.Graphics.Shader/Translation/UInt128.cs:15 | the count of `1UL << x` is `x` |
| ShaderTranslation.TrailingZeroCountPow2 | Ryujinx.Graphics.Shader/Translation/UInt128.cs:13-32 | TrailingZeroCount inverts Pow2 on 0..127 |
| ShaderTranslation.TrailingZeroCountRange | Ryujinx.Graphics.Shader/Translation/UInt128.cs:8-22 | the count is in 0..128, and it is 128 on Zero |
| ShaderTranslation.TrailingZeroCountIsLowestBit | Ryujinx.Graphics.Shader/Translation/UInt128.cs:13-22 | a count below 128 is the index of the lowest set bit of the 128-bit value |
| ShaderTranslation.NotInvolution | Ryujinx.Graphics.Shader/Translation/UInt128.cs:34-37 | `~` (the function `Not`) is an involution: `~~x == x` |
| ShaderTranslation.AndNotIsZero | Ryujinx.Graphics.Shader/Translation/UInt128.cs:34-42 | `&` (`And`) of a value with its complement `~` (`Not`) is `Zero` |
| ShaderTranslation.AndOrCommutativeIdempotent | Ryujinx.Graphics.Shader/Translation/UInt128.cs:39-47 | `&` (`And`) and `\|` (`Or`) are commutative and idempotent |
| ShaderTranslation.DeMorganAnd | Ryujinx.Graphics.Shader/Translation/UInt128.cs:34-47 | `~(x & y) == ~x \| ~y` |
| ShaderTranslation.DeMorganOr | Ryujinx.Graphics.Shader/Translation/UInt128.cs:34-47 | `~(x \| y) == ~x & ~y` |
| ShaderTranslation.EqualsIsValueEquality | Ryujinx.Graphics.Shader/Translation/UInt128.cs:49-67 | `Equals` and `==` hold iff both halves are equal; `!=` is exactly the negation of `Equals`, which is what the source promises for its `!=` operator |
| Specialization.SetFlag | Ryujinx.Graphics.Gpu/Shader/ShaderSpecializationState.cs:75-100 | `\|=` sets the flag, clears no bit, and leaves every flag sharing no bit with it as it was |
| Specialization.HasFlag | Ryujinx.Graphics.Gpu/Shader/ShaderSpecializationState.cs:141 | `Enum.HasFlag` holds iff setting the flag again would change nothing |
| Specialization.StateFlagsDisjoint | Ryujinx.Graphics.Gpu/Shader/ShaderSpecializationState.cs:12-17 | the three queried-state flags occupy distinct bits |
| Specialization.TextureKey.Equals | Ryujinx.Graphics.Gpu/Shader/ShaderSpecializationState.cs:54-57 | true iff the two keys are the same value |
| Specialization.TextureKeyEqualsIsValueEquality | Ryujinx.Graphics.Gpu/Shader/ShaderSpecializationState.cs:54-57 | `TextureKey.Equals` holds iff stage, handle and slot are equal; it is symmetric |
| Specialization.RecordCoordNormalized | Ryujinx.Graphics.Gpu/Shader/ShaderSpecializationState.cs:90-101 | the key set gains the key; its entry holds the answer with the flag set, keeping its earlier flags, or starting from none when new; other keys are unchanged |
| Specialization.RecordTwice | Ryujinx.Graphics.Gpu/Shader/ShaderSpecializationState.cs:94-100 | recording the same texture twice leaves one entry holding the later answer |
| Specialization.RecordCommutes | Ryujinx.Graphics.Gpu/Shader/ShaderSpecializationState.cs:90-101 | recording two different textures does not depend on the order |
| Specialization.RecordCurrentKeepsMatch | Ryujinx.Graphics.Gpu/Shader/ShaderSpecializationState.cs:113-149 | recording the answer the current descriptor gives keeps a matching state matching |
| Specialization.RecordStaleBreaksMatch | Ryujinx.Graphics.Gpu/Shader/ShaderSpecializationState.cs:141-145 | recording an answer the current descriptor contradicts makes the state stop matching |
| Specialization.ShaderSpecializationState.constructor | Ryujinx.Graphics.Gpu/Shader/ShaderSpecializationState.cs:67-70 | nothing is queried yet, and no texture is recorded |
| Specialization.ShaderSpecializationState.RecordEarlyZForce | Ryujinx.Graphics.Gpu/Shader/ShaderSpecializationState.cs:72-76 | stores the value and sets its flag; the other flags and fields are unchanged |
| Specialization.ShaderSpecializationState.RecordPrimitiveTopology | Ryujinx.Graphics.Gpu/Shader/ShaderSpecializationState.cs:78-82 | stores the topology and sets its flag; the other flags and fields are unchanged |
| Specialization.ShaderSpecializationState.RecordTessellationMode | Ryujinx.Graphics.Gpu/Shader/ShaderSpecializationState.cs:84-88 | stores the mode and sets its flag; the other flags and fields are unchanged |
| Specialization.ShaderSpecializationState.RecordTextureCoordNormalized | Ryujinx.Graphics.Gpu/Shader/ShaderSpecializationState.cs:90-101 | the texture map becomes `RecordCoordNormalized` of the old map; the other fields are unchanged |
| Specialization.ShaderSpecializationState.Matches | Ryujinx.Graphics.Gpu/Shader/ShaderSpecializationState.cs:113-149 | false iff some recorded texture has its flag set and an answer that differs from its current descriptor (so true on an empty map) |
| Specialization.ShaderSpecializationState.MatchesGraphics | Ryujinx.Graphics.Gpu/Shader/ShaderSpecializationState.cs:103-106 | Matches against the graphics descriptors, by stage, handle and slot |
| Specialization.ShaderSpecializationState.MatchesCompute | Ryujinx.Graphics.Gpu/Shader/ShaderSpecializationState.cs:108-111 | Matches against the compute descriptors, by handle and slot |
| Gpu.Wrap32 | Ryujinx.Graphics.Gpu/Shader/GpuAccessor.cs:78-80 | the 32-bit sum `offset + 4` as C# computes it: in int range, equal to the true sum when that fits, and otherwise congruent to it modulo 2^32 |
| Gpu.Max | Ryujinx.Graphics.Gpu/Shader/GpuAccessor.cs:107 | `Math.Max`: at least both arguments, and one of them |
| Gpu.GetStageIndex | Ryujinx.Graphics.Gpu/Shader/GpuAccessor.cs:131-142 | the binding block is always in 0..4 |
| Gpu.GetStageIndexIsBijection | Ryujinx.Graphics.Gpu/Shader/GpuAccessor.cs:131-142 | on the stage indices 0..4 the block order is injective and hits every block 0..4 |
| Gpu.GetStageIndexForImage | Ryujinx.Graphics.Gpu/Shader/GpuAccessor.cs:144-155 | the image binding block is always in 0..4 |
| Gpu.GetStageIndexForImageIsBijection | Ryujinx.Graphics.Gpu/Shader/GpuAccessor.cs:144-155 | on the stage indices 0..4 the image block order is injective and hits every block 0..4 |
| Gpu.ImageOrderSwapsVertexAndFragment | Ryujinx.Graphics.Gpu/Shader/GpuAccessor.cs:131-155 | on 0..4 the image order is the general order with blocks 0 and 1 exchanged; every other stage index gives block 0 in both |
| Gpu.QueryPrimitiveTopology | Ryujinx.Graphics.Gpu/Shader/GpuAccessor.cs:202-222 | for each input topology, the exact set of draw topologies, and for patches the patch types, that yield it |
| Gpu.GetCodeSize | Ryujinx.Graphics.Gpu/Shader/GpuAccessor.cs:105-109 | at least the minimum size and at least up to the next 4 KiB boundary, and exactly one of the two |
| Gpu.GpuAccessor.Graphics | Ryujinx.Graphics.Gpu/Shader/GpuAccessor.cs:33-38 | a graphics accessor for the given stage, with no constant buffer 1 data seen |
| Gpu.GpuAccessor.Compute | Ryujinx.Graphics.Gpu/Shader/GpuAccessor.cs:51-69 | a compute accessor (stage index 0), with no constant buffer 1 data seen |
| Gpu.GpuAccessor.ConstantBuffer1Read | Ryujinx.Graphics.Gpu/Shader/GpuAccessor.cs:76-88 | the size becomes the maximum of the old size and the 32-bit `offset + 4`, so it never decreases and covers the read whenever the sum does not overflow; the address read is `baseAddress + (ulong)offset` modulo 2^64 |
| Gpu.GpuAccessor.QueryBindingConstantBuffer | Ryujinx.Graphics.Gpu/Shader/GpuAccessor.cs:111-114 | an index below 18 lands in the stage's block of 18 bindings after binding 0 |
| Gpu.GpuAccessor.QueryBindingStorageBuffer | Ryujinx.Graphics.Gpu/Shader/GpuAccessor.cs:116-119 | an index below 16 lands in the stage's block of 16 bindings |
| Gpu.GpuAccessor.QueryBindingTexture | Ryujinx.Graphics.Gpu/Shader/GpuAccessor.cs:121-124 | an index below 32 lands in the stage's block of 32 bindings |
| Gpu.GpuAccessor.QueryBindingImage | Ryujinx.Graphics.Gpu/Shader/GpuAccessor.cs:126-129 | an index below 8 lands in the stage's image block of 8 bindings |
| Gpu.BindingsDoNotCollide | Ryujinx.Graphics.Gpu/Shader/GpuAccessor.cs:111-129 | equal bindings below the stride mean the same binding block and the same index |
| Gpu.DistinctStagesDoNotCollide | Ryujinx.Graphics.Gpu/Shader/GpuAccessor.cs:111-155 | two different graphics stages never share a binding below the stride, for any of the four kinds |

## Left out

- `PartitionHashTable<T>`, `HashState`, `SmartDataAccessor` and `IDataAccessor`
  are not part of this model. A bucket is a value with:
  - a map of complete keys;
  - a set of prefix digests;
  - a three-way probe.

  The digest is a function parameter, and the data source is a byte sequence
  that the probe reads up to a bucket's length.
- `Cache.SizeEntry.TryFindItem`: data shorter than the bucket's size is
  taken to be not found. Which answer `PartitionHashTable.TryFindItem` gives
  when the accessor cannot supply `size` bytes is not part of this model.
- `Cache.SizeEntry.AddPartial`: returns only the updated bucket. The bool
  the source returns comes from `PartitionHashTable.AddPartial`, which is not
  part of this model, and its one caller (PartitionedHashTable.cs line 98)
  discards it.
- `Cache.TryFindItemComplete`: completeness is stated only for data that is
  exactly a stored key. Data that extends a stored key with more bytes may be
  missed: the search steers on partial markers of other keys. Storing
  `[1, 2, 3]`, `[5, 5]` and `[1]` in an empty table gives buckets of sizes 1,
  2 and 3 with one key each, and a partial for `[1, 2]` in the size-2
  bucket. The data `[1, 2, 9]` probes size 2, sees the partial, moves up,
  misses at size 3 and finds nothing, although `[1]` is stored
  (`Cache.ExtendedKeyMissed`).
- `Cache.FindComplete`: the same restriction to data that is exactly a
  stored key.
- `ShaderCache.IdCache.StoredIsResolved`: the same restriction to data that
  is exactly a stored code.
- `ShaderTranslation.Not`, `ShaderTranslation.And`, `ShaderTranslation.Or`:
  have no contract of their own. Each is given by its body, the bitwise
  operation on the two 64-bit halves, and its properties are the lemmas
  `NotInvolution`, `AndNotIsZero`, `AndOrCommutativeIdempotent`,
  `DeMorganAnd` and `DeMorganOr`.
- Reading GPU memory (`ShaderCodeAccessor` and `MemoryManager` in
  ShaderCacheHashTable.cs, `Physical.Read` and `GetSpan` in GpuAccessor.cs)
  is I/O. Memory is a function from an address to its bytes, and only the
  address and size arithmetic is modelled.
- The buffer manager and the texture manager are foreign state:
  - the address of constant buffer 1 is a parameter;
  - the texture descriptors' coordinate-normalization bit is a pair of
    functions (`DescriptorLookup`).
- Logging (`Console.WriteLine` in `ShaderCacheHashTable.Add`,
  `GpuAccessor.Log`) has no effect on the state and is not modelled.
- `GetHashCode` of `IdTable`, `TextureKey` and `UInt128` is not modelled. It
  is randomized per process. The maps of the model key on value equality,
  and the contracts of the `Equals` members show that value equality is what
  the source's `Equals` computes.
- The multithreaded command dispatch and the OpenGL program wrappers are
  not part of this model.
- The other `GpuAccessor` queries simply read a field or foreign state, so
  they are not modelled: the compute local sizes and memory sizes,
  `QueryConstantBufferUse`, the tessellation queries, texture descriptors,
  and transform feedback.
- `QueryIsTextureRectangle` (GpuAccessor.cs lines 271-276) is not modelled
  as a call. It reads the texture descriptor and records the descriptor's
  coordinate-normalization bit with `RecordTextureCoordNormalized`, which is
  `Specialization.ShaderSpecializationState.RecordTextureCoordNormalized`
  here. This makes it the writer of the texture records that `Matches`
  checks. `Specialization.RecordCurrentKeepsMatch` states what recording the
  current answer does. Its result depends on the texture target, which is
  not part of this model.
- A tessellation mode is modelled as the triple it unpacks to (patch type,
  spacing, winding). Its register encoding is not part of this model.
- `Quads`, `QuadStrip` and `Polygon` stand for the primitive topologies that
  `QueryPrimitiveTopology` does not list. The rest of the graphics
  abstraction layer's enumeration is not part of this model.
- `ShaderCache.ShaderCacheHashTable.AddedIsFound`: the codes must lie at
  their addresses with no proper prefix stored in their cache; without that,
  TryFind may resolve a shorter stored code first.
- `ShaderCache.ShaderCacheHashTable.AddThenTryFind`: requires the same as
  `AddedIsFound`: each stage's memory at its address is exactly the code
  registered for it, and no proper prefix of that code is stored in its
  cache. So it promises that an added bundle is found only under that
  condition, not for any memory contents.
- `ShaderCache.ShaderCacheHashTable.Add`: a duplicate id table makes
  `Dictionary.Add` throw. The model returns `added == false` and leaves the
  map unchanged; the exception itself is not modelled.
- `ShaderCache.ShaderCacheHashTable.TryFind`: which caches are consulted is
  stated through the ghost count `stagesTried` of `TryGetId` calls, not as
  a trace of calls.
- `ShaderCache.IdCache.Add`: ids are unbounded. The source's 32-bit
  `_id` counter would wrap after 2^31 - 1 distinct codes.
- `Cache.PartitionedHashTable.TryFindItem`: termination is proved, but no
  logarithmic bound on the number of probes is stated.
- `Cache.PartitionedHashTable.GetSearchStartIndex`: requires a non-empty
  size list, as the source reads `_sizeTable[0]` unconditionally.
- `ShaderTranslation.TrailingZeroCount`: does not state the converse (a
  count of 128 only for Zero). `TrailingZeroCountIsLowestBit` covers every
  count below 128.
- `ShaderTranslation.Pow2`: for `x` outside 0..127 it models C#'s masking of
  the shift count to six bits. The properties are stated for 0..127 only.
- `Specialization.ShaderSpecializationState.constructor`: the early-Z,
  topology and tessellation fields start with the C# default values. The
  model leaves them unspecified, as the source never reads them.
- `Gpu.GpuAccessor.QueryBindingConstantBuffer`: computed on unbounded
  integers. A 32-bit overflow for huge indices is not modelled.
- `Gpu.GpuAccessor.QueryBindingStorageBuffer`: computed on unbounded
  integers; 32-bit overflow is not modelled.
- `Gpu.GpuAccessor.QueryBindingTexture`: computed on unbounded integers;
  32-bit overflow is not modelled.
- `Gpu.GpuAccessor.QueryBindingImage`: computed on unbounded integers;
  32-bit overflow is not modelled.
- `Gpu.GetCodeSize`: the `int` cast of `address & 0xfff` and the
  `minimumSize` argument are taken as mathematical integers, which is exact
  because `address & 0xfff` is below 0x1000.
