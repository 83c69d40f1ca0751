/**
 * Model of Ryujinx.Graphics.Gpu/Shader/ShaderCacheHashTable.cs: a cache of
 * shader bundles keyed by the code of their stages.
 *
 * Each of the six stage slots has an `IdCache`, a partitioned hash table that
 * gives every distinct piece of stage code a small positive id. A bundle is
 * stored under the tuple of the ids of its stages (`IdTable`), with id 0 for
 * a stage the bundle does not have. Looking a bundle up reads the code of
 * each stage from GPU memory; here GPU memory is a parameter giving the bytes
 * readable from each address.
 */
module ShaderCache {
  import opened Wrappers
  import opened Cache

  /** The pipeline stage of a shader program. */
  datatype ShaderStage = Compute | Vertex | TessellationControl | TessellationEvaluation | Geometry | Fragment

  /** One shader of a bundle: its stage, its code and, for a vertex shader, the optional second code (vertex A). */
  datatype ShaderCodeHolder = ShaderCodeHolder(stage: ShaderStage, code: seq<byte>, code2: Option<seq<byte>>)

  /** A bundle of shaders; a null holder is `None`. */
  datatype ShaderBundle = ShaderBundle(shaders: seq<Option<ShaderCodeHolder>>)

  /** The six id caches, in the order TryFind consults them. */
  datatype Slot = VertexAId | VertexBId | TessControlId | TessEvaluationId | GeometryId | FragmentId
  {
    function Index(): (r: nat)
      ensures r < 6
    {
      match this
      case VertexAId => 0
      case VertexBId => 1
      case TessControlId => 2
      case TessEvaluationId => 3
      case GeometryId => 4
      case FragmentId => 5
    }
  }

  /** The slot whose cache receives the main code of a holder of stage `stage`. */
  function SlotOf(stage: ShaderStage): (r: Option<Slot>)
    ensures r.None? <==> stage == ShaderStage.Compute
    ensures r != Some(VertexAId)
  {
    match stage
    case Compute => None
    case Vertex => Some(VertexBId)
    case TessellationControl => Some(TessControlId)
    case TessellationEvaluation => Some(TessEvaluationId)
    case Geometry => Some(GeometryId)
    case Fragment => Some(FragmentId)
  }

  /** The code a holder gives to the cache of slot `s`, if any. */
  function Contribution(holder: Option<ShaderCodeHolder>, s: Slot): Option<seq<byte>>
  {
    match holder
    case None => None
    case Some(h) =>
      if s == VertexAId then h.code2
      else if SlotOf(h.stage) == Some(s) then Some(h.code)
      else None
  }

  /** What each slot receives from a holder: the second code goes to vertex A, the main code to the slot of its stage. */
  lemma ContributionsOf(h: ShaderCodeHolder)
    ensures Contribution(Some(h), VertexAId) == h.code2
    ensures Contribution(Some(h), VertexBId) == if h.stage == Vertex then Some(h.code) else None
    ensures Contribution(Some(h), TessControlId) == if h.stage == TessellationControl then Some(h.code) else None
    ensures Contribution(Some(h), TessEvaluationId) == if h.stage == TessellationEvaluation then Some(h.code) else None
    ensures Contribution(Some(h), GeometryId) == if h.stage == ShaderStage.Geometry then Some(h.code) else None
    ensures Contribution(Some(h), FragmentId) == if h.stage == ShaderStage.Fragment then Some(h.code) else None
  {
  }

  /**
   * The code of the last of the first `n` holders contributing to slot `s`:
   * the one whose id the IdTable keeps.
   */
  ghost function LastCode(shaders: seq<Option<ShaderCodeHolder>>, n: nat, s: Slot): Option<seq<byte>>
    requires n <= |shaders|
  {
    if n == 0 then None
    else
      match Contribution(shaders[n - 1], s)
      case Some(c) => Some(c)
      case None => LastCode(shaders, n - 1, s)
  }

  /**
   * LastCode is the contribution of the last contributing holder: it is
   * present exactly when some holder contributes, and no later holder does.
   */
  lemma {:induction false} LastCodeIsLast(shaders: seq<Option<ShaderCodeHolder>>, n: nat, s: Slot)
    requires n <= |shaders|
    ensures LastCode(shaders, n, s).None? <==> forall i :: 0 <= i < n ==> Contribution(shaders[i], s).None?
    ensures LastCode(shaders, n, s).Some? ==>
              exists j :: 0 <= j < n && Contribution(shaders[j], s) == LastCode(shaders, n, s) &&
                forall i :: j < i < n ==> Contribution(shaders[i], s).None?
  {
    if n > 0 {
      LastCodeIsLast(shaders, n - 1, s);
      if Contribution(shaders[n - 1], s).None? && LastCode(shaders, n, s).Some? {
        var j :| 0 <= j < n - 1 && Contribution(shaders[j], s) == LastCode(shaders, n - 1, s) &&
                 forall i :: j < i < n - 1 ==> Contribution(shaders[i], s).None?;
        assert forall i :: j < i < n ==> Contribution(shaders[i], s).None?;
      }
    }
  }

  /** All codes the first `n` holders give to the cache of slot `s`. */
  ghost function SlotCodes(shaders: seq<Option<ShaderCodeHolder>>, n: nat, s: Slot): set<seq<byte>>
    requires n <= |shaders|
  {
    set i | 0 <= i < n && Contribution(shaders[i], s).Some? :: Contribution(shaders[i], s).value
  }

  /** The ids of the six stages of a bundle; 0 for an absent stage. */
  datatype IdTable = IdTable(vertexAId: int, vertexBId: int, tessControlId: int, tessEvaluationId: int, geometryId: int, fragmentId: int)
  {
    function Get(s: Slot): int
    {
      match s
      case VertexAId => vertexAId
      case VertexBId => vertexBId
      case TessControlId => tessControlId
      case TessEvaluationId => tessEvaluationId
      case GeometryId => geometryId
      case FragmentId => fragmentId
    }

    /** Field-by-field comparison of two id tables. */
    predicate Equals(other: IdTable): (r: bool)
      ensures r <==> this == other
    {
      other.vertexAId == vertexAId &&
      other.vertexBId == vertexBId &&
      other.tessControlId == tessControlId &&
      other.tessEvaluationId == tessEvaluationId &&
      other.geometryId == geometryId &&
      other.fragmentId == fragmentId
    }
  }

  /** IdTable.Equals is value equality, and so agrees with the id of every slot. */
  lemma EqualsIsValueEquality(a: IdTable, b: IdTable)
    ensures a.Equals(b) <==> a == b
    ensures a.Equals(b) <==> forall s: Slot :: a.Get(s) == b.Get(s)
  {
    if forall s: Slot :: a.Get(s) == b.Get(s) {
      assert a.Get(VertexAId) == b.Get(VertexAId) && a.Get(VertexBId) == b.Get(VertexBId);
      assert a.Get(TessControlId) == b.Get(TessControlId) && a.Get(TessEvaluationId) == b.Get(TessEvaluationId);
      assert a.Get(GeometryId) == b.Get(GeometryId) && a.Get(FragmentId) == b.Get(FragmentId);
    }
  }

  /** `id` is the id the cache gave to `code`, or 0 when there is no code. */
  ghost predicate Names(codes: seq<seq<byte>>, code: Option<seq<byte>>, id: int)
  {
    match code
    case None => id == 0
    case Some(k) => 1 <= id <= |codes| && codes[id - 1] == k
  }

  /** `codes` keeps `before` as a prefix and adds exactly the codes of `added` not yet present. */
  ghost predicate Extends(codes: seq<seq<byte>>, before: seq<seq<byte>>, added: set<seq<byte>>)
  {
    && before <= codes
    && (forall j :: |before| <= j < |codes| ==> codes[j] in added)
    && (forall k :: k in added ==> k in codes)
  }

  /** No code occurs twice. */
  ghost predicate Distinct(codes: seq<seq<byte>>)
  {
    forall i, j :: 0 <= i < j < |codes| ==> codes[i] != codes[j]
  }

  /** The codes of an id cache after IdCache.Add of `code`: appended unless already present. */
  ghost function Register(codes: seq<seq<byte>>, code: Option<seq<byte>>): seq<seq<byte>>
  {
    match code
    case None => codes
    case Some(k) => if k in codes then codes else codes + [k]
  }

  /** The codes of the cache of slot `s` after the first `n` holders, in order, were added to `codes`. */
  ghost function Registered(codes: seq<seq<byte>>, shaders: seq<Option<ShaderCodeHolder>>, n: nat, s: Slot): seq<seq<byte>>
    requires n <= |shaders|
  {
    if n == 0 then codes
    else Register(Registered(codes, shaders, n - 1, s), Contribution(shaders[n - 1], s))
  }

  /**
   * One holder's effect on one slot: the codes go from `before` to `after`
   * and the id of the slot from `id0` to `id1`.
   */
  ghost predicate Took(before: seq<seq<byte>>, after: seq<seq<byte>>, code: Option<seq<byte>>, id0: int, id1: int)
  {
    && after == Register(before, code)
    && match code
       case None => id1 == id0
       case Some(k) => Names(after, Some(k), id1)
  }

  /**
   * The effect of adding the first `n` holders on one slot: its codes are
   * `Registered(before, shaders, n, s)`, and `id` names the last code the
   * holders gave it.
   */
  ghost predicate Registers(before: seq<seq<byte>>, after: seq<seq<byte>>, shaders: seq<Option<ShaderCodeHolder>>, n: nat, s: Slot, id: int)
    requires n <= |shaders|
  {
    after == Registered(before, shaders, n, s) && Names(after, LastCode(shaders, n, s), id)
  }
  /**
   * `code` lies at `address`: no code means address 0; a code means a
   * non-zero address holding exactly that code, none of whose proper
   * prefixes is among `codes`.
   */
  ghost predicate Located(codes: seq<seq<byte>>, code: Option<seq<byte>>, memory: nat -> seq<byte>, address: nat)
  {
    match code
    case None => address == 0
    case Some(k) => address != 0 && memory(address) == k && forall m :: 0 <= m < |k| ==> k[..m] !in codes
  }

  /** The code lists of the six id caches, in slot order. */
  datatype CodeLists = CodeLists(vertexA: seq<seq<byte>>, vertexB: seq<seq<byte>>, tessControl: seq<seq<byte>>,
                                 tessEvaluation: seq<seq<byte>>, geometry: seq<seq<byte>>, fragment: seq<seq<byte>>)
  {
    function Get(s: Slot): seq<seq<byte>>
    {
      match s
      case VertexAId => vertexA
      case VertexBId => vertexB
      case TessControlId => tessControl
      case TessEvaluationId => tessEvaluation
      case GeometryId => geometry
      case FragmentId => fragment
    }
  }

  /** One holder's effect on every slot. */
  ghost predicate AllTook(before: CodeLists, after: CodeLists, holder: Option<ShaderCodeHolder>, id0: IdTable, id1: IdTable)
  {
    forall s: Slot :: Took(before.Get(s), after.Get(s), Contribution(holder, s), id0.Get(s), id1.Get(s))
  }

  /** The effect of the first `n` holders on every slot. */
  ghost predicate AllRegisters(before: CodeLists, after: CodeLists, shaders: seq<Option<ShaderCodeHolder>>, n: nat, ids: IdTable)
    requires n <= |shaders|
  {
    forall s: Slot :: Registers(before.Get(s), after.Get(s), shaders, n, s, ids.Get(s))
  }

  /** Six per-slot effects make the effect on every slot. */
  lemma AllTookOfEach(before: CodeLists, after: CodeLists, holder: Option<ShaderCodeHolder>, id0: IdTable, id1: IdTable)
    requires Took(before.vertexA, after.vertexA, Contribution(holder, VertexAId), id0.vertexAId, id1.vertexAId)
    requires Took(before.vertexB, after.vertexB, Contribution(holder, VertexBId), id0.vertexBId, id1.vertexBId)
    requires Took(before.tessControl, after.tessControl, Contribution(holder, TessControlId), id0.tessControlId, id1.tessControlId)
    requires Took(before.tessEvaluation, after.tessEvaluation, Contribution(holder, TessEvaluationId), id0.tessEvaluationId, id1.tessEvaluationId)
    requires Took(before.geometry, after.geometry, Contribution(holder, GeometryId), id0.geometryId, id1.geometryId)
    requires Took(before.fragment, after.fragment, Contribution(holder, FragmentId), id0.fragmentId, id1.fragmentId)
    ensures AllTook(before, after, holder, id0, id1)
  {
  }

  /** Before any holder, nothing is registered and every id is 0. */
  lemma AllRegistersStart(codes: CodeLists, shaders: seq<Option<ShaderCodeHolder>>)
    ensures AllRegisters(codes, codes, shaders, 0, IdTable(0, 0, 0, 0, 0, 0))
  {
  }

  /** One more holder: the step of the loop of ShaderCacheHashTable.Add. */
  lemma AllRegistersStep(before: CodeLists, mid: CodeLists, after: CodeLists, shaders: seq<Option<ShaderCodeHolder>>,
                         i: nat, id0: IdTable, id1: IdTable)
    requires i < |shaders|
    requires AllRegisters(before, mid, shaders, i, id0)
    requires AllTook(mid, after, shaders[i], id0, id1)
    ensures AllRegisters(before, after, shaders, i + 1, id1)
  {
  }


  /**
   * Adding holders appends to a cache exactly the codes they give it that it
   * did not have, and never the same code twice.
   */
  lemma {:induction false} RegisteredExtends(codes: seq<seq<byte>>, shaders: seq<Option<ShaderCodeHolder>>, n: nat, s: Slot)
    requires n <= |shaders|
    ensures Extends(Registered(codes, shaders, n, s), codes, SlotCodes(shaders, n, s))
    ensures Distinct(codes) ==> Distinct(Registered(codes, shaders, n, s))
  {
    if n > 0 {
      RegisteredExtends(codes, shaders, n - 1, s);
      SlotCodesSnoc(shaders, n - 1, s);
    }
  }

  /** Code `codes[v]` is stored in the size list `t` under id `v + 1`, and nothing else is stored. */
  ghost predicate Indexed(t: seq<SizeEntry<int>>, codes: seq<seq<byte>>)
  {
    && (forall v {:trigger Lookup(t, codes[v])} :: 0 <= v < |codes| ==> Lookup(t, codes[v]) == Some(v + 1))
    && (forall k :: Lookup(t, k).Some? ==> k in codes)
  }

  /**
   * Storing `code` with the candidate id `|codes| + 1` keeps the size list
   * indexed: a known code keeps its id, a new one takes the candidate.
   */
  lemma StoreKeepsIndexed(t0: seq<SizeEntry<int>>, t1: seq<SizeEntry<int>>, codes: seq<seq<byte>>, code: seq<byte>, r: int)
    requires Indexed(t0, codes)
    requires forall k :: Lookup(t1, k) == if k == code then Some(r) else Lookup(t0, k)
    requires r == match Lookup(t0, code) case Some(v) => v case None => |codes| + 1
    ensures Lookup(t0, code).Some? ==> Indexed(t1, codes) && 1 <= r <= |codes| && codes[r - 1] == code
    ensures Lookup(t0, code).None? ==> Indexed(t1, codes + [code]) && r == |codes| + 1
  {
    if Lookup(t0, code).Some? {
      var j :| 0 <= j < |codes| && codes[j] == code;
      assert Lookup(t0, codes[j]) == Some(j + 1);
      forall v | 0 <= v < |codes|
        ensures Lookup(t1, codes[v]) == Some(v + 1)
      {
        assert Lookup(t0, codes[v]) == Some(v + 1);
      }
    } else {
      var c := codes + [code];
      forall v | 0 <= v < |c|
        ensures Lookup(t1, c[v]) == Some(v + 1)
      {
        if v < |codes| {
          assert c[v] == codes[v] && Lookup(t0, codes[v]) == Some(v + 1);
        }
      }
      forall k | Lookup(t1, k).Some?
        ensures k in c
      {
        if k != code {
          assert Lookup(t0, k).Some?;
          var j :| 0 <= j < |codes| && codes[j] == k;
          assert c[j] == k;
        } else {
          assert c[|codes|] == k;
        }
      }
    }
  }

  /**
   * An id cache: a partitioned hash table from code to id, and the last id
   * handed out. `codes` lists the stored codes by id (code `codes[i]` has id
   * `i + 1`).
   */
  class IdCache {
    const table: PartitionedHashTable<int>
    var id: int
    ghost var codes: seq<seq<byte>>

    ghost predicate Valid()
      reads this, table
    {
      && table.Valid()
      && id == |codes|
      && Indexed(table.sizeTable, codes)
    }

    /** Initialize: an empty table, and no id handed out yet. */
    constructor (digest: seq<byte> -> Digest)
      ensures Valid() && fresh(table) && id == 0 && codes == []
    {
      table := new PartitionedHashTable(digest);
      id := 0;
      codes := [];
    }

    /** Under Valid, the stored ids are exactly the positions of `codes`. */
    lemma NamesIsLookup(k: seq<byte>, v: int)
      requires Valid()
      ensures Names(codes, Some(k), v) <==> Lookup(table.sizeTable, k) == Some(v)
    {
      if Lookup(table.sizeTable, k) == Some(v) {
        var j :| 0 <= j < |codes| && codes[j] == k;
      }
    }

    /**
     * Add: take the next id speculatively, store it unless the code is
     * already known, and give the id back when it was not used.
     */
    method Add(code: seq<byte>) returns (cachedId: int)
      requires Valid()
      modifies this, table
      ensures Valid()
      ensures codes == Register(old(codes), Some(code)) && Names(codes, Some(code), cachedId)
      ensures 1 <= cachedId <= id && codes[cachedId - 1] == code
      ensures Lookup(table.sizeTable, code) == Some(cachedId)
      ensures old(Lookup(table.sizeTable, code)).None? ==>
                id == old(id) + 1 && cachedId == id && codes == old(codes) + [code]
      ensures old(Lookup(table.sizeTable, code)).Some? ==>
                id == old(id) && cachedId == old(Lookup(table.sizeTable, code)).value && codes == old(codes)
    {
      ghost var t0 := table.sizeTable;
      id := id + 1;
      var newId := id;
      cachedId := table.GetOrAdd(code, newId);
      StoreKeepsIndexed(t0, table.sizeTable, codes, code, cachedId);
      if cachedId != newId {
        id := id - 1;
      } else {
        codes := codes + [code];
      }
    }

    /** TryFind: the id found by the blind search of the table for the data. */
    method TryFind(data: seq<byte>) returns (found: bool, foundId: int)
      ensures found == Find(table.sizeTable, table.digest, data, 0, |table.sizeTable|).Some?
      ensures foundId == Find(table.sizeTable, table.digest, data, 0, |table.sizeTable|).GetOr(0)
    {
      var item := table.TryFindItem(data);
      found := item.Some?;
      foundId := item.GetOr(0);
    }

    /** The id TryFind finds for `data`. */
    ghost function Resolve(data: seq<byte>): Option<int>
      reads this, table
    {
      Find(table.sizeTable, table.digest, data, 0, |table.sizeTable|)
    }

    /** An id TryFind finds is one Add handed out, for a stored prefix of the data. */
    lemma ResolvedIdIsStored(data: seq<byte>)
      requires Valid()
      ensures Resolve(data).Some? ==>
                1 <= Resolve(data).value <= id &&
                exists m :: 0 <= m <= |data| && codes[Resolve(data).value - 1] == data[..m]
    {
      TryFindItemSound(table.sizeTable, table.digest, data);
      if Resolve(data).Some? {
        var m :| 0 <= m <= |data| && Lookup(table.sizeTable, data[..m]) == Resolve(data);
        var k := data[..m];
        assert Lookup(table.sizeTable, k).Some?;
        assert k in codes;
        var j :| 0 <= j < |codes| && codes[j] == k;
        assert Lookup(table.sizeTable, codes[j]) == Some(j + 1);
        assert codes[Resolve(data).value - 1] == data[..m];
      }
    }

    /** TryFind finds every stored code, under its own id when no proper prefix of it is stored. */
    lemma StoredIsResolved(data: seq<byte>)
      requires Valid()
      ensures data in codes ==> Resolve(data).Some?
      ensures data in codes && (forall m :: 0 <= m < |data| ==> data[..m] !in codes) ==>
                Names(codes, Some(data), Resolve(data).value)
    {
      TryFindItemComplete(table.sizeTable, table.digest, data);
      if data in codes {
        var j :| 0 <= j < |codes| && codes[j] == data;
        if forall m :: 0 <= m < |data| ==> data[..m] !in codes {
          forall m | 0 <= m < |data|
            ensures Lookup(table.sizeTable, data[..m]).None?
          {
            assert data[..m] !in codes;
          }
        }
      }
    }

    /** A stored code none of whose proper prefixes is stored resolves to exactly its own id. */
    lemma ResolvesToOwnId(data: seq<byte>, v: int)
      requires Valid()
      requires Names(codes, Some(data), v)
      requires forall m :: 0 <= m < |data| ==> data[..m] !in codes
      ensures Resolve(data) == Some(v)
    {
      StoredIsResolved(data);
      NamesIsLookup(data, v);
      NamesIsLookup(data, Resolve(data).value);
    }

    /** The code named `v` and located at `address` is what TryGetId resolves there: id `v`. */
    lemma LocatedResolves(code: Option<seq<byte>>, v: int, memory: nat -> seq<byte>, address: nat)
      requires Valid()
      requires Names(codes, code, v) && Located(codes, code, memory, address)
      ensures CodeId(table.sizeTable, table.digest, memory, address) == Some(v)
    {
      if code.Some? {
        ResolvesToOwnId(code.value, v);
      }
    }
  }

  /** The cache of bundles: six id caches and the bundles keyed by their id tables. */
  class ShaderCacheHashTable {
    const vertexACache: IdCache
    const vertexBCache: IdCache
    const tessControlCache: IdCache
    const tessEvaluationCache: IdCache
    const geometryCache: IdCache
    const fragmentCache: IdCache
    var shaderPrograms: map<IdTable, ShaderBundle>

    function Cache(s: Slot): IdCache
    {
      match s
      case VertexAId => vertexACache
      case VertexBId => vertexBCache
      case TessControlId => tessControlCache
      case TessEvaluationId => tessEvaluationCache
      case GeometryId => geometryCache
      case FragmentId => fragmentCache
    }

    ghost function Repr(): set<object>
    {
      {vertexACache, vertexACache.table, vertexBCache, vertexBCache.table,
       tessControlCache, tessControlCache.table, tessEvaluationCache, tessEvaluationCache.table,
       geometryCache, geometryCache.table, fragmentCache, fragmentCache.table}
    }

    /** Every id cache is valid, and no two share a table (hence no two are the same cache). */
    ghost predicate Valid()
      reads Repr()
    {
      && vertexACache.Valid() && vertexBCache.Valid() && tessControlCache.Valid()
      && tessEvaluationCache.Valid() && geometryCache.Valid() && fragmentCache.Valid()
      && Separate()
    }

    /** The six tables are six different objects. */
    ghost predicate Separate()
    {
      && vertexACache.table != vertexBCache.table && vertexACache.table != tessControlCache.table
      && vertexACache.table != tessEvaluationCache.table && vertexACache.table != geometryCache.table
      && vertexACache.table != fragmentCache.table
      && vertexBCache.table != tessControlCache.table && vertexBCache.table != tessEvaluationCache.table
      && vertexBCache.table != geometryCache.table && vertexBCache.table != fragmentCache.table
      && tessControlCache.table != tessEvaluationCache.table && tessControlCache.table != geometryCache.table
      && tessControlCache.table != fragmentCache.table
      && tessEvaluationCache.table != geometryCache.table && tessEvaluationCache.table != fragmentCache.table
      && geometryCache.table != fragmentCache.table
    }

    /** The code lists of the six caches. */
    ghost function Codes(): CodeLists
      reads vertexACache, vertexBCache, tessControlCache, tessEvaluationCache, geometryCache, fragmentCache
    {
      CodeLists(vertexACache.codes, vertexBCache.codes, tessControlCache.codes,
                tessEvaluationCache.codes, geometryCache.codes, fragmentCache.codes)
    }

    constructor (digest: seq<byte> -> Digest)
      ensures Valid() && shaderPrograms == map[]
      ensures Codes() == CodeLists([], [], [], [], [], [])
    {
      vertexACache := new IdCache(digest);
      vertexBCache := new IdCache(digest);
      tessControlCache := new IdCache(digest);
      tessEvaluationCache := new IdCache(digest);
      geometryCache := new IdCache(digest);
      fragmentCache := new IdCache(digest);
      shaderPrograms := map[];
    }

    /**
     * Add: give every stage code of the bundle its id, then store the bundle
     * under the resulting id table. Dictionary.Add rejects a key already
     * present; that failure is `added == false`, with the dictionary unchanged.
     */
    method Add(shaderBundle: ShaderBundle) returns (added: bool, ghost ids: IdTable)
      requires Valid()
      modifies this, Repr()
      ensures Valid()
      ensures AllRegisters(old(Codes()), Codes(), shaderBundle.shaders, |shaderBundle.shaders|, ids)
      ensures added == (ids !in old(shaderPrograms))
      ensures shaderPrograms == if added then old(shaderPrograms)[ids := shaderBundle] else old(shaderPrograms)
    {
      var idTable := AddShaders(shaderBundle.shaders);
      ids := idTable;
      assert shaderPrograms == old(shaderPrograms);
      if idTable in shaderPrograms {
        added := false;
      } else {
        shaderPrograms := shaderPrograms[idTable := shaderBundle];
        added := true;
      }
    }

    /** The loop of Add: the ids of all holders, in order, starting from an all-zero id table. */
    method AddShaders(shaders: seq<Option<ShaderCodeHolder>>) returns (idTable: IdTable)
      requires Valid()
      modifies Repr()
      ensures Valid()
      ensures AllRegisters(old(Codes()), Codes(), shaders, |shaders|, idTable)
    {
      idTable := IdTable(0, 0, 0, 0, 0, 0);
      AllRegistersStart(Codes(), shaders);
      for i := 0 to |shaders|
        invariant Valid()
        invariant AllRegisters(old(Codes()), Codes(), shaders, i, idTable)
      {
        ghost var mid := Codes();
        var next := AddHolder(shaders[i], idTable);
        AllRegistersStep(old(Codes()), mid, Codes(), shaders, i, idTable, next);
        idTable := next;
      }
    }

    /** The body of the loop of Add for one holder: a null holder is skipped, a compute shader has no slot. */
    method AddHolder(holder: Option<ShaderCodeHolder>, idTable: IdTable) returns (r: IdTable)
      requires Valid()
      modifies Repr()
      ensures Valid()
      ensures AllTook(old(Codes()), Codes(), holder, idTable, r)
    {
      r := idTable;
      if holder.None? {
        AllTookOfEach(Codes(), Codes(), holder, idTable, r);
        return;
      }
      var h := holder.value;
      ContributionsOf(h);
      match h.stage {
        case Vertex =>
          var v := AddVertexB(h.code);
          r := r.(vertexBId := v);
        case TessellationControl =>
          var v := AddTessControl(h.code);
          r := r.(tessControlId := v);
        case TessellationEvaluation =>
          var v := AddTessEvaluation(h.code);
          r := r.(tessEvaluationId := v);
        case Geometry =>
          var v := AddGeometry(h.code);
          r := r.(geometryId := v);
        case Fragment =>
          var v := AddFragment(h.code);
          r := r.(fragmentId := v);
        case Compute =>
      }
      if h.code2.Some? {
        var v := AddVertexA(h.code2.value);
        r := r.(vertexAId := v);
      }
      AllTookOfEach(old(Codes()), Codes(), holder, idTable, r);
    }

    /** IdCache.Add on the vertex A cache; the other caches keep their codes. */
    method AddVertexA(code: seq<byte>) returns (v: int)
      requires Valid()
      modifies vertexACache, vertexACache.table
      ensures Valid()
      ensures vertexACache.codes == Register(old(vertexACache.codes), Some(code)) && Names(vertexACache.codes, Some(code), v)
      ensures vertexBCache.codes == old(vertexBCache.codes)
      ensures tessControlCache.codes == old(tessControlCache.codes)
      ensures tessEvaluationCache.codes == old(tessEvaluationCache.codes)
      ensures geometryCache.codes == old(geometryCache.codes)
      ensures fragmentCache.codes == old(fragmentCache.codes)
    {
      v := vertexACache.Add(code);
    }

    /** IdCache.Add on the vertex B cache; the other caches keep their codes. */
    method AddVertexB(code: seq<byte>) returns (v: int)
      requires Valid()
      modifies vertexBCache, vertexBCache.table
      ensures Valid()
      ensures vertexBCache.codes == Register(old(vertexBCache.codes), Some(code)) && Names(vertexBCache.codes, Some(code), v)
      ensures vertexACache.codes == old(vertexACache.codes)
      ensures tessControlCache.codes == old(tessControlCache.codes)
      ensures tessEvaluationCache.codes == old(tessEvaluationCache.codes)
      ensures geometryCache.codes == old(geometryCache.codes)
      ensures fragmentCache.codes == old(fragmentCache.codes)
    {
      v := vertexBCache.Add(code);
    }

    /** IdCache.Add on the tessellation control cache; the other caches keep their codes. */
    method AddTessControl(code: seq<byte>) returns (v: int)
      requires Valid()
      modifies tessControlCache, tessControlCache.table
      ensures Valid()
      ensures tessControlCache.codes == Register(old(tessControlCache.codes), Some(code)) && Names(tessControlCache.codes, Some(code), v)
      ensures vertexACache.codes == old(vertexACache.codes)
      ensures vertexBCache.codes == old(vertexBCache.codes)
      ensures tessEvaluationCache.codes == old(tessEvaluationCache.codes)
      ensures geometryCache.codes == old(geometryCache.codes)
      ensures fragmentCache.codes == old(fragmentCache.codes)
    {
      v := tessControlCache.Add(code);
    }

    /** IdCache.Add on the tessellation evaluation cache; the other caches keep their codes. */
    method AddTessEvaluation(code: seq<byte>) returns (v: int)
      requires Valid()
      modifies tessEvaluationCache, tessEvaluationCache.table
      ensures Valid()
      ensures tessEvaluationCache.codes == Register(old(tessEvaluationCache.codes), Some(code)) && Names(tessEvaluationCache.codes, Some(code), v)
      ensures vertexACache.codes == old(vertexACache.codes)
      ensures vertexBCache.codes == old(vertexBCache.codes)
      ensures tessControlCache.codes == old(tessControlCache.codes)
      ensures geometryCache.codes == old(geometryCache.codes)
      ensures fragmentCache.codes == old(fragmentCache.codes)
    {
      v := tessEvaluationCache.Add(code);
    }

    /** IdCache.Add on the geometry cache; the other caches keep their codes. */
    method AddGeometry(code: seq<byte>) returns (v: int)
      requires Valid()
      modifies geometryCache, geometryCache.table
      ensures Valid()
      ensures geometryCache.codes == Register(old(geometryCache.codes), Some(code)) && Names(geometryCache.codes, Some(code), v)
      ensures vertexACache.codes == old(vertexACache.codes)
      ensures vertexBCache.codes == old(vertexBCache.codes)
      ensures tessControlCache.codes == old(tessControlCache.codes)
      ensures tessEvaluationCache.codes == old(tessEvaluationCache.codes)
      ensures fragmentCache.codes == old(fragmentCache.codes)
    {
      v := geometryCache.Add(code);
    }

    /** IdCache.Add on the fragment cache; the other caches keep their codes. */
    method AddFragment(code: seq<byte>) returns (v: int)
      requires Valid()
      modifies fragmentCache, fragmentCache.table
      ensures Valid()
      ensures fragmentCache.codes == Register(old(fragmentCache.codes), Some(code)) && Names(fragmentCache.codes, Some(code), v)
      ensures vertexACache.codes == old(vertexACache.codes)
      ensures vertexBCache.codes == old(vertexBCache.codes)
      ensures tessControlCache.codes == old(tessControlCache.codes)
      ensures tessEvaluationCache.codes == old(tessEvaluationCache.codes)
      ensures geometryCache.codes == old(geometryCache.codes)
    {
      v := fragmentCache.Add(code);
    }

    /** The id TryFind obtains for slot `s` when the size lists of the caches are `view`. */
    ghost function SlotId(view: seq<seq<SizeEntry<int>>>, s: Slot, memory: nat -> seq<byte>, addresses: ShaderAddresses): Option<int>
      requires |view| == 6
    {
      CodeId(view[s.Index()], Cache(s).table.digest, memory, addresses.Get(s))
    }

    /** The index of the first slot, in the order TryFind consults them, whose id does not resolve; 6 when all do. */
    ghost function FirstUnresolved(view: seq<seq<SizeEntry<int>>>, memory: nat -> seq<byte>, addresses: ShaderAddresses): nat
      requires |view| == 6
    {
      if CodeId(view[0], vertexACache.table.digest, memory, addresses.vertexA).None? then 0
      else if CodeId(view[1], vertexBCache.table.digest, memory, addresses.vertex).None? then 1
      else if CodeId(view[2], tessControlCache.table.digest, memory, addresses.tessControl).None? then 2
      else if CodeId(view[3], tessEvaluationCache.table.digest, memory, addresses.tessEvaluation).None? then 3
      else if CodeId(view[4], geometryCache.table.digest, memory, addresses.geometry).None? then 4
      else if CodeId(view[5], fragmentCache.table.digest, memory, addresses.fragment).None? then 5
      else 6
    }

    /** FirstUnresolved names the first failing slot: every earlier one resolves, and 6 means all resolve. */
    lemma FirstUnresolvedIsFirst(view: seq<seq<SizeEntry<int>>>, memory: nat -> seq<byte>, addresses: ShaderAddresses)
      requires |view| == 6
      ensures FirstUnresolved(view, memory, addresses) <= 6
      ensures forall s: Slot :: s.Index() < FirstUnresolved(view, memory, addresses) ==> SlotId(view, s, memory, addresses).Some?
      ensures forall s: Slot :: s.Index() == FirstUnresolved(view, memory, addresses) ==> SlotId(view, s, memory, addresses).None?
      ensures FirstUnresolved(view, memory, addresses) == 6 <==> forall s: Slot :: SlotId(view, s, memory, addresses).Some?
    {
      var f := FirstUnresolved(view, memory, addresses);
      if f < 6 {
        var s: Slot := match f
          case 0 => VertexAId
          case 1 => VertexBId
          case 2 => TessControlId
          case 3 => TessEvaluationId
          case 4 => GeometryId
          case _ => FragmentId;
        assert s.Index() == f && SlotId(view, s, memory, addresses).None?;
      }
    }

    /** The id table TryFind looks up, when every stage resolves. */
    ghost function IdsOf(view: seq<seq<SizeEntry<int>>>, memory: nat -> seq<byte>, addresses: ShaderAddresses): IdTable
      requires |view| == 6
    {
      IdTable(
        CodeId(view[0], vertexACache.table.digest, memory, addresses.vertexA).GetOr(0),
        CodeId(view[1], vertexBCache.table.digest, memory, addresses.vertex).GetOr(0),
        CodeId(view[2], tessControlCache.table.digest, memory, addresses.tessControl).GetOr(0),
        CodeId(view[3], tessEvaluationCache.table.digest, memory, addresses.tessEvaluation).GetOr(0),
        CodeId(view[4], geometryCache.table.digest, memory, addresses.geometry).GetOr(0),
        CodeId(view[5], fragmentCache.table.digest, memory, addresses.fragment).GetOr(0))
    }

    /**
     * TryGetId: address 0 means the stage is absent and yields id 0 without
     * reading memory or consulting the cache.
     */
    static method TryGetId(idCache: IdCache, memory: nat -> seq<byte>, baseAddress: nat) returns (found: bool, id: int)
      ensures found == CodeId(idCache.table.sizeTable, idCache.table.digest, memory, baseAddress).Some?
      ensures id == CodeId(idCache.table.sizeTable, idCache.table.digest, memory, baseAddress).GetOr(0)
    {
      if baseAddress == 0 {
        return true, 0;
      }
      found, id := idCache.TryFind(memory(baseAddress));
    }

    /**
     * TryFind: resolve the stages in slot order, stopping at the first that
     * fails, and look the id table up. `stagesTried` counts the TryGetId
     * calls made; the caches of the later stages are not consulted.
     */
    method TryFind(memory: nat -> seq<byte>, addresses: ShaderAddresses) returns (found: bool, shaderBundle: Option<ShaderBundle>, ghost stagesTried: nat)
      ensures var view := [vertexACache.table.sizeTable, vertexBCache.table.sizeTable, tessControlCache.table.sizeTable,
                           tessEvaluationCache.table.sizeTable, geometryCache.table.sizeTable, fragmentCache.table.sizeTable];
              && (found <==> FirstUnresolved(view, memory, addresses) == 6 && IdsOf(view, memory, addresses) in shaderPrograms)
              && (found ==> shaderBundle == Some(shaderPrograms[IdsOf(view, memory, addresses)]))
              && (!found ==> shaderBundle == None)
      ensures var view := [vertexACache.table.sizeTable, vertexBCache.table.sizeTable, tessControlCache.table.sizeTable,
                           tessEvaluationCache.table.sizeTable, geometryCache.table.sizeTable, fragmentCache.table.sizeTable];
              stagesTried == if FirstUnresolved(view, memory, addresses) < 6 then FirstUnresolved(view, memory, addresses) + 1 else 6
    {
      var ok;
      var vertexAId, vertexBId, tessControlId, tessEvaluationId, geometryId, fragmentId;
      ok, vertexAId := TryGetId(vertexACache, memory, addresses.vertexA);
      if !ok {
        return false, None, 1;
      }
      ok, vertexBId := TryGetId(vertexBCache, memory, addresses.vertex);
      if !ok {
        return false, None, 2;
      }
      ok, tessControlId := TryGetId(tessControlCache, memory, addresses.tessControl);
      if !ok {
        return false, None, 3;
      }
      ok, tessEvaluationId := TryGetId(tessEvaluationCache, memory, addresses.tessEvaluation);
      if !ok {
        return false, None, 4;
      }
      ok, geometryId := TryGetId(geometryCache, memory, addresses.geometry);
      if !ok {
        return false, None, 5;
      }
      ok, fragmentId := TryGetId(fragmentCache, memory, addresses.fragment);
      if !ok {
        return false, None, 6;
      }
      stagesTried := 6;
      var idTable := IdTable(vertexAId, vertexBId, tessControlId, tessEvaluationId, geometryId, fragmentId);
      if idTable in shaderPrograms {
        found := true;
        shaderBundle := Some(shaderPrograms[idTable]);
      } else {
        found := false;
        shaderBundle := None;
      }
    }

    /** The last code the holders `shaders` give slot `s` is Located at the slot's address, among the cache's codes. */
    ghost predicate AtAddress(s: Slot, shaders: seq<Option<ShaderCodeHolder>>, memory: nat -> seq<byte>, addresses: ShaderAddresses)
      reads Cache(s)
    {
      Located(Cache(s).codes, LastCode(shaders, |shaders|, s), memory, addresses.Get(s))
    }

    /**
     * Add followed by TryFind: when the holders of a bundle were registered
     * with the ids `ids` and their codes lie at `addresses`, every stage of
     * TryFind resolves and the id table it looks up is `ids`. With the
     * ensures of Add (`ids` is a key, mapped to the bundle when it was added)
     * and of TryFind, TryFind then finds `shaderPrograms[ids]`.
     */
    lemma AddedIsFound(before: CodeLists, shaders: seq<Option<ShaderCodeHolder>>, ids: IdTable,
                       memory: nat -> seq<byte>, addresses: ShaderAddresses)
      requires Valid()
      requires AllRegisters(before, Codes(), shaders, |shaders|, ids)
      requires forall s: Slot :: AtAddress(s, shaders, memory, addresses)
      ensures var view := [vertexACache.table.sizeTable, vertexBCache.table.sizeTable, tessControlCache.table.sizeTable,
                           tessEvaluationCache.table.sizeTable, geometryCache.table.sizeTable, fragmentCache.table.sizeTable];
              FirstUnresolved(view, memory, addresses) == 6 && IdsOf(view, memory, addresses) == ids
    {
      var view := [vertexACache.table.sizeTable, vertexBCache.table.sizeTable, tessControlCache.table.sizeTable,
                   tessEvaluationCache.table.sizeTable, geometryCache.table.sizeTable, fragmentCache.table.sizeTable];
      forall s: Slot
        ensures SlotId(view, s, memory, addresses) == Some(ids.Get(s))
      {
        SlotResolves(s, before, shaders, ids, memory, addresses);
        ViewSlot(view, s);
      }
      AllResolve(view, memory, addresses, ids);
    }

    /** When every slot resolves to its id in `ids`, TryFind gets past all six stages and looks up `ids`. */
    lemma AllResolve(view: seq<seq<SizeEntry<int>>>, memory: nat -> seq<byte>, addresses: ShaderAddresses, ids: IdTable)
      requires |view| == 6
      requires forall s: Slot :: SlotId(view, s, memory, addresses) == Some(ids.Get(s))
      ensures FirstUnresolved(view, memory, addresses) == 6 && IdsOf(view, memory, addresses) == ids
    {
      FirstUnresolvedIsFirst(view, memory, addresses);
      assert SlotId(view, VertexAId, memory, addresses) == Some(ids.vertexAId);
      assert SlotId(view, VertexBId, memory, addresses) == Some(ids.vertexBId);
      assert SlotId(view, TessControlId, memory, addresses) == Some(ids.tessControlId);
      assert SlotId(view, TessEvaluationId, memory, addresses) == Some(ids.tessEvaluationId);
      assert SlotId(view, GeometryId, memory, addresses) == Some(ids.geometryId);
      assert SlotId(view, FragmentId, memory, addresses) == Some(ids.fragmentId);
    }

    /**
     * A bundle added and then looked up at the addresses of its codes is
     * found; when Add stored it (its id table was new), TryFind returns it.
     * The requires speaks of the codes the caches hold once Add is done.
     */
    method AddThenTryFind(shaderBundle: ShaderBundle, memory: nat -> seq<byte>, addresses: ShaderAddresses)
      returns (added: bool, found: bool, result: Option<ShaderBundle>)
      requires Valid()
      requires forall s: Slot ::
                 Located(Registered(Codes().Get(s), shaderBundle.shaders, |shaderBundle.shaders|, s),
                         LastCode(shaderBundle.shaders, |shaderBundle.shaders|, s), memory, addresses.Get(s))
      modifies this, Repr()
      ensures Valid()
      ensures found && result.Some?
      ensures added ==> result == Some(shaderBundle)
    {
      ghost var before := Codes();
      var shaders := shaderBundle.shaders;
      ghost var ids;
      added, ids := Add(shaderBundle);
      forall s: Slot
        ensures AtAddress(s, shaders, memory, addresses)
      {
        assert Registers(before.Get(s), Codes().Get(s), shaders, |shaders|, s, ids.Get(s));
        CacheOf(s);
      }
      AddedIsFound(before, shaders, ids, memory, addresses);
      ghost var stagesTried;
      found, result, stagesTried := TryFind(memory, addresses);
    }

    /** One slot of AddedIsFound: the code at the slot's address resolves to the id it was registered with. */
    lemma SlotResolves(s: Slot, before: CodeLists, shaders: seq<Option<ShaderCodeHolder>>, ids: IdTable,
                       memory: nat -> seq<byte>, addresses: ShaderAddresses)
      requires Valid()
      requires Registers(before.Get(s), Codes().Get(s), shaders, |shaders|, s, ids.Get(s))
      requires AtAddress(s, shaders, memory, addresses)
      ensures CodeId(Cache(s).table.sizeTable, Cache(s).table.digest, memory, addresses.Get(s)) == Some(ids.Get(s))
    {
      CacheOf(s);
      Cache(s).LocatedResolves(LastCode(shaders, |shaders|, s), ids.Get(s), memory, addresses.Get(s));
    }

    /** Entry `s.Index()` of the six size lists, in slot order, is the size list of the cache of slot `s`. */
    lemma ViewSlot(view: seq<seq<SizeEntry<int>>>, s: Slot)
      requires view == [vertexACache.table.sizeTable, vertexBCache.table.sizeTable, tessControlCache.table.sizeTable,
                        tessEvaluationCache.table.sizeTable, geometryCache.table.sizeTable, fragmentCache.table.sizeTable]
      ensures view[s.Index()] == Cache(s).table.sizeTable
    {
      match s
      case VertexAId =>
      case VertexBId =>
      case TessControlId =>
      case TessEvaluationId =>
      case GeometryId =>
      case FragmentId =>
    }

    /** The cache of slot `s` is valid and holds the slot's codes. */
    lemma CacheOf(s: Slot)
      requires Valid()
      ensures Cache(s).Valid() && Cache(s).codes == Codes().Get(s)
    {
      match s
      case VertexAId =>
      case VertexBId =>
      case TessControlId =>
      case TessEvaluationId =>
      case GeometryId =>
      case FragmentId =>
    }
  }

  /**
   * The id TryGetId yields for the code at `address` from a cache whose size
   * list is `t`: 0 for address 0, otherwise what the blind search finds.
   */
  ghost function CodeId(t: seq<SizeEntry<int>>, digest: seq<byte> -> Digest, memory: nat -> seq<byte>, address: nat): Option<int>
  {
    if address == 0 then Some(0) else Find(t, digest, memory(address), 0, |t|)
  }

  /** The GPU addresses of the code of each stage; 0 for an absent stage. */
  datatype ShaderAddresses = ShaderAddresses(vertexA: nat, vertex: nat, tessControl: nat, tessEvaluation: nat, geometry: nat, fragment: nat)
  {
    function Get(s: Slot): nat
    {
      match s
      case VertexAId => vertexA
      case VertexBId => vertex
      case TessControlId => tessControl
      case TessEvaluationId => tessEvaluation
      case GeometryId => geometry
      case FragmentId => fragment
    }
  }

  /** The codes of a prefix of the holders grow by the contribution of the next holder. */
  lemma SlotCodesSnoc(shaders: seq<Option<ShaderCodeHolder>>, i: nat, s: Slot)
    requires i < |shaders|
    ensures SlotCodes(shaders, i + 1, s) ==
              SlotCodes(shaders, i, s) + (if Contribution(shaders[i], s).Some? then {Contribution(shaders[i], s).value} else {})
  {
  }
}
