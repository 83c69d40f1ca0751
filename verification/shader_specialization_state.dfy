/**
 * The specialization state of a cached shader: the pieces of GPU state
 * that the translator queried while it built the shader, recorded so that
 * a later draw or dispatch can tell whether the cached shader is still
 * valid for the state it runs with.
 */
module Specialization {
  import opened GraphicsTypes

  /** Bits of the QueriedStateFlags byte. */
  const EarlyZForceFlag: bv8 := 1
  const PrimitiveTopologyFlag: bv8 := 2
  const TessellationModeFlag: bv8 := 4

  /** The single bit of the QueriedTextureStateFlags byte. */
  const CoordNormalizedFlag: bv8 := 1

  /** Enum.HasFlag: every bit of `flag` is set in `flags`. */
  predicate HasFlag(flags: bv8, flag: bv8): (r: bool)
    ensures r <==> flags | flag == flags
  {
    flags & flag == flag
  }

  /**
   * Setting a flag with `|=` sets that flag, clears nothing, and leaves
   * every flag that shares no bit with it as it was.
   */
  lemma SetFlag(flags: bv8, flag: bv8, other: bv8)
    ensures HasFlag(flags | flag, flag)
    ensures HasFlag(flags, other) ==> HasFlag(flags | flag, other)
    ensures other & flag == 0 ==> (HasFlag(flags | flag, other) <==> HasFlag(flags, other))
  {
    SetFlagKeeps(flags, flag, other);
    SetFlagDisjoint(flags, flag, other);
  }

  /** `|=` clears no bit. */
  lemma SetFlagKeeps(flags: bv8, flag: bv8, other: bv8)
    ensures HasFlag(flags, other) ==> HasFlag(flags | flag, other)
  {
  }

  /** `|=` leaves a flag sharing no bit with the one set as it was. */
  lemma SetFlagDisjoint(flags: bv8, flag: bv8, other: bv8)
    ensures other & flag == 0 ==> (HasFlag(flags | flag, other) <==> HasFlag(flags, other))
  {
  }

  /** The three state flags occupy distinct bits. */
  lemma StateFlagsDisjoint()
    ensures EarlyZForceFlag & PrimitiveTopologyFlag == 0
    ensures EarlyZForceFlag & TessellationModeFlag == 0
    ensures PrimitiveTopologyFlag & TessellationModeFlag == 0
  {
  }

  /** Identifies a texture the shader sampled: its stage, handle and constant buffer slot. */
  datatype TextureKey = TextureKey(stageIndex: int, handle: int, cbufSlot: int)
  {
    /** Member-wise equality, as IEquatable<TextureKey>.Equals. */
    predicate Equals(other: TextureKey): (r: bool)
      ensures r <==> this == other
    {
      stageIndex == other.stageIndex && handle == other.handle && cbufSlot == other.cbufSlot
    }
  }

  /** Member-wise equality of keys is value equality, so it is a valid dictionary key equality. */
  lemma TextureKeyEqualsIsValueEquality(a: TextureKey, b: TextureKey)
    ensures a.Equals(b) <==> a == b
    ensures a.Equals(b) <==> b.Equals(a)
  {
  }

  /** What was queried about one texture, and the answer. */
  datatype TextureSpecializationState = TextureSpecializationState(queriedFlags: bv8, coordNormalized: bool)

  /** A freshly allocated texture state: nothing queried. */
  const NewTextureState := TextureSpecializationState(0, false)

  /** The texture map after recording `coordNormalized` for `key`. */
  function RecordCoordNormalized(m: map<TextureKey, TextureSpecializationState>, key: TextureKey, coordNormalized: bool)
    : (r: map<TextureKey, TextureSpecializationState>)
    ensures r.Keys == m.Keys + {key}
    ensures r[key].coordNormalized == coordNormalized
    ensures HasFlag(r[key].queriedFlags, CoordNormalizedFlag)
    ensures key in m ==> r[key].queriedFlags == m[key].queriedFlags | CoordNormalizedFlag
    ensures key !in m ==> r[key].queriedFlags == CoordNormalizedFlag
    ensures forall k :: k in m && k != key ==> r[k] == m[k]
  {
    var state := if key in m then m[key] else NewTextureState;
    m[key := state.(coordNormalized := coordNormalized, queriedFlags := state.queriedFlags | CoordNormalizedFlag)]
  }

  /** Recording the same texture twice keeps one entry holding the later answer. */
  lemma RecordTwice(m: map<TextureKey, TextureSpecializationState>, key: TextureKey, first: bool, second: bool)
    ensures RecordCoordNormalized(RecordCoordNormalized(m, key, first), key, second)
         == RecordCoordNormalized(m, key, second)
  {
    var once := RecordCoordNormalized(m, key, first);
    var twice := RecordCoordNormalized(once, key, second);
    var direct := RecordCoordNormalized(m, key, second);
    assert twice[key].queriedFlags == direct[key].queriedFlags by {
      var f := if key in m then m[key].queriedFlags else 0;
      assert (f | CoordNormalizedFlag) | CoordNormalizedFlag == f | CoordNormalizedFlag;
    }
    assert twice.Keys == direct.Keys;
  }

  /** Recording different textures does not depend on the order. */
  lemma RecordCommutes(m: map<TextureKey, TextureSpecializationState>, k1: TextureKey, v1: bool, k2: TextureKey, v2: bool)
    requires k1 != k2
    ensures RecordCoordNormalized(RecordCoordNormalized(m, k1, v1), k2, v2)
         == RecordCoordNormalized(RecordCoordNormalized(m, k2, v2), k1, v1)
  {
    var a := RecordCoordNormalized(RecordCoordNormalized(m, k1, v1), k2, v2);
    var b := RecordCoordNormalized(RecordCoordNormalized(m, k2, v2), k1, v1);
    assert a.Keys == b.Keys;
  }

  /**
   * The CoordNormalized bit of the texture descriptors the texture manager
   * returns for the current channel state: for compute by handle and
   * constant buffer slot, for graphics also by stage.
   */
  datatype DescriptorLookup = DescriptorLookup(compute: (int, int) -> bool, graphics: (int, int, int) -> bool)
  {
    /** The descriptor Matches consults for `key`. */
    function CoordNormalized(key: TextureKey, isCompute: bool): bool {
      if isCompute then compute(key.handle, key.cbufSlot) else graphics(key.stageIndex, key.handle, key.cbufSlot)
    }
  }

  /** A recorded answer that the current descriptor contradicts. */
  predicate Mismatch(state: TextureSpecializationState, current: bool) {
    HasFlag(state.queriedFlags, CoordNormalizedFlag) && state.coordNormalized != current
  }

  /** The recorded texture state agrees with the descriptors wherever it was queried. */
  predicate AllMatch(m: map<TextureKey, TextureSpecializationState>, lookup: DescriptorLookup, isCompute: bool) {
    forall k :: k in m ==> !Mismatch(m[k], lookup.CoordNormalized(k, isCompute))
  }

  /** A texture state recorded from the current descriptors matches them. */
  lemma RecordCurrentKeepsMatch(m: map<TextureKey, TextureSpecializationState>, lookup: DescriptorLookup, isCompute: bool, key: TextureKey)
    requires AllMatch(m, lookup, isCompute)
    ensures AllMatch(RecordCoordNormalized(m, key, lookup.CoordNormalized(key, isCompute)), lookup, isCompute)
  {
  }

  /** Recording an answer the descriptor contradicts makes the state stop matching. */
  lemma RecordStaleBreaksMatch(m: map<TextureKey, TextureSpecializationState>, lookup: DescriptorLookup, isCompute: bool, key: TextureKey)
    ensures !AllMatch(RecordCoordNormalized(m, key, !lookup.CoordNormalized(key, isCompute)), lookup, isCompute)
  {
    var r := RecordCoordNormalized(m, key, !lookup.CoordNormalized(key, isCompute));
    assert Mismatch(r[key], lookup.CoordNormalized(key, isCompute));
  }

  class ShaderSpecializationState {
    var queriedState: bv8
    var earlyZForce: bool
    var topology: PrimitiveTopology
    var tessellationMode: TessMode
    var textureSpecialization: map<TextureKey, TextureSpecializationState>

    /** Nothing is queried yet. */
    constructor ()
      ensures queriedState == 0
      ensures textureSpecialization == map[]
    {
      queriedState := 0;
      textureSpecialization := map[];
    }

    method RecordEarlyZForce(value: bool)
      modifies this
      ensures earlyZForce == value
      ensures queriedState == old(queriedState) | EarlyZForceFlag
      ensures HasFlag(queriedState, EarlyZForceFlag)
      ensures topology == old(topology) && tessellationMode == old(tessellationMode)
      ensures textureSpecialization == old(textureSpecialization)
    {
      earlyZForce := value;
      queriedState := queriedState | EarlyZForceFlag;
    }

    method RecordPrimitiveTopology(value: PrimitiveTopology)
      modifies this
      ensures topology == value
      ensures queriedState == old(queriedState) | PrimitiveTopologyFlag
      ensures HasFlag(queriedState, PrimitiveTopologyFlag)
      ensures earlyZForce == old(earlyZForce) && tessellationMode == old(tessellationMode)
      ensures textureSpecialization == old(textureSpecialization)
    {
      topology := value;
      queriedState := queriedState | PrimitiveTopologyFlag;
    }

    method RecordTessellationMode(value: TessMode)
      modifies this
      ensures tessellationMode == value
      ensures queriedState == old(queriedState) | TessellationModeFlag
      ensures HasFlag(queriedState, TessellationModeFlag)
      ensures earlyZForce == old(earlyZForce) && topology == old(topology)
      ensures textureSpecialization == old(textureSpecialization)
    {
      tessellationMode := value;
      queriedState := queriedState | TessellationModeFlag;
    }

    /** Looks up the state of the texture, adding a fresh one if it is new, and records the answer in it. */
    method RecordTextureCoordNormalized(stageIndex: int, handle: int, cbufSlot: int, coordNormalized: bool)
      modifies this
      ensures textureSpecialization
           == RecordCoordNormalized(old(textureSpecialization), TextureKey(stageIndex, handle, cbufSlot), coordNormalized)
      ensures queriedState == old(queriedState) && earlyZForce == old(earlyZForce)
      ensures topology == old(topology) && tessellationMode == old(tessellationMode)
    {
      var key := TextureKey(stageIndex, handle, cbufSlot);
      var state;
      if key in textureSpecialization {
        state := textureSpecialization[key];
      } else {
        state := NewTextureState;
        textureSpecialization := textureSpecialization[key := state];
      }
      state := state.(coordNormalized := coordNormalized);
      state := state.(queriedFlags := state.queriedFlags | CoordNormalizedFlag);
      textureSpecialization := textureSpecialization[key := state];
    }

    method MatchesGraphics(lookup: DescriptorLookup) returns (r: bool)
      ensures r <==> AllMatch(textureSpecialization, lookup, false)
    {
      r := Matches(lookup, false);
    }

    method MatchesCompute(lookup: DescriptorLookup) returns (r: bool)
      ensures r <==> AllMatch(textureSpecialization, lookup, true)
    {
      r := Matches(lookup, true);
    }

    /**
     * Visits the recorded textures and fails on the first one whose
     * recorded answer the current descriptor contradicts.
     */
    method Matches(lookup: DescriptorLookup, isCompute: bool) returns (r: bool)
      ensures r <==> AllMatch(textureSpecialization, lookup, isCompute)
      ensures !r <==> exists k :: k in textureSpecialization
                        && Mismatch(textureSpecialization[k], lookup.CoordNormalized(k, isCompute))
    {
      var m := textureSpecialization;
      var pending := m.Keys;
      while pending != {}
        invariant pending <= m.Keys
        invariant forall k :: k in m && k !in pending ==> !Mismatch(m[k], lookup.CoordNormalized(k, isCompute))
        decreases |pending|
      {
        var key :| key in pending;
        var state := m[key];
        var descriptor := if isCompute then lookup.compute(key.handle, key.cbufSlot)
                          else lookup.graphics(key.stageIndex, key.handle, key.cbufSlot);
        if HasFlag(state.queriedFlags, CoordNormalizedFlag) && state.coordNormalized != descriptor {
          assert Mismatch(m[key], lookup.CoordNormalized(key, isCompute));
          return false;
        }
        pending := pending - {key};
      }
      return true;
    }
  }
}
