/**
 * The GPU state accessor the shader translator queries while it
 * translates one stage: binding slot numbers per stage, the input
 * topology of geometry shaders, the size of constant buffer 1 the shader
 * reads, and how much code memory to fetch.
 */
module Gpu {
  import opened GraphicsTypes

  const Int32Min: int := -0x8000_0000
  const Int32Max: int := 0x7fff_ffff
  const UInt64Modulus: int := 0x1_0000_0000_0000_0000

  predicate IsInt32(x: int) {
    Int32Min <= x <= Int32Max
  }

  /** Two's complement wrap-around of a 32-bit signed sum. */
  function Wrap32(x: int): (r: int)
    ensures IsInt32(r)
    ensures IsInt32(x) ==> r == x
    ensures (r - x) % 0x1_0000_0000 == 0
  {
    (x - Int32Min) % 0x1_0000_0000 + Int32Min
  }

  /** The larger of two integers, as Math.Max. */
  function Max(a: int, b: int): (r: int)
    ensures r >= a && r >= b
    ensures r == a || r == b
  {
    if a < b then b else a
  }

  /**
   * The binding block of a graphics stage index (0 = vertex, 1 =
   * tessellation control, 2 = tessellation evaluation, 3 = geometry,
   * 4 = fragment): vertex first, then fragment, geometry, tessellation
   * control and tessellation evaluation.
   */
  function GetStageIndex(stageIndex: int): (r: int)
    ensures 0 <= r < 5
  {
    match stageIndex
    case 0 => 0
    case 4 => 1
    case 3 => 2
    case 1 => 3
    case 2 => 4
    case _ => 0
  }

  /** The image binding block: as GetStageIndex, but fragment images come first. */
  function GetStageIndexForImage(stageIndex: int): (r: int)
    ensures 0 <= r < 5
  {
    match stageIndex
    case 0 => 1
    case 4 => 0
    case 3 => 2
    case 1 => 3
    case 2 => 4
    case _ => 0
  }

  /** Exchanges the first two binding blocks. */
  function SwapFirstTwo(block: int): int {
    if block == 0 then 1 else if block == 1 then 0 else block
  }

  /** GetStageIndex is a bijection of {0..4}. */
  lemma GetStageIndexIsBijection()
    ensures forall x, y :: 0 <= x < 5 && 0 <= y < 5 && GetStageIndex(x) == GetStageIndex(y) ==> x == y
    ensures (set x | 0 <= x < 5 :: GetStageIndex(x)) == {0, 1, 2, 3, 4}
  {
    assert GetStageIndex(0) == 0 && GetStageIndex(4) == 1 && GetStageIndex(3) == 2;
    assert GetStageIndex(1) == 3 && GetStageIndex(2) == 4;
  }

  /** GetStageIndexForImage is a bijection of {0..4}. */
  lemma GetStageIndexForImageIsBijection()
    ensures forall x, y :: 0 <= x < 5 && 0 <= y < 5 && GetStageIndexForImage(x) == GetStageIndexForImage(y) ==> x == y
    ensures (set x | 0 <= x < 5 :: GetStageIndexForImage(x)) == {0, 1, 2, 3, 4}
  {
    assert GetStageIndexForImage(4) == 0 && GetStageIndexForImage(0) == 1 && GetStageIndexForImage(3) == 2;
    assert GetStageIndexForImage(1) == 3 && GetStageIndexForImage(2) == 4;
  }

  /**
   * On the five graphics stages the image order is the general order with
   * the first two blocks exchanged; every other stage index falls back to
   * block 0 in both.
   */
  lemma ImageOrderSwapsVertexAndFragment(stageIndex: int)
    ensures 0 <= stageIndex < 5 ==> GetStageIndexForImage(stageIndex) == SwapFirstTwo(GetStageIndex(stageIndex))
    ensures !(0 <= stageIndex < 5) ==> GetStageIndex(stageIndex) == 0 && GetStageIndexForImage(stageIndex) == 0
  {
  }

  /**
   * The input topology a geometry shader sees for the primitive topology
   * of the draw; with tessellation the tessellator's output decides. The
   * ensures list, for each input topology, every draw topology (and for
   * patches, every patch type) that yields it.
   */
  function QueryPrimitiveTopology(topology: PrimitiveTopology, patchType: TessPatchType): (r: InputTopology)
    ensures r == InputLines
        <==> topology in {Lines, LineLoop, LineStrip} || (topology == Patches && patchType == Isolines)
    ensures r == InputTriangles
        <==> topology in {Triangles, TriangleStrip, TriangleFan} || (topology == Patches && patchType != Isolines)
    ensures r == InputLinesAdjacency
        <==> topology in {LinesAdjacency, LineStripAdjacency}
    ensures r == InputTrianglesAdjacency
        <==> topology in {TrianglesAdjacency, TriangleStripAdjacency}
    ensures r == InputPoints
        <==> topology in {Points, Quads, QuadStrip, Polygon}
  {
    match topology
    case Points => InputPoints
    case Lines | LineLoop | LineStrip => InputLines
    case LinesAdjacency | LineStripAdjacency => InputLinesAdjacency
    case Triangles | TriangleStrip | TriangleFan => InputTriangles
    case TrianglesAdjacency | TriangleStripAdjacency => InputTrianglesAdjacency
    case Patches => if patchType == Isolines then InputLines else InputTriangles
    case _ => InputPoints
  }

  /** The start of the 4 KiB page after the one holding `address`. */
  function NextPageStart(address: int): int {
    address - address % 0x1000 + 0x1000
  }

  /**
   * The number of bytes GetCode fetches: at least `minimumSize`, and
   * otherwise up to the end of the 4 KiB page holding `address`
   * (`address % 0x1000` is `address & 0xfff` for an unsigned address).
   */
  function GetCodeSize(address: int, minimumSize: int): (r: int)
    requires 0 <= address < UInt64Modulus
    ensures r >= minimumSize
    ensures address + r >= NextPageStart(address)
    ensures r == minimumSize || address + r == NextPageStart(address)
  {
    Max(minimumSize, 0x1000 - address % 0x1000)
  }

  class GpuAccessor {
    /** The graphics stage (0 = vertex … 4 = fragment); 0 for compute. */
    const stageIndex: int
    const compute: bool
    /** How many bytes of constant buffer 1 the shader reads, as far as seen so far. */
    var cb1DataSize: int

    constructor Graphics(stageIndex: int)
      ensures this.stageIndex == stageIndex && !compute && cb1DataSize == 0
    {
      this.stageIndex := stageIndex;
      compute := false;
      cb1DataSize := 0;
    }

    constructor Compute()
      ensures stageIndex == 0 && compute && cb1DataSize == 0
    {
      stageIndex := 0;
      compute := true;
      cb1DataSize := 0;
    }

    /**
     * Grows the recorded constant buffer 1 size to cover the four bytes
     * at `offset`, and returns the address read: the buffer's base
     * address, which the buffer manager provides, plus the offset cast to
     * an unsigned 64-bit value.
     */
    method ConstantBuffer1Read(offset: int, baseAddress: int) returns (readAddress: int)
      requires IsInt32(offset) && IsInt32(cb1DataSize)
      requires 0 <= baseAddress < UInt64Modulus
      modifies this
      ensures cb1DataSize == Max(old(cb1DataSize), Wrap32(offset + 4))
      ensures cb1DataSize >= old(cb1DataSize) && IsInt32(cb1DataSize)
      ensures offset <= Int32Max - 4 ==> cb1DataSize >= offset + 4
      ensures 0 <= readAddress < UInt64Modulus
      ensures (readAddress - baseAddress - offset) % UInt64Modulus == 0
    {
      var end := Wrap32(offset + 4);
      if cb1DataSize < end {
        cb1DataSize := end;
      }
      readAddress := (baseAddress + offset % UInt64Modulus) % UInt64Modulus;
    }

    function QueryBindingConstantBuffer(index: int): (r: int)
      ensures 0 <= index < 18 ==> 1 + GetStageIndex(stageIndex) * 18 <= r < 1 + GetStageIndex(stageIndex) * 18 + 18
    {
      1 + GetStageIndex(stageIndex) * 18 + index
    }

    function QueryBindingStorageBuffer(index: int): (r: int)
      ensures 0 <= index < 16 ==> GetStageIndex(stageIndex) * 16 <= r < GetStageIndex(stageIndex) * 16 + 16
    {
      GetStageIndex(stageIndex) * 16 + index
    }

    function QueryBindingTexture(index: int): (r: int)
      ensures 0 <= index < 32 ==> GetStageIndex(stageIndex) * 32 <= r < GetStageIndex(stageIndex) * 32 + 32
    {
      GetStageIndex(stageIndex) * 32 + index
    }

    function QueryBindingImage(index: int): (r: int)
      ensures 0 <= index < 8 ==> GetStageIndexForImage(stageIndex) * 8 <= r < GetStageIndexForImage(stageIndex) * 8 + 8
    {
      GetStageIndexForImage(stageIndex) * 8 + index
    }
  }

  /**
   * Bindings below the stride never collide across stages: equal binding
   * numbers mean the same binding block and the same index, and for the
   * five graphics stages the same stage.
   */
  lemma BindingsDoNotCollide(a: GpuAccessor, b: GpuAccessor, i: int, j: int)
    ensures 0 <= i < 18 && 0 <= j < 18 && a.QueryBindingConstantBuffer(i) == b.QueryBindingConstantBuffer(j)
        ==> GetStageIndex(a.stageIndex) == GetStageIndex(b.stageIndex) && i == j
    ensures 0 <= i < 16 && 0 <= j < 16 && a.QueryBindingStorageBuffer(i) == b.QueryBindingStorageBuffer(j)
        ==> GetStageIndex(a.stageIndex) == GetStageIndex(b.stageIndex) && i == j
    ensures 0 <= i < 32 && 0 <= j < 32 && a.QueryBindingTexture(i) == b.QueryBindingTexture(j)
        ==> GetStageIndex(a.stageIndex) == GetStageIndex(b.stageIndex) && i == j
    ensures 0 <= i < 8 && 0 <= j < 8 && a.QueryBindingImage(i) == b.QueryBindingImage(j)
        ==> GetStageIndexForImage(a.stageIndex) == GetStageIndexForImage(b.stageIndex) && i == j
  {
  }

  /** Distinct graphics stages (0..4) never share a binding below the stride. */
  lemma DistinctStagesDoNotCollide(a: GpuAccessor, b: GpuAccessor, i: int, j: int)
    requires 0 <= a.stageIndex < 5 && 0 <= b.stageIndex < 5 && a.stageIndex != b.stageIndex
    ensures 0 <= i < 18 && 0 <= j < 18 ==> a.QueryBindingConstantBuffer(i) != b.QueryBindingConstantBuffer(j)
    ensures 0 <= i < 16 && 0 <= j < 16 ==> a.QueryBindingStorageBuffer(i) != b.QueryBindingStorageBuffer(j)
    ensures 0 <= i < 32 && 0 <= j < 32 ==> a.QueryBindingTexture(i) != b.QueryBindingTexture(j)
    ensures 0 <= i < 8 && 0 <= j < 8 ==> a.QueryBindingImage(i) != b.QueryBindingImage(j)
  {
    BindingsDoNotCollide(a, b, i, j);
    GetStageIndexIsBijection();
    GetStageIndexForImageIsBijection();
  }
}
