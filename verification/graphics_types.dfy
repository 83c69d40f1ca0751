/**
 * Enumerations of the graphics abstraction layer and of the shader
 * translator that the GPU accessor and the specialization state read or
 * store.
 */
module GraphicsTypes {
  /** The primitive topology of a draw. */
  datatype PrimitiveTopology =
    | Points | Lines | LineLoop | LineStrip
    | Triangles | TriangleStrip | TriangleFan
    | Quads | QuadStrip | Polygon
    | LinesAdjacency | LineStripAdjacency | TrianglesAdjacency | TriangleStripAdjacency
    | Patches

  /** The input topology of a geometry shader. */
  datatype InputTopology = InputPoints | InputLines | InputLinesAdjacency | InputTriangles | InputTrianglesAdjacency

  /** The abstract patch type of a tessellation evaluation shader. */
  datatype TessPatchType = Isolines | PatchTriangles | PatchQuads

  /** The spacing between tessellated vertices. */
  datatype TessSpacing = EqualSpacing | FractionalEvenSpacing | FractionalOddSpacing

  /**
   * The tessellation mode register, as the three values it unpacks to
   * (UnpackPatchType, UnpackSpacing and UnpackCw).
   */
  datatype TessMode = TessMode(patchType: TessPatchType, spacing: TessSpacing, cw: bool)
}
