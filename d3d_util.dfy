/** Helpers of the framework's utility header: constant-buffer size rounding, the COM
    release macro and the mesh, submesh and material descriptors. */
module D3dUtil {
  import opened Geometry

  /** One more than the largest 32-bit UINT. */
  const UintModulus: nat := 0x1_0000_0000

  /** A value of the Win32 32-bit unsigned type UINT. */
  type Uint = x: nat | x < UintModulus

  /** The largest size that rounds up without passing 2^32 - 1. */
  const MaxRoundable: nat := 0xFFFF_FF00

  /** `x & ~255` on a UINT: the literal ~255 is the mask 0xFFFFFF00, so the AND clears the
      low eight bits, which rounds x down to a multiple of 256. */
  function ClearLowByte(x: Uint): (r: Uint)
    ensures r % 256 == 0 && r <= x && x - r == x % 256
  {
    x / 256 * 256
  }

  /** d3dUtil::CalcConstantBufferByteSize: `(byteSize + 255) & ~255` in UINT arithmetic,
      where the addition wraps modulo 2^32. */
  function CalcConstantBufferByteSize(byteSize: Uint): (r: Uint)
    ensures r % 256 == 0
    ensures byteSize <= MaxRoundable ==> byteSize <= r < byteSize + 256
    ensures byteSize > MaxRoundable ==> r == 0
  {
    ClearLowByte((byteSize + 255) % UintModulus)
  }

  /** Below the wrap-around bound the result is the least multiple of 256 that is at least the input. */
  lemma RoundingIsLeast(byteSize: Uint, m: nat)
    requires byteSize <= MaxRoundable
    requires m % 256 == 0 && byteSize <= m
    ensures CalcConstantBufferByteSize(byteSize) <= m
  {
  }

  /** An input that is already a multiple of 256 comes back unchanged, so rounding twice is rounding once. */
  lemma RoundingIsIdempotent(byteSize: Uint)
    ensures byteSize % 256 == 0 ==> CalcConstantBufferByteSize(byteSize) == byteSize
    ensures CalcConstantBufferByteSize(CalcConstantBufferByteSize(byteSize)) == CalcConstantBufferByteSize(byteSize)
  {
  }

  /** The worked example of the doc comment: (300 + 255) & ~255 = 0x022B & 0xFF00 = 0x0200. */
  lemma RoundingExample()
    ensures CalcConstantBufferByteSize(300) == 512
    ensures CalcConstantBufferByteSize(256) == 256
    ensures CalcConstantBufferByteSize(0) == 0
    ensures CalcConstantBufferByteSize(0xFFFF_FFFF) == 0
  {
  }

  /** A COM interface pointer, null or naming one live object. */
  datatype ComPtr = Null | Ptr(id: nat)

  /** The ReleaseCom macro: a non-null pointer is released once and reset to 0; a null one is left alone.
      `released` is the object whose Release was called, if any. */
  method ReleaseCom(x: ComPtr) returns (y: ComPtr, released: ComPtr)
    ensures y == Null
    ensures released == x
  {
    y, released := x, Null;
    if y.Ptr? {
      released := y;
      y := Null;
    }
  }

  /** DXGI_FORMAT_R16_UINT, the default index format. */
  const DxgiFormatR16Uint: nat := 57

  /** SubmeshGeometry: where one part of a shared vertex/index buffer starts and how long it is. */
  datatype SubmeshGeometry = SubmeshGeometry(indexCount: Uint, startIndexLocation: Uint, baseVertexLocation: int)

  /** A default-initialised SubmeshGeometry: it draws nothing, from the start of both buffers. */
  function DefaultSubmesh(): (g: SubmeshGeometry)
    ensures g.indexCount == 0 && g.startIndexLocation == 0 && g.baseVertexLocation == 0
  {
    SubmeshGeometry(0, 0, 0)
  }

  /** MeshGeometry: CPU copies, GPU buffers, upload buffers and the draw arguments of one mesh. */
  class MeshGeometry {
    var name: string
    var vertexBufferCpu: ComPtr
    var indexBufferCpu: ComPtr
    var vertexBufferGpu: ComPtr
    var indexBufferGpu: ComPtr
    var vertexBufferUploader: ComPtr
    var indexBufferUploader: ComPtr
    var vertexByteStride: Uint
    var vertexBufferByteSize: Uint
    var indexFormat: nat
    var indexBufferByteSize: Uint
    var drawArgs: map<string, SubmeshGeometry>

    /** The default member initialisers: no buffers, zero sizes, 16-bit indices, no submeshes. */
    constructor ()
      ensures name == ""
      ensures vertexBufferCpu == Null && indexBufferCpu == Null
      ensures vertexBufferGpu == Null && indexBufferGpu == Null
      ensures vertexBufferUploader == Null && indexBufferUploader == Null
      ensures vertexByteStride == 0 && vertexBufferByteSize == 0 && indexBufferByteSize == 0
      ensures indexFormat == DxgiFormatR16Uint
      ensures drawArgs == map[]
    {
      name := "";
      vertexBufferCpu, indexBufferCpu := Null, Null;
      vertexBufferGpu, indexBufferGpu := Null, Null;
      vertexBufferUploader, indexBufferUploader := Null, Null;
      vertexByteStride, vertexBufferByteSize, indexBufferByteSize := 0, 0, 0;
      indexFormat := DxgiFormatR16Uint;
      drawArgs := map[];
    }

    /** Drops the references to the two upload buffers once the GPU copy is done.
        The frame admits only those two fields, so the GPU buffers, the CPU copies,
        the strides, the sizes and the draw arguments are untouched. */
    method DisposeUploaders()
      modifies this`vertexBufferUploader, this`indexBufferUploader
      ensures vertexBufferUploader == Null && indexBufferUploader == Null
    {
      vertexBufferUploader := Null;
      indexBufferUploader := Null;
    }
  }

  /** Material: the application-side copy of one material and its constant-buffer bookkeeping. */
  class Material {
    var name: string
    var matCbIndex: int
    var diffuseSrvHeapIndex: int
    var normalSrvHeapIndex: int
    var numFramesDirty: int
    var diffuseAlbedo: Vec4
    var fresnelR0: Vec3
    var roughness: real
    var matTransform: Mat4

    /** The default member initialisers. The count of frame resources is the
        application's global `gNumFrameResources`, defined outside this header. */
    constructor (numFrameResources: int)
      ensures name == ""
      ensures matCbIndex == -1 && diffuseSrvHeapIndex == -1 && normalSrvHeapIndex == -1
      ensures numFramesDirty == numFrameResources
      ensures diffuseAlbedo == Vec4(1.0, 1.0, 1.0, 1.0)
      ensures fresnelR0 == Vec3(0.01, 0.01, 0.01)
      ensures roughness == 0.25
      ensures matTransform == Identity4x4
    {
      name := "";
      matCbIndex, diffuseSrvHeapIndex, normalSrvHeapIndex := -1, -1, -1;
      numFramesDirty := numFrameResources;
      diffuseAlbedo := Vec4(1.0, 1.0, 1.0, 1.0);
      fresnelR0 := Vec3(0.01, 0.01, 0.01);
      roughness := 0.25;
      matTransform := Identity4x4;
    }
  }
}
