/** UploadBuffer<T>: an upload-heap buffer holding `elementCount` elements of type T,
    mapped once into CPU memory and written element by element.

    T is not modelled as a type: an element is its object representation, the
    `sizeof(T)` bytes that CopyData hands to memcpy. */
module UploadBuffers {
  import opened D3dUtil

  type Byte = bv8

  /** The per-element stride: sizeof(T), or that size rounded up to a multiple of 256
      for a constant buffer, whose views must start on 256-byte boundaries. */
  function ElementByteSize(typeSize: Uint, isConstantBuffer: bool): (stride: Uint)
    ensures isConstantBuffer ==> stride % 256 == 0
    ensures !isConstantBuffer ==> stride == typeSize
    ensures typeSize <= MaxRoundable ==> typeSize <= stride
    ensures typeSize <= MaxRoundable && isConstantBuffer ==> stride < typeSize + 256
  {
    if isConstantBuffer then CalcConstantBufferByteSize(typeSize) else typeSize
  }

  /** A product in UINT arithmetic, as the source computes both the buffer width
      `mElementByteSize*elementCount` (passed to CD3DX12_RESOURCE_DESC::Buffer before it is
      widened to UINT64) and the element offset `elementIndex*mElementByteSize` of CopyData:
      the exact product modulo 2^32. */
  function UintMul(a: Uint, b: Uint): (p: Uint)
    ensures (a * b - p) % UintModulus == 0
    ensures a * b < UintModulus ==> p == a * b
  {
    (a * b) % UintModulus
  }

  /** With 256-byte constant-buffer elements and 2^24 + 1 of them, the product wraps: the
      buffer allocated has width 256, one element. CopyData(1, ·) then writes bytes 256 to
      511, past its end, and CopyData(2^24, ·) writes at offset 0, over element 0. */
  lemma WidthWrapsForLargeBuffers()
    ensures UintMul(256, 0x100_0001) == 256
    ensures UintMul(1, 256) + 256 > UintMul(256, 0x100_0001)
    ensures UintMul(0x100_0000, 256) == UintMul(0, 256)
  {
  }

  /** The width the buffer needs: the exact product, as a UINT64 computation would give it. */
  function BufferWidth(stride: Uint, elementCount: Uint): (width: nat)
    ensures elementCount > 0 ==> stride <= width
    ensures stride * elementCount < UintModulus ==> width == UintMul(stride, elementCount)
  {
    stride * elementCount
  }

  /** Every element's window lies inside the buffer, so each CopyData with an index below
      the element count stays in bounds. */
  lemma {:induction false} ElementInBounds(stride: Uint, elementCount: Uint, index: nat, typeSize: nat)
    requires typeSize <= stride
    requires index < elementCount
    ensures index * stride + typeSize <= BufferWidth(stride, elementCount)
  {
    calc {
      index * stride + typeSize;
    <=
      index * stride + stride;
    ==
      (index + 1) * stride;
    <= { MulMonotone(index + 1, elementCount, stride); }
      elementCount * stride;
    }
  }

  lemma {:induction false} MulMonotone(a: nat, b: nat, c: nat)
    requires a <= b
    ensures a * c <= b * c
  {
    if a < b {
      MulMonotone(a, b - 1, c);
      assert (b - 1) * c + c == b * c;
    }
  }

  /** `buf` with the bytes from `offset` on replaced by `data`: the effect of memcpy. */
  function Splice(buf: seq<Byte>, offset: nat, data: seq<Byte>): (r: seq<Byte>)
    requires offset + |data| <= |buf|
    ensures |r| == |buf|
    ensures forall k :: 0 <= k < |data| ==> r[offset + k] == data[k]
    ensures forall k :: 0 <= k < |buf| && (k < offset || offset + |data| <= k) ==> r[k] == buf[k]
  {
    buf[..offset] + data + buf[offset + |data|..]
  }

  /** The `typeSize` bytes of element `index`. */
  function Element(buf: seq<Byte>, stride: nat, typeSize: nat, index: nat): (e: seq<Byte>)
    requires index * stride + typeSize <= |buf|
    ensures |e| == typeSize
  {
    buf[index * stride .. index * stride + typeSize]
  }

  /** Since the stride is at least sizeof(T), the windows of two distinct elements do not
      overlap: writing element j leaves element i as it was. */
  lemma {:induction false} CopyPreservesOtherElements(buf: seq<Byte>, stride: nat, typeSize: nat, i: nat, j: nat, data: seq<Byte>)
    requires typeSize <= stride && |data| == typeSize
    requires i * stride + typeSize <= |buf| && j * stride + typeSize <= |buf|
    requires i != j
    ensures Element(Splice(buf, j * stride, data), stride, typeSize, i) == Element(buf, stride, typeSize, i)
  {
    if i < j {
      MulMonotone(i + 1, j, stride);
      assert i * stride + typeSize <= j * stride;
    } else {
      MulMonotone(j + 1, i, stride);
      assert j * stride + typeSize <= i * stride;
    }
  }

  /** After copying `data` into element i, reading element i gives `data` back. */
  lemma CopyThenRead(buf: seq<Byte>, stride: nat, typeSize: nat, i: nat, data: seq<Byte>)
    requires |data| == typeSize && i * stride + typeSize <= |buf|
    ensures Element(Splice(buf, i * stride, data), stride, typeSize, i) == data
  {
  }

  /** memcpy into an array: the bytes of `data` are copied one by one to `a[offset..]`. */
  method Memcpy(a: array<Byte>, offset: nat, data: seq<Byte>)
    requires offset + |data| <= a.Length
    modifies a
    ensures a[..] == Splice(old(a[..]), offset, data)
  {
    ghost var before := a[..];
    var k := 0;
    while k < |data|
      invariant 0 <= k <= |data|
      invariant forall n :: 0 <= n < k ==> a[offset + n] == data[n]
      invariant forall n :: 0 <= n < a.Length && (n < offset || offset + k <= n) ==> a[n] == before[n]
    {
      a[offset + k] := data[k];
      k := k + 1;
    }
    assert a[..] == Splice(before, offset, data);
  }

  /** The buffer object. It computes the width and each element's offset exactly, as a
      64-bit computation would, rather than in the wrapping UINT arithmetic of the source
      (UintMul): the two agree whenever stride times
      count is below 2^32. */
  class UploadBuffer {
    /** sizeof(T). */
    const typeSize: Uint
    const elementCount: Uint
    const isConstantBuffer: bool
    /** mElementByteSize, fixed by the constructor. */
    const elementByteSize: Uint
    /** mUploadBuffer, the committed resource. */
    var uploadBuffer: ComPtr
    /** mMappedData: the CPU view of the resource, null once the buffer is destroyed. */
    var mappedData: array?<Byte>

    ghost predicate Valid()
      reads this
    {
      && typeSize <= elementByteSize
      && (mappedData != null ==> mappedData.Length == BufferWidth(elementByteSize, elementCount))
    }

    /** Creates and maps the resource. CreateCommittedResource and Map are device calls:
        `resource` stands for the interface they return, and the mapped bytes start
        with whatever the upload heap holds. */
    constructor (resource: nat, elementCount: Uint, isConstantBuffer: bool, typeSize: Uint)
      requires typeSize <= MaxRoundable
      ensures Valid()
      ensures this.typeSize == typeSize && this.elementCount == elementCount
      ensures this.isConstantBuffer == isConstantBuffer
      ensures elementByteSize == ElementByteSize(typeSize, isConstantBuffer)
      ensures uploadBuffer == Ptr(resource)
      ensures mappedData != null && fresh(mappedData)
      ensures mappedData.Length == elementByteSize * elementCount
    {
      this.typeSize := typeSize;
      this.elementCount := elementCount;
      this.isConstantBuffer := isConstantBuffer;
      var size := typeSize;
      if isConstantBuffer {
        size := CalcConstantBufferByteSize(typeSize);
      }
      elementByteSize := size;
      uploadBuffer := Ptr(resource);
      mappedData := new Byte[BufferWidth(size, elementCount)];
    }

    /** The resource, as Resource() returns it. */
    function Resource(): ComPtr
      reads this
    {
      uploadBuffer
    }

    /** memcpy(&mMappedData[elementIndex*mElementByteSize], &data, sizeof(T)):
        element `elementIndex` becomes `data` and every other byte keeps its value.
        The source does no bounds check; the index must be below the element count. */
    method CopyData(elementIndex: int, data: seq<Byte>)
      requires Valid() && mappedData != null
      requires 0 <= elementIndex < elementCount
      requires |data| == typeSize
      modifies mappedData
      ensures elementIndex * elementByteSize + typeSize <= mappedData.Length
      ensures mappedData[..] == Splice(old(mappedData[..]), elementIndex * elementByteSize, data)
      ensures Element(mappedData[..], elementByteSize, typeSize, elementIndex) == data
    {
      ElementInBounds(elementByteSize, elementCount, elementIndex, typeSize);
      ghost var before := mappedData[..];
      Memcpy(mappedData, elementIndex * elementByteSize, data);
      CopyThenRead(before, elementByteSize, typeSize, elementIndex, data);
    }

    /** The destructor: unmaps the resource if there is one and nulls the mapped pointer.
        `unmapped` tells whether Unmap was called. */
    method Destroy() returns (unmapped: bool)
      modifies this`mappedData
      ensures mappedData == null
      ensures unmapped == (uploadBuffer != Null)
    {
      unmapped := uploadBuffer != Null;
      mappedData := null;
    }
  }
}
