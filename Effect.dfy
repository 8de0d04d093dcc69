/**
  The part of a compiled shader effect that uniform binding depends on:
  the data-type tag and element count of every uniform input, looked up by
  exact name, and the memory layout of a flattened value buffer (element
  after element, each element a fixed number of components).
 */
module Effect {

  /** A float value is carried as its 32-bit IEEE pattern; it is only copied, never computed on. */
  type F32 = bv32

  /** A 32-bit signed integer value, as `int32_t`. */
  newtype I32 = x: int | -0x8000_0000 <= x < 0x8000_0000

  /** The data-type tags a uniform input can carry. */
  datatype DataType =
    | Float | Vector2F | Vector3F | Vector4F | Matrix22F | Matrix33F | Matrix44F
    | Int32 | Vector2I | Vector3I | Vector4I
    | TextureSampler

  /** What the effect declares about one uniform input. */
  datatype Descriptor = Descriptor(dataType: DataType, elementCount: nat)

  /** An effect's uniform inputs, by name; a name absent from the map is not a uniform. */
  type Uniforms = map<string, Descriptor>

  /** The seven tags served by the float setter. */
  predicate IsFloatType(t: DataType) {
    t in {Float, Vector2F, Vector3F, Vector4F, Matrix22F, Matrix33F, Matrix44F}
  }

  /** The four tags served by the integer setter. */
  predicate IsIntType(t: DataType) {
    t in {Int32, Vector2I, Vector3I, Vector4I}
  }

  predicate IsMatrix(t: DataType) {
    t in {Matrix22F, Matrix33F, Matrix44F}
  }

  /** The side length of a vector or square matrix tag; 1 for a scalar. */
  function Dimension(t: DataType): (d: nat)
    requires t != TextureSampler
    ensures 1 <= d <= 4
  {
    match t
    case Float | Int32 => 1
    case Vector2F | Vector2I | Matrix22F => 2
    case Vector3F | Vector3I | Matrix33F => 3
    case Vector4F | Vector4I | Matrix44F => 4
  }

  /**
    The number of buffer values one element of a numeric uniform takes:
    1 for a scalar, d for a d-vector and d*d for a d-by-d matrix.
   */
  function Components(t: DataType): (m: nat)
    requires t != TextureSampler
    ensures m == if IsMatrix(t) then Dimension(t) * Dimension(t) else Dimension(t)
    ensures 1 <= m <= 16
  {
    match t
    case Float | Int32 => 1
    case Vector2F | Vector2I => 2
    case Vector3F | Vector3I => 3
    case Vector4F | Vector4I | Matrix22F => 4
    case Matrix33F => 9
    case Matrix44F => 16
  }

  /** The exact length a flattened buffer for `d` must have. */
  function ExpectedLength(d: Descriptor): nat
    requires d.dataType != TextureSampler
  {
    d.elementCount * Components(d.dataType)
  }

  /** n elements of m values are the first element followed by n - 1 more. */
  lemma PeelElement(n: nat, m: nat)
    requires n > 0
    ensures n * m == m + (n - 1) * m
  {
  }

  /**
    Splits a flattened buffer of `n` elements of `m` values each into its
    elements, in buffer order.
   */
  function Chunks<T>(s: seq<T>, n: nat, m: nat): (r: seq<seq<T>>)
    requires |s| == n * m
    ensures |r| == n
    ensures forall i :: 0 <= i < n ==> |r[i]| == m
    decreases n
  {
    if n == 0 then []
    else
      PeelElement(n, m);
      [s[..m]] + Chunks(s[m..], n - 1, m)
  }

  /** Lays a sequence of elements end to end. */
  function Flatten<T>(ss: seq<seq<T>>): seq<T> {
    if ss == [] then [] else ss[0] + Flatten(ss[1..])
  }

  /** Splitting a buffer into elements and laying them out again gives back the buffer. */
  lemma {:induction false} FlattenChunks<T>(s: seq<T>, n: nat, m: nat)
    requires |s| == n * m
    ensures Flatten(Chunks(s, n, m)) == s
    decreases n
  {
    if n > 0 {
      PeelElement(n, m);
      FlattenChunks(s[m..], n - 1, m);
      assert Chunks(s, n, m)[1..] == Chunks(s[m..], n - 1, m);
      assert s == s[..m] + s[m..];
    }
  }

  /** Elements of equal length `m` are recovered from their concatenation. */
  lemma {:induction false} ChunksFlatten<T>(ss: seq<seq<T>>, m: nat)
    requires forall i :: 0 <= i < |ss| ==> |ss[i]| == m
    ensures |Flatten(ss)| == |ss| * m
    ensures Chunks(Flatten(ss), |ss|, m) == ss
    decreases |ss|
  {
    if ss != [] {
      ChunksFlatten(ss[1..], m);
      PeelElement(|ss|, m);
      var f := Flatten(ss);
      assert f == ss[0] + Flatten(ss[1..]);
      assert f[..m] == ss[0];
      assert f[m..] == Flatten(ss[1..]);
      assert ss == [ss[0]] + ss[1..];
    }
  }
}
