// The memory layout of the `#[repr(C)]` structs whose sizes and field
// offsets the renderer hands to Vulkan (vertex strides, attribute offsets,
// push-constant and uniform sizes). A field is placed at the next multiple
// of its alignment after the previous field; the struct's size is its end
// rounded up to the largest field alignment. Sizes and alignments are
// glam's on x86-64, where `Vec4` and `Mat4` are 16-byte aligned.

module Layout {
  import VkUtils

  datatype FieldType = F32 | Vec2 | Vec3 | Vec4 | Mat4 | U64

  function SizeOf(t: FieldType): nat
  {
    match t
    case F32 => 4
    case Vec2 => 8
    case Vec3 => 12
    case Vec4 => 16
    case Mat4 => 64
    case U64 => 8
  }

  function AlignOf(t: FieldType): (r: nat)
    ensures r > 0
  {
    match t
    case F32 => 4
    case Vec2 => 4
    case Vec3 => 4
    case Vec4 => 16
    case Mat4 => 16
    case U64 => 8
  }

  /** The least multiple of `a` that is at least `x`. */
  function AlignUp(x: nat, a: nat): (r: nat)
    requires a > 0
    ensures x <= r < x + a
    ensures r % a == 0
  {
    if x % a == 0 then x
    else
      var q := x / a;
      assert (q + 1) * a == q * a + a;
      VkUtils.ModUnique(x + (a - x % a), a, q + 1, 0);
      x + (a - x % a)
  }

  /** The offset of field `i`: the end of field `i - 1`, aligned for field `i`. */
  function OffsetOf(fields: seq<FieldType>, i: nat): nat
    requires i < |fields|
    decreases i, 1
  {
    AlignUp(EndOf(fields, i), AlignOf(fields[i]))
  }

  /** Where the first `n` fields end. */
  function EndOf(fields: seq<FieldType>, n: nat): nat
    requires n <= |fields|
    decreases n, 0
  {
    if n == 0 then 0 else OffsetOf(fields, n - 1) + SizeOf(fields[n - 1])
  }

  /** The largest field alignment (1 for an empty struct). */
  function StructAlign(fields: seq<FieldType>): (r: nat)
    ensures r > 0
    ensures forall i :: 0 <= i < |fields| ==> AlignOf(fields[i]) <= r
  {
    if fields == [] then 1
    else
      var rest := StructAlign(fields[1..]);
      assert forall i :: 1 <= i < |fields| ==> fields[i] == fields[1..][i - 1];
      if AlignOf(fields[0]) > rest then AlignOf(fields[0]) else rest
  }

  /** `std::mem::size_of` of a `#[repr(C)]` struct with these fields. */
  function StructSize(fields: seq<FieldType>): nat
  {
    AlignUp(EndOf(fields, |fields|), StructAlign(fields))
  }

  lemma {:induction false} EndsGrow(fields: seq<FieldType>, m: nat, n: nat)
    requires m <= n <= |fields|
    ensures EndOf(fields, m) <= EndOf(fields, n)
    decreases n - m
  {
    if m < n {
      EndsGrow(fields, m, n - 1);
    }
  }

  /** Every field lies inside the struct, and a field ends before any later one starts. */
  lemma FieldsDisjointAndInside(fields: seq<FieldType>, i: nat, j: nat)
    requires i < j < |fields|
    ensures OffsetOf(fields, i) + SizeOf(fields[i]) <= OffsetOf(fields, j)
    ensures OffsetOf(fields, j) + SizeOf(fields[j]) <= StructSize(fields)
  {
    EndsGrow(fields, i + 1, j);
    EndsGrow(fields, j + 1, |fields|);
    assert EndOf(fields, i + 1) == OffsetOf(fields, i) + SizeOf(fields[i]);
    assert EndOf(fields, j + 1) == OffsetOf(fields, j) + SizeOf(fields[j]);
    assert EndOf(fields, j) <= OffsetOf(fields, j);
    assert EndOf(fields, |fields|) <= StructSize(fields);
  }

  /** The single-field form: field `i` lies within `[0, StructSize)`. */
  lemma FieldInside(fields: seq<FieldType>, i: nat)
    requires i < |fields|
    ensures OffsetOf(fields, i) + SizeOf(fields[i]) <= StructSize(fields)
  {
    EndsGrow(fields, i + 1, |fields|);
  }
}
