/**
 * Compile-time constants of the simulation and the byte layout of one
 * particle record (include/application.hpp).
 *
 * Particles are stored as an interleaved array of `particle_type` records:
 * position, velocity and force are two 4-byte floats each, density and
 * pressure are one 4-byte float each, and the struct has no padding.
 */
module Layout {

  /** SPH_PARTICLE_COUNT */
  const ParticleCount: nat := 20000

  /** SPH_WORK_GROUP_SIZE */
  const WorkGroupSize: nat := 128

  /** Size in bytes of one `float` (glm::vec2 is two of them). */
  const FloatSize: nat := 4

  /**
   * The work-group count expression of SPH_GROUP_COUNT, over the operands
   * the macro uses: (n + w - 1) / w. Both operands are positive in the
   * source, so C's truncating division agrees with Dafny's.
   */
  function GroupCount(n: nat, w: nat): (g: nat)
    requires w > 0
  {
    (n + w - 1) / w
  }

  /** SPH_GROUP_COUNT itself. */
  function SphGroupCount(): (g: nat)
    ensures g == 157
  {
    GroupCount(ParticleCount, WorkGroupSize)
  }

  /** The group count is the ceiling of n / w: enough groups, and no spare one. */
  lemma GroupCountIsCeiling(n: nat, w: nat)
    requires w > 0
    ensures GroupCount(n, w) * w >= n
    ensures n > 0 ==> (GroupCount(n, w) - 1) * w < n
    ensures n == 0 ==> GroupCount(n, w) == 0
  {
  }

  /** No smaller group count covers all n invocations. */
  lemma GroupCountIsLeast(n: nat, w: nat, g': nat)
    requires w > 0
    requires g' * w >= n
    ensures GroupCount(n, w) <= g'
  {
    GroupCountIsCeiling(n, w);
    if GroupCount(n, w) > g' {
      var g := GroupCount(n, w);
      assert (g - 1) * w >= g' * w by {
        MulMonotone(g', g - 1, w);
      }
    }
  }

  lemma MulMonotone(a: nat, b: nat, w: nat)
    requires a <= b
    ensures a * w <= b * w
  {
  }

  /** The fields of `particle_type`, in declaration order. */
  datatype Field = Position | Velocity | Force | Density | Pressure

  /** Declaration order of the struct's members. */
  const FieldOrder: seq<Field> := [Position, Velocity, Force, Density, Pressure]

  /** sizeof of one member: a glm::vec2 is two floats, density and pressure one. */
  function FieldSize(f: Field): (s: nat)
  {
    match f
    case Position => 2 * FloatSize
    case Velocity => 2 * FloatSize
    case Force => 2 * FloatSize
    case Density => FloatSize
    case Pressure => FloatSize
  }

  /** Sum of the sizes of a list of members laid out back to back. */
  function SizeOf(fs: seq<Field>): (s: nat)
  {
    if fs == [] then 0 else SizeOf(fs[..|fs| - 1]) + FieldSize(fs[|fs| - 1])
  }

  /** Position of a member in declaration order. */
  function Ordinal(f: Field): (k: nat)
    ensures k < |FieldOrder| && FieldOrder[k] == f
  {
    match f
    case Position => 0
    case Velocity => 1
    case Force => 2
    case Density => 3
    case Pressure => 4
  }

  /** offsetof: the members declared before f, packed without padding. */
  function Offset(f: Field): (o: nat)
  {
    SizeOf(FieldOrder[..Ordinal(f)])
  }

  /** sizeof(particle_t): all members packed without padding. */
  function RecordSize(): (s: nat)
  {
    SizeOf(FieldOrder)
  }

  /** The concrete offsets and the record size of the C++ struct. */
  lemma OffsetValues()
    ensures Offset(Position) == 0 && Offset(Velocity) == 8 && Offset(Force) == 16
    ensures Offset(Density) == 24 && Offset(Pressure) == 28
    ensures RecordSize() == 32
  {
    var o := FieldOrder;
    assert o[..1][..0] == o[..0] == [];
    assert o[..2][..1] == o[..1];
    assert o[..3][..2] == o[..2];
    assert o[..4][..3] == o[..3];
    assert o[..5][..4] == o[..4];
    assert o[..5] == o;
  }

  /** Each member lies inside the record, and distinct members do not overlap. */
  lemma FieldsDisjointAndInside(f: Field, g: Field)
    ensures Offset(f) + FieldSize(f) <= RecordSize()
    ensures f != g ==> Offset(f) + FieldSize(f) <= Offset(g) || Offset(g) + FieldSize(g) <= Offset(f)
  {
    OffsetValues();
  }

  /** A half-open byte range [lo, hi) of the particle buffer. */
  datatype ByteRange = ByteRange(lo: nat, hi: nat)

  predicate Disjoint(a: ByteRange, b: ByteRange)
  {
    a.hi <= b.lo || b.hi <= a.lo
  }

  /** The bytes of member f of particle i in the buffer (stride sizeof(particle_t)). */
  function FieldRange(i: nat, f: Field): (r: ByteRange)
  {
    ByteRange(RecordSize() * i + Offset(f), RecordSize() * i + Offset(f) + FieldSize(f))
  }

  /** The bytes of particle i's whole record. */
  function RecordRange(i: nat): (r: ByteRange)
  {
    ByteRange(RecordSize() * i, RecordSize() * (i + 1))
  }

  /** Size of the buffer given to glBufferStorage: sizeof(particle_t) * particle_count. */
  function BufferSize(): (s: nat)
  {
    RecordSize() * ParticleCount
  }

  /**
   * The range the vertex attribute reads for vertex i: 2 floats starting at
   * the null offset, with stride sizeof(particle_t).
   */
  function VertexAttribRange(i: nat): (r: ByteRange)
  {
    ByteRange(RecordSize() * i, RecordSize() * i + 2 * FloatSize)
  }

  /** The buffer holds 640000 bytes, 32 per particle. */
  lemma BufferSizeValue()
    ensures BufferSize() == 32 * ParticleCount == 640000
  {
    OffsetValues();
  }

  /** Member f of particle i lies inside i's record, and the record inside the buffer. */
  lemma FieldRangeInsideRecord(i: nat, f: Field)
    requires i < ParticleCount
    ensures RecordRange(i).lo <= FieldRange(i, f).lo
    ensures FieldRange(i, f).hi <= RecordRange(i).hi <= BufferSize()
  {
    OffsetValues();
    FieldsDisjointAndInside(f, f);
  }

  /** Records of distinct particles never overlap. */
  lemma RecordsDisjoint(i: nat, j: nat)
    requires i != j
    ensures Disjoint(RecordRange(i), RecordRange(j))
  {
  }

  /** No two distinct (particle, member) pairs share a byte. */
  lemma FieldRangesDisjoint(i: nat, f: Field, j: nat, g: Field)
    requires i != j || f != g
    ensures Disjoint(FieldRange(i, f), FieldRange(j, g))
  {
    OffsetValues();
    FieldsDisjointAndInside(f, g);
    FieldsDisjointAndInside(g, f);
  }

  /** The vertex attribute reads exactly particle i's position, bytes [32i, 32i+8). */
  lemma VertexAttribReadsPosition(i: nat)
    ensures VertexAttribRange(i) == FieldRange(i, Position)
    ensures VertexAttribRange(i) == ByteRange(32 * i, 32 * i + 8)
  {
    OffsetValues();
  }
}
