/**
 * The initial particle image built in initialize_opengl
 * (source/application.cpp:218-231): a zeroed array of particle records whose
 * positions are then filled column by column on a 125 x 160 grid.
 *
 * Coordinates are exact integers in units of SPH_PARTICLE_RADIUS (0.005):
 * the grid origin (-0.625, 1) is (-125, 200) and the grid spacing
 * 2 * radius is 2, so column x, row y sits at (-125 + 2x, 200 - 2y).
 */
module Scene {
  import opened Layout

  /** A glm::vec2, in units of the particle radius. */
  datatype Vec2 = Vec2(x: int, y: int)

  /** One particle_type record. */
  datatype Particle = Particle(position: Vec2, velocity: Vec2, force: Vec2, density: int, pressure: int)

  /** The all-zero record that memset leaves behind. */
  const ZeroVec: Vec2 := Vec2(0, 0)
  const ZeroParticle: Particle := Particle(ZeroVec, ZeroVec, ZeroVec, 0, 0)

  /** Grid extent of scene 0: 125 columns (outer loop), 160 rows (inner loop). */
  const Columns: nat := 125
  const Rows: nat := 160

  /** -0.625 and 1, and the spacing particle_length * 2, in radius units. */
  const OriginX: int := -125
  const OriginY: int := 200
  const Spacing: int := 2

  /** The slot the running index has reached when the loops are at column x, row y. */
  function Slot(x: nat, y: nat): (i: nat)
  {
    Rows * x + y
  }

  /** Column of slot i (outer loop variable x). */
  function ColumnOf(i: nat): (x: nat)
  {
    i / Rows
  }

  /** Row of slot i (inner loop variable y). */
  function RowOf(i: nat): (y: nat)
    ensures y < Rows
  {
    i % Rows
  }

  /** The position written for column x, row y. */
  function GridPosition(x: nat, y: nat): (p: Vec2)
  {
    Vec2(OriginX + Spacing * x, OriginY - Spacing * y)
  }

  /** The record slot i holds once initialization is done. */
  function InitialParticle(i: nat): (p: Particle)
  {
    ZeroParticle.(position := GridPosition(ColumnOf(i), RowOf(i)))
  }

  /** The grid exactly fills the particle population. */
  lemma GridFillsPopulation()
    ensures Columns * Rows == ParticleCount
  {
  }

  /** (x, y) -> 160x + y maps the grid into [0, 20000), and column/row invert it. */
  lemma SlotInverse(x: nat, y: nat)
    requires x < Columns && y < Rows
    ensures Slot(x, y) < ParticleCount
    ensures ColumnOf(Slot(x, y)) == x && RowOf(Slot(x, y)) == y
  {
  }

  /** Every slot in [0, 20000) is reached by exactly one grid point. */
  lemma SlotSurjective(i: nat)
    requires i < ParticleCount
    ensures ColumnOf(i) < Columns && RowOf(i) < Rows
    ensures Slot(ColumnOf(i), RowOf(i)) == i
  {
  }

  /** Two grid points that reach the same slot are the same point. */
  lemma SlotInjective(x: nat, y: nat, x': nat, y': nat)
    requires x < Columns && y < Rows && x' < Columns && y' < Rows
    requires Slot(x, y) == Slot(x', y')
    ensures x == x' && y == y'
  {
  }

  /** Slot 0 is at (-0.625, 1); slot 159 ends column 0; slot 160 starts column 1 at row 0. */
  lemma GridCorners()
    ensures InitialParticle(0).position == Vec2(-125, 200)
    ensures ColumnOf(159) == 0 && RowOf(159) == 159
    ensures InitialParticle(159).position == Vec2(-125, 200 - 2 * 159)
    ensures ColumnOf(160) == 1 && RowOf(160) == 0
    ensures InitialParticle(160).position == Vec2(-123, 200)
    ensures InitialParticle(19999).position == Vec2(-125 + 2 * 124, 200 - 2 * 159)
  {
  }

  /** Everything but the position of an initial record is zero. */
  lemma InitialOtherFieldsZero(i: nat)
    ensures InitialParticle(i).velocity == ZeroVec && InitialParticle(i).force == ZeroVec
    ensures InitialParticle(i).density == 0 && InitialParticle(i).pressure == 0
  {
  }

  /** The count of k in a sequence. */
  function Occurrences(s: seq<nat>, k: nat): (c: nat)
    ensures c <= |s|
  {
    if s == [] then 0 else Occurrences(s[..|s| - 1], k) + (if s[|s| - 1] == k then 1 else 0)
  }

  /** The indices 0, 1, ..., n-1. */
  function Upto(n: nat): (s: seq<nat>)
    ensures |s| == n
    ensures forall k :: 0 <= k < n ==> s[k] == k
  {
    if n == 0 then [] else Upto(n - 1) + [n - 1]
  }

  /** Each index below n occurs once in Upto(n), and no other index occurs. */
  lemma {:induction false} UptoOnce(n: nat, k: nat)
    ensures Occurrences(Upto(n), k) == if k < n then 1 else 0
  {
    if n > 0 {
      assert Upto(n)[..n - 1] == Upto(n - 1);
      UptoOnce(n - 1, k);
    }
  }

  /**
   * The fill: allocate and zero the records (new + memset), then run the
   * nested loops with the running index, writing position.x and position.y of
   * slot `index` and nothing else. `writes` logs the slot of every write; the
   * array accesses are checked in bounds, and each slot is written once.
   */
  method InitialParticleData() returns (data: array<Particle>, ghost writes: seq<nat>)
    ensures data.Length == ParticleCount
    ensures forall i :: 0 <= i < ParticleCount ==> data[i] == InitialParticle(i)
    ensures writes == Upto(ParticleCount)
    ensures forall i :: 0 <= i < ParticleCount ==> Occurrences(writes, i) == 1
  {
    data := new Particle[ParticleCount](_ => ZeroParticle);
    writes := [];
    var index: nat := 0;
    var x: nat := 0;
    while x < Columns
      invariant x <= Columns
      invariant index == Rows * x
      invariant forall i :: 0 <= i < index ==> data[i] == InitialParticle(i)
      invariant forall i :: index <= i < ParticleCount ==> data[i] == ZeroParticle
      invariant writes == Upto(index)
    {
      var y: nat := 0;
      while y < Rows
        invariant y <= Rows
        invariant index == Slot(x, y)
        invariant forall i :: 0 <= i < index ==> data[i] == InitialParticle(i)
        invariant forall i :: index <= i < ParticleCount ==> data[i] == ZeroParticle
        invariant writes == Upto(index)
      {
        SlotInverse(x, y);
        data[index] := data[index].(position := data[index].position.(x := OriginX + Spacing * x));
        data[index] := data[index].(position := data[index].position.(y := OriginY - Spacing * y));
        writes := writes + [index];
        index := index + 1;
        y := y + 1;
      }
      x := x + 1;
    }
    forall i | 0 <= i < ParticleCount
      ensures Occurrences(writes, i) == 1
    {
      UptoOnce(ParticleCount, i);
    }
  }
}
