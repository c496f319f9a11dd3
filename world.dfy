/**
 * The infinite world's block bookkeeping. The ground is divided into square
 * blocks of 200 m; every tracked entity carries the block it is in, and
 * whenever the followed entity enters a new block the buildings of the
 * 40 x 40 blocks around it are brought up to date: blocks whose noise value
 * is positive get a building, buildings of blocks that left the window are
 * despawned. The Perlin noise is foreign code and is a parameter.
 */
module World {
  import opened Vectors

  const I32Min: int := -0x8000_0000
  const I32Max: int := 0x7fff_ffff

  /** `SPACING`: the side of a block, in metres. */
  const Spacing: int := 200
  /** `ACTIVE_BLOCK_DISTANCE`: the window reaches this many blocks either way. */
  const ActiveBlockDistance: int := 20
  /** Number of blocks in one row of the window. */
  const WindowSide: int := 40
  const MaxSide: real := 30.0
  const MaxHeight: real := 300.0

  /** `BlockPos(x, z)`: a block's column and row. */
  datatype BlockPos = BlockPos(x: int, z: int)

  /** An entity handle; spawning hands out the next unused number. */
  type Entity = nat

  // ---------------------------------------------------------------------
  // Block index of a position
  // ---------------------------------------------------------------------

  /** Truncation toward zero. */
  function Trunc(x: real): (r: int)
    ensures x >= 0.0 ==> r as real <= x < r as real + 1.0
    ensures x < 0.0 ==> r as real - 1.0 < x <= r as real
  {
    if x >= 0.0 then x.Floor else -((-x).Floor)
  }

  /** `f32 as i32`: truncation toward zero, saturating at both ends of `i32`. */
  function CastToI32(x: real): (r: int)
    ensures I32Min <= r <= I32Max
    ensures I32Min <= Trunc(x) <= I32Max ==> r == Trunc(x)
    ensures Trunc(x) < I32Min ==> r == I32Min
    ensures Trunc(x) > I32Max ==> r == I32Max
  {
    var t := Trunc(x);
    if t < I32Min then I32Min else if t > I32Max then I32Max else t
  }

  /** Integer division on `i32`, which rounds toward zero (Dafny's rounds down). */
  function DivTrunc(a: int, b: int): (r: int)
    requires b > 0
    ensures a >= 0 ==> r >= 0 && r * b <= a < r * b + b
    ensures a < 0 ==> r <= 0 && r * b - b < a <= r * b
  {
    if a >= 0 then a / b else -((-a) / b)
  }

  /** The block index of one coordinate: `coordinate as i32 / SPACING`. */
  function BlockIndex(coordinate: real): (r: int)
    ensures DivTrunc(I32Min, Spacing) <= r <= DivTrunc(I32Max, Spacing)
  {
    DivTrunc(CastToI32(coordinate), Spacing)
  }

  /** The block a world position lies in (its y is ignored). */
  function BlockOf(position: Vec3): BlockPos {
    BlockPos(BlockIndex(position.x), BlockIndex(position.z))
  }

  /**
   * Within `i32` range, a coordinate lies in the block whose index it
   * truncates to: from the block start (inclusive) to the next (exclusive)
   * on the positive side, mirrored on the negative side.
   */
  lemma BlockIndexBrackets(coordinate: real)
    requires I32Min as real <= coordinate <= I32Max as real
    ensures coordinate >= 0.0 ==> (BlockIndex(coordinate) * Spacing) as real <= coordinate < ((BlockIndex(coordinate) + 1) * Spacing) as real
    ensures coordinate < 0.0 ==> ((BlockIndex(coordinate) - 1) * Spacing) as real < coordinate <= (BlockIndex(coordinate) * Spacing) as real
  {
    var t := Trunc(coordinate);
    assert CastToI32(coordinate) == t;
  }

  /** The block index is symmetric about the origin, saturation included. */
  lemma BlockIndexOdd(coordinate: real)
    ensures BlockIndex(-coordinate) == -BlockIndex(coordinate)
  {
    assert Trunc(-coordinate) == -Trunc(coordinate);
  }

  /**
   * Because division rounds toward zero, block 0 is twice as wide as the
   * others: every coordinate strictly between -200 and 200 is in it.
   */
  lemma CentreBlockDoubleWidth(coordinate: real)
    ensures -(Spacing as real) < coordinate < Spacing as real <==> BlockIndex(coordinate) == 0
  {
    if coordinate >= Spacing as real {
      assert BlockIndex(coordinate) >= 1 by {
        assert CastToI32(coordinate) >= Spacing;
      }
    } else if coordinate <= -(Spacing as real) {
      assert BlockIndex(coordinate) <= -1 by {
        assert CastToI32(coordinate) <= -Spacing;
      }
    }
  }

  /** Farther along an axis never means a smaller block index. */
  lemma BlockIndexMonotone(a: real, b: real)
    requires a <= b
    ensures BlockIndex(a) <= BlockIndex(b)
  {
    assert Trunc(a) <= Trunc(b);
    assert CastToI32(a) <= CastToI32(b);
    DivTruncMonotone(CastToI32(a), CastToI32(b));
  }

  lemma DivTruncMonotone(a: int, b: int)
    requires a <= b
    ensures DivTrunc(a, Spacing) <= DivTrunc(b, Spacing)
  {
    if a >= 0 {
      DivMonotone(a, b);
    } else if b < 0 {
      DivMonotone(-b, -a);
    }
  }

  lemma DivMonotone(a: nat, b: nat)
    requires a <= b
    ensures a / Spacing <= b / Spacing
  {
  }

  // ---------------------------------------------------------------------
  // update_block_positions
  // ---------------------------------------------------------------------

  /** An entity that carries a `BlockPos`, with its world position. */
  datatype Tracked = Tracked(translation: Vec3, block: BlockPos)

  /** An entity's record after the update: its block follows its position. */
  function Relocated(t: Tracked): (r: Tracked)
    ensures r.translation == t.translation
    ensures r.block == BlockOf(t.translation)
    ensures BlockOf(t.translation) == t.block ==> r == t
  {
    t.(block := BlockOf(t.translation))
  }

  /**
   * `update_block_positions`: every entity's block is recomputed from its
   * position, and a new `BlockPos` is written only where the block changed;
   * `written` holds the indices of those entities, which are the ones that
   * change detection reports afterwards.
   */
  method UpdateBlockPositions(entities: array<Tracked>) returns (written: set<nat>)
    modifies entities
    ensures forall i :: 0 <= i < entities.Length ==> entities[i] == Relocated(old(entities[i]))
    ensures forall i :: i in written <==> 0 <= i < entities.Length && BlockOf(old(entities[i]).translation) != old(entities[i]).block
  {
    written := {};
    var i := 0;
    while i < entities.Length
      invariant 0 <= i <= entities.Length
      invariant forall j :: 0 <= j < i ==> entities[j] == Relocated(old(entities[j]))
      invariant forall j :: i <= j < entities.Length ==> entities[j] == old(entities[j])
      invariant forall j :: j in written <==> 0 <= j < i && BlockOf(old(entities[j]).translation) != old(entities[j]).block
    {
      var e := entities[i];
      var p := BlockOf(e.translation);
      if p != e.block {
        entities[i] := e.(block := p);
        written := written + {i};
      }
      i := i + 1;
    }
  }

  /** Updating twice writes nothing the second time. */
  lemma RelocatedIdempotent(t: Tracked)
    ensures Relocated(Relocated(t)) == Relocated(t)
    ensures BlockOf(Relocated(t).translation) == Relocated(t).block
  {
  }

  // ---------------------------------------------------------------------
  // generate_infinite_buildings: the window and its active blocks
  // ---------------------------------------------------------------------

  /** The window around `p`: columns and rows from 20 before to 19 after. */
  predicate InWindow(p: BlockPos, c: BlockPos) {
    p.x - ActiveBlockDistance <= c.x < p.x + ActiveBlockDistance
    && p.z - ActiveBlockDistance <= c.z < p.z + ActiveBlockDistance
  }

  /** Row-major scan order of the window: rows by z, then columns by x. */
  predicate ScannedBefore(c: BlockPos, z: int, x: int) {
    c.z < z || (c.z == z && c.x < x)
  }

  /** The active blocks of the window that the scan reaches before (x, z). */
  function Scanned(p: BlockPos, noise: BlockPos -> real, z: int, x: int): (s: set<BlockPos>)
  {
    set a, b | p.x - ActiveBlockDistance <= a < p.x + ActiveBlockDistance
      && p.z - ActiveBlockDistance <= b < p.z + ActiveBlockDistance
      && (b < z || (b == z && a < x))
      && noise(BlockPos(a, b)) > 0.0 :: BlockPos(a, b)
  }

  lemma ScannedMember(p: BlockPos, noise: BlockPos -> real, z: int, x: int, c: BlockPos)
    ensures c in Scanned(p, noise, z, x) <==> InWindow(p, c) && ScannedBefore(c, z, x) && noise(c) > 0.0
  {
    if InWindow(p, c) && ScannedBefore(c, z, x) && noise(c) > 0.0 {
      assert c == BlockPos(c.x, c.z);
    }
  }

  /** The active blocks around `p`: those of the window with positive noise. */
  function ActiveBlocks(p: BlockPos, noise: BlockPos -> real): (s: set<BlockPos>)
  {
    Scanned(p, noise, p.z + ActiveBlockDistance, p.x - ActiveBlockDistance)
  }

  /** A block is active exactly when it is in the window and its noise is positive. */
  lemma ActiveBlocksExactly(p: BlockPos, noise: BlockPos -> real, c: BlockPos)
    ensures c in ActiveBlocks(p, noise) <==> InWindow(p, c) && noise(c) > 0.0
  {
    ScannedMember(p, noise, p.z + ActiveBlockDistance, p.x - ActiveBlockDistance, c);
  }

  lemma ScanStart(p: BlockPos, noise: BlockPos -> real)
    ensures Scanned(p, noise, p.z - ActiveBlockDistance, p.x - ActiveBlockDistance) == {}
  {
    var z0, x0 := p.z - ActiveBlockDistance, p.x - ActiveBlockDistance;
    forall c ensures c !in Scanned(p, noise, z0, x0) {
      ScannedMember(p, noise, z0, x0, c);
    }
  }

  /** One step of the scan adds the visited block when its noise is positive. */
  lemma ScanStep(p: BlockPos, noise: BlockPos -> real, z: int, x: int)
    requires p.z - ActiveBlockDistance <= z < p.z + ActiveBlockDistance
    requires p.x - ActiveBlockDistance <= x < p.x + ActiveBlockDistance
    ensures noise(BlockPos(x, z)) > 0.0 ==> Scanned(p, noise, z, x + 1) == Scanned(p, noise, z, x) + {BlockPos(x, z)}
    ensures noise(BlockPos(x, z)) <= 0.0 ==> Scanned(p, noise, z, x + 1) == Scanned(p, noise, z, x)
    ensures BlockPos(x, z) !in Scanned(p, noise, z, x)
  {
    var extra := if noise(BlockPos(x, z)) > 0.0 then {BlockPos(x, z)} else {};
    forall c ensures c in Scanned(p, noise, z, x + 1) <==> c in Scanned(p, noise, z, x) + extra {
      ScannedMember(p, noise, z, x + 1, c);
      ScannedMember(p, noise, z, x, c);
    }
    ScannedMember(p, noise, z, x, BlockPos(x, z));
  }

  /** Finishing a row is starting the next. */
  lemma ScanRowEnd(p: BlockPos, noise: BlockPos -> real, z: int)
    ensures Scanned(p, noise, z, p.x + ActiveBlockDistance) == Scanned(p, noise, z + 1, p.x - ActiveBlockDistance)
  {
    var xEnd, next, xStart := p.x + ActiveBlockDistance, z + 1, p.x - ActiveBlockDistance;
    forall c ensures c in Scanned(p, noise, z, xEnd) <==> c in Scanned(p, noise, next, xStart) {
      ScannedMember(p, noise, z, xEnd, c);
      ScannedMember(p, noise, next, xStart, c);
    }
  }

  // ---------------------------------------------------------------------
  // Buildings
  // ---------------------------------------------------------------------

  /** A spawned building: its entity, block, height and centre. */
  datatype Building = Building(entity: Entity, block: BlockPos, height: real, centre: Vec3)

  /**
   * The world offset of a block column or row, `(x * SPACING) as f32`,
   * as written: the product is taken in `i32`, which wraps in a release
   * build (a debug build panics instead).
   */
  function BlockOffsetAsWritten(x: int): int {
    WrapI32(x * Spacing)
  }

  /** Two's-complement wrap-around into `i32`. */
  function WrapI32(v: int): (r: int)
    ensures I32Min <= r <= I32Max
    ensures I32Min <= v <= I32Max ==> r == v
  {
    (v - I32Min) % 0x1_0000_0000 + I32Min
  }

  /**
   * The followed plane can be in block 10737418 (a coordinate at or beyond
   * the `i32` limit saturates there); the window then reaches column
   * 10737437, whose offset wraps to a large negative number, so that
   * building would appear on the far side of the world.
   */
  lemma FarEdgeOffsetWraps()
    ensures BlockIndex(I32Max as real) == 10737418
    ensures InWindow(BlockPos(10737418, 0), BlockPos(10737437, 0))
    ensures BlockOffsetAsWritten(10737437) < 0
  {
  }

  /** The offset as evidently intended: the exact product, without wrap-around. */
  function BlockOffset(x: int): (r: real)
    ensures (x >= 0 ==> r >= 0.0) && (x < 0 ==> r < 0.0)
  {
    (x * Spacing) as real
  }

  /** Intended offsets keep the order of their blocks, and a building lies in its own block. */
  lemma BlockOffsetFaithful(x: int, y: int)
    ensures x < y ==> BlockOffset(x) < BlockOffset(y)
    ensures DivTrunc(I32Min, Spacing) <= x <= DivTrunc(I32Max, Spacing) ==> BlockIndex(BlockOffset(x)) == x
  {
    if DivTrunc(I32Min, Spacing) <= x <= DivTrunc(I32Max, Spacing) {
      assert Trunc(BlockOffset(x)) == x * Spacing;
      assert CastToI32(BlockOffset(x)) == x * Spacing;
      if x < 0 {
        assert (-(x * Spacing)) / Spacing == -x;
      }
    }
  }

  /** The building spawned for block `c` as entity `e`: height from the noise, centred on the block. */
  function NewBuilding(e: Entity, c: BlockPos, noise: BlockPos -> real): (b: Building)
    ensures b.entity == e && b.block == c
    ensures noise(c) > 0.0 ==> b.height > 0.0 && b.centre.y > 0.0
    ensures b.centre.x == BlockOffset(c.x) && b.centre.z == BlockOffset(c.z)
    ensures b.centre.y == b.height / 2.0
  {
    var height := MaxHeight * noise(c);
    Building(e, c, height, Vec3(BlockOffset(c.x), height * 0.5, BlockOffset(c.z)))
  }

  /** Blocks whose building is kept: known before the scan and still active. */
  function NextPositions(known: set<BlockPos>, active: set<BlockPos>): (r: set<BlockPos>)
    ensures r == active
  {
    var stale := known - active;
    var added := active - known;
    (known - stale) + added
  }

  /** The keys of the block map after the scan (fresh blocks added) and the pruning (stale removed). */
  function NextKeys(keys: set<BlockPos>, known: set<BlockPos>, active: set<BlockPos>): (r: set<BlockPos>)
    ensures keys == known ==> r == active
    ensures r * (known - active) == {}
    ensures active - known <= r
  {
    (keys + (active - known)) - (known - active)
  }

  /** The entities of the stale blocks that have one. */
  function EntitiesOf(m: map<BlockPos, Entity>, blocks: set<BlockPos>): (r: set<Entity>)
    ensures forall c :: c in blocks && c in m ==> m[c] in r
  {
    set c | c in blocks && c in m :: m[c]
  }

  /** The block map without the given blocks. */
  function Without(m: map<BlockPos, Entity>, blocks: set<BlockPos>): (r: map<BlockPos, Entity>)
    ensures r.Keys == m.Keys - blocks
    ensures forall c :: c in r ==> r[c] == m[c]
  {
    map c | c in m && c !in blocks :: m[c]
  }

  /**
   * The block map during the scan: the blocks of `added` have gained an
   * entity numbered from `lo` up to (not including) `hi`; every other block
   * keeps the entity it had.
   */
  ghost predicate Grown(before: map<BlockPos, Entity>, after: map<BlockPos, Entity>, added: set<BlockPos>, lo: nat, hi: nat) {
    (forall c :: c in after <==> c in before || c in added)
    && (forall c :: c in before && c !in added ==> c in after && after[c] == before[c])
    && (forall c :: c in added ==> c in after && lo <= after[c] < hi)
  }

  lemma GrownNone(m: map<BlockPos, Entity>, n: nat)
    ensures Grown(m, m, {}, n, n)
  {
  }

  lemma GrownStep(m0: map<BlockPos, Entity>, m1: map<BlockPos, Entity>, added: set<BlockPos>, lo: nat, e: Entity, c: BlockPos)
    requires Grown(m0, m1, added, lo, e) && c !in added && lo <= e
    ensures Grown(m0, m1[c := e], added + {c}, lo, e + 1)
  {
  }

  lemma GrownTrans(m0: map<BlockPos, Entity>, m1: map<BlockPos, Entity>, m2: map<BlockPos, Entity>,
                   a1: set<BlockPos>, a2: set<BlockPos>, lo: nat, mid: nat, hi: nat)
    requires Grown(m0, m1, a1, lo, mid) && Grown(m1, m2, a2, mid, hi) && a1 * a2 == {} && lo <= mid <= hi
    ensures Grown(m0, m2, a1 + a2, lo, hi)
  {
    forall c | c in a1
      ensures c in m2 && lo <= m2[c] < hi
    {
      if c in a2 {
        assert c in a1 * a2;
      }
    }
  }

  /**
   * `spawned` lists buildings for blocks of `blocks`, spawned in order as
   * entities `base`, `base + 1`, ...
   */
  predicate SpawnedInOrder(spawned: seq<Building>, base: nat, blocks: set<BlockPos>, noise: BlockPos -> real) {
    forall i :: 0 <= i < |spawned| ==>
      spawned[i] == NewBuilding(base + i, spawned[i].block, noise) && spawned[i].block in blocks
  }

  lemma SpawnedStep(spawned: seq<Building>, b: Building, base: nat, blocks: set<BlockPos>, c: BlockPos, noise: BlockPos -> real)
    requires SpawnedInOrder(spawned, base, blocks, noise)
    requires b == NewBuilding(base + |spawned|, c, noise)
    ensures SpawnedInOrder(spawned + [b], base, blocks + {c}, noise)
  {
  }

  lemma SpawnedAppend(s1: seq<Building>, s2: seq<Building>, base: nat, b1: set<BlockPos>, b2: set<BlockPos>, noise: BlockPos -> real)
    requires SpawnedInOrder(s1, base, b1, noise) && SpawnedInOrder(s2, base + |s1|, b2, noise)
    ensures SpawnedInOrder(s1 + s2, base, b1 + b2, noise)
  {
    forall i | 0 <= i < |s1 + s2|
      ensures (s1 + s2)[i] == NewBuilding(base + i, (s1 + s2)[i].block, noise) && (s1 + s2)[i].block in b1 + b2
    {
      if i >= |s1| {
        assert (s1 + s2)[i] == s2[i - |s1|];
      }
    }
  }

  /**
   * The generator's local state: the blocks it has handled and the building
   * entity of each block it spawned one for, plus the next unused entity.
   */
  class BuildingGenerator {
    var blockPositions: set<BlockPos>
    var blockEntities: map<BlockPos, Entity>
    var nextEntity: Entity

    /** Every handled block has a building and every building a handled block. */
    predicate Tracking()
      reads this
    {
      blockEntities.Keys == blockPositions
    }

    constructor ()
      ensures blockPositions == {} && blockEntities == map[] && nextEntity == 0
      ensures Tracking()
    {
      blockPositions := {};
      blockEntities := map[];
      nextEntity := 0;
    }

    /** Spawns the building of block `c`, as the next unused entity. */
    method Spawn(c: BlockPos, noise: BlockPos -> real) returns (b: Building)
      modifies this`blockEntities, this`nextEntity
      ensures b == NewBuilding(old(nextEntity), c, noise)
      ensures nextEntity == old(nextEntity) + 1
      ensures blockEntities == old(blockEntities)[c := b.entity]
    {
      b := NewBuilding(nextEntity, c, noise);
      blockEntities := blockEntities[c := nextEntity];
      nextEntity := nextEntity + 1;
    }

    /**
     * The scan's bookkeeping so far: `active` splits into `hits` known
     * blocks and `misses` new ones, each miss spawned one building of
     * `spawned`, numbered from `n0`, and the block map grew from `m0` by the
     * new blocks.
     */
    ghost predicate Progress(noise: BlockPos -> real, m0: map<BlockPos, Entity>, n0: nat,
                             active: set<BlockPos>, hits: nat, misses: nat, spawned: seq<Building>)
      reads this
    {
      hits == |active * blockPositions| && misses == |active - blockPositions|
      && nextEntity == n0 + misses && |spawned| == misses
      && SpawnedInOrder(spawned, n0, active - blockPositions, noise)
      && Grown(m0, blockEntities, active - blockPositions, n0, nextEntity)
    }

    /**
     * One step of the scan, at block `c`: nothing when its noise is not
     * positive; otherwise it becomes active, and is a hit when already
     * handled or a miss that spawns a building.
     */
    method Visit(c: BlockPos, noise: BlockPos -> real, ghost m0: map<BlockPos, Entity>, ghost n0: nat,
                 active0: set<BlockPos>, hits0: nat, misses0: nat, spawned0: seq<Building>)
      returns (active: set<BlockPos>, hits: nat, misses: nat, spawned: seq<Building>)
      requires c !in active0
      requires Progress(noise, m0, n0, active0, hits0, misses0, spawned0)
      modifies this`blockEntities, this`nextEntity
      ensures noise(c) > 0.0 ==> active == active0 + {c}
      ensures noise(c) <= 0.0 ==> active == active0
      ensures hits + misses <= hits0 + misses0 + 1
      ensures Progress(noise, m0, n0, active, hits, misses, spawned)
    {
      active, hits, misses, spawned := active0, hits0, misses0, spawned0;
      if noise(c) > 0.0 {
        active := active + {c};
        if c in blockPositions {
          HitCount(active0, blockPositions, c);
          hits := hits + 1;
        } else {
          MissCount(active0, blockPositions, c);
          misses := misses + 1;
          ghost var before := blockEntities;
          var b := Spawn(c, noise);
          GrownStep(m0, before, active0 - blockPositions, n0, b.entity, c);
          SpawnedStep(spawned, b, n0, active0 - blockPositions, c, noise);
          spawned := spawned + [b];
        }
      }
    }

    /** The inner loop of the scan: row `z` of the window, column by column. */
    method ScanRow(p: BlockPos, noise: BlockPos -> real, z: int, ghost m0: map<BlockPos, Entity>, ghost n0: nat,
                   active0: set<BlockPos>, hits0: nat, misses0: nat, spawned0: seq<Building>)
      returns (active: set<BlockPos>, hits: nat, misses: nat, spawned: seq<Building>)
      requires p.z - ActiveBlockDistance <= z < p.z + ActiveBlockDistance
      requires active0 == Scanned(p, noise, z, p.x - ActiveBlockDistance)
      requires Progress(noise, m0, n0, active0, hits0, misses0, spawned0)
      modifies this`blockEntities, this`nextEntity
      ensures active == Scanned(p, noise, z + 1, p.x - ActiveBlockDistance)
      ensures hits + misses <= hits0 + misses0 + WindowSide
      ensures Progress(noise, m0, n0, active, hits, misses, spawned)
    {
      active, hits, misses, spawned := active0, hits0, misses0, spawned0;
      var x := p.x - ActiveBlockDistance;
      while x < p.x + ActiveBlockDistance
        invariant p.x - ActiveBlockDistance <= x <= p.x + ActiveBlockDistance
        invariant active == Scanned(p, noise, z, x)
        invariant hits + misses <= hits0 + misses0 + (x - (p.x - ActiveBlockDistance))
        invariant Progress(noise, m0, n0, active, hits, misses, spawned)
      {
        ScanStep(p, noise, z, x);
        active, hits, misses, spawned := Visit(BlockPos(x, z), noise, m0, n0, active, hits, misses, spawned);
        x := x + 1;
      }
      ScanRowEnd(p, noise, z);
    }

    /** The nested loops of the scan, rows by z and columns by x. */
    method ScanWindow(p: BlockPos, noise: BlockPos -> real)
      returns (active: set<BlockPos>, hits: nat, misses: nat, spawned: seq<Building>)
      modifies this`blockEntities, this`nextEntity
      ensures active == ActiveBlocks(p, noise)
      ensures hits + misses <= WindowSide * WindowSide
      ensures Progress(noise, old(blockEntities), old(nextEntity), active, hits, misses, spawned)
    {
      ScanStart(p, noise);
      active, hits, misses, spawned := {}, 0, 0, [];
      GrownNone(blockEntities, nextEntity);
      var z := p.z - ActiveBlockDistance;
      while z < p.z + ActiveBlockDistance
        invariant p.z - ActiveBlockDistance <= z <= p.z + ActiveBlockDistance
        invariant active == Scanned(p, noise, z, p.x - ActiveBlockDistance)
        invariant hits + misses <= WindowSide * (z - (p.z - ActiveBlockDistance))
        invariant Progress(noise, old(blockEntities), old(nextEntity), active, hits, misses, spawned)
      {
        active, hits, misses, spawned := ScanRow(p, noise, z, old(blockEntities), old(nextEntity), active, hits, misses, spawned);
        z := z + 1;
      }
      assert WindowSide * WindowSide == 1600;
    }

    /**
     * The pruning loop: every stale block loses its building, if it has
     * one, and leaves the handled set. The order of the stale blocks does
     * not matter.
     */
    method Prune(stale: set<BlockPos>) returns (despawned: set<Entity>)
      modifies this`blockEntities, this`blockPositions
      ensures blockPositions == old(blockPositions) - stale
      ensures blockEntities == Without(old(blockEntities), stale)
      ensures despawned == EntitiesOf(old(blockEntities), stale)
    {
      var rest := stale;
      despawned := {};
      while rest != {}
        invariant rest <= stale
        invariant blockPositions == old(blockPositions) - (stale - rest)
        invariant blockEntities == Without(old(blockEntities), stale - rest)
        invariant despawned == EntitiesOf(old(blockEntities), stale - rest)
        decreases |rest|
      {
        var pos :| pos in rest;
        ghost var done := stale - rest;
        if pos in blockEntities {
          despawned := despawned + {blockEntities[pos]};
          blockEntities := blockEntities - {pos};
        }
        blockPositions := blockPositions - {pos};
        rest := rest - {pos};
        assert stale - rest == done + {pos};
        assert blockEntities == Without(old(blockEntities), done + {pos});
        assert despawned == EntitiesOf(old(blockEntities), done + {pos});
      }
    }

    /**
     * `generate_infinite_buildings`. Unless exactly one followed entity
     * changed block this frame (`followed`), nothing happens. Otherwise the
     * window around its block is scanned, buildings are spawned for active
     * blocks not handled before, the stale blocks' buildings are despawned,
     * and the handled set becomes the active set.
     */
    method Generate(followed: seq<BlockPos>, noise: BlockPos -> real)
      returns (hits: nat, misses: nat, spawned: seq<Building>, despawned: set<Entity>)
      modifies this
      ensures |followed| != 1 ==>
        blockPositions == old(blockPositions) && blockEntities == old(blockEntities)
        && nextEntity == old(nextEntity) && spawned == [] && despawned == {}
      ensures |followed| == 1 ==>
        var active := ActiveBlocks(followed[0], noise);
        var known := old(blockPositions);
        && blockPositions == NextPositions(known, active)
        && hits == |active * known| && misses == |active - known|
        && hits + misses == |active| && hits + misses <= WindowSide * WindowSide
        && blockEntities.Keys == NextKeys(old(blockEntities).Keys, known, active)
        && (forall c :: c in blockEntities && c !in active - known ==> blockEntities[c] == old(blockEntities)[c])
        && (forall c :: c in active - known ==> old(nextEntity) <= blockEntities[c] < nextEntity)
        && nextEntity == old(nextEntity) + misses && |spawned| == misses
        && SpawnedInOrder(spawned, old(nextEntity), active - known, noise)
        && despawned == EntitiesOf(old(blockEntities), known - active)
      ensures old(Tracking()) ==> Tracking()
    {
      hits, misses, spawned, despawned := 0, 0, [], {};
      if |followed| != 1 {
        return;
      }
      var p := followed[0];
      var active;
      active, hits, misses, spawned := ScanWindow(p, noise);
      HitsAndMisses(active, blockPositions);
      var added := active - blockPositions;
      var stale := blockPositions - active;
      ghost var scanned := blockEntities;
      despawned := Prune(stale);
      PruneOutcome(old(blockEntities), scanned, blockEntities, old(blockPositions), active, old(nextEntity), nextEntity);
      blockPositions := blockPositions + added;
    }

    /**
     * Two consecutive frames that follow the same block with the same noise:
     * the second `Generate` finds every active block already tracked, so it
     * counts only hits, spawns nothing and despawns nothing.
     */
    method GenerateTwice(p: BlockPos, noise: BlockPos -> real)
      returns (hits: nat, misses: nat, spawned: seq<Building>, despawned: set<Entity>)
      modifies this
      ensures hits == |ActiveBlocks(p, noise)| && misses == 0
      ensures spawned == [] && despawned == {}
      ensures blockPositions == ActiveBlocks(p, noise)
      ensures nextEntity == old(nextEntity) + |ActiveBlocks(p, noise) - old(blockPositions)|
      ensures old(Tracking()) ==> Tracking()
    {
      var active := ActiveBlocks(p, noise);
      var _, _, _, _ := Generate([p], noise);
      assert blockPositions == active;
      ghost var entities := blockEntities;
      hits, misses, spawned, despawned := Generate([p], noise);
      assert active * active == active;
      assert active - active == {};
      assert despawned == EntitiesOf(entities, {});
    }
  }

  /**
   * What the pruning leaves of the block map grown by the scan: the keys
   * are `NextKeys`, fresh blocks keep their new entities, every other block
   * its old one, and the despawned entities are those the stale blocks had
   * before the scan.
   */
  lemma PruneOutcome(m0: map<BlockPos, Entity>, scanned: map<BlockPos, Entity>, pruned: map<BlockPos, Entity>,
                     known: set<BlockPos>, active: set<BlockPos>, n0: nat, n1: nat)
    requires Grown(m0, scanned, active - known, n0, n1)
    requires pruned == Without(scanned, known - active)
    ensures pruned.Keys == NextKeys(m0.Keys, known, active)
    ensures forall c :: c in pruned && c !in active - known ==> pruned[c] == m0[c]
    ensures forall c :: c in active - known ==> c in pruned && n0 <= pruned[c] < n1
    ensures EntitiesOf(scanned, known - active) == EntitiesOf(m0, known - active)
  {
    assert scanned.Keys == m0.Keys + (active - known);
    EntitiesOfAgree(scanned, m0, known - active);
  }

  /** Two maps that agree on `blocks` have the same entities there. */
  lemma EntitiesOfAgree(m1: map<BlockPos, Entity>, m2: map<BlockPos, Entity>, blocks: set<BlockPos>)
    requires forall c :: c in blocks ==> (c in m1 <==> c in m2) && (c in m1 ==> m1[c] == m2[c])
    ensures EntitiesOf(m1, blocks) == EntitiesOf(m2, blocks)
  {
  }

  /** Counting one more active block `c` that is already known: one more hit. */
  lemma HitCount(active: set<BlockPos>, known: set<BlockPos>, c: BlockPos)
    requires c !in active && c in known
    ensures |(active + {c}) * known| == |active * known| + 1
    ensures (active + {c}) - known == active - known
  {
    assert (active + {c}) * known == active * known + {c};
  }

  /** Counting one more active block `c` that is new: one more miss. */
  lemma MissCount(active: set<BlockPos>, known: set<BlockPos>, c: BlockPos)
    requires c !in active && c !in known
    ensures (active + {c}) * known == active * known
    ensures (active + {c}) - known == (active - known) + {c}
    ensures |(active + {c}) - known| == |active - known| + 1
    ensures c !in active - known
  {
  }

  /** Every active block is either a hit or a miss. */
  lemma HitsAndMisses(active: set<BlockPos>, known: set<BlockPos>)
    ensures |active * known| + |active - known| == |active|
  {
    assert active == (active * known) + (active - known);
    assert (active * known) * (active - known) == {};
  }
}
