/** Conversion of a generic beatmap's hit objects into soyokaze hit objects
    (osu.Game.Rulesets.Soyokaze/Beatmaps/SoyokazeBeatmapConverter.cs). */
module SoyokazeBeatmapConverter {
  import opened Wrappers
  import opened PositionExtensions

  /** A playfield position, 512 wide and 384 high. */
  datatype Position = Position(x: real, y: real)

  /** The combo data of an object that carries one. */
  datatype ComboInfo = ComboInfo(newCombo: bool, comboOffset: int)

  /** An audio sample reference; the converter only copies these. */
  datatype HitSampleInfo = HitSampleInfo(name: string, bank: string, volume: int)

  /** A hit object of the source beatmap. What the source finds out by asking
      which interfaces an object implements is explicit here: `position` is
      present for position-bearing objects, `combo` for objects with combo
      data, and `pathDuration` for objects with a path (sliders). */
  datatype SourceHitObject = SourceHitObject(
    startTime: real,
    samples: seq<HitSampleInfo>,
    position: Option<Position>,
    combo: Option<ComboInfo>,
    pathDuration: Option<real>)

  /** A tap (`HitCircle`) or a sustained note (`Hold`). */
  datatype ObjectKind = HitCircle | Hold(duration: real)

  /** A converted soyokaze hit object. `button` is the integer value of the
      bound action. */
  datatype SoyokazeHitObject = SoyokazeHitObject(
    kind: ObjectKind,
    button: int,
    samples: seq<HitSampleInfo>,
    startTime: real,
    newCombo: bool,
    comboOffset: int)

  /** The beatmap can be played in this mode: every object has a position. */
  function CanConvert(hitObjects: seq<SourceHitObject>): (r: bool)
    ensures r <==> forall i :: 0 <= i < |hitObjects| ==> hitObjects[i].position.Some?
  {
    |hitObjects| == 0 || (hitObjects[0].position.Some? && CanConvert(hitObjects[1..]))
  }

  /** The `i`-th of the boundaries that cut a playfield axis of length
      `extent` into `cells` equal parts, in integer arithmetic. */
  function Boundary(i: int, cells: int, extent: int): int
    requires cells > 0
  {
    i * extent / cells
  }

  /** How many of the inner boundaries 1 .. k-1 the coordinate `v` strictly
      exceeds. */
  function Exceeded(v: real, k: nat, cells: int, extent: int): (n: nat)
    requires cells > 0
    ensures n <= if k == 0 then 0 else k - 1
  {
    if k <= 1 then 0
    else Exceeded(v, k - 1, cells, extent) + (if v > Boundary(k - 1, cells, extent) as real then 1 else 0)
  }

  /** The grid column of an x coordinate: the number of the boundaries
      128, 256 and 384 that it strictly exceeds. */
  function ColumnOf(x: real): (c: nat)
    ensures c < NUM_COLUMNS
  {
    Exceeded(x, NUM_COLUMNS, NUM_COLUMNS, BEATMAP_WIDTH)
  }

  /** The grid row of a y coordinate: 1 when it strictly exceeds 192. */
  function RowOf(y: real): (r: nat)
    ensures r < NUM_ROWS
  {
    Exceeded(y, NUM_ROWS, NUM_ROWS, BEATMAP_HEIGHT)
  }

  /** The button an object is assigned. It depends on the position alone; a
      missing position counts as the origin. */
  function ButtonFor(position: Option<Position>): (b: int)
    ensures 0 <= b < 8
  {
    var p := position.GetOr(Position(0.0, 0.0));
    PositionToButton(ColumnOf(p.x) + NUM_COLUMNS * RowOf(p.y))
  }

  lemma DivMonotone(a: int, b: int, c: int)
    requires a <= b && c > 0
    ensures a / c <= b / c
  {
    var qa, ra := a / c, a % c;
    var qb, rb := b / c, b % c;
    assert a == c * qa + ra && 0 <= ra < c;
    assert b == c * qb + rb && 0 <= rb < c;
    if qa > qb {
      MulMonotone(c, qb + 1, qa);
      assert false;
    }
  }

  lemma MulMonotone(c: int, x: int, y: int)
    requires c > 0 && x <= y
    ensures c * x <= c * y
  {
  }

  /** Later boundaries are never lower. */
  lemma BoundaryMonotone(i: int, cells: int, extent: int)
    requires cells > 0 && extent >= 0
    ensures Boundary(i - 1, cells, extent) <= Boundary(i, cells, extent)
  {
    assert (i - 1) * extent + extent == i * extent;
    DivMonotone((i - 1) * extent, i * extent, cells);
  }

  /** A coordinate beyond boundary `i` is beyond every boundary before it. */
  lemma {:induction false} ExceededAll(v: real, i: nat, cells: int, extent: int)
    requires cells > 0 && extent >= 0 && i >= 1
    requires v > Boundary(i, cells, extent) as real
    ensures Exceeded(v, i + 1, cells, extent) == i
  {
    if i > 1 {
      BoundaryMonotone(i, cells, extent);
      ExceededAll(v, i - 1, cells, extent);
    }
  }

  /** The columns in plain terms. */
  lemma ColumnBands(x: real)
    ensures ColumnOf(x) == if x > 384.0 then 3 else if x > 256.0 then 2 else if x > 128.0 then 1 else 0
  {
    assert Exceeded(x, 2, NUM_COLUMNS, BEATMAP_WIDTH) == if x > 128.0 then 1 else 0;
    assert Exceeded(x, 3, NUM_COLUMNS, BEATMAP_WIDTH) == Exceeded(x, 2, NUM_COLUMNS, BEATMAP_WIDTH) + if x > 256.0 then 1 else 0;
  }

  /** The rows in plain terms. */
  lemma RowBands(y: real)
    ensures RowOf(y) == if y > 192.0 then 1 else 0
  {
  }

  /** A coordinate exactly on a boundary belongs to the cell below it. */
  lemma BoundaryFallsLow(i: int)
    requires 1 <= i < NUM_COLUMNS
    ensures ColumnOf(Boundary(i, NUM_COLUMNS, BEATMAP_WIDTH) as real) == i - 1
    ensures RowOf(Boundary(1, NUM_ROWS, BEATMAP_HEIGHT) as real) == 0
  {
    ColumnBands(Boundary(i, NUM_COLUMNS, BEATMAP_WIDTH) as real);
    RowBands(Boundary(1, NUM_ROWS, BEATMAP_HEIGHT) as real);
  }

  /** Each of the eight grid cells gets the button the permutation fixes for
      it; an object without a position gets button 1. */
  lemma ButtonCells(x: real, y: real)
    ensures ButtonFor(Some(Position(x, y))) ==
      (if y > 192.0 then [2, 3, 6, 7] else [1, 0, 5, 4])[ColumnOf(x)]
    ensures ButtonFor(None) == 1
  {
    ColumnBands(x);
    RowBands(y);
    ColumnBands(0.0);
    RowBands(0.0);
  }

  /** Converts one source object into exactly one soyokaze object. */
  method ConvertHitObject(original: SourceHitObject, createHolds: bool) returns (converted: seq<SoyokazeHitObject>)
    ensures |converted| == 1
    ensures converted[0].button == ButtonFor(original.position)
    ensures converted[0].kind.Hold? <==> original.pathDuration.Some? && createHolds
    ensures converted[0].kind.Hold? ==> converted[0].kind.duration == original.pathDuration.value
    ensures converted[0].samples == original.samples
    ensures converted[0].startTime == original.startTime
    ensures converted[0].newCombo == (original.combo.Some? && original.combo.value.newCombo)
    ensures converted[0].comboOffset == if original.combo.Some? then original.combo.value.comboOffset else 0
  {
    var originalPosition := original.position.GetOr(Position(0.0, 0.0));
    var column, row := 0, 0;
    var i := 1;
    while i < NUM_COLUMNS
      invariant 1 <= i <= NUM_COLUMNS
      invariant column == Exceeded(originalPosition.x, i, NUM_COLUMNS, BEATMAP_WIDTH)
    {
      if originalPosition.x > (i * BEATMAP_WIDTH / NUM_COLUMNS) as real {
        ExceededAll(originalPosition.x, i, NUM_COLUMNS, BEATMAP_WIDTH);
        column := i;
      }
      i := i + 1;
    }
    i := 1;
    while i < NUM_ROWS
      invariant 1 <= i <= NUM_ROWS
      invariant row == Exceeded(originalPosition.y, i, NUM_ROWS, BEATMAP_HEIGHT)
    {
      if originalPosition.y > (i * BEATMAP_HEIGHT / NUM_ROWS) as real {
        ExceededAll(originalPosition.y, i, NUM_ROWS, BEATMAP_HEIGHT);
        row := i;
      }
      i := i + 1;
    }
    var button := PositionToButton(column + NUM_COLUMNS * row);

    var hitObject := SoyokazeHitObject(HitCircle, 0, [], 0.0, false, 0);
    if original.pathDuration.Some? {
      if createHolds {
        hitObject := hitObject.(kind := Hold(original.pathDuration.value));
      }
    }

    hitObject := hitObject.(button := button);
    hitObject := hitObject.(samples := original.samples);
    hitObject := hitObject.(startTime := original.startTime);
    hitObject := hitObject.(newCombo := if original.combo.Some? then original.combo.value.newCombo else false);
    hitObject := hitObject.(comboOffset := if original.combo.Some? then original.combo.value.comboOffset else 0);

    converted := [hitObject];
  }
}
