/** The playfield and screen constants, the physical ordering of the eight
    buttons, and the cosmetic layout of the eight keys on the screen
    (osu.Game.Rulesets.Soyokaze/Extensions/PositionExtensions.cs). */
module PositionExtensions {

  const SCREEN_WIDTH: int := 1366
  const SCREEN_HEIGHT: int := 768
  const BEATMAP_WIDTH: int := 512
  const BEATMAP_HEIGHT: int := 384
  const NUM_COLUMNS: int := 4
  const NUM_ROWS: int := 2

  /** A screen position. Every coordinate the layout computes is an integer
      expression, so integers stand for the source's single-precision vectors. */
  datatype Vector2 = Vector2(x: int, y: int)

  const SCREEN_CENTER: Vector2 := Vector2(SCREEN_WIDTH / 2, SCREEN_HEIGHT / 2)
  const BEATMAP_CENTER: Vector2 := Vector2(BEATMAP_WIDTH / 2, BEATMAP_HEIGHT / 2)

  /** The axis flags of the framework's `Anchor` enumeration: an anchor is
      the set of flags it carries, and `HasFlagFast(f)` is membership. */
  datatype AnchorFlag = X0 | X1 | X2 | Y0 | Y1 | Y2
  type Anchor = set<AnchorFlag>

  /** The point the two key clusters are centred around, relative to the
      element's origin: half a screen to the right of a left anchor, half a
      screen to the left of a right anchor, and likewise vertically. */
  function Offset(origin: Anchor): (o: Vector2)
    ensures o.x == 683 <==> X0 in origin
    ensures o.x == -683 <==> X0 !in origin && X2 in origin
    ensures o.x == 0 <==> X0 !in origin && X2 !in origin
    ensures o.y == 384 <==> Y0 in origin
    ensures o.y == -384 <==> Y0 !in origin && Y2 in origin
    ensures o.y == 0 <==> Y0 !in origin && Y2 !in origin
  {
    var x := if X0 in origin then SCREEN_WIDTH / 2
             else if X2 in origin then -SCREEN_WIDTH / 2
             else 0;
    var y := if Y0 in origin then SCREEN_HEIGHT / 2
             else if Y2 in origin then -SCREEN_HEIGHT / 2
             else 0;
    Vector2(x, y)
  }

  /** `p` lies on one of the four axis-aligned points at distance `gap`
      from `centre`. */
  predicate AtAxisDistance(p: Vector2, centre: Vector2, gap: int) {
    (p.x == centre.x && (p.y == centre.y - gap || p.y == centre.y + gap)) ||
    (p.y == centre.y && (p.x == centre.x - gap || p.x == centre.x + gap))
  }

  /** The centre of the left (`right == false`) or right key cluster. */
  function ClusterCentre(screenCenterDistance: int, origin: Anchor, right: bool): Vector2 {
    var o := Offset(origin);
    Vector2(if right then o.x + screenCenterDistance else o.x - screenCenterDistance, o.y)
  }

  /** The eight key positions in grid-scan order, before any reordering. */
  function RawPositions(screenCenterDistance: int, gap: int, origin: Anchor): (p: seq<Vector2>)
    ensures |p| == 8
    // keys 0, 1, 4, 5 form the left cluster and keys 2, 3, 6, 7 the right one
    ensures AtAxisDistance(p[0], ClusterCentre(screenCenterDistance, origin, false), gap)
    ensures AtAxisDistance(p[1], ClusterCentre(screenCenterDistance, origin, false), gap)
    ensures AtAxisDistance(p[4], ClusterCentre(screenCenterDistance, origin, false), gap)
    ensures AtAxisDistance(p[5], ClusterCentre(screenCenterDistance, origin, false), gap)
    ensures AtAxisDistance(p[2], ClusterCentre(screenCenterDistance, origin, true), gap)
    ensures AtAxisDistance(p[3], ClusterCentre(screenCenterDistance, origin, true), gap)
    ensures AtAxisDistance(p[6], ClusterCentre(screenCenterDistance, origin, true), gap)
    ensures AtAxisDistance(p[7], ClusterCentre(screenCenterDistance, origin, true), gap)
    // each cluster's four keys are distinct points: a diamond around its centre
    ensures gap != 0 ==> p[0] != p[1] && p[0] != p[4] && p[0] != p[5] && p[1] != p[4] && p[1] != p[5] && p[4] != p[5]
    ensures gap != 0 ==> p[2] != p[3] && p[2] != p[6] && p[2] != p[7] && p[3] != p[6] && p[3] != p[7] && p[6] != p[7]
    // the right cluster is the left one moved sideways by twice the centre distance
    ensures forall k :: k in [0, 1, 4, 5] ==>
      p[k + 2] == Vector2(p[k].x + 2 * screenCenterDistance, p[k].y)
  {
    var offset := Offset(origin);
    [
      Vector2(offset.x - screenCenterDistance - gap, offset.y),
      Vector2(offset.x - screenCenterDistance, offset.y - gap),
      Vector2(offset.x + screenCenterDistance - gap, offset.y),
      Vector2(offset.x + screenCenterDistance, offset.y - gap),

      Vector2(offset.x - screenCenterDistance, offset.y + gap),
      Vector2(offset.x - screenCenterDistance + gap, offset.y),
      Vector2(offset.x + screenCenterDistance, offset.y + gap),
      Vector2(offset.x + screenCenterDistance + gap, offset.y)
    ]
  }

  /** The reordering applied when the positions are wanted in button order:
      entry `b` is the grid-scan index of the key of button `b`. */
  const BUTTON_ORDER: seq<int> := [1, 0, 4, 5, 3, 2, 6, 7]

  /** The eight key positions, in grid-scan order or, when `inButtonOrder`
      is set, indexed by button. */
  function GetPositions(screenCenterDistance: int, gap: int, inButtonOrder: bool, origin: Anchor): (r: seq<Vector2>)
    ensures |r| == 8
    ensures !inButtonOrder ==> r == RawPositions(screenCenterDistance, gap, origin)
    ensures inButtonOrder ==> forall b :: 0 <= b < 8 ==>
      r[b] == RawPositions(screenCenterDistance, gap, origin)[BUTTON_ORDER[b]]
  {
    var positions := RawPositions(screenCenterDistance, gap, origin);
    if !inButtonOrder then
      positions
    else
      [
        positions[1],
        positions[0],
        positions[4],
        positions[5],

        positions[3],
        positions[2],
        positions[6],
        positions[7]
      ]
  }

  /** The physical button of the key at a grid-scan index, -1 off the grid. */
  function PositionToButton(positionIndex: int): (b: int)
    ensures 0 <= positionIndex < 8 ==> 0 <= b < 8
    ensures !(0 <= positionIndex < 8) ==> b == -1
  {
    match positionIndex
    case 0 => 1
    case 1 => 0
    case 2 => 5
    case 3 => 4
    case 4 => 2
    case 5 => 3
    case 6 => 6
    case 7 => 7
    case _ => -1
  }

  /** The grid-to-button table, cell by cell. */
  lemma PositionToButtonTable()
    ensures PositionToButton(0) == 1 && PositionToButton(1) == 0
    ensures PositionToButton(2) == 5 && PositionToButton(3) == 4
    ensures PositionToButton(4) == 2 && PositionToButton(5) == 3
    ensures PositionToButton(6) == 6 && PositionToButton(7) == 7
  {
  }

  /** On the grid, `PositionToButton` is a permutation of 0..7: it stays in
      range and no two cells share a button (that every button is reached
      follows from `ButtonOrderInvertsPositionToButton`). */
  lemma PositionToButtonIsPermutation()
    ensures forall i :: 0 <= i < 8 ==> 0 <= PositionToButton(i) < 8
    ensures forall i, j :: 0 <= i < 8 && 0 <= j < 8 && i != j ==>
      PositionToButton(i) != PositionToButton(j)
  {
  }

  /** The button-order table is the inverse of `PositionToButton`, both ways. */
  lemma ButtonOrderInvertsPositionToButton()
    ensures forall i :: 0 <= i < 8 ==> BUTTON_ORDER[PositionToButton(i)] == i
    ensures forall b :: 0 <= b < 8 ==> 0 <= BUTTON_ORDER[b] < 8 && PositionToButton(BUTTON_ORDER[b]) == b
  {
  }

  /** In button order, the key of button `PositionToButton(i)` sits where
      grid cell `i` would. */
  lemma ButtonOrderPlacesEachCell(screenCenterDistance: int, gap: int, origin: Anchor)
    ensures forall i :: 0 <= i < 8 ==>
      GetPositions(screenCenterDistance, gap, true, origin)[PositionToButton(i)]
        == GetPositions(screenCenterDistance, gap, false, origin)[i]
  {
    ButtonOrderInvertsPositionToButton();
  }
}
