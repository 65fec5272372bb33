/**
 * The map page: a tile grid fetched once from `/map`, drawn on a canvas
 * together with the player marker whenever the map arrives or a presence
 * frame comes in. Drawing is modelled as the list of per-tile decisions
 * (where, which fill, which outline) rather than canvas calls.
 */
module MapPage {
  import opened Values
  import opened Telemetry
  import opened Connection
  import opened Presence

  const TileSize: int := 20

  /** The `/map` payload, mirrored in `mapRef` for the draw loop and in `mapData` for the canvas size. */
  datatype TileMap = TileMap(width: int, height: int, data: seq<Sample>)

  /** `{ width: 0, height: 0, data: [] }`. */
  const EmptyMap: TileMap := TileMap(0, 0, [])

  /** `COLORS`: tile value 0 has no colour, 1 to 4 have one each. */
  const Colors: map<real, Option<string>> :=
    map[0.0 := None, 1.0 := Some("#888"), 2.0 := Some("#ff4444"), 3.0 := Some("#44ff44"), 4.0 := Some("#4444ff")]

  /** `COLORS[tileVal] || '#fff'` for a positive tile value. */
  function Palette(v: real): (c: string)
    requires v > 0.0
    ensures c == "#fff" <==> v !in {1.0, 2.0, 3.0, 4.0}
    ensures c in {"#888", "#ff4444", "#44ff44", "#4444ff", "#fff"}
  {
    if v in Colors && Colors[v].Some? then Colors[v].value else "#fff"
  }

  /** `currentMap.data[y * width + x]`; a read past either end is `undefined`. */
  function TileAt(m: TileMap, x: int, y: int): Sample
  {
    var i := y * m.width + x;
    if 0 <= i < |m.data| then m.data[i] else Undefined
  }

  /** One tile's square: its top-left pixel, its fill if any, and its outline colour. */
  datatype Cell = Cell(px: int, py: int, fill: Option<string>, stroke: string)

  /** `tileVal > 0`: filled and outlined in black; otherwise (0, negative, `null`, missing) outlined in grey only. */
  function CellAt(m: TileMap, x: int, y: int): (c: Cell)
    ensures c.px == x * TileSize && c.py == y * TileSize
    ensures c.fill.Some? <==> TileAt(m, x, y).Num? && TileAt(m, x, y).n > 0.0
    ensures c.stroke == "#000" <==> c.fill.Some?
  {
    var t := TileAt(m, x, y);
    if t.Num? && t.n > 0.0 then Cell(x * TileSize, y * TileSize, Some(Palette(t.n)), "#000")
    else Cell(x * TileSize, y * TileSize, None, "#333")
  }

  /** The grid is drawn only for a positive width and a non-empty data array. */
  predicate HasMapData(m: TileMap)
  {
    m.width > 0 && |m.data| > 0
  }

  /** Row `y`, left to right. */
  function Row(m: TileMap, y: int): seq<Cell>
    requires m.width >= 0
  {
    seq(m.width, x requires 0 <= x < m.width => CellAt(m, x, y))
  }

  /** Rows `0 .. n - 1`, top to bottom. */
  function Rows(m: TileMap, n: nat): seq<Cell>
    requires m.width >= 0
  {
    if n == 0 then [] else Rows(m, n - 1) + Row(m, n - 1)
  }

  /** The cells `draw` visits: none without map data or without rows. */
  function Grid(m: TileMap): seq<Cell>
  {
    if HasMapData(m) && m.height > 0 then Rows(m, m.height) else []
  }

  /** The first `n` rows hold `n` times `width` squares. */
  lemma {:induction false} RowsLength(m: TileMap, n: nat)
    requires m.width >= 0
    ensures |Rows(m, n)| == n * m.width
  {
    if n > 0 {
      RowsLength(m, n - 1);
      assert (n - 1) * m.width + m.width == n * m.width;
    }
  }

  /** Row-major order: position `y * width + x` of the first `n` rows holds tile (x, y). */
  lemma {:induction false} RowMajorAt(m: TileMap, n: nat, x: int, y: int)
    requires 0 <= x < m.width && 0 <= y < n
    ensures y * m.width + x < |Rows(m, n)|
    ensures Rows(m, n)[y * m.width + x] == CellAt(m, x, y)
  {
    var w := m.width;
    var i := y * w + x;
    RowsLength(m, n - 1);
    RowsLength(m, n);
    var before := Rows(m, n - 1);
    if y < n - 1 {
      RowBelow(w, x, y, n - 1);
      RowMajorAt(m, n - 1, x, y);
      assert Rows(m, n)[i] == before[i];
    } else {
      assert i == |before| + x;
      assert Rows(m, n)[i] == Row(m, n - 1)[x];
    }
  }

  lemma MulLeRight(a: int, b: int, w: int)
    requires a <= b && w >= 0
    ensures a * w <= b * w
  {
    assert b * w - a * w == (b - a) * w;
  }

  lemma RowBelow(w: int, x: int, y: int, k: int)
    requires 0 <= x < w && 0 <= y < k
    ensures y * w + x < k * w
  {
    MulLeRight(y + 1, k, w);
    assert (y + 1) * w == y * w + w;
  }

  /**
   * The nested `for` loops of `draw`: for every row, for every column,
   * decide the tile's square at index `y * width + x`.
   */
  method DrawGrid(m: TileMap) returns (cells: seq<Cell>)
    ensures cells == Grid(m)
  {
    cells := [];
    if !(m.width > 0 && |m.data| > 0) {
      return;
    }
    var y := 0;
    while y < m.height
      invariant y == 0 || 0 < y <= m.height
      invariant cells == Rows(m, y)
    {
      var x := 0;
      while x < m.width
        invariant 0 <= x <= m.width
        invariant cells == Rows(m, y) + Row(m, y)[..x]
      {
        var i := y * m.width + x;
        var tile := if 0 <= i < |m.data| then m.data[i] else Undefined;
        var cell;
        if tile.Num? && tile.n > 0.0 {
          cell := Cell(x * TileSize, y * TileSize, Some(Palette(tile.n)), "#000");
        } else {
          cell := Cell(x * TileSize, y * TileSize, None, "#333");
        }
        assert cell == CellAt(m, x, y) == Row(m, y)[x];
        assert Row(m, y)[..x + 1] == Row(m, y)[..x] + [cell];
        cells := cells + [cell];
        x := x + 1;
      }
      assert Row(m, y)[..m.width] == Row(m, y);
      y := y + 1;
    }
  }

  /** `Math.max(300, n * TILE_SIZE)`. */
  function CanvasSize(n: int): (px: int)
    ensures px >= 300 && px >= n * TileSize
    ensures px == 300 || px == n * TileSize
  {
    if n * TileSize > 300 then n * TileSize else 300
  }

  /** Every square the grid draws lies on the canvas sized from the same map. */
  lemma CellsOnCanvas(m: TileMap)
    ensures forall c :: c in Grid(m) ==>
              0 <= c.px && c.px + TileSize <= CanvasSize(m.width) &&
              0 <= c.py && c.py + TileSize <= CanvasSize(m.height)
  {
    if HasMapData(m) && m.height > 0 {
      RowsLength(m, m.height);
      forall c | c in Grid(m)
        ensures 0 <= c.px && c.px + TileSize <= CanvasSize(m.width)
        ensures 0 <= c.py && c.py + TileSize <= CanvasSize(m.height)
      {
        var k :| 0 <= k < |Rows(m, m.height)| && Rows(m, m.height)[k] == c;
        var x, y := CellIndex(m.width, m.height, k);
        RowMajorAt(m, m.height, x, y);
        assert c == CellAt(m, x, y);
        assert (x + 1) * TileSize <= m.width * TileSize;
        assert (y + 1) * TileSize <= m.height * TileSize;
      }
    }
  }

  /** Every position of a `width` by `height` row-major grid is `y * width + x` for one tile in range. */
  lemma CellIndex(w: int, h: int, k: int) returns (x: int, y: int)
    requires w > 0 && 0 <= k < h * w
    ensures 0 <= x < w && 0 <= y < h && k == y * w + x
  {
    x, y := k % w, k / w;
    assert k == y * w + x;
    if h <= y {
      MulLeRight(h, y, w);
    }
  }

  /** A tile past the end of the data array is drawn as an empty outline. */
  lemma MissingTileOutlined(m: TileMap, x: int, y: int)
    requires y * m.width + x >= |m.data|
    ensures CellAt(m, x, y).fill == None && CellAt(m, x, y).stroke == "#333"
  {
  }

  /** The player marker: centre, radius and the tip of the facing line; `None` is NaN (nothing is drawn). */
  datatype Marker = Marker(px: Option<real>, py: Option<real>, radius: real, tipX: Option<real>, tipY: Option<real>)

  /** `v * k` in JavaScript: `undefined` gives NaN, `null` counts as 0. */
  function Times(v: Sample, k: real): (r: Option<real>)
    ensures r.None? <==> v.Undefined?
    ensures v.Null? ==> r == Some(0.0)
  {
    match v
    case Undefined => None
    case Null => Some(0.0)
    case Num(n) => Some(n * k)
  }

  function Plus(a: Option<real>, b: Option<real>): Option<real>
  {
    if a.Some? && b.Some? then Some(a.value + b.value) else None
  }

  /** `px = p.x * TILE_SIZE`, radius `TILE_SIZE / 2.5`, facing line to `px + dirX * 15`. */
  function MarkerOf(p: PlayerRecord): Marker
  {
    var px := Times(p.x, TileSize as real);
    var py := Times(p.y, TileSize as real);
    Marker(px, py, TileSize as real / 2.5, Plus(px, Times(p.dirX, 15.0)), Plus(py, Times(p.dirY, 15.0)))
  }

  /** A player at tile (x, y) facing (dx, dy) is drawn centred on (20x, 20y) with a line 15 pixels along its facing. */
  lemma MarkerPlacement(x: real, y: real, dx: real, dy: real)
    ensures MarkerOf(PlayerRecord(Num(x), Num(y), Num(dx), Num(dy))) ==
            Marker(Some(20.0 * x), Some(20.0 * y), 8.0, Some(20.0 * x + 15.0 * dx), Some(20.0 * y + 15.0 * dy))
  {
  }

  /** A frame without a coordinate leaves the marker undrawable, since the coordinate becomes NaN. */
  lemma MissingCoordinateHidesMarker(f: Frame)
    requires f.x.Undefined?
    ensures MarkerOf(PlayerOf(f)).px.None? && MarkerOf(PlayerOf(f)).tipX.None?
  {
  }

  /** One call of `draw` on a mounted canvas. */
  datatype Picture = Picture(cells: seq<Cell>, noMapData: bool, marker: Marker)

  function Render(m: TileMap, p: PlayerRecord): (pic: Picture)
    ensures pic.noMapData <==> !HasMapData(m)
    ensures pic.noMapData ==> pic.cells == []
    ensures pic.cells == Grid(m)
  {
    Picture(Grid(m), !HasMapData(m), MarkerOf(p))
  }

  /** `{menu == 0 && ...}`: loose equality, so `null` does not show the button. */
  predicate HomeButtonShown(menu: Reading)
  {
    menu == Num(0.0)
  }

  /** The page starts at menu 1, so the button appears only once a frame has carried state 0. */
  lemma HomeButtonFollowsLastState(p: PlayerRecord, ms: seq<Message>)
    ensures HomeButtonShown(ReceiveAll(Shown(p, Num(1.0)), ms).menu) <==> LastState(ms) == Some(Num(0.0))
  {
    MenuFromLastState(Shown(p, Num(1.0)), ms);
  }

  /** The map page's own state. */
  class MapView {
    var status: Status
    var menu: Reading
    var player: PlayerRecord
    var tiles: TileMap

    function ShownOf(): Shown
      reads this
    {
      Shown(player, menu)
    }

    constructor ()
      ensures status == Initializing && menu == Num(1.0) && player == StartPlayer && tiles == EmptyMap
    {
      status, menu, player, tiles := Initializing, Num(1.0), StartPlayer, EmptyMap;
    }

    /** `draw()`: nothing without a mounted canvas, otherwise the grid, or the notice, and the marker. */
    method Draw(canvasMounted: bool) returns (pic: Option<Picture>)
      ensures !canvasMounted ==> pic.None?
      ensures canvasMounted ==> pic == Some(Render(tiles, player))
    {
      if !canvasMounted {
        return None;
      }
      var cells := DrawGrid(tiles);
      pic := Some(Picture(cells, !(tiles.width > 0 && |tiles.data| > 0), MarkerOf(player)));
    }

    /** The fetch's success path: store the map and draw it at once. */
    method OnMapLoaded(m: TileMap, canvasMounted: bool) returns (pic: Option<Picture>)
      modifies this
      ensures tiles == m
      ensures status == old(status) && ShownOf() == old(ShownOf())
      ensures canvasMounted ==> pic == Some(Render(m, player))
      ensures !canvasMounted ==> pic.None?
    {
      tiles := m;
      pic := Draw(canvasMounted);
    }

    /** The fetch's `.catch`. */
    method OnLoadFailed()
      modifies this
      ensures status == After(LoadFailed)
      ensures ShownOf() == old(ShownOf()) && tiles == old(tiles)
    {
      status := DataLoadFailed;
    }

    method OnOpen()
      modifies this
      ensures status == After(Opened)
      ensures ShownOf() == old(ShownOf()) && tiles == old(tiles)
    {
      status := Live;
    }

    method OnClose()
      modifies this
      ensures status == After(Closed)
      ensures ShownOf() == old(ShownOf()) && tiles == old(tiles)
    {
      status := Disconnected;
    }

    /**
     * `socket.onmessage`: overwrite the player record, adopt the frame's
     * state, redraw. Anything that throws (parse failure, `null`) is caught
     * before the first write, so nothing changes and nothing is drawn.
     */
    method OnMessage(m: Message, canvasMounted: bool) returns (pic: Option<Picture>)
      modifies this
      ensures ShownOf() == Receive(old(ShownOf()), m)
      ensures status == old(status) && tiles == old(tiles)
      ensures m.Object? && canvasMounted ==> pic == Some(Render(tiles, player))
      ensures !(m.Object? && canvasMounted) ==> pic.None?
    {
      if !m.Object? {
        return None;
      }
      var data := m.frame;
      player := PlayerRecord(data.x, data.y, data.dirX, data.dirY);
      if !data.state.Undefined? {
        menu := if menu != data.state then data.state else menu;
      }
      pic := Draw(canvasMounted);
    }
  }
}
