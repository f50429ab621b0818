/** Hanging a theme's pieces on a room's wall: an allocator of free intervals, over exact reals. */
module Backdrop {
  import opened Wrappers

  const GAP: real := 8.0

  datatype Line = Eye | High | Low | Floor

  datatype Piece = Piece(name: string, line: Line)

  datatype Placed = Placed(name: string, x: real, line: Line)

  datatype Span = Span(lo: real, hi: real)

  /** What is already in the room, as centres and half-widths. */
  datatype Taken = Taken(eye: seq<(real, real)>, high: seq<(real, real)>, floor: seq<(real, real)>)

  /** One list of spans per line; the low line shares the floor's. */
  datatype Wall = Wall(eye: seq<Span>, high: seq<Span>, floor: seq<Span>)

  function On(wall: Wall, line: Line): seq<Span> {
    match line
    case Eye => wall.eye
    case High => wall.high
    case _ => wall.floor
  }

  function Put(wall: Wall, line: Line, spans: seq<Span>): Wall {
    match line
    case Eye => wall.(eye := spans)
    case High => wall.(high := spans)
    case _ => wall.(floor := spans)
  }

  predicate SameLine(a: Line, b: Line) {
    a == b || ((a == Low || a == Floor) && (b == Low || b == Floor))
  }

  function TakenOn(taken: Taken, line: Line): seq<(real, real)> {
    match line
    case Eye => taken.eye
    case High => taken.high
    case _ => taken.floor
  }

  /** Low pieces stand on the floor's line; the eye and the high line are their own. */
  lemma LowStandsOnTheFloor(wall: Wall, taken: Taken, spans: seq<Span>, a: Line, b: Line)
    ensures On(wall, Low) == wall.floor && Put(wall, Low, spans) == wall.(floor := spans)
            && TakenOn(taken, Low) == taken.floor
    ensures On(wall, Eye) == wall.eye && On(wall, High) == wall.high && On(wall, Floor) == wall.floor
    ensures SameLine(a, b) <==> a == b || {a, b} == {Low, Floor}
  {
  }

  /// Spans and the blocks cut out of them

  predicate Within(s: Span, t: Span) {
    t.lo <= s.lo && s.hi <= t.hi
  }

  predicate Clear(s: Span, block: Span) {
    s.hi <= block.lo || block.hi <= s.lo
  }

  /** No piece hung in one span can come near the other. */
  predicate FarApart(s: Span, t: Span) {
    s.hi + 2.0 * GAP <= t.lo || t.hi + 2.0 * GAP <= s.lo
  }

  /** A block always carries a gap on both sides. */
  predicate IsBlock(b: Span) {
    b.lo + 2.0 * GAP <= b.hi
  }

  ghost predicate SpansOk(room: Span, blocks: seq<Span>, spans: seq<Span>) {
    && (forall s :: s in spans ==> Within(s, room))
    && (forall s, b :: s in spans && b in blocks ==> Clear(s, b))
    && (forall i, j :: 0 <= i < j < |spans| ==> FarApart(spans[i], spans[j]))
  }

  /** A stretch of the room that keeps out of every block. */
  ghost predicate FreeAt(room: Span, blocks: seq<Span>, u: real, v: real) {
    u < v && room.lo <= u && v <= room.hi && forall b :: b in blocks ==> Clear(Span(u, v), b)
  }

  ghost predicate Inside(spans: seq<Span>, u: real, v: real) {
    exists s :: s in spans && s.lo <= u && v <= s.hi
  }

  /** The spans miss no free stretch. */
  ghost predicate Covers(room: Span, blocks: seq<Span>, spans: seq<Span>) {
    forall u, v :: FreeAt(room, blocks, u, v) ==> Inside(spans, u, v)
  }

  ghost predicate LineOk(room: Span, blocks: seq<Span>, spans: seq<Span>) {
    SpansOk(room, blocks, spans) && Covers(room, blocks, spans)
  }

  function Wide(s: Span): (r: seq<Span>)
    ensures forall t :: t in r ==> t == s
  {
    if s.hi > s.lo then [s] else []
  }

  /** The parts of a span on either side of a block. */
  function Sides(s: Span, b: Span): seq<Span> {
    Wide(Span(s.lo, b.lo)) + Wide(Span(b.hi, s.hi))
  }

  lemma SidesOk(s: Span, b: Span)
    requires IsBlock(b) && b.lo <= s.hi && s.lo <= b.hi
    ensures forall t :: t in Sides(s, b) ==> Within(t, s) && Clear(t, b)
    ensures forall i, j :: 0 <= i < j < |Sides(s, b)| ==> FarApart(Sides(s, b)[i], Sides(s, b)[j])
  {
  }

  /** A free stretch of a span lies on one side of the block it avoids. */
  lemma SidesCover(s: Span, b: Span, u: real, v: real)
    requires u < v && s.lo <= u && v <= s.hi && Clear(Span(u, v), b)
    ensures Inside(Sides(s, b), u, v)
  {
    if v <= b.lo {
      assert Span(s.lo, b.lo) in Sides(s, b);
    } else {
      assert Span(b.hi, s.hi) in Sides(s, b);
    }
  }

  function CutOne(s: Span, b: Span): seq<Span> {
    if b.hi <= s.lo || b.lo >= s.hi then [s] else Sides(s, b)
  }

  lemma CutOneOk(s: Span, b: Span)
    requires IsBlock(b)
    ensures forall t :: t in CutOne(s, b) ==> Within(t, s) && Clear(t, b)
    ensures forall i, j :: 0 <= i < j < |CutOne(s, b)| ==> FarApart(CutOne(s, b)[i], CutOne(s, b)[j])
  {
    if !(b.hi <= s.lo || b.lo >= s.hi) {
      SidesOk(s, b);
    }
  }

  /** Every span cut around a block. */
  function Cut(spans: seq<Span>, b: Span): seq<Span> {
    if spans == [] then [] else Cut(spans[..|spans| - 1], b) + CutOne(spans[|spans| - 1], b)
  }

  ghost predicate UnderSome(s: Span, spans: seq<Span>) {
    exists t :: t in spans && Within(s, t)
  }

  predicate Separated(spans: seq<Span>) {
    forall i, j :: 0 <= i < j < |spans| ==> FarApart(spans[i], spans[j])
  }

  lemma SeparatedConcat(a: seq<Span>, b: seq<Span>)
    requires Separated(a) && Separated(b) && forall s, t :: s in a && t in b ==> FarApart(s, t)
    ensures Separated(a + b)
  {
    forall i, j | 0 <= i < j < |a + b|
      ensures FarApart((a + b)[i], (a + b)[j])
    {
      if i < |a| && j >= |a| {
        assert a[i] in a && b[j - |a|] in b;
      }
    }
  }

  lemma {:induction false} CutIsUnder(spans: seq<Span>, b: Span)
    requires IsBlock(b)
    ensures forall s :: s in Cut(spans, b) ==> UnderSome(s, spans) && Clear(s, b)
  {
    if spans != [] {
      var front, last := spans[..|spans| - 1], spans[|spans| - 1];
      CutIsUnder(front, b);
      CutOneOk(last, b);
      assert spans == front + [last];
      forall s | s in Cut(spans, b)
        ensures UnderSome(s, spans) && Clear(s, b)
      {
        if s in Cut(front, b) {
          var t :| t in front && Within(s, t);
          assert t in spans;
        } else {
          assert s in CutOne(last, b) && last in spans;
        }
      }
    }
  }

  lemma {:induction false} CutStaysSeparated(spans: seq<Span>, b: Span)
    requires IsBlock(b) && Separated(spans)
    ensures Separated(Cut(spans, b))
  {
    if spans != [] {
      var front, last := spans[..|spans| - 1], spans[|spans| - 1];
      CutStaysSeparated(front, b);
      CutIsUnder(front, b);
      CutOneOk(last, b);
      forall s, t | s in Cut(front, b) && t in CutOne(last, b)
        ensures FarApart(s, t)
      {
        var over :| over in front && Within(s, over);
        var i :| 0 <= i < |front| && front[i] == over;
        assert FarApart(spans[i], spans[|spans| - 1]);
      }
      SeparatedConcat(Cut(front, b), CutOne(last, b));
    }
  }

  lemma {:induction false} CutKeepsSides(spans: seq<Span>, b: Span, s: Span, t: Span)
    requires s in spans && t in CutOne(s, b)
    ensures t in Cut(spans, b)
  {
    var front, last := spans[..|spans| - 1], spans[|spans| - 1];
    assert spans == front + [last];
    if s in front {
      CutKeepsSides(front, b, s, t);
    }
  }

  lemma CutCovers(room: Span, blocks: seq<Span>, spans: seq<Span>, b: Span)
    requires Covers(room, blocks, spans)
    ensures Covers(room, blocks + [b], Cut(spans, b))
  {
    forall u, v | FreeAt(room, blocks + [b], u, v)
      ensures Inside(Cut(spans, b), u, v)
    {
      assert b in blocks + [b] && forall c :: c in blocks ==> c in blocks + [b];
      assert FreeAt(room, blocks, u, v);
      var s :| s in spans && s.lo <= u && v <= s.hi;
      SidesCover(s, b, u, v);
      var t :| t in CutOne(s, b) && t.lo <= u && v <= t.hi;
      CutKeepsSides(spans, b, s, t);
    }
  }

  lemma ClearWithin(s: Span, t: Span)
    requires Within(s, t)
    ensures forall b :: Clear(t, b) ==> Clear(s, b)
  {
  }

  lemma CutOk(room: Span, blocks: seq<Span>, spans: seq<Span>, b: Span)
    requires LineOk(room, blocks, spans) && IsBlock(b)
    ensures LineOk(room, blocks + [b], Cut(spans, b))
  {
    hide Cut, Covers, Clear, FarApart;
    CutIsUnder(spans, b);
    CutStaysSeparated(spans, b);
    CutCovers(room, blocks, spans, b);
    forall s | s in Cut(spans, b)
      ensures Within(s, room) && forall c :: c in blocks + [b] ==> Clear(s, c)
    {
      var t :| t in spans && Within(s, t);
      assert forall c :: c in blocks ==> Clear(t, c);
      ClearWithin(s, t);
    }
  }

  /// Free spans around what is taken

  function TakenBlock(t: (real, real)): Span {
    Span(t.0 - t.1 - GAP, t.0 + t.1 + GAP)
  }

  function Room(x0: real, x1: real): Span {
    Span(x0 + GAP, x1 - GAP)
  }

  function TakenBlocks(taken: seq<(real, real)>): (blocks: seq<Span>)
    ensures |blocks| == |taken| && forall i :: 0 <= i < |taken| ==> blocks[i] == TakenBlock(taken[i])
  {
    if taken == [] then [] else TakenBlocks(taken[..|taken| - 1]) + [TakenBlock(taken[|taken| - 1])]
  }

  method CutAll(spans: seq<Span>, b: Span) returns (out: seq<Span>)
    ensures out == Cut(spans, b)
  {
    out := [];
    for i := 0 to |spans|
      invariant out == Cut(spans[..i], b)
    {
      assert spans[..i + 1][..i] == spans[..i];
      out := out + CutOne(spans[i], b);
    }
    assert spans[..|spans|] == spans;
  }

  /** The room minus what is taken. */
  method Free(x0: real, x1: real, taken: seq<(real, real)>) returns (spans: seq<Span>)
    requires forall t :: t in taken ==> t.1 >= 0.0
    ensures LineOk(Room(x0, x1), TakenBlocks(taken), spans)
  {
    spans := [Room(x0, x1)];
    for i := 0 to |taken|
      invariant LineOk(Room(x0, x1), TakenBlocks(taken[..i]), spans)
    {
      var b := TakenBlock(taken[i]);
      assert taken[..i + 1][..i] == taken[..i];
      CutOk(Room(x0, x1), TakenBlocks(taken[..i]), spans, b);
      spans := CutAll(spans, b);
    }
    assert taken[..|taken|] == taken;
  }

  /// Hanging one piece

  predicate FitsIn(s: Span, w: real) {
    s.hi - s.lo >= w
  }

  predicate Fits(spans: seq<Span>, w: real) {
    exists s :: s in spans && FitsIn(s, w)
  }

  /** The widest span that fits, the last of equals. */
  predicate Widest(spans: seq<Span>, w: real, i: nat) {
    && i < |spans| && FitsIn(spans[i], w)
    && (forall j :: 0 <= j < |spans| ==> spans[j].hi - spans[j].lo <= spans[i].hi - spans[i].lo)
    && (forall j :: i < j < |spans| ==> spans[j].hi - spans[j].lo < spans[i].hi - spans[i].lo)
  }

  method WidestFit(spans: seq<Span>, w: real) returns (best: Option<nat>)
    ensures best.None? ==> !Fits(spans, w)
    ensures best.Some? ==> Widest(spans, w, best.value)
  {
    best := None;
    for i := 0 to |spans|
      invariant best.None? ==> forall j :: 0 <= j < i ==> !FitsIn(spans[j], w)
      invariant best.Some? ==> best.value < i && Widest(spans[..i], w, best.value)
    {
      assert spans[..i + 1] == spans[..i] + [spans[i]];
      if FitsIn(spans[i], w)
         && (best.None? || spans[best.value].hi - spans[best.value].lo <= spans[i].hi - spans[i].lo) {
        best := Some(i);
      }
    }
    assert spans[..|spans|] == spans;
  }

  function Middle(s: Span): real {
    (s.lo + s.hi) * 0.5
  }

  function PieceBlock(x: real, w: real): Span {
    Span(x - w * 0.5 - GAP, x + w * 0.5 + GAP)
  }

  function Without(spans: seq<Span>, i: nat): seq<Span>
    requires i < |spans|
  {
    spans[..i] + spans[i + 1..]
  }

  /** The spans once a piece of width `w` hangs in the middle of the `i`-th. */
  function Hung(spans: seq<Span>, i: nat, w: real): seq<Span>
    requires i < |spans|
  {
    Without(spans, i) + Sides(spans[i], PieceBlock(Middle(spans[i]), w))
  }

  lemma WithoutElements(spans: seq<Span>, i: nat)
    requires i < |spans|
    ensures forall s :: s in Without(spans, i) ==> s in spans
    ensures forall s :: s in spans ==> s == spans[i] || s in Without(spans, i)
    ensures Separated(spans) ==> Separated(Without(spans, i))
    ensures Separated(spans) ==> forall s :: s in Without(spans, i) ==> FarApart(s, spans[i])
  {
    assert spans == spans[..i] + [spans[i]] + spans[i + 1..];
    if Separated(spans) {
      forall s | s in Without(spans, i)
        ensures FarApart(s, spans[i])
      {
        var j :| 0 <= j < |spans| && j != i && spans[j] == s;
      }
    }
  }

  lemma HungIsUnder(spans: seq<Span>, i: nat, w: real)
    requires i < |spans| && w >= 0.0 && FitsIn(spans[i], w)
    ensures forall s :: s in Hung(spans, i, w) ==> UnderSome(s, spans)
  {
    var b := PieceBlock(Middle(spans[i]), w);
    SidesOk(spans[i], b);
    WithoutElements(spans, i);
    forall s | s in Hung(spans, i, w)
      ensures UnderSome(s, spans)
    {
      if s in Without(spans, i) {
        assert Within(s, s);
      } else {
        assert spans[i] in spans && Within(s, spans[i]);
      }
    }
  }

  lemma HungIsClear(spans: seq<Span>, i: nat, w: real)
    requires i < |spans| && w >= 0.0 && FitsIn(spans[i], w) && Separated(spans)
    ensures forall s :: s in Hung(spans, i, w) ==> Clear(s, PieceBlock(Middle(spans[i]), w))
    ensures Separated(Hung(spans, i, w))
  {
    var b := PieceBlock(Middle(spans[i]), w);
    SidesOk(spans[i], b);
    WithoutElements(spans, i);
    SeparatedConcat(Without(spans, i), Sides(spans[i], b));
  }

  lemma HungCovers(room: Span, blocks: seq<Span>, spans: seq<Span>, i: nat, w: real)
    requires i < |spans| && Covers(room, blocks, spans)
    ensures Covers(room, blocks + [PieceBlock(Middle(spans[i]), w)], Hung(spans, i, w))
  {
    var b := PieceBlock(Middle(spans[i]), w);
    WithoutElements(spans, i);
    forall u, v | FreeAt(room, blocks + [b], u, v)
      ensures Inside(Hung(spans, i, w), u, v)
    {
      assert b in blocks + [b] && forall c :: c in blocks ==> c in blocks + [b];
      assert FreeAt(room, blocks, u, v);
      var s :| s in spans && s.lo <= u && v <= s.hi;
      if s == spans[i] {
        SidesCover(s, b, u, v);
        var t :| t in Sides(s, b) && t.lo <= u && v <= t.hi;
        assert t in Hung(spans, i, w);
      } else {
        assert s in Hung(spans, i, w);
      }
    }
  }

  lemma HungOk(room: Span, blocks: seq<Span>, spans: seq<Span>, i: nat, w: real)
    requires LineOk(room, blocks, spans) && i < |spans| && w >= 0.0 && FitsIn(spans[i], w)
    ensures LineOk(room, blocks + [PieceBlock(Middle(spans[i]), w)], Hung(spans, i, w))
    ensures forall v :: Fits(Hung(spans, i, w), v) ==> Fits(spans, v)
  {
    HungIsUnder(spans, i, w);
    HungIsClear(spans, i, w);
    HungCovers(room, blocks, spans, i, w);
    forall v | Fits(Hung(spans, i, w), v)
      ensures Fits(spans, v)
    {
      var s :| s in Hung(spans, i, w) && FitsIn(s, v);
      var t :| t in spans && Within(s, t);
      assert FitsIn(t, v);
    }
  }

  /// The blocks a layout makes

  function PlacedBlocks(placed: seq<Placed>, width: string -> real, line: Line): seq<Span> {
    if placed == [] then []
    else
      var p := placed[|placed| - 1];
      PlacedBlocks(placed[..|placed| - 1], width, line)
      + if SameLine(p.line, line) then [PieceBlock(p.x, width(p.name))] else []
  }

  /** Everything in the way on a line: what was there, and what has been hung. */
  function LineBlocks(taken: Taken, placed: seq<Placed>, width: string -> real, line: Line): seq<Span> {
    TakenBlocks(TakenOn(taken, line)) + PlacedBlocks(placed, width, line)
  }

  lemma {:induction false} PlacedIsABlock(placed: seq<Placed>, width: string -> real, line: Line, p: Placed)
    requires p in placed && SameLine(p.line, line)
    ensures PieceBlock(p.x, width(p.name)) in PlacedBlocks(placed, width, line)
  {
    var front, last := placed[..|placed| - 1], placed[|placed| - 1];
    assert placed == front + [last];
    if p in front {
      PlacedIsABlock(front, width, line, p);
    }
  }

  lemma LineBlocksPush(taken: Taken, placed: seq<Placed>, width: string -> real, line: Line, p: Placed)
    ensures LineBlocks(taken, placed + [p], width, line) ==
            LineBlocks(taken, placed, width, line)
            + if SameLine(p.line, line) then [PieceBlock(p.x, width(p.name))] else []
  {
    assert (placed + [p])[..|placed|] == placed;
  }

  ghost predicate WallOk(room: Span, taken: Taken, placed: seq<Placed>, width: string -> real, wall: Wall) {
    forall line: Line :: LineOk(room, LineBlocks(taken, placed, width, line), On(wall, line))
  }

  lemma HangingKeepsTheWall(room: Span, taken: Taken, placed: seq<Placed>, width: string -> real, wall: Wall,
                            p: Placed, i: nat)
    requires WallOk(room, taken, placed, width, wall) && width(p.name) >= 0.0
    requires i < |On(wall, p.line)| && FitsIn(On(wall, p.line)[i], width(p.name)) && p.x == Middle(On(wall, p.line)[i])
    ensures WallOk(room, taken, placed + [p], width, Put(wall, p.line, Hung(On(wall, p.line), i, width(p.name))))
  {
    var after := Put(wall, p.line, Hung(On(wall, p.line), i, width(p.name)));
    forall line: Line
      ensures LineOk(room, LineBlocks(taken, placed + [p], width, line), On(after, line))
    {
      assert LineOk(room, LineBlocks(taken, placed, width, line), On(wall, line));
      LineBlocksPush(taken, placed, width, line, p);
      if SameLine(p.line, line) {
        HungOk(room, LineBlocks(taken, placed, width, line), On(wall, line), i, width(p.name));
      } else {
        assert On(after, line) == On(wall, line);
        assert LineBlocks(taken, placed + [p], width, line) == LineBlocks(taken, placed, width, line);
      }
    }
  }

  /// Spacing

  /** At least a gap between the two pieces' edges. */
  predicate Spaced(p: Placed, q: Placed, width: string -> real) {
    || p.x + width(p.name) * 0.5 + GAP <= q.x - width(q.name) * 0.5
    || q.x + width(q.name) * 0.5 + GAP <= p.x - width(p.name) * 0.5
  }

  predicate OffTheWalls(p: Placed, width: string -> real, x0: real, x1: real) {
    x0 + GAP <= p.x - width(p.name) * 0.5 && p.x + width(p.name) * 0.5 + GAP <= x1
  }

  predicate OffTaken(p: Placed, width: string -> real, t: (real, real)) {
    p.x + width(p.name) * 0.5 + GAP <= t.0 - t.1 || t.0 + t.1 + GAP <= p.x - width(p.name) * 0.5
  }

  ghost predicate WellSpaced(x0: real, x1: real, taken: Taken, placed: seq<Placed>, width: string -> real) {
    && (forall p :: p in placed ==> OffTheWalls(p, width, x0, x1))
    && (forall p, t :: p in placed && t in TakenOn(taken, p.line) ==> OffTaken(p, width, t))
    && (forall i, j :: 0 <= i < j < |placed| && SameLine(placed[i].line, placed[j].line) ==>
          Spaced(placed[i], placed[j], width))
  }

  /** A piece in the middle of a span that fits it keeps clear of everything the span does. */
  lemma PieceIsClear(room: Span, blocks: seq<Span>, spans: seq<Span>, i: nat, w: real)
    requires SpansOk(room, blocks, spans) && i < |spans| && FitsIn(spans[i], w)
    ensures var x := Middle(spans[i]);
            var piece := Span(x - w * 0.5, x + w * 0.5);
            Within(piece, room) && forall b :: b in blocks ==> Clear(piece, b)
  {
    assert spans[i] in spans;
  }

  lemma NewPieceIsSpaced(x0: real, x1: real, taken: Taken, placed: seq<Placed>, width: string -> real, wall: Wall,
                         p: Placed, i: nat)
    requires WallOk(Room(x0, x1), taken, placed, width, wall)
    requires i < |On(wall, p.line)| && FitsIn(On(wall, p.line)[i], width(p.name)) && p.x == Middle(On(wall, p.line)[i])
    ensures OffTheWalls(p, width, x0, x1)
    ensures forall t :: t in TakenOn(taken, p.line) ==> OffTaken(p, width, t)
    ensures forall q :: q in placed && SameLine(q.line, p.line) ==> Spaced(q, p, width)
  {
    var blocks := LineBlocks(taken, placed, width, p.line);
    assert LineOk(Room(x0, x1), blocks, On(wall, p.line));
    PieceIsClear(Room(x0, x1), blocks, On(wall, p.line), i, width(p.name));
    forall t | t in TakenOn(taken, p.line)
      ensures OffTaken(p, width, t)
    {
      var k :| 0 <= k < |TakenOn(taken, p.line)| && TakenOn(taken, p.line)[k] == t;
      assert blocks[k] == TakenBlock(t) && blocks[k] in blocks;
    }
    forall q | q in placed && SameLine(q.line, p.line)
      ensures Spaced(q, p, width)
    {
      PlacedIsABlock(placed, width, p.line, q);
      assert PieceBlock(q.x, width(q.name)) in blocks;
    }
  }

  lemma HangingStaysSpaced(x0: real, x1: real, taken: Taken, placed: seq<Placed>, width: string -> real, wall: Wall,
                           p: Placed, i: nat)
    requires WallOk(Room(x0, x1), taken, placed, width, wall) && WellSpaced(x0, x1, taken, placed, width)
    requires i < |On(wall, p.line)| && FitsIn(On(wall, p.line)[i], width(p.name)) && p.x == Middle(On(wall, p.line)[i])
    ensures WellSpaced(x0, x1, taken, placed + [p], width)
  {
    NewPieceIsSpaced(x0, x1, taken, placed, width, wall, p, i);
    forall i, j | 0 <= i < j < |placed + [p]| && SameLine((placed + [p])[i].line, (placed + [p])[j].line)
      ensures Spaced((placed + [p])[i], (placed + [p])[j], width)
    {
      if j == |placed| {
        assert placed[i] in placed;
      }
    }
  }

  /// Turns round the list

  /** The entry of the list whose turn it is. */
  function Turn(start: nat, n: nat, k: nat): (e: nat)
    requires n > 0
    ensures e < n
  {
    (start + k) % n
  }

  function Turns(start: nat, n: nat, k: nat, e: nat): (t: nat)
    requires n > 0
    ensures t <= k
  {
    if k == 0 then 0 else Turns(start, n, k - 1, e) + if Turn(start, n, k - 1) == e then 1 else 0
  }

  /** Within the first round an entry's turn comes once. */
  lemma {:induction false} FirstRound(start: nat, n: nat, k: nat, e: nat)
    requires e < n && start < n && k <= n
    ensures Turns(start, n, k, e) == if (if e >= start then e - start else e + n - start) < k then 1 else 0
  {
    if k > 0 {
      FirstRound(start, n, k - 1, e);
      TurnIs(start, n, k - 1);
    }
  }

  lemma SmallMod(a: nat, n: nat)
    requires a < n
    ensures a % n == a
  {
  }

  lemma TurnIs(start: nat, n: nat, k: nat)
    requires start < n && k < n
    ensures Turn(start, n, k) == if start + k < n then start + k else start + k - n
  {
    if start + k >= n {
      AddMod(start + k - n, n);
      SmallMod(start + k - n, n);
    } else {
      SmallMod(start + k, n);
    }
  }

  lemma AddMod(a: nat, n: nat)
    requires n > 0
    ensures (a + n) % n == a % n
  {
    OneMoreRound(a / n, n);
    QuotientIsUnique(n, (a + n) / n, (a + n) % n, a / n + 1, a % n);
  }

  lemma QuotientIsUnique(n: nat, p: nat, s: nat, q: nat, r: nat)
    requires r < n && s < n && p * n + s == q * n + r
    ensures p == q && r == s
  {
    RoundsGrow(p, q, n);
    RoundsGrow(q, p, n);
  }

  lemma {:induction false} ProductGrows(p: nat, q: nat, n: nat)
    requires p <= q
    ensures p * n <= q * n
  {
    if p < q {
      ProductGrows(p, q - 1, n);
      OneMoreRound(q - 1, n);
    }
  }

  lemma RoundsGrow(p: nat, q: nat, n: nat)
    ensures p < q ==> p * n + n <= q * n
  {
    if p < q {
      ProductGrows(p + 1, q, n);
    }
  }

  lemma OneMoreRound(rounds: nat, n: nat)
    ensures rounds * n + n == (rounds + 1) * n
  {
  }

  lemma {:induction false} AnotherRound(start: nat, n: nat, k: nat, e: nat)
    requires e < n && start < n
    ensures Turns(start, n, k + n, e) == Turns(start, n, k, e) + 1
  {
    if k == 0 {
      FirstRound(start, n, n, e);
    } else {
      AnotherRound(start, n, k - 1, e);
      AddMod(start + k - 1, n);
    }
  }

  lemma {:induction false} OneTurnARound(start: nat, n: nat, rounds: nat, e: nat)
    requires e < n && start < n
    ensures Turns(start, n, rounds * n, e) == rounds
  {
    if rounds > 0 {
      OneTurnARound(start, n, rounds - 1, e);
      AnotherRound(start, n, (rounds - 1) * n, e);
      OneMoreRound(rounds - 1, n);
    }
  }

  /** How often an entry of the list has been hung. */
  function Count(entries: seq<nat>, e: nat): nat {
    if entries == [] then 0 else Count(entries[..|entries| - 1], e) + if entries[|entries| - 1] == e then 1 else 0
  }

  lemma CountPush(entries: seq<nat>, e: nat, f: nat)
    ensures Count(entries + [f], e) == Count(entries, e) + if f == e then 1 else 0
  {
    assert (entries + [f])[..|entries|] == entries;
  }

  /** An entry has been hung at every turn so far, or nothing on its line fits it any more. */
  predicate Served(pieces: seq<Piece>, width: string -> real, start: nat, k: nat, entries: seq<nat>, wall: Wall, e: nat)
    requires e < |pieces|
  {
    && Count(entries, e) <= Turns(start, |pieces|, k, e)
    && (Count(entries, e) == Turns(start, |pieces|, k, e) || !Fits(On(wall, pieces[e].line), width(pieces[e].name)))
  }

  lemma HangingServes(pieces: seq<Piece>, width: string -> real, start: nat, k: nat, entries: seq<nat>, wall: Wall,
                      after: Wall, e: nat)
    requires e < |pieces| && Served(pieces, width, start, k, entries, wall, e)
    requires var f := Turn(start, |pieces|, k); Fits(On(wall, pieces[f].line), width(pieces[f].name))
    requires forall line: Line, w :: Fits(On(after, line), w) ==> Fits(On(wall, line), w)
    ensures Served(pieces, width, start, k + 1, entries + [Turn(start, |pieces|, k)], after, e)
  {
    CountPush(entries, e, Turn(start, |pieces|, k));
  }

  lemma SkippingServes(pieces: seq<Piece>, width: string -> real, start: nat, k: nat, entries: seq<nat>, wall: Wall,
                       e: nat)
    requires e < |pieces| && Served(pieces, width, start, k, entries, wall, e)
    requires var f := Turn(start, |pieces|, k); !Fits(On(wall, pieces[f].line), width(pieces[f].name))
    ensures Served(pieces, width, start, k + 1, entries, wall, e)
  {
  }

  /// The whole layout

  /** How many rounds of the list a wall gets: one for every 400 units begun, never less than one. */
  function Passes(x0: real, x1: real): (passes: nat)
    ensures passes >= 1
    ensures x1 - x0 <= 400.0 ==> passes == 1
    ensures x1 - x0 > 400.0 ==> 400.0 * (passes - 1) as real < x1 - x0 <= 400.0 * passes as real
  {
    var ceiling := -(-((x1 - x0) / 400.0)).Floor;
    if ceiling < 1 then 1 else ceiling
  }

  ghost predicate Laid(pieces: seq<Piece>, x0: real, x1: real, taken: Taken, width: string -> real, start: nat, k: nat,
                       placed: seq<Placed>, entries: seq<nat>, wall: Wall) {
    && WallOk(Room(x0, x1), taken, placed, width, wall)
    && WellSpaced(x0, x1, taken, placed, width)
    && |entries| == |placed|
    && (forall j :: 0 <= j < |placed| ==> entries[j] < |pieces| && IsPiece(placed[j], pieces[entries[j]]))
    && (forall e :: 0 <= e < |pieces| ==> Served(pieces, width, start, k, entries, wall, e))
  }

  predicate IsPiece(p: Placed, piece: Piece) {
    p.name == piece.name && p.line == piece.line
  }

  /** A turn of `piece`: it is hung in the middle of the widest span of its line that fits it, or it is passed
      over because none does. */
  ghost predicate TurnTaken(piece: Piece, width: string -> real, placed: seq<Placed>, wall: Wall,
                            placed': seq<Placed>, wall': Wall)
  {
    var spans := On(wall, piece.line);
    || (!Fits(spans, width(piece.name)) && placed' == placed && wall' == wall)
    || exists i: nat :: && Widest(spans, width(piece.name), i)
                   && placed' == placed + [Placed(piece.name, Middle(spans[i]), piece.line)]
                   && wall' == Put(wall, piece.line, Hung(spans, i, width(piece.name)))
  }

  /** Hang one piece on the widest span of its line that fits it, if any does. */
  method HangOne(pieces: seq<Piece>, ghost x0: real, ghost x1: real, ghost taken: Taken, width: string -> real,
                 start: nat,
                 k: nat, placed: seq<Placed>, ghost entries: seq<nat>, wall: Wall)
    returns (placed': seq<Placed>, ghost entries': seq<nat>, wall': Wall)
    requires pieces != [] && forall piece :: piece in pieces ==> width(piece.name) >= 0.0
    requires Laid(pieces, x0, x1, taken, width, start, k, placed, entries, wall)
    ensures Laid(pieces, x0, x1, taken, width, start, k + 1, placed', entries', wall')
    ensures TurnTaken(pieces[Turn(start, |pieces|, k)], width, placed, wall, placed', wall')
  {
    var e := Turn(start, |pieces|, k);
    var piece := pieces[e];
    var w := width(piece.name);
    var best := WidestFit(On(wall, piece.line), w);
    if best.None? {
      placed', entries', wall' := placed, entries, wall;
      SkipKeeps(pieces, x0, x1, taken, width, start, k, placed, entries, wall);
    } else {
      var spans := On(wall, piece.line);
      var p := Placed(piece.name, Middle(spans[best.value]), piece.line);
      HangKeeps(pieces, x0, x1, taken, width, start, k, placed, entries, wall, best.value, p);
      placed', entries', wall' := placed + [p], entries + [e], Put(wall, piece.line, Hung(spans, best.value, w));
    }
  }

  lemma SkipKeeps(pieces: seq<Piece>, x0: real, x1: real, taken: Taken, width: string -> real, start: nat, k: nat,
                  placed: seq<Placed>, entries: seq<nat>, wall: Wall)
    requires pieces != [] && Laid(pieces, x0, x1, taken, width, start, k, placed, entries, wall)
    requires var f := Turn(start, |pieces|, k); !Fits(On(wall, pieces[f].line), width(pieces[f].name))
    ensures Laid(pieces, x0, x1, taken, width, start, k + 1, placed, entries, wall)
  {
    var next := k + 1;
    forall e | 0 <= e < |pieces|
      ensures Served(pieces, width, start, next, entries, wall, e)
    {
      SkippingServes(pieces, width, start, k, entries, wall, e);
    }
  }

  lemma HangKeeps(pieces: seq<Piece>, x0: real, x1: real, taken: Taken, width: string -> real, start: nat, k: nat,
                  placed: seq<Placed>, entries: seq<nat>, wall: Wall, i: nat, p: Placed)
    requires pieces != [] && Laid(pieces, x0, x1, taken, width, start, k, placed, entries, wall)
    requires IsPiece(p, pieces[Turn(start, |pieces|, k)]) && width(p.name) >= 0.0
    requires i < |On(wall, p.line)| && FitsIn(On(wall, p.line)[i], width(p.name)) && p.x == Middle(On(wall, p.line)[i])
    ensures Laid(pieces, x0, x1, taken, width, start, k + 1, placed + [p], entries + [Turn(start, |pieces|, k)],
                 Put(wall, p.line, Hung(On(wall, p.line), i, width(p.name))))
  {
    hide SpansOk, Covers, LineBlocks, WellSpaced, Turn, Hung;
    var spans := On(wall, p.line);
    var after := Put(wall, p.line, Hung(spans, i, width(p.name)));
    HangingKeepsTheWall(Room(x0, x1), taken, placed, width, wall, p, i);
    HangingStaysSpaced(x0, x1, taken, placed, width, wall, p, i);
    assert LineOk(Room(x0, x1), LineBlocks(taken, placed, width, p.line), spans);
    HungOk(Room(x0, x1), LineBlocks(taken, placed, width, p.line), spans, i, width(p.name));
    assert spans[i] in spans;
    forall line: Line, w | Fits(On(after, line), w)
      ensures Fits(On(wall, line), w)
    {
      assert SameLine(line, p.line) || On(after, line) == On(wall, line);
    }
    var next, entries' := k + 1, entries + [Turn(start, |pieces|, k)];
    forall e | 0 <= e < |pieces|
      ensures Served(pieces, width, start, next, entries', after, e)
    {
      HangingServes(pieces, width, start, k, entries, wall, after, e);
    }
  }

  /** A stretch of a covered line long enough for a piece means a span that fits it. */
  lemma NothingFitsMeansFull(room: Span, blocks: seq<Span>, spans: seq<Span>, w: real)
    requires Covers(room, blocks, spans) && !Fits(spans, w)
    ensures forall u, v :: FreeAt(room, blocks, u, v) ==> v - u < w
  {
    forall u, v | FreeAt(room, blocks, u, v)
      ensures v - u < w
    {
      var s :| s in spans && s.lo <= u && v <= s.hi;
      assert !FitsIn(s, w);
    }
  }

  /** Each entry was hung in every round, or its line has no free stretch left that is as long as the piece. */
  ghost predicate Full(pieces: seq<Piece>, x0: real, x1: real, taken: Taken, width: string -> real, placed: seq<Placed>,
                       entries: seq<nat>, e: nat)
    requires e < |pieces|
  {
    var w := width(pieces[e].name);
    && Count(entries, e) <= Passes(x0, x1)
    && (Count(entries, e) == Passes(x0, x1)
        || forall u, v :: FreeAt(Room(x0, x1), LineBlocks(taken, placed, width, pieces[e].line), u, v) ==> v - u < w)
  }

  lemma LaidIsFull(pieces: seq<Piece>, x0: real, x1: real, taken: Taken, width: string -> real, start: nat,
                   placed: seq<Placed>, entries: seq<nat>, wall: Wall)
    requires start < |pieces|
    requires Laid(pieces, x0, x1, taken, width, start, Passes(x0, x1) * |pieces|, placed, entries, wall)
    ensures WellSpaced(x0, x1, taken, placed, width) && |entries| == |placed|
    ensures forall j :: 0 <= j < |placed| ==> entries[j] < |pieces| && IsPiece(placed[j], pieces[entries[j]])
    ensures forall e :: 0 <= e < |pieces| ==> Full(pieces, x0, x1, taken, width, placed, entries, e)
  {
    forall e | 0 <= e < |pieces|
      ensures Full(pieces, x0, x1, taken, width, placed, entries, e)
    {
      OneTurnARound(start, |pieces|, Passes(x0, x1), e);
      assert Served(pieces, width, start, Passes(x0, x1) * |pieces|, entries, wall, e);
      var line := pieces[e].line;
      assert LineOk(Room(x0, x1), LineBlocks(taken, placed, width, line), On(wall, line));
      if !Fits(On(wall, line), width(pieces[e].name)) {
        NothingFitsMeansFull(Room(x0, x1), LineBlocks(taken, placed, width, line), On(wall, line),
                             width(pieces[e].name));
      }
    }
  }

  /** What hangs, and what is free, at one moment of the laying out. */
  datatype Moment = Moment(placed: seq<Placed>, wall: Wall)

  /** The history of a layout: from the bare wall, at turn `k` the list is at entry `seed + k`, all rounds of it. */
  ghost predicate LaidOut(pieces: seq<Piece>, x0: real, x1: real, taken: Taken, width: string -> real, seed: nat,
                          history: seq<Moment>)
    requires pieces != []
  {
    && |history| > 0 && history[0].placed == []
    && LineOk(Room(x0, x1), TakenBlocks(taken.eye), history[0].wall.eye)
    && LineOk(Room(x0, x1), TakenBlocks(taken.high), history[0].wall.high)
    && LineOk(Room(x0, x1), TakenBlocks(taken.floor), history[0].wall.floor)
    && forall k :: 0 <= k < |history| - 1 ==>
         TurnTaken(pieces[(seed % |pieces| + k) % |pieces|], width, history[k].placed, history[k].wall,
                   history[k + 1].placed, history[k + 1].wall)
  }

  lemma LaidFurther(pieces: seq<Piece>, x0: real, x1: real, taken: Taken, width: string -> real, seed: nat,
                    history: seq<Moment>, next: Moment)
    requires pieces != [] && LaidOut(pieces, x0, x1, taken, width, seed, history)
    requires var k, last := |history| - 1, history[|history| - 1];
             TurnTaken(pieces[(seed % |pieces| + k) % |pieces|], width, last.placed, last.wall, next.placed, next.wall)
    ensures LaidOut(pieces, x0, x1, taken, width, seed, history + [next])
  {
    hide TurnTaken, LineOk;
  }

  /** Lay the pieces out along the room. `entries` says which entry of the list each piece came from, and
      `history` what every turn did. */
  method Dress(pieces: seq<Piece>, x0: real, x1: real, taken: Taken, width: string -> real, seed: nat)
    returns (placed: seq<Placed>, ghost entries: seq<nat>, ghost history: seq<Moment>)
    requires pieces != [] && forall piece :: piece in pieces ==> width(piece.name) >= 0.0
    requires forall t :: t in taken.eye + taken.high + taken.floor ==> t.1 >= 0.0
    ensures WellSpaced(x0, x1, taken, placed, width)
    ensures |entries| == |placed|
    ensures forall j :: 0 <= j < |placed| ==> entries[j] < |pieces| && IsPiece(placed[j], pieces[entries[j]])
    ensures forall e :: 0 <= e < |pieces| ==> Full(pieces, x0, x1, taken, width, placed, entries, e)
    ensures LaidOut(pieces, x0, x1, taken, width, seed, history)
    ensures |history| == Passes(x0, x1) * |pieces| + 1 && history[|history| - 1].placed == placed
  {
    hide TurnTaken, LaidOut, Laid, Full, WellSpaced, IsPiece, LineOk, Passes;
    var eye := Free(x0, x1, taken.eye);
    var high := Free(x0, x1, taken.high);
    var floor := Free(x0, x1, taken.floor);
    var wall := Wall(eye, high, floor);
    placed, entries := [], [];
    var n := |pieces|;
    var start := seed % n;
    var turns := Passes(x0, x1) * n;
    BareWall(pieces, x0, x1, taken, width, start, wall);
    history := [Moment([], wall)];
    NothingLaid(pieces, x0, x1, taken, width, seed, wall);
    for k := 0 to turns
      invariant Laid(pieces, x0, x1, taken, width, start, k, placed, entries, wall)
      invariant LaidOut(pieces, x0, x1, taken, width, seed, history)
      invariant |history| == k + 1 && history[k] == Moment(placed, wall)
    {
      placed, entries, wall := HangOne(pieces, x0, x1, taken, width, start, k, placed, entries, wall);
      LaidFurther(pieces, x0, x1, taken, width, seed, history, Moment(placed, wall));
      history := history + [Moment(placed, wall)];
    }
    LaidIsFull(pieces, x0, x1, taken, width, start, placed, entries, wall);
  }

  lemma NothingLaid(pieces: seq<Piece>, x0: real, x1: real, taken: Taken, width: string -> real, seed: nat, wall: Wall)
    requires pieces != []
    requires LineOk(Room(x0, x1), TakenBlocks(taken.eye), wall.eye)
    requires LineOk(Room(x0, x1), TakenBlocks(taken.high), wall.high)
    requires LineOk(Room(x0, x1), TakenBlocks(taken.floor), wall.floor)
    ensures LaidOut(pieces, x0, x1, taken, width, seed, [Moment([], wall)])
  {
  }

  lemma BareWall(pieces: seq<Piece>, x0: real, x1: real, taken: Taken, width: string -> real, start: nat, wall: Wall)
    requires pieces != []
    requires LineOk(Room(x0, x1), TakenBlocks(taken.eye), wall.eye)
    requires LineOk(Room(x0, x1), TakenBlocks(taken.high), wall.high)
    requires LineOk(Room(x0, x1), TakenBlocks(taken.floor), wall.floor)
    ensures Laid(pieces, x0, x1, taken, width, start, 0, [], [], wall)
  {
    forall line: Line
      ensures LineOk(Room(x0, x1), LineBlocks(taken, [], width, line), On(wall, line))
    {
      assert LineBlocks(taken, [], width, line) == TakenBlocks(TakenOn(taken, line));
    }
  }
}
