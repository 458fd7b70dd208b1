/**
 * Single-move legality of chess figures on an 8x8 board, in isolation:
 * no other figures, no captures, no check.  A figure knows its variant,
 * its colour and its square; its colour can be toggled and its square
 * changed through a bounds check, and each variant decides geometrically
 * whether it could move to a given square.
 */
module Chess {
  import opened Wrappers

  datatype Color = White | Black

  /** The six concrete variants; the abstract base figure cannot be built here. */
  datatype Kind = Pawn | Knight | Bishop | Rook | Queen | King

  /** A square as (column, row); nothing forces it onto the board. */
  datatype Pos = Pos(col: int, row: int)

  /** The only error `change_position` raises. */
  datatype PositionError = OutOfBounds

  function Abs(x: int): (r: nat)
    ensures r == x || r == -x
  {
    if x < 0 then -x else x
  }

  /** The colour after a toggle: black becomes white, anything else black. */
  function Opposite(c: Color): (r: Color)
    ensures r != c
  {
    if c == Black then White else Black
  }

  /** Both coordinates lie in 1..8. */
  predicate IsValidPosition(p: Pos) {
    1 <= p.col <= 8 && 1 <= p.row <= 8
  }

  // The geometric rule of each variant, applied to an on-board target.

  predicate PawnRule(color: Color, from: Pos, to: Pos) {
    var colDiff := to.col - from.col;
    var rowDiff := to.row - from.row;
    if color == White then
      colDiff == 0 && (rowDiff == 1 || (from.row == 2 && rowDiff == 2))
    else
      colDiff == 0 && (rowDiff == -1 || (from.row == 7 && rowDiff == -2))
  }

  predicate KnightRule(from: Pos, to: Pos) {
    var colDiff := Abs(to.col - from.col);
    var rowDiff := Abs(to.row - from.row);
    (colDiff == 2 && rowDiff == 1) || (colDiff == 1 && rowDiff == 2)
  }

  predicate BishopRule(from: Pos, to: Pos) {
    Abs(to.col - from.col) == Abs(to.row - from.row)
  }

  predicate RookRule(from: Pos, to: Pos) {
    to.col - from.col == 0 || to.row - from.row == 0
  }

  predicate QueenRule(from: Pos, to: Pos) {
    var colDiff := Abs(to.col - from.col);
    var rowDiff := Abs(to.row - from.row);
    colDiff == rowDiff || colDiff == 0 || rowDiff == 0
  }

  predicate KingRule(from: Pos, to: Pos) {
    Abs(to.col - from.col) <= 1 && Abs(to.row - from.row) <= 1
  }

  /** `can_move_to` of a figure of the given variant, colour and square. */
  predicate CanMove(kind: Kind, color: Color, from: Pos, to: Pos) {
    IsValidPosition(to) &&
    match kind
    case Pawn => PawnRule(color, from, to)
    case Knight => KnightRule(from, to)
    case Bishop => BishopRule(from, to)
    case Rook => RookRule(from, to)
    case Queen => QueenRule(from, to)
    case King => KingRule(from, to)
  }

  class Figure {
    const kind: Kind
    var color: Color
    var position: Pos

    /** Stores colour and square as given; the square is not validated. */
    constructor (kind: Kind, color: Color, position: Pos)
      ensures this.kind == kind && this.color == color && this.position == position
    {
      this.kind := kind;
      this.color := color;
      this.position := position;
    }

    method ChangeColor()
      modifies this
      ensures color == Opposite(old(color))
      ensures position == old(position)
    {
      if color == Black {
        color := White;
      } else {
        color := Black;
      }
    }

    /** Moves to an on-board target; an off-board one fails and changes nothing. */
    method ChangePosition(target: Pos) returns (r: Outcome<PositionError>)
      modifies this
      ensures r.Pass? <==> IsValidPosition(target)
      ensures r.Fail? ==> r.error == OutOfBounds
      ensures position == (if IsValidPosition(target) then target else old(position))
      ensures color == old(color)
    {
      if 1 <= target.col <= 8 && 1 <= target.row <= 8 {
        position := target;
        r := Pass;
      } else {
        r := Fail(OutOfBounds);
      }
    }

    /** A pure query: as a function it can change no field. */
    predicate CanMoveTo(target: Pos)
      reads this
    {
      CanMove(kind, color, position, target)
    }
  }

  /** The figures that can move to `target`, in their original order, duplicates kept. */
  function FiguresThatCanMove(figures: seq<Figure>, target: Pos): (r: seq<Figure>)
    reads figures
    ensures |r| <= |figures|
    ensures forall k :: 0 <= k < |r| ==> r[k] in figures && r[k].CanMoveTo(target)
  {
    if figures == [] then []
    else
      var rest := FiguresThatCanMove(figures[1..], target);
      if figures[0].CanMoveTo(target) then [figures[0]] + rest else rest
  }

  lemma FilterCons(f: Figure, rest: seq<Figure>, target: Pos)
    ensures FiguresThatCanMove([f] + rest, target) ==
            (if f.CanMoveTo(target) then [f] else []) + FiguresThatCanMove(rest, target)
  {
    assert ([f] + rest)[1..] == rest;
  }

  /** Each figure occurs in the result as often as in the input when it can move, else never. */
  lemma {:induction false} FilterKeepsDuplicates(figures: seq<Figure>, target: Pos, f: Figure)
    ensures multiset(FiguresThatCanMove(figures, target))[f] ==
            if f.CanMoveTo(target) then multiset(figures)[f] else 0
  {
    if figures != [] {
      var rest: seq<Figure> := figures[1..];
      assert figures == [figures[0]] + rest;
      FilterCons(figures[0], rest, target);
      FilterKeepsDuplicates(rest, target, f);
    }
  }

  /** The indices, from `start` on, of the figures that can move to `target`. */
  ghost function MoverIndicesFrom(figures: seq<Figure>, target: Pos, start: nat): (idx: seq<nat>)
    requires start <= |figures|
    reads figures
    ensures forall k :: 0 <= k < |idx| ==> start <= idx[k] < |figures| && figures[idx[k]].CanMoveTo(target)
    ensures forall k, m :: 0 <= k < m < |idx| ==> idx[k] < idx[m]
    ensures forall i :: start <= i < |figures| && figures[i].CanMoveTo(target) ==> i in idx
    decreases |figures| - start
  {
    if start == |figures| then []
    else if figures[start].CanMoveTo(target) then [start] + MoverIndicesFrom(figures, target, start + 1)
    else MoverIndicesFrom(figures, target, start + 1)
  }

  lemma {:induction false} FilterTakesMoverIndicesFrom(figures: seq<Figure>, target: Pos, start: nat)
    requires start <= |figures|
    ensures var r := FiguresThatCanMove(figures[start..], target);
            var idx := MoverIndicesFrom(figures, target, start);
            |r| == |idx| && forall k :: 0 <= k < |r| ==> r[k] == figures[idx[k]]
    decreases |figures| - start
  {
    if start < |figures| {
      FilterTakesMoverIndicesFrom(figures, target, start + 1);
      var s := figures[start..];
      assert s == [figures[start]] + figures[start + 1..];
      FilterCons(figures[start], figures[start + 1..], target);
      var r := FiguresThatCanMove(s, target);
      var rest := FiguresThatCanMove(figures[start + 1..], target);
      var idx := MoverIndicesFrom(figures, target, start);
      var restIdx := MoverIndicesFrom(figures, target, start + 1);
      if figures[start].CanMoveTo(target) {
        assert r == [figures[start]] + rest;
        assert idx == [start] + restIdx;
        forall k | 0 <= k < |r|
          ensures r[k] == figures[idx[k]]
        {
          if k > 0 {
            assert r[k] == rest[k - 1] && idx[k] == restIdx[k - 1];
          }
        }
      } else {
        assert r == rest && idx == restIdx;
      }
    }
  }

  /**
   * The filter is a stable selection: its result is the input read at a
   * strictly increasing list of indices, which are exactly the indices of
   * the figures that can move to `target`.
   */
  lemma FilterIsStableSelection(figures: seq<Figure>, target: Pos)
    ensures var r := FiguresThatCanMove(figures, target);
            var idx := MoverIndicesFrom(figures, target, 0);
            |r| == |idx|
            && (forall k :: 0 <= k < |r| ==> r[k] == figures[idx[k]])
            && (forall k, m :: 0 <= k < m < |idx| ==> idx[k] < idx[m])
            && (forall i :: 0 <= i < |figures| ==> (i in idx <==> figures[i].CanMoveTo(target)))
  {
    FilterTakesMoverIndicesFrom(figures, target, 0);
    assert figures[0..] == figures;
  }

  // Properties of the legality rules.

  lemma OffBoardNeverLegal(kind: Kind, color: Color, from: Pos, to: Pos)
    requires !IsValidPosition(to)
    ensures !CanMove(kind, color, from, to)
  {
  }

  /** The squares a pawn steps to, before the board check. */
  function PawnSteps(color: Color, from: Pos): (r: set<Pos>) {
    match color
    case White => {Pos(from.col, from.row + 1)} + (if from.row == 2 then {Pos(from.col, 4)} else {})
    case Black => {Pos(from.col, from.row - 1)} + (if from.row == 7 then {Pos(from.col, 5)} else {})
  }

  lemma PawnTargets(color: Color, from: Pos, to: Pos)
    ensures CanMove(Pawn, color, from, to) <==> IsValidPosition(to) && to in PawnSteps(color, from)
  {
  }

  /** Reflecting the board top to bottom turns white pawn moves into black ones. */
  function Mirror(p: Pos): (r: Pos) {
    Pos(p.col, 9 - p.row)
  }

  lemma PawnColorsMirror(from: Pos, to: Pos)
    ensures CanMove(Pawn, White, from, to) <==> CanMove(Pawn, Black, Mirror(from), Mirror(to))
  {
  }

  /** The eight knight jumps, before the board check. */
  function KnightJumps(from: Pos): (r: set<Pos>) {
    var c, r := from.col, from.row;
    {Pos(c + 1, r + 2), Pos(c + 2, r + 1), Pos(c + 2, r - 1), Pos(c + 1, r - 2),
     Pos(c - 1, r - 2), Pos(c - 2, r - 1), Pos(c - 2, r + 1), Pos(c - 1, r + 2)}
  }

  lemma KnightTargets(color: Color, from: Pos, to: Pos)
    ensures CanMove(Knight, color, from, to) <==> IsValidPosition(to) && to in KnightJumps(from)
  {
  }

  lemma KnightNeverStays(color: Color, p: Pos)
    ensures !CanMove(Knight, color, p, p)
  {
  }

  /** A bishop reaches exactly the on-board squares of the two diagonals through its square. */
  lemma BishopDiagonals(color: Color, from: Pos, to: Pos)
    ensures CanMove(Bishop, color, from, to) <==>
            IsValidPosition(to) && (to.col - to.row == from.col - from.row || to.col + to.row == from.col + from.row)
  {
  }

  lemma QueenIsBishopOrRook(color: Color, from: Pos, to: Pos)
    ensures CanMove(Queen, color, from, to) <==> CanMove(Bishop, color, from, to) || CanMove(Rook, color, from, to)
  {
  }

  /** The nine squares around (and including) a king's square, before the board check. */
  function KingSquares(from: Pos): (r: set<Pos>) {
    var c, r := from.col, from.row;
    {Pos(c - 1, r - 1), Pos(c - 1, r), Pos(c - 1, r + 1),
     Pos(c, r - 1), Pos(c, r), Pos(c, r + 1),
     Pos(c + 1, r - 1), Pos(c + 1, r), Pos(c + 1, r + 1)}
  }

  lemma KingTargets(color: Color, from: Pos, to: Pos)
    ensures CanMove(King, color, from, to) <==> IsValidPosition(to) && to in KingSquares(from)
  {
  }

  lemma KingWithinQueen(color: Color, from: Pos, to: Pos)
    requires CanMove(King, color, from, to)
    ensures CanMove(Queen, color, from, to)
  {
  }

  /** Staying put is accepted exactly by the four sliding/stepping variants, on the board. */
  lemma StayingPut(kind: Kind, color: Color, p: Pos)
    ensures CanMove(kind, color, p, p) <==> IsValidPosition(p) && kind != Pawn && kind != Knight
  {
  }

  lemma OnlyPawnSeesColor(kind: Kind, from: Pos, to: Pos)
    requires kind != Pawn
    ensures CanMove(kind, White, from, to) == CanMove(kind, Black, from, to)
  {
  }

  /** Every variant but the pawn moves symmetrically between two board squares. */
  lemma SymmetricUnlessPawn(kind: Kind, color: Color, a: Pos, b: Pos)
    requires kind != Pawn && IsValidPosition(a) && IsValidPosition(b)
    ensures CanMove(kind, color, a, b) == CanMove(kind, color, b, a)
  {
  }

  lemma OppositeInvolutive(c: Color)
    ensures Opposite(Opposite(c)) == c
  {
  }

  /** Worked examples of the per-variant rules. */
  lemma ExampleMoves()
    ensures CanMove(Pawn, White, Pos(5, 2), Pos(5, 3)) && CanMove(Pawn, White, Pos(5, 2), Pos(5, 4))
    ensures !CanMove(Pawn, White, Pos(5, 2), Pos(5, 5)) && !CanMove(Pawn, White, Pos(5, 2), Pos(4, 3))
    ensures CanMove(Pawn, Black, Pos(5, 7), Pos(5, 6)) && CanMove(Pawn, Black, Pos(5, 7), Pos(5, 5))
    ensures !CanMove(Pawn, Black, Pos(5, 7), Pos(5, 4))
    ensures CanMove(Knight, Black, Pos(2, 1), Pos(4, 2)) && CanMove(Knight, Black, Pos(2, 1), Pos(1, 3))
    ensures CanMove(Knight, Black, Pos(2, 1), Pos(3, 3))
    ensures !CanMove(Knight, Black, Pos(2, 1), Pos(2, 3)) && !CanMove(Knight, Black, Pos(2, 1), Pos(5, 1))
    ensures CanMove(Bishop, White, Pos(3, 1), Pos(5, 3)) && !CanMove(Bishop, White, Pos(3, 1), Pos(3, 5))
    ensures CanMove(Rook, Black, Pos(1, 8), Pos(5, 8)) && CanMove(Rook, Black, Pos(1, 8), Pos(1, 1))
    ensures !CanMove(Rook, Black, Pos(1, 8), Pos(5, 3))
    ensures CanMove(Queen, White, Pos(4, 1), Pos(5, 2)) && CanMove(Queen, White, Pos(4, 1), Pos(4, 8))
    ensures CanMove(Queen, White, Pos(4, 1), Pos(6, 3)) && !CanMove(Queen, White, Pos(4, 1), Pos(5, 3))
    ensures CanMove(King, Black, Pos(5, 8), Pos(5, 7)) && CanMove(King, Black, Pos(5, 8), Pos(4, 8))
    ensures !CanMove(King, Black, Pos(5, 8), Pos(5, 6))
  {
  }

  /** The filter on the demonstration figures, whatever objects hold them. */
  lemma DemoFilter(figures: seq<Figure>, target: Pos)
    requires |figures| == 6 && target == Pos(5, 3)
    requires figures[0].kind == Pawn && figures[0].color == White && figures[0].position == Pos(5, 2)
    requires figures[1].kind == Knight && figures[1].color == Black && figures[1].position == Pos(2, 1)
    requires figures[2].kind == Bishop && figures[2].color == White && figures[2].position == Pos(3, 1)
    requires figures[3].kind == Rook && figures[3].color == Black && figures[3].position == Pos(1, 8)
    requires figures[4].kind == Queen && figures[4].color == White && figures[4].position == Pos(4, 1)
    requires figures[5].kind == King && figures[5].color == Black && figures[5].position == Pos(5, 8)
    ensures FiguresThatCanMove(figures, target) == [figures[0], figures[2]]
  {
    var s := figures;
    assert s[5..][1..] == [];
    assert FiguresThatCanMove(s[5..], target) == [];
    assert s[4..][1..] == s[5..];
    assert FiguresThatCanMove(s[4..], target) == [];
    assert s[3..][1..] == s[4..];
    assert FiguresThatCanMove(s[3..], target) == [];
    assert s[2..][1..] == s[3..];
    assert FiguresThatCanMove(s[2..], target) == [s[2]];
    assert s[1..][1..] == s[2..];
    assert FiguresThatCanMove(s[1..], target) == [s[2]];
  }

  /**
   * The demonstration: six figures queried against (5, 3).  The result
   * lists the variant and square of each figure that can move there.
   */
  method DemoFiguresThatCanMove() returns (movers: seq<(Kind, Pos)>)
    ensures movers == [(Pawn, Pos(5, 2)), (Bishop, Pos(3, 1))]
  {
    var pawn := new Figure(Pawn, White, Pos(5, 2));
    var knight := new Figure(Knight, Black, Pos(2, 1));
    var bishop := new Figure(Bishop, White, Pos(3, 1));
    var rook := new Figure(Rook, Black, Pos(1, 8));
    var queen := new Figure(Queen, White, Pos(4, 1));
    var king := new Figure(King, Black, Pos(5, 8));
    var figures := [pawn, knight, bishop, rook, queen, king];
    var target := Pos(5, 3);
    DemoFilter(figures, target);
    var found := FiguresThatCanMove(figures, target);
    assert found == [pawn, bishop];
    movers := [];
    for i := 0 to |found|
      invariant |movers| == i
      invariant forall k :: 0 <= k < i ==> movers[k] == (found[k].kind, found[k].position)
    {
      movers := movers + [(found[i].kind, found[i].position)];
    }
  }
}
