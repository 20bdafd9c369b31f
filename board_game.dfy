/**
 * The in-browser hide-and-seek board: a 4 x 4 grid of cells numbered 0..15
 * row by row, and a `hiding -> seeking -> finished` phase machine. The hider
 * clicks a cell, then the seeker clicks one, and the seeker wins when the two
 * cells touch, diagonals included.
 */
module BoardGame {
  import opened Wrappers

  /** Cells per row and per column. */
  const BoardSide := 4
  /** Number of cells on the board. */
  const CellCount := 16

  const SeekStatus := "Seeker, try to find the hider!"
  const SeekerWinsStatus := "Seeker wins!"
  const HiderWinsStatus := "Hider wins!"
  const HideStatus := "Hider, choose your position!"

  /** A `[row, column]` pair. */
  datatype Position = Position(row: int, col: int)

  predicate OnBoard(p: Position)
  {
    0 <= p.row < BoardSide && 0 <= p.col < BoardSide
  }

  /** The position of the cell with the given index. */
  function PositionOf(index: int): (p: Position)
    requires 0 <= index < CellCount
    ensures OnBoard(p)
    ensures p.row * BoardSide + p.col == index
  {
    Position(index / BoardSide, index % BoardSide)
  }

  /** The index of the cell at a position, as the result display computes it. */
  function CellIndex(p: Position): (i: int)
    ensures OnBoard(p) ==> 0 <= i < CellCount && i / BoardSide == p.row && i % BoardSide == p.col
  {
    p.row * BoardSide + p.col
  }

  /** Cell index to position and back gives the same cell, and so does position to index and back. */
  lemma IndexRoundTrip(index: int, p: Position)
    ensures 0 <= index < CellCount ==> CellIndex(PositionOf(index)) == index
    ensures OnBoard(p) ==> PositionOf(CellIndex(p)) == p
  {
  }

  function Abs(n: int): int
  {
    if n < 0 then -n else n
  }

  /** Chebyshev (king-move) distance between two positions. */
  function Distance(a: Position, b: Position): nat
  {
    var dr, dc := Abs(a.row - b.row), Abs(a.col - b.col);
    if dr < dc then dc else dr
  }

  /** The seeker wins when both coordinates differ by at most one. */
  function CheckWin(hider: Position, seeker: Position): (win: bool)
    ensures win <==> Distance(hider, seeker) <= 1
  {
    Abs(hider.row - seeker.row) <= 1 && Abs(hider.col - seeker.col) <= 1
  }

  /** The positions at most one step from `p` in each coordinate: `p` and its eight neighbours. */
  function Around(p: Position): set<Position>
  {
    set dr, dc | dr in Steps && dc in Steps :: Position(p.row + dr, p.col + dc)
  }

  /** The coordinate offsets of one king move, or none. */
  const Steps: set<int> := {-1, 0, 1}

  /** The win rule is symmetric and reflexive. */
  lemma CheckWinSymmetricReflexive(a: Position, b: Position)
    ensures CheckWin(a, b) == CheckWin(b, a)
    ensures CheckWin(a, a)
  {
  }

  /** The seeker wins exactly when the seeker's cell is the hider's or one of its eight neighbours. */
  lemma CheckWinIsAround(hider: Position, seeker: Position)
    ensures CheckWin(hider, seeker) <==> seeker in Around(hider)
  {
    if CheckWin(hider, seeker) {
      var dr, dc := seeker.row - hider.row, seeker.col - hider.col;
      assert seeker == Position(hider.row + dr, hider.col + dc);
    }
  }

  datatype Phase = Hiding | Seeking | Finished

  /** What a board cell shows. */
  datatype Mark = Blank | HiderMark | SeekerMark

  /** The observable state of the game: the two positions, the phase, the status line and the board. */
  datatype GameView = GameView(
    hider: Option<Position>,
    seeker: Option<Position>,
    phase: Phase,
    status: string,
    board: seq<Mark>)

  /**
   * The invariant of the phase machine: no position while hiding, only the
   * hider's while seeking, both once finished; positions are on the board.
   */
  predicate WellFormed(v: GameView)
  {
    && |v.board| == CellCount
    && (v.phase == Hiding ==> v.hider.None? && v.seeker.None?)
    && (v.phase == Seeking ==> v.hider.Some? && OnBoard(v.hider.value) && v.seeker.None?)
    && (v.phase == Finished ==>
          v.hider.Some? && OnBoard(v.hider.value) && v.seeker.Some? && OnBoard(v.seeker.value))
  }

  /** A fresh board. */
  function BlankBoard(): seq<Mark>
  {
    seq(CellCount, _ => Blank)
  }

  /** The state after the reset button. */
  function ResetView(): (v: GameView)
    ensures WellFormed(v) && v.phase == Hiding
  {
    GameView(None, None, Hiding, HideStatus, BlankBoard())
  }

  /** The outcome of a round: the two cells marked and the winner announced. */
  function ResultView(v: GameView, hider: Position, seeker: Position): (r: GameView)
    requires |v.board| == CellCount && OnBoard(hider) && OnBoard(seeker)
    ensures |r.board| == CellCount && r.phase == Finished
    ensures r.board[CellIndex(seeker)] == SeekerMark
    ensures CellIndex(hider) != CellIndex(seeker) ==> r.board[CellIndex(hider)] == HiderMark
    ensures forall i :: 0 <= i < CellCount && i != CellIndex(hider) && i != CellIndex(seeker) ==> r.board[i] == v.board[i]
    ensures r.status == SeekerWinsStatus <==> CheckWin(hider, seeker)
    ensures r.status == HiderWinsStatus <==> !CheckWin(hider, seeker)
    ensures r.hider == v.hider && r.seeker == v.seeker
  {
    var board := v.board[CellIndex(hider) := HiderMark][CellIndex(seeker) := SeekerMark];
    var status := if CheckWin(hider, seeker) then SeekerWinsStatus else HiderWinsStatus;
    v.(board := board, status := status, phase := Finished)
  }

  /**
   * A click on cell `index`: ignored once finished; while hiding it places
   * the hider and hands over to the seeker; while seeking it places the
   * seeker and shows the result.
   */
  function ClickStep(v: GameView, index: int): (r: GameView)
    requires WellFormed(v) && 0 <= index < CellCount
    ensures WellFormed(r)
    ensures v.phase == Finished ==> r == v
    ensures v.phase == Hiding ==>
      r == v.(hider := Some(PositionOf(index)), phase := Seeking, status := SeekStatus)
    ensures v.phase == Seeking ==>
      && r.hider == v.hider
      && r.seeker == Some(PositionOf(index))
      && r.phase == Finished
      && (r.status == SeekerWinsStatus <==> CheckWin(v.hider.value, PositionOf(index)))
      && (r.status == HiderWinsStatus <==> !CheckWin(v.hider.value, PositionOf(index)))
      && r.board[index] == SeekerMark
      && (CellIndex(v.hider.value) != index ==> r.board[CellIndex(v.hider.value)] == HiderMark)
      && (forall i :: 0 <= i < CellCount && i != index && i != CellIndex(v.hider.value) ==>
            r.board[i] == v.board[i])
  {
    if v.phase == Finished then v
    else
      var position := PositionOf(index);
      if v.phase == Hiding then
        v.(hider := Some(position), phase := Seeking, status := SeekStatus)
      else
        var v1 := v.(seeker := Some(position));
        ResultView(v1, v1.hider.value, v1.seeker.value)
  }

  /**
   * A whole round from a reset board: the hider clicks `h`, the seeker
   * clicks `s`. The game is finished with both positions recorded, the two
   * clicked cells are marked (the seeker's mark on top when they coincide),
   * the seeker wins iff the cells are at distance at most one, and further
   * clicks change nothing.
   */
  lemma Round(h: int, s: int, later: int)
    requires 0 <= h < CellCount && 0 <= s < CellCount && 0 <= later < CellCount
    ensures var v := ClickStep(ClickStep(ResetView(), h), s);
      && v.phase == Finished
      && v.hider == Some(PositionOf(h)) && v.seeker == Some(PositionOf(s))
      && v.board[s] == SeekerMark
      && (h != s ==> v.board[h] == HiderMark)
      && (v.status == SeekerWinsStatus <==> Distance(PositionOf(h), PositionOf(s)) <= 1)
      && ClickStep(v, later) == v
  {
    IndexRoundTrip(h, PositionOf(s));
    IndexRoundTrip(s, PositionOf(h));
  }

  /** The browser game object, updated in place by its event handlers. */
  class HideAndSeekGame {
    var hiderPosition: Option<Position>
    var seekerPosition: Option<Position>
    var gamePhase: Phase
    var status: string
    var board: seq<Mark>

    function State(): GameView
      reads this
    {
      GameView(hiderPosition, seekerPosition, gamePhase, status, board)
    }

    predicate Valid()
      reads this
    {
      WellFormed(State())
    }

    /** A new game; `pageStatus` is the status line the page starts with. */
    constructor (pageStatus: string)
      ensures Valid()
      ensures State() == GameView(None, None, Hiding, pageStatus, BlankBoard())
    {
      hiderPosition := None;
      seekerPosition := None;
      gamePhase := Hiding;
      status := pageStatus;
      board := BlankBoard();
    }

    method HandleCellClick(index: int)
      requires Valid() && 0 <= index < CellCount
      modifies this
      ensures Valid()
      ensures State() == ClickStep(old(State()), index)
    {
      if gamePhase == Finished {
        return;
      }
      var position := PositionOf(index);
      if gamePhase == Hiding {
        hiderPosition := Some(position);
        gamePhase := Seeking;
        status := SeekStatus;
      } else if gamePhase == Seeking {
        seekerPosition := Some(position);
        PlayGame();
      }
    }

    /** The positions travel through encryption and back unchanged, then the result is shown. */
    method PlayGame()
      requires |board| == CellCount
      requires hiderPosition.Some? && OnBoard(hiderPosition.value)
      requires seekerPosition.Some? && OnBoard(seekerPosition.value)
      modifies this
      ensures State() == ResultView(old(State()), old(hiderPosition).value, old(seekerPosition).value)
    {
      DisplayResult(hiderPosition.value, seekerPosition.value);
    }

    method DisplayResult(hider: Position, seeker: Position)
      requires |board| == CellCount && OnBoard(hider) && OnBoard(seeker)
      modifies this
      ensures State() == ResultView(old(State()), hider, seeker)
    {
      board := board[CellIndex(hider) := HiderMark];
      board := board[CellIndex(seeker) := SeekerMark];
      if CheckWin(hider, seeker) {
        status := SeekerWinsStatus;
      } else {
        status := HiderWinsStatus;
      }
      gamePhase := Finished;
    }

    method ResetGame()
      modifies this
      ensures Valid()
      ensures State() == ResetView()
    {
      hiderPosition := None;
      seekerPosition := None;
      gamePhase := Hiding;
      status := HideStatus;
      board := BlankBoard();
    }
  }
}
