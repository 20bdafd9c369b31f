/**
 * The Socket.IO game server: a two-phase machine. During placement either
 * side may place at any time; once both a hider and a seeker position exist
 * the game moves to the movement phase, where hider and seeker strictly
 * alternate and an out-of-turn move is turned away without any change.
 *
 * Player types arrive as arbitrary strings from the client; only the HTTP
 * join page checks them.
 */
module SocketServer {

  const Hider := "hider"
  const Seeker := "seeker"

  /** A board position as the client sends it. */
  datatype Position = Position(x: int, y: int)

  datatype Phase = Placement | Movement

  /**
   * The server's `game_state`: `connected` holds every player type whose
   * `<type>_connected` flag is set.
   */
  datatype ServerState = ServerState(
    connected: set<string>,
    phase: Phase,
    currentTurn: string,
    positions: map<string, Position>)

  /** The event a move request produces for the clients. */
  datatype MoveEvent =
    | PositionSet        // placement stored, still waiting for the opponent
    | MovementStarted    // placement stored and both sides are now placed
    | InvalidMove        // movement phase, not this player's turn
    | Moved              // movement phase, position updated and turn handed over

  /** The result of the HTTP join page. */
  datatype JoinPage = GamePage(playerType: string) | InvalidPlayerType
  {
    function Status(): int
    {
      if GamePage? then 200 else 400
    }
  }

  /** The side that moves after `side`. */
  function Other(side: string): string
  {
    if side == Hider then Seeker else Hider
  }

  /**
   * The invariant every reachable state keeps: the turn names one of the two
   * sides, and the movement phase is only entered with both sides placed.
   */
  predicate WellFormed(s: ServerState)
  {
    && (s.currentTurn == Hider || s.currentTurn == Seeker)
    && (s.phase == Movement ==> Hider in s.positions && Seeker in s.positions)
  }

  function Initial(): (s: ServerState)
    ensures WellFormed(s) && s.phase == Placement && s.connected == {}
  {
    ServerState({}, Placement, Hider, map[])
  }

  /** The HTTP join page: only the two known player types get the game page. */
  function JoinGame(playerType: string): (r: JoinPage)
    ensures r.GamePage? <==> playerType == Hider || playerType == Seeker
    ensures r.GamePage? ==> r.playerType == playerType
    ensures r.Status() == 400 <==> playerType != Hider && playerType != Seeker
  {
    if playerType != Hider && playerType != Seeker then InvalidPlayerType
    else GamePage(playerType)
  }

  datatype MoveResult = MoveResult(state: ServerState, event: MoveEvent)

  /**
   * The move handler. In placement the position is stored whatever the
   * turn, and the phase switches to movement, with the hider to move,
   * exactly when both sides are placed. In movement a move by the side not
   * on turn changes nothing; otherwise only the mover's position changes
   * and the turn passes to the other side.
   */
  function MoveStep(s: ServerState, playerType: string, position: Position): (r: MoveResult)
    ensures r.state.connected == s.connected
    ensures s.phase == Placement ==>
      && r.state.positions == s.positions[playerType := position]
      && (r.state.phase == Movement <==> Hider in r.state.positions && Seeker in r.state.positions)
      && r.state.currentTurn == (if r.state.phase == Movement then Hider else s.currentTurn)
      && r.event == (if r.state.phase == Movement then MovementStarted else PositionSet)
    ensures s.phase == Movement && playerType != s.currentTurn ==> r == MoveResult(s, InvalidMove)
    ensures s.phase == Movement && playerType == s.currentTurn ==>
      && r.event == Moved
      && r.state.phase == Movement
      && r.state.positions == s.positions[playerType := position]
      && r.state.currentTurn == Other(s.currentTurn)
    ensures WellFormed(s) ==> WellFormed(r.state)
  {
    match s.phase
    case Placement =>
      var placed := s.(positions := s.positions[playerType := position]);
      if Hider in placed.positions && Seeker in placed.positions then
        MoveResult(placed.(phase := Movement, currentTurn := Hider), MovementStarted)
      else
        MoveResult(placed, PositionSet)
    case Movement =>
      if s.currentTurn != playerType then MoveResult(s, InvalidMove)
      else
        MoveResult(
          s.(positions := s.positions[playerType := position],
             currentTurn := if playerType == Hider then Seeker else Hider),
          Moved)
  }

  /** A move request: who sends it and where to. */
  datatype MoveRequest = MoveRequest(playerType: string, position: Position)

  /** The state after a sequence of move requests. */
  function Run(s: ServerState, requests: seq<MoveRequest>): ServerState
    decreases |requests|
  {
    if requests == [] then s
    else
      var last := requests[|requests| - 1];
      MoveStep(Run(s, requests[..|requests| - 1]), last.playerType, last.position).state
  }

  /** The senders of the requests in a sequence that the server accepted as movement moves, in order. */
  function AcceptedMovers(s: ServerState, requests: seq<MoveRequest>): seq<string>
    decreases |requests|
  {
    if requests == [] then []
    else
      var init, last := requests[..|requests| - 1], requests[|requests| - 1];
      AcceptedMovers(s, init)
      + (if MoveStep(Run(s, init), last.playerType, last.position).event == Moved then [last.playerType] else [])
  }

  /**
   * Strict alternation: once in the movement phase, whatever requests
   * arrive, the phase stays movement, the accepted movers alternate starting
   * with the side on turn, and the turn reflects how many were accepted.
   */
  lemma {:induction false} MovementAlternates(s: ServerState, requests: seq<MoveRequest>)
    requires WellFormed(s) && s.phase == Movement
    ensures WellFormed(Run(s, requests)) && Run(s, requests).phase == Movement
    ensures forall i :: 0 <= i < |AcceptedMovers(s, requests)| ==>
      AcceptedMovers(s, requests)[i] == if i % 2 == 0 then s.currentTurn else Other(s.currentTurn)
    ensures Run(s, requests).currentTurn ==
      if |AcceptedMovers(s, requests)| % 2 == 0 then s.currentTurn else Other(s.currentTurn)
    decreases |requests|
  {
    if requests != [] {
      var init, last := requests[..|requests| - 1], requests[|requests| - 1];
      MovementAlternates(s, init);
    }
  }

  /**
   * However the two sides interleave their placements, once each has placed
   * at least once the server is in the movement phase.
   */
  lemma {:induction false} PlacementEndsOnceBothPlaced(s: ServerState, requests: seq<MoveRequest>)
    requires exists i :: 0 <= i < |requests| && requests[i].playerType == Hider
    requires exists j :: 0 <= j < |requests| && requests[j].playerType == Seeker
    ensures Run(s, requests).phase == Movement
    decreases |requests|
  {
    var init, last := requests[..|requests| - 1], requests[|requests| - 1];
    if (exists i :: 0 <= i < |init| && init[i].playerType == Hider)
      && (exists j :: 0 <= j < |init| && init[j].playerType == Seeker)
    {
      PlacementEndsOnceBothPlaced(s, init);
    } else {
      // the last request supplies the side missing from `init`
      var t := Run(s, init);
      if t.phase == Placement {
        PlacedSidesStay(s, init);
        var i :| 0 <= i < |requests| && requests[i].playerType == Hider;
        var j :| 0 <= j < |requests| && requests[j].playerType == Seeker;
        if i < |init| { assert init[i].playerType == Hider; }
        if j < |init| { assert init[j].playerType == Seeker; }
      }
    }
  }

  lemma {:induction false} RunKeepsWellFormed(s: ServerState, requests: seq<MoveRequest>)
    requires WellFormed(s)
    ensures WellFormed(Run(s, requests))
    decreases |requests|
  {
    if requests != [] {
      RunKeepsWellFormed(s, requests[..|requests| - 1]);
    }
  }

  /**
   * While the server is still placing, every side that sent a request has a
   * stored position.
   */
  lemma {:induction false} PlacedSidesStay(s: ServerState, requests: seq<MoveRequest>)
    requires Run(s, requests).phase == Placement
    ensures forall i :: 0 <= i < |requests| ==> requests[i].playerType in Run(s, requests).positions
    decreases |requests|
  {
    if requests != [] {
      var init, last := requests[..|requests| - 1], requests[|requests| - 1];
      assert Run(s, init).phase == Placement;
      PlacedSidesStay(s, init);
      assert forall i :: 0 <= i < |init| ==> requests[i] == init[i];
    }
  }

  /** The Socket.IO server's `game_state`, updated in place by the event handlers. */
  class GameServer {
    var connected: set<string>
    var phase: Phase
    var currentTurn: string
    var positions: map<string, Position>

    function State(): ServerState
      reads this
    {
      ServerState(connected, phase, currentTurn, positions)
    }

    predicate Valid()
      reads this
    {
      WellFormed(State())
    }

    constructor ()
      ensures Valid() && State() == Initial()
    {
      connected := {};
      phase := Placement;
      currentTurn := Hider;
      positions := map[];
    }

    /** The `join` event: marks the sender's side connected and changes nothing else. */
    method HandleJoin(playerType: string)
      requires Valid()
      modifies this
      ensures Valid()
      ensures connected == old(connected) + {playerType}
      ensures phase == old(phase) && currentTurn == old(currentTurn) && positions == old(positions)
    {
      connected := connected + {playerType};
    }

    /** The `move` event. */
    method HandleMove(playerType: string, position: Position) returns (event: MoveEvent)
      requires Valid()
      modifies this
      ensures Valid()
      ensures MoveStep(old(State()), playerType, position) == MoveResult(State(), event)
    {
      if phase == Placement {
        positions := positions[playerType := position];
        if Hider in positions && Seeker in positions {
          phase := Movement;
          currentTurn := Hider;
          return MovementStarted;
        }
        return PositionSet;
      }
      if currentTurn != playerType {
        return InvalidMove;
      }
      positions := positions[playerType := position];
      currentTurn := if playerType == Hider then Seeker else Hider;
      event := Moved;
    }
  }
}
