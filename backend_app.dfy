/**
 * The backend game session of the hide-and-seek server: the process-wide
 * `game_state` record, the key ceremony that publishes the joint public key,
 * player registration against a fixed capacity, and the move handler that
 * accumulates each player's encrypted position and advances turn and stage.
 *
 * The record is given twice: as the value `Session` with one step function
 * per handler (the specification), and as the class `GameSession` whose
 * methods update its fields in place, as the handlers do, and are proved to
 * follow the step functions.
 */
module BackendApp {
  import opened Wrappers
  import opened OpenFhe

  /** Capacity of the player list. */
  const MaxPlayers := 2
  /** The stage at which the hiders are reported as winners. */
  const MaxStage := 10
  /** Plaintext modulus of the BGV scheme the backend configures. */
  const PlaintextModulus := 65537

  /**
   * An entry of the player list: the record the list is seeded with, or the
   * address a joining player registered with.
   */
  datatype PlayerEntry = SeedPlayer(isSeeker: bool) | Address(address: string)

  /** The backend's `game_state` record, as a value. */
  datatype Session = Session(
    players: seq<PlayerEntry>,
    accumulators: seq<Option<Ciphertext>>,  // per player, the encrypted position so far
    currentStage: int,
    currentTurn: int,                       // the player id whose move is accepted next
    isDecryptionStage: bool,
    cryptoContext: Option<CryptoContext>,
    publicKey: Option<PublicKey>)

  /** What the keygen calls of one key ceremony hand back. */
  datatype KeyGenOutcome = KeyGenOutcome(contextHandle: nat, kp1: KeyPair, kp2: KeyPair)

  /** The outcome of a key ceremony; only a failure produces an HTTP reply. */
  datatype CeremonyResponse = KeysPublished | KeyGenerationFailed
  {
    /** The status of the error reply, if the ceremony produced one. */
    function Status(): Option<int>
    {
      if KeyGenerationFailed? then Some(399) else None
    }
  }
  datatype CeremonyResult = CeremonyResult(session: Session, response: CeremonyResponse)

  datatype JoinResponse = Joined(playerId: nat) | GameFull | NoAddress
  {
    function Status(): int
    {
      if Joined? then 200 else 399
    }
  }
  datatype JoinResult = JoinResult(session: Session, response: JoinResponse)

  datatype MoveResponse =
    | Moved(playerId: int)
    | HidersWon
    | NotYourTurn
    | MissingInput
    | DeserializeFailed
  {
    predicate Accepted()
    {
      Moved? || HidersWon?
    }

    function Status(): int
    {
      if Accepted() then 200 else 400
    }
  }
  datatype MoveResult = MoveResult(session: Session, response: MoveResponse)

  datatype PublicKeyResponse = PublicKeyIs(key: PublicKey) | PublicKeyMissing
  {
    function Status(): int
    {
      if PublicKeyIs? then 200 else 400
    }
  }

  /**
   * The invariant every reachable session keeps: the player list within
   * capacity, one accumulator slot per possible player, the turn naming a
   * player id and a crypto context in place.
   */
  predicate WellFormed(s: Session)
  {
    && 1 <= |s.players| <= MaxPlayers
    && |s.accumulators| == MaxPlayers
    && 1 <= s.currentTurn <= MaxPlayers
    && 1 <= s.currentStage
    && s.cryptoContext.Some?
  }

  /** The record as the module initialises it, before the first key ceremony. */
  function Initial(): (s: Session)
    ensures s.players == [SeedPlayer(true)] && s.currentTurn == 1 && s.currentStage == 1
    ensures |s.accumulators| == MaxPlayers && forall i :: 0 <= i < |s.accumulators| ==> s.accumulators[i].None?
    ensures !s.isDecryptionStage && s.cryptoContext.None? && s.publicKey.None?
  {
    Session(
      [SeedPlayer(true)],
      seq(MaxPlayers, _ => None),
      1,
      1,
      false,
      None,
      None)
  }

  /** The context the backend generates: BGV, modulus 65537, noise-flooding multiparty mode. */
  function CreateCryptoContext(handle: nat): CryptoContext
  {
    CryptoContext(
      handle,
      PlaintextModulus,
      NoiseFloodingMultiparty,
      {Pke, KeySwitch, LeveledShe, AdvancedShe, Multiparty})
  }

  /**
   * The key ceremony: the context is replaced first, and the joint public key
   * is published only when both key generation steps report success; on
   * failure the previous public key stays.
   */
  function CreateGameStep(s: Session, g: KeyGenOutcome): (r: CeremonyResult)
    ensures r.session.cryptoContext.Some?
    ensures r.session.cryptoContext.value.handle == g.contextHandle
    ensures r.session.cryptoContext.value.plaintextModulus == PlaintextModulus
    ensures r.session.cryptoContext.value.multipartyMode == NoiseFloodingMultiparty
    ensures Multiparty in r.session.cryptoContext.value.enabled
    ensures r.response == KeysPublished <==> g.kp1.good && g.kp2.good
    ensures r.response.Status() == Some(399) <==> !(g.kp1.good && g.kp2.good)
    ensures r.session.publicKey == if r.response == KeysPublished then Some(g.kp2.publicKey) else s.publicKey
    ensures r.session.(cryptoContext := s.cryptoContext, publicKey := s.publicKey) == s
  {
    var s1 := s.(cryptoContext := Some(CreateCryptoContext(g.contextHandle)));
    if !g.kp1.good then CeremonyResult(s1, KeyGenerationFailed)
    else if !g.kp2.good then CeremonyResult(s1, KeyGenerationFailed)
    else CeremonyResult(s1.(publicKey := Some(g.kp2.publicKey)), KeysPublished)
  }

  /**
   * Module load: the initial record after one key ceremony. A failed
   * ceremony at load builds its error reply outside any request, which
   * raises, so the module never loads and there is no session.
   */
  function Startup(g: KeyGenOutcome): (r: Option<Session>)
    ensures r.Some? <==> g.kp1.good && g.kp2.good
    ensures r.Some? ==>
      && WellFormed(r.value)
      && r.value.players == [SeedPlayer(true)]
      && r.value.currentTurn == 1 && r.value.currentStage == 1 && !r.value.isDecryptionStage
      && (forall i :: 0 <= i < MaxPlayers ==> r.value.accumulators[i].None?)
      && r.value.publicKey == Some(g.kp2.publicKey)
  {
    var c := CreateGameStep(Initial(), g);
    if c.response == KeyGenerationFailed then None else Some(c.session)
  }

  /**
   * Registration: rejected when the list is full, then when the address is
   * missing or empty, each time without any change; otherwise the address is
   * appended, its player id is the new list length, and reaching two entries
   * re-runs the key ceremony with `g`.
   */
  function JoinStep(s: Session, address: Option<string>, g: KeyGenOutcome): (r: JoinResult)
    ensures r.response == GameFull <==> |s.players| >= MaxPlayers
    ensures r.response == NoAddress <==> |s.players| < MaxPlayers && (address.None? || address.value == "")
    ensures !r.response.Joined? ==> r.session == s
    ensures r.response.Joined? ==>
      && address.Some?
      && r.session.players == s.players + [Address(address.value)]
      && r.response.playerId == |r.session.players|
    ensures r.response.Joined? && |r.session.players| == 2 ==>
      r.session == CreateGameStep(s.(players := r.session.players), g).session
    ensures r.response.Joined? && |r.session.players| != 2 ==>
      r.session == s.(players := r.session.players)
    ensures WellFormed(s) ==> WellFormed(r.session)
  {
    if |s.players| >= MaxPlayers then JoinResult(s, GameFull)
    else if address.None? || address.value == "" then JoinResult(s, NoAddress)
    else
      var s1 := s.(players := s.players + [Address(address.value)]);
      var playerId := |s1.players|;
      var s2 := if |s1.players| == 2 then CreateGameStep(s1, g).session else s1;
      JoinResult(s2, Joined(playerId))
  }

  /** The accumulator after one more move: the move itself if empty, else the homomorphic sum. */
  function AddTo(acc: Option<Ciphertext>, ct: Ciphertext): Ciphertext
  {
    match acc
    case None => ct
    case Some(prev) => EvalAdd(prev, ct)
  }

  /**
   * An accepted move by the player whose turn it is: that player's
   * accumulator absorbs the ciphertext, the turn moves to the next player id
   * and, when it wraps past the last one, the stage advances and the
   * decryption flag is raised.
   */
  function AcceptMove(s: Session, ct: Ciphertext): (r: Session)
    requires WellFormed(s)
    ensures WellFormed(r)
    ensures r.accumulators[s.currentTurn - 1] == Some(AddTo(s.accumulators[s.currentTurn - 1], ct))
    ensures forall i :: 0 <= i < MaxPlayers && i != s.currentTurn - 1 ==> r.accumulators[i] == s.accumulators[i]
    ensures r.currentTurn == if s.currentTurn < MaxPlayers then s.currentTurn + 1 else 1
    ensures r.currentStage == if s.currentTurn == MaxPlayers then s.currentStage + 1 else s.currentStage
    ensures r.isDecryptionStage == (s.isDecryptionStage || s.currentTurn == MaxPlayers)
    ensures r.players == s.players && r.cryptoContext == s.cryptoContext && r.publicKey == s.publicKey
  {
    var slot := s.currentTurn - 1;
    var s1 := s.(accumulators := s.accumulators[slot := Some(AddTo(s.accumulators[slot], ct))]);
    var turn := (s1.currentTurn + 1) % (MaxPlayers + 1);
    if turn == 0 then
      s1.(isDecryptionStage := true, currentStage := s1.currentStage + 1, currentTurn := 1)
    else
      s1.(currentTurn := turn)
  }

  /** Whether a move request with these inputs passes every check of the handler. */
  predicate MoveAccepted(
    s: Session, playerId: Option<int>, ciphertextJson: Option<string>,
    deserialize: (CryptoContext, string) -> Option<Ciphertext>)
    requires WellFormed(s)
  {
    && playerId == Some(s.currentTurn)
    && ciphertextJson.Some? && ciphertextJson.value != ""
    && deserialize(s.cryptoContext.value, ciphertextJson.value).Some?
  }

  /**
   * The move handler: the turn check, then the presence check, then
   * deserialization under the session's context; any failure leaves the
   * session as it was. An accepted move reports that the hiders won exactly
   * when the stage after the move is the final stage.
   */
  function MoveStep(
    s: Session, playerId: Option<int>, ciphertextJson: Option<string>,
    deserialize: (CryptoContext, string) -> Option<Ciphertext>): (r: MoveResult)
    requires WellFormed(s)
    ensures WellFormed(r.session)
    ensures playerId != Some(s.currentTurn) ==> r == MoveResult(s, NotYourTurn)
    ensures playerId == Some(s.currentTurn) && (ciphertextJson.None? || ciphertextJson.value == "") ==>
      r == MoveResult(s, MissingInput)
    ensures && playerId == Some(s.currentTurn) && ciphertextJson.Some? && ciphertextJson.value != ""
            && deserialize(s.cryptoContext.value, ciphertextJson.value).None? ==>
      r == MoveResult(s, DeserializeFailed)
    ensures r.response.Accepted() <==> MoveAccepted(s, playerId, ciphertextJson, deserialize)
    ensures !r.response.Accepted() ==> r.session == s
    ensures r.response.Accepted() ==>
      r.session == AcceptMove(s, deserialize(s.cryptoContext.value, ciphertextJson.value).value)
    ensures r.response.Moved? ==> r.response.playerId == s.currentTurn
    ensures r.response == HidersWon <==> r.response.Accepted() && r.session.currentStage == MaxStage
  {
    if playerId != Some(s.currentTurn) then MoveResult(s, NotYourTurn)
    else if playerId.value == 0 || ciphertextJson.None? || ciphertextJson.value == "" then
      MoveResult(s, MissingInput)
    else
      var decoded := deserialize(s.cryptoContext.value, ciphertextJson.value);
      if decoded.None? then MoveResult(s, DeserializeFailed)
      else
        var s1 := AcceptMove(s, decoded.value);
        if s1.currentStage == MaxStage then MoveResult(s1, HidersWon)
        else MoveResult(s1, Moved(playerId.value))
  }

  // ---------------------------------------------------------------------
  // Runs of accepted moves: the schedule and the encrypted ledger
  // ---------------------------------------------------------------------

  /** The session after a run of accepted moves, each by the player whose turn it was. */
  function Play(s: Session, cts: seq<Ciphertext>): (r: Session)
    requires WellFormed(s)
    ensures WellFormed(r)
    decreases |cts|
  {
    if cts == [] then s
    else AcceptMove(Play(s, cts[..|cts| - 1]), cts[|cts| - 1])
  }

  /** The player id that makes move number `i` (from 0) of a run that starts at turn `first`. */
  function Mover(first: int, i: nat): int
  {
    (first - 1 + i) % MaxPlayers + 1
  }

  /** The ciphertexts of a run submitted by player `p`, in order. */
  function MovesOf(first: int, cts: seq<Ciphertext>, p: int): seq<Ciphertext>
    decreases |cts|
  {
    if cts == [] then []
    else
      MovesOf(first, cts[..|cts| - 1], p)
      + (if Mover(first, |cts| - 1) == p then [cts[|cts| - 1]] else [])
  }

  /** An accumulator after absorbing the ciphertexts `cts` in order. */
  function Fold(acc: Option<Ciphertext>, cts: seq<Ciphertext>): Option<Ciphertext>
    decreases |cts|
  {
    if cts == [] then acc
    else Some(AddTo(Fold(acc, cts[..|cts| - 1]), cts[|cts| - 1]))
  }

  /**
   * The schedule: after n accepted moves from turn t the turn is the
   * (t - 1 + n)-th player id cyclically, the stage has advanced once per
   * completed round, and the decryption flag is up once any round completed.
   */
  lemma {:induction false} PlaySchedule(s: Session, cts: seq<Ciphertext>)
    requires WellFormed(s)
    ensures Play(s, cts).currentTurn == Mover(s.currentTurn, |cts|)
    ensures Play(s, cts).currentStage == s.currentStage + (s.currentTurn - 1 + |cts|) / MaxPlayers
    ensures Play(s, cts).isDecryptionStage == (s.isDecryptionStage || s.currentTurn - 1 + |cts| >= MaxPlayers)
    ensures Play(s, cts).players == s.players && Play(s, cts).publicKey == s.publicKey
    decreases |cts|
  {
    if cts != [] {
      PlaySchedule(s, cts[..|cts| - 1]);
    }
  }

  /**
   * One full round from player 1 raises the stage by exactly one and hands
   * the turn back to player 1; no shorter prefix of the round changes the stage.
   */
  lemma FullRoundAdvancesOneStage(s: Session, cts: seq<Ciphertext>)
    requires WellFormed(s) && s.currentTurn == 1 && |cts| == MaxPlayers
    ensures Play(s, cts).currentStage == s.currentStage + 1
    ensures Play(s, cts).currentTurn == 1 && Play(s, cts).isDecryptionStage
    ensures forall k :: 0 <= k < MaxPlayers ==> Play(s, cts[..k]).currentStage == s.currentStage
  {
    PlaySchedule(s, cts);
    forall k | 0 <= k < MaxPlayers
      ensures Play(s, cts[..k]).currentStage == s.currentStage
    {
      PlaySchedule(s, cts[..k]);
    }
  }

  /**
   * From a fresh schedule (stage 1, turn 1) the stage equals the final stage
   * exactly during the moves numbered (MaxStage - 1) * MaxPlayers up to
   * MaxStage * MaxPlayers - 1, so "hiders won" is reported by precisely those moves.
   */
  lemma FinalStageWindow(s: Session, cts: seq<Ciphertext>)
    requires WellFormed(s) && s.currentStage == 1 && s.currentTurn == 1
    ensures Play(s, cts).currentStage == MaxStage <==>
      (MaxStage - 1) * MaxPlayers <= |cts| < MaxStage * MaxPlayers
  {
    PlaySchedule(s, cts);
  }

  /**
   * The encrypted ledger: after any run of accepted moves, each player's
   * accumulator is its old value with exactly that player's ciphertexts
   * added in submission order; the other player's moves never touch it.
   */
  lemma {:induction false} PlayAccumulates(s: Session, cts: seq<Ciphertext>, p: int)
    requires WellFormed(s) && 1 <= p <= MaxPlayers
    ensures Play(s, cts).accumulators[p - 1] == Fold(s.accumulators[p - 1], MovesOf(s.currentTurn, cts, p))
    decreases |cts|
  {
    if cts != [] {
      var init, last := cts[..|cts| - 1], cts[|cts| - 1];
      PlayAccumulates(s, init, p);
      PlaySchedule(s, init);
      AccumulateLast(Play(s, init), last, p, s.accumulators[p - 1], MovesOf(s.currentTurn, init, p));
    }
  }

  /**
   * The inductive step of `PlayAccumulates`: one more accepted move extends
   * the mover's list of ciphertexts by the new one and leaves the other's.
   */
  lemma AccumulateLast(t: Session, last: Ciphertext, p: int, acc: Option<Ciphertext>, mine: seq<Ciphertext>)
    requires WellFormed(t) && 1 <= p <= MaxPlayers
    requires t.accumulators[p - 1] == Fold(acc, mine)
    ensures AcceptMove(t, last).accumulators[p - 1] ==
      Fold(acc, mine + (if t.currentTurn == p then [last] else []))
  {
    if t.currentTurn == p {
      assert (mine + [last])[..|mine|] == mine;
    } else {
      assert mine + [] == mine;
    }
  }

  // ---------------------------------------------------------------------
  // The record updated in place
  // ---------------------------------------------------------------------

  /** The backend's `game_state`, updated in place by the request handlers. */
  class GameSession {
    var players: seq<PlayerEntry>
    var accumulators: seq<Option<Ciphertext>>
    var currentStage: int
    var currentTurn: int
    var isDecryptionStage: bool
    var cryptoContext: Option<CryptoContext>
    var publicKey: Option<PublicKey>

    /** The fields as a `Session` value. */
    function State(): Session
      reads this
    {
      Session(players, accumulators, currentStage, currentTurn, isDecryptionStage, cryptoContext, publicKey)
    }

    predicate Valid()
      reads this
    {
      WellFormed(State())
    }

    /** The record as the module initialises it, before any key ceremony. */
    constructor ()
      ensures State() == Initial()
    {
      players := [SeedPlayer(true)];
      accumulators := seq(MaxPlayers, _ => None);
      currentStage := 1;
      currentTurn := 1;
      isDecryptionStage := false;
      cryptoContext := None;
      publicKey := None;
    }

    /** Module load: the initial record, then one key ceremony with `g`; no session if it fails. */
    static method Load(g: KeyGenOutcome) returns (session: Option<GameSession>)
      ensures session.Some? <==> Startup(g).Some?
      ensures session.Some? ==>
        fresh(session.value) && session.value.Valid() && session.value.State() == Startup(g).value
    {
      var s := new GameSession();
      var response := s.CreateGame(g);
      if response == KeyGenerationFailed {
        return None;
      }
      session := Some(s);
    }

    /** The key ceremony, with the keygen results `g`. */
    method CreateGame(g: KeyGenOutcome) returns (response: CeremonyResponse)
      modifies this
      ensures CreateGameStep(old(State()), g) == CeremonyResult(State(), response)
    {
      cryptoContext := Some(CreateCryptoContext(g.contextHandle));
      if !g.kp1.good {
        return KeyGenerationFailed;
      }
      if !g.kp2.good {
        return KeyGenerationFailed;
      }
      publicKey := Some(g.kp2.publicKey);
      response := KeysPublished;
    }

    /** The join handler; `g` is what the key ceremony would produce if it runs. */
    method Join(address: Option<string>, g: KeyGenOutcome) returns (response: JoinResponse)
      requires Valid()
      modifies this
      ensures Valid()
      ensures JoinStep(old(State()), address, g) == JoinResult(State(), response)
    {
      if |players| >= MaxPlayers {
        return GameFull;
      }
      if address.None? || address.value == "" {
        return NoAddress;
      }
      players := players + [Address(address.value)];
      var playerId := |players|;
      if |players| == 2 {
        var _ := CreateGame(g);
      }
      response := Joined(playerId);
    }

    /** The move handler; `deserialize` is the library's ciphertext deserializer. */
    method ProcessMove(
      playerId: Option<int>, ciphertextJson: Option<string>,
      deserialize: (CryptoContext, string) -> Option<Ciphertext>)
      returns (response: MoveResponse)
      requires Valid()
      modifies this
      ensures Valid()
      ensures MoveStep(old(State()), playerId, ciphertextJson, deserialize) == MoveResult(State(), response)
    {
      if playerId != Some(currentTurn) {
        return NotYourTurn;
      }
      if playerId.value == 0 || ciphertextJson.None? || ciphertextJson.value == "" {
        return MissingInput;
      }
      var decoded := deserialize(cryptoContext.value, ciphertextJson.value);
      if decoded.None? {
        return DeserializeFailed;
      }
      var slot := playerId.value - 1;
      if accumulators[slot].None? {
        accumulators := accumulators[slot := Some(decoded.value)];
      } else {
        accumulators := accumulators[slot := Some(EvalAdd(accumulators[slot].value, decoded.value))];
      }
      currentTurn := (currentTurn + 1) % (MaxPlayers + 1);
      if currentTurn == 0 {
        isDecryptionStage := true;
        currentStage := currentStage + 1;
        currentTurn := 1;
      }
      if currentStage == MaxStage {
        return HidersWon;
      }
      response := Moved(playerId.value);
    }

    /** The public-key endpoint: an error until a ceremony has published a key. */
    method GetPublicKey() returns (response: PublicKeyResponse)
      ensures response.PublicKeyIs? <==> publicKey.Some?
      ensures response.PublicKeyIs? ==> publicKey == Some(response.key)
      ensures response.Status() == 400 <==> publicKey.None?
    {
      if publicKey.None? {
        return PublicKeyMissing;
      }
      response := PublicKeyIs(publicKey.value);
    }
  }
}
