/** The match lifecycle: creating a match, seating the second player,
    accepting moves in turn, and ending a match when a clock runs out.
    The match store is a map from id to an immutable `Game` record, the
    publish/subscribe channel is an append-only event log, the board's
    legality check is an `Engine` supplied by the caller, and the random
    seat choice is a boolean supplied by the caller. */
module GameService {
  import opened Optional
  import opened Pieces
  import opened ChessMoves

  type Id = string

  datatype GameStatus =
    | Waiting
    | InProgressWhite
    | InProgressBlack
    | EndedWhiteOutOfTime
    | EndedBlackOutOfTime
  {
    predicate IsInProgress() {
      this == InProgressWhite || this == InProgressBlack
    }
  }

  /** The colour whose turn an in-progress status names. */
  function ToMove(st: GameStatus): (c: Color)
    requires st.IsInProgress()
  {
    if st == InProgressWhite then White else Black
  }

  /** The status a clock expiry of `expired` ends a match with. */
  function OutOfTime(expired: Color): (st: GameStatus) {
    if expired == White then EndedWhiteOutOfTime else EndedBlackOutOfTime
  }

  /** One match. The board itself is represented by its current FEN. */
  datatype Game = Game(
    id: Id,
    initialFen: string,
    currentFen: string,
    white: Option<Id>,
    black: Option<Id>,
    status: GameStatus,
    moves: seq<ChessMove>)
  {
    /** The player seated on colour `c`, if any. */
    function Seat(c: Color): Option<Id> {
      if c == White then white else black
    }

    predicate IsFull() {
      white.Some? && black.Some?
    }

    predicate IsSeated(player: Id) {
      white == Some(player) || black == Some(player)
    }
  }

  /** Messages published on the channel, one constructor per topic. */
  datatype Event =
    | PlayerJoin(game: Id, player: Id)
    | GameStart(game: Id, whitePlayer: Id, blackPlayer: Id)
    | MoveMade(game: Id, player: Id, color: Color, move: ChessMove)
    | GameEnd(game: Id, status: GameStatus)
  {
    function Topic(): string {
      match this
      case PlayerJoin(_, _) => "chess::game.player_join"
      case GameStart(_, _, _) => "chess::game.start"
      case MoveMade(_, _, _, _) => "chess::game.move"
      case GameEnd(_, _) => "chess::game.end"
    }
  }

  /** The match store and everything published so far. */
  datatype Service = Service(store: map<Id, Game>, log: seq<Event>)

  /** The result of an operation that reports success as a boolean. */
  datatype Outcome = Outcome(ok: bool, service: Service)

  /** The board's legality check and move application: given the current FEN
      and a move, the FEN after the move, or None when the board rejects it. */
  type Engine = (string, ChessMove) -> Option<string>

  /** `createGame`: a new match under the fresh id `newId`, in the waiting
      state, with the creator on the requested colour and the current FEN
      equal to the initial FEN. Nothing is published. */
  function CreateGame(s: Service, newId: Id, initialFen: string, player: Id, color: Color): (r: (Game, Service))
    requires newId !in s.store
    ensures r.0.id == newId && r.0.status == Waiting
    ensures r.0.Seat(color) == Some(player) && r.0.Seat(color.Opponent()) == None
    ensures r.0.initialFen == initialFen && r.0.currentFen == initialFen
    ensures r.0.moves == []
    ensures r.1.store == s.store[newId := r.0]
    ensures r.1.log == s.log
  {
    var game := Game(newId, initialFen, initialFen,
                     if color == White then Some(player) else None,
                     if color == Black then Some(player) else None,
                     Waiting, []);
    (game, Service(s.store[newId := game], s.log))
  }

  /** `addPlayerToGame`, with `coin` standing for the random choice made when
      both seats are open (true seats the player as white). */
  function AddPlayerToGame(s: Service, gameId: Id, player: Id, coin: bool): (r: Outcome)
    // The four rejections, and that a rejection changes nothing.
    ensures r.ok <==> (&& gameId in s.store
                       && s.store[gameId].status == Waiting
                       && !s.store[gameId].IsFull()
                       && !s.store[gameId].IsSeated(player))
    ensures !r.ok ==> r.service == s
    ensures r.service.store.Keys == s.store.Keys
    // Seat assignment: the open seat, or the coin's seat when both are open.
    ensures r.ok ==>
      var g := s.store[gameId];
      var g' := r.service.store[gameId];
      && r.service.store == s.store[gameId := g']
      && g'.IsSeated(player)
      && (g.white.Some? ==> g'.white == g.white)
      && (g.black.Some? ==> g'.black == g.black)
      && (g.white.None? && g.black.Some? ==> g'.white == Some(player))
      && (g.white.Some? && g.black.None? ==> g'.black == Some(player))
      && (g.white.None? && g.black.None? ==> g'.Seat(if coin then White else Black) == Some(player)
                                             && g'.Seat(if coin then Black else White) == None)
      && g' == g.(white := g'.white, black := g'.black, status := g'.status)
    // The match starts exactly when the seating fills it.
    ensures r.ok ==>
      var g' := r.service.store[gameId];
      && (g'.IsFull() ==> g'.status == InProgressWhite)
      && (!g'.IsFull() ==> g'.status == Waiting)
    // Join event, then a start event carrying both players when it started.
    ensures r.ok ==>
      var g' := r.service.store[gameId];
      && r.service.log == s.log + [PlayerJoin(gameId, player)]
                          + (if g'.IsFull() then [GameStart(gameId, g'.white.value, g'.black.value)] else [])
      && r.service.log[|s.log|].Topic() == "chess::game.player_join"
      && (g'.IsFull() ==> r.service.log[|s.log| + 1].Topic() == "chess::game.start")
  {
    if gameId !in s.store then
      Outcome(false, s)
    else
      var game := s.store[gameId];
      var whiteSide := game.white;
      var blackSide := game.black;
      if game.status != Waiting || (whiteSide.Some? && blackSide.Some?) then
        Outcome(false, s)
      else if Some(player) == whiteSide || Some(player) == blackSide then
        Outcome(false, s)
      else
        var seated :=
          if whiteSide.None? && blackSide.None? then
            (if coin then game.(white := Some(player)) else game.(black := Some(player)))
          else if blackSide.None? then
            game.(black := Some(player))
          else
            game.(white := Some(player));
        var updated :=
          if seated.white.Some? && seated.black.Some? then seated.(status := InProgressWhite) else seated;
        var joined := s.log + [PlayerJoin(gameId, player)];
        var log :=
          if updated.status == InProgressWhite then
            joined + [GameStart(gameId, updated.white.value, updated.black.value)]
          else
            joined;
        Outcome(true, Service(s.store[gameId := updated], log))
  }

  /** `handleClockExpired`: ends the match on time for `expired`, whatever its
      status was, and publishes an end event. The match must exist. */
  function HandleClockExpired(s: Service, gameId: Id, expired: Color): (r: Service)
    requires gameId in s.store
    ensures r.store == s.store[gameId := s.store[gameId].(status := OutOfTime(expired))]
    ensures r.log == s.log + [GameEnd(gameId, OutOfTime(expired))]
    ensures r.log[|s.log|].Topic() == "chess::game.end"
  {
    var game := s.store[gameId];
    var ended := game.(status := if expired == White then EndedWhiteOutOfTime else EndedBlackOutOfTime);
    Service(s.store[gameId := ended], s.log + [GameEnd(gameId, ended.status)])
  }

  /** `addMove`: accepts the move only from the player whose colour is to
      move and only when the board accepts it; then flips the turn, records
      the new FEN and the move, and publishes the move with the mover's colour. */
  function AddMove(s: Service, engine: Engine, matchId: Id, playerId: Id, move: ChessMove): (r: Outcome)
    // The four rejections, and that a rejection changes nothing.
    ensures r.ok <==> (&& matchId in s.store
                       && s.store[matchId].status.IsInProgress()
                       && s.store[matchId].Seat(ToMove(s.store[matchId].status)) == Some(playerId)
                       && engine(s.store[matchId].currentFen, move).Some?)
    ensures !r.ok ==> r.service == s
    ensures r.service.store.Keys == s.store.Keys
    // An accepted move.
    ensures r.ok ==>
      var g := s.store[matchId];
      var g' := r.service.store[matchId];
      && r.service.store == s.store[matchId := g']
      && g'.status.IsInProgress()
      && ToMove(g'.status) == ToMove(g.status).Opponent()
      && g'.currentFen == engine(g.currentFen, move).value
      && g'.moves == g.moves + [move]
      && g' == g.(status := g'.status, currentFen := g'.currentFen, moves := g'.moves)
      && r.service.log == s.log + [MoveMade(g.id, playerId, ToMove(g.status), move)]
      && r.service.log[|s.log|].Topic() == "chess::game.move"
  {
    if matchId !in s.store then
      Outcome(false, s)
    else
      var game := s.store[matchId];
      if !game.status.IsInProgress() then
        Outcome(false, s)
      // An empty seat never matches; the source dereferences it, which the
      // store invariant shows cannot happen.
      else if (game.status == InProgressWhite && game.white != Some(playerId))
           || (game.status == InProgressBlack && game.black != Some(playerId)) then
        Outcome(false, s)
      else
        var next := engine(game.currentFen, move);
        var moveColor := if game.status == InProgressWhite then White else Black;
        if next.None? then
          Outcome(false, s)
        else
          var status := if game.status == InProgressWhite then InProgressBlack else InProgressWhite;
          var updated := game.(status := status, currentFen := next.value, moves := game.moves + [move]);
          Outcome(true, Service(s.store[matchId := updated],
                                s.log + [MoveMade(game.id, playerId, moveColor, move)]))
  }
}
