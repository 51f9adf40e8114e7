/** What holds of the match store and the published log after any sequence
    of lifecycle operations starting from an empty store: the published move
    stream of every match equals its persisted history, a start event always
    directly follows the join that completed the match, each match starts at
    most once, and an in-progress match always has both seats filled (so the
    seat check in `addMove` never meets an empty seat). */
module GameRuns {
  import opened Optional
  import opened Pieces
  import opened ChessMoves
  import opened GameService

  /** The moves published for match `g`, in publication order. */
  function MovesLogged(log: seq<Event>, g: Id): (moves: seq<ChessMove>)
    decreases |log|
  {
    if |log| == 0 then []
    else (if log[0].MoveMade? && log[0].game == g then [log[0].move] else []) + MovesLogged(log[1..], g)
  }

  /** How many start events were published for match `g`. */
  function StartsLogged(log: seq<Event>, g: Id): (n: nat)
    decreases |log|
  {
    if |log| == 0 then 0
    else (if log[0].GameStart? && log[0].game == g then 1 else 0) + StartsLogged(log[1..], g)
  }

  lemma {:induction false} MovesLoggedAppend(log: seq<Event>, e: Event, g: Id)
    ensures MovesLogged(log + [e], g)
            == MovesLogged(log, g) + (if e.MoveMade? && e.game == g then [e.move] else [])
    decreases |log|
  {
    if |log| == 0 {
      assert log + [e] == [e];
    } else {
      assert (log + [e])[1..] == log[1..] + [e];
      MovesLoggedAppend(log[1..], e, g);
    }
  }

  lemma {:induction false} StartsLoggedAppend(log: seq<Event>, e: Event, g: Id)
    ensures StartsLogged(log + [e], g)
            == StartsLogged(log, g) + (if e.GameStart? && e.game == g then 1 else 0)
    decreases |log|
  {
    if |log| == 0 {
      assert log + [e] == [e];
    } else {
      assert (log + [e])[1..] == log[1..] + [e];
      StartsLoggedAppend(log[1..], e, g);
    }
  }

  /** A log that never mentions `g` holds no move and no start for it. */
  lemma {:induction false} NothingLoggedFor(log: seq<Event>, g: Id)
    requires forall i :: 0 <= i < |log| ==> log[i].game != g
    ensures MovesLogged(log, g) == []
    ensures StartsLogged(log, g) == 0
    decreases |log|
  {
    if |log| > 0 {
      assert forall i :: 0 <= i < |log[1..]| ==> log[1..][i] == log[i + 1];
      NothingLoggedFor(log[1..], g);
    }
  }

  /** A zero start count means no start event for `g` anywhere in the log. */
  lemma {:induction false} NoStartLogged(log: seq<Event>, g: Id, i: int)
    requires StartsLogged(log, g) == 0
    requires 0 <= i < |log|
    ensures !(log[i].GameStart? && log[i].game == g)
    decreases |log|
  {
    if i > 0 {
      assert log[1..][i - 1] == log[i];
      NoStartLogged(log[1..], g, i - 1);
    }
  }

  /** Every start event directly follows a join event of the same match. */
  predicate JoinPrecedesStart(log: seq<Event>) {
    forall i :: 0 <= i < |log| && log[i].GameStart? ==>
      0 < i && log[i - 1].PlayerJoin? && log[i - 1].game == log[i].game
  }

  /** Each match is stored under its own id. */
  predicate IdsMatch(store: map<Id, Game>) {
    forall g :: g in store ==> store[g].id == g
  }

  /** An in-progress match has both seats filled, by two different players. */
  predicate SeatsConsistent(store: map<Id, Game>) {
    && (forall g :: g in store && store[g].status.IsInProgress() ==> store[g].IsFull())
    && (forall g :: g in store && store[g].IsFull() ==> store[g].white != store[g].black)
  }

  /** A waiting match has no moves and has never been announced as started;
      no match is announced as started twice. */
  predicate StartsConsistent(s: Service) {
    && (forall g :: g in s.store && s.store[g].status == Waiting ==>
                      s.store[g].moves == [] && StartsLogged(s.log, g) == 0)
    && (forall g :: g in s.store ==> StartsLogged(s.log, g) <= 1)
  }

  /** The moves published for each match are exactly its persisted history. */
  predicate MovesConsistent(s: Service) {
    forall g :: g in s.store ==> MovesLogged(s.log, g) == s.store[g].moves
  }

  /** Every event is about a stored match, and every start event names the
      players that are seated in it. */
  predicate EventsConsistent(s: Service) {
    && (forall i :: 0 <= i < |s.log| ==> s.log[i].game in s.store)
    && (forall i :: 0 <= i < |s.log| && s.log[i].GameStart? ==>
                      s.store[s.log[i].game].white == Some(s.log[i].whitePlayer)
                      && s.store[s.log[i].game].black == Some(s.log[i].blackPlayer))
  }

  /** The store invariant kept by every operation. */
  predicate WellFormed(s: Service) {
    && IdsMatch(s.store)
    && SeatsConsistent(s.store)
    && StartsConsistent(s)
    && MovesConsistent(s)
    && EventsConsistent(s)
    && JoinPrecedesStart(s.log)
  }

  const Empty := Service(map[], [])

  lemma EmptyWellFormed()
    ensures WellFormed(Empty)
  {
  }

  lemma CreatePreserves(s: Service, newId: Id, fen: string, player: Id, color: Color)
    requires WellFormed(s) && newId !in s.store
    ensures WellFormed(CreateGame(s, newId, fen, player, color).1)
  {
    NothingLoggedFor(s.log, newId);
  }

  lemma ExpireKeepsLog(s: Service, gameId: Id, expired: Color)
    requires gameId in s.store
    requires StartsConsistent(s) && MovesConsistent(s) && EventsConsistent(s) && JoinPrecedesStart(s.log)
    ensures var r := HandleClockExpired(s, gameId, expired);
            StartsConsistent(r) && MovesConsistent(r) && EventsConsistent(r) && JoinPrecedesStart(r.log)
  {
    var r := HandleClockExpired(s, gameId, expired);
    var e := GameEnd(gameId, OutOfTime(expired));
    assert r.log == s.log + [e];
    forall g | g in r.store
      ensures StartsLogged(r.log, g) == StartsLogged(s.log, g)
      ensures MovesLogged(r.log, g) == MovesLogged(s.log, g)
    {
      StartsLoggedAppend(s.log, e, g);
      MovesLoggedAppend(s.log, e, g);
    }
  }

  lemma ExpirePreserves(s: Service, gameId: Id, expired: Color)
    requires WellFormed(s) && gameId in s.store
    ensures WellFormed(HandleClockExpired(s, gameId, expired))
  {
    ExpireKeepsLog(s, gameId, expired);
  }

  lemma MoveKeepsCounts(s: Service, engine: Engine, matchId: Id, playerId: Id, move: ChessMove)
    requires IdsMatch(s.store) && StartsConsistent(s) && MovesConsistent(s)
    ensures var r := AddMove(s, engine, matchId, playerId, move).service;
            StartsConsistent(r) && MovesConsistent(r)
  {
    var r := AddMove(s, engine, matchId, playerId, move);
    if r.ok {
      var g := s.store[matchId];
      var e := MoveMade(g.id, playerId, ToMove(g.status), move);
      assert r.service.log == s.log + [e];
      forall h | h in r.service.store
        ensures StartsLogged(r.service.log, h) == StartsLogged(s.log, h)
        ensures MovesLogged(r.service.log, h) == MovesLogged(s.log, h) + (if h == matchId then [move] else [])
      {
        StartsLoggedAppend(s.log, e, h);
        MovesLoggedAppend(s.log, e, h);
      }
    }
  }

  lemma MoveKeepsEvents(s: Service, engine: Engine, matchId: Id, playerId: Id, move: ChessMove)
    requires IdsMatch(s.store) && EventsConsistent(s) && JoinPrecedesStart(s.log)
    ensures var r := AddMove(s, engine, matchId, playerId, move).service;
            EventsConsistent(r) && JoinPrecedesStart(r.log)
  {
  }

  lemma MovePreserves(s: Service, engine: Engine, matchId: Id, playerId: Id, move: ChessMove)
    requires WellFormed(s)
    ensures WellFormed(AddMove(s, engine, matchId, playerId, move).service)
  {
    MoveKeepsCounts(s, engine, matchId, playerId, move);
    MoveKeepsEvents(s, engine, matchId, playerId, move);
  }

  /** The events a successful seating appends to the log. */
  function JoinEvents(g': Game, gameId: Id, player: Id): seq<Event> {
    [PlayerJoin(gameId, player)]
    + (if g'.IsFull() then [GameStart(gameId, g'.white.value, g'.black.value)] else [])
  }

  lemma JoinKeepsCounts(s: Service, gameId: Id, player: Id, coin: bool)
    requires StartsConsistent(s) && MovesConsistent(s)
    ensures var r := AddPlayerToGame(s, gameId, player, coin).service;
            StartsConsistent(r) && MovesConsistent(r)
  {
    var r := AddPlayerToGame(s, gameId, player, coin);
    if r.ok {
      var g' := r.service.store[gameId];
      var join := PlayerJoin(gameId, player);
      var joined := s.log + [join];
      assert r.service.log == s.log + JoinEvents(g', gameId, player);
      forall h | h in r.service.store
        ensures StartsLogged(r.service.log, h) == StartsLogged(s.log, h) + (if h == gameId && g'.IsFull() then 1 else 0)
        ensures MovesLogged(r.service.log, h) == MovesLogged(s.log, h)
      {
        StartsLoggedAppend(s.log, join, h);
        MovesLoggedAppend(s.log, join, h);
        if g'.IsFull() {
          var start := GameStart(gameId, g'.white.value, g'.black.value);
          assert r.service.log == joined + [start];
          StartsLoggedAppend(joined, start, h);
          MovesLoggedAppend(joined, start, h);
        } else {
          assert r.service.log == joined;
        }
      }
    }
  }

  lemma JoinKeepsEvents(s: Service, gameId: Id, player: Id, coin: bool)
    requires StartsConsistent(s) && EventsConsistent(s) && JoinPrecedesStart(s.log)
    ensures var r := AddPlayerToGame(s, gameId, player, coin).service;
            EventsConsistent(r) && JoinPrecedesStart(r.log)
  {
    var r := AddPlayerToGame(s, gameId, player, coin);
    if r.ok {
      var g' := r.service.store[gameId];
      assert r.service.log == s.log + JoinEvents(g', gameId, player);
      forall i | 0 <= i < |s.log| && s.log[i].GameStart?
        ensures s.log[i].game != gameId
      {
        NoStartLogged(s.log, gameId, i);
      }
    }
  }

  lemma JoinPreserves(s: Service, gameId: Id, player: Id, coin: bool)
    requires WellFormed(s)
    ensures WellFormed(AddPlayerToGame(s, gameId, player, coin).service)
  {
    JoinKeepsCounts(s, gameId, player, coin);
    JoinKeepsEvents(s, gameId, player, coin);
  }

  /** One call of a lifecycle operation, with its stand-in inputs. */
  datatype Op =
    | Create(newId: Id, initialFen: string, creator: Id, color: Color)
    | Join(gameId: Id, player: Id, coin: bool)
    | Move(gameId: Id, player: Id, move: ChessMove)
    | Expire(gameId: Id, expired: Color)

  /** The callers' obligations: a fresh id for creation, an existing match
      for clock expiry. */
  predicate Enabled(s: Service, op: Op) {
    match op
    case Create(newId, _, _, _) => newId !in s.store
    case Expire(gameId, _) => gameId in s.store
    case _ => true
  }

  function Step(s: Service, engine: Engine, op: Op): (s': Service)
    requires Enabled(s, op)
  {
    match op
    case Create(newId, fen, creator, color) => CreateGame(s, newId, fen, creator, color).1
    case Join(gameId, player, coin) => AddPlayerToGame(s, gameId, player, coin).service
    case Move(gameId, player, move) => AddMove(s, engine, gameId, player, move).service
    case Expire(gameId, expired) => HandleClockExpired(s, gameId, expired)
  }

  predicate ValidRun(s: Service, engine: Engine, ops: seq<Op>)
    decreases |ops|
  {
    |ops| == 0 || (Enabled(s, ops[0]) && ValidRun(Step(s, engine, ops[0]), engine, ops[1..]))
  }

  /** The service after the calls `ops`, made one after another. */
  function Run(s: Service, engine: Engine, ops: seq<Op>): (s': Service)
    requires ValidRun(s, engine, ops)
    decreases |ops|
  {
    if |ops| == 0 then s else Run(Step(s, engine, ops[0]), engine, ops[1..])
  }

  /** Every operation keeps the invariant, never deletes a match and never
      retracts a published event. */
  lemma StepPreserves(s: Service, engine: Engine, op: Op)
    requires WellFormed(s) && Enabled(s, op)
    ensures var r := Step(s, engine, op);
            WellFormed(r) && s.log <= r.log && s.store.Keys <= r.store.Keys
  {
    match op
    case Create(newId, fen, creator, color) => CreatePreserves(s, newId, fen, creator, color);
    case Join(gameId, player, coin) => JoinPreserves(s, gameId, player, coin);
    case Move(gameId, player, move) => MovePreserves(s, engine, gameId, player, move);
    case Expire(gameId, expired) => ExpirePreserves(s, gameId, expired);
  }

  lemma {:induction false} RunPreserves(s: Service, engine: Engine, ops: seq<Op>)
    requires WellFormed(s) && ValidRun(s, engine, ops)
    ensures var r := Run(s, engine, ops);
            WellFormed(r) && s.log <= r.log && s.store.Keys <= r.store.Keys
    decreases |ops|
  {
    if |ops| > 0 {
      StepPreserves(s, engine, ops[0]);
      RunPreserves(Step(s, engine, ops[0]), engine, ops[1..]);
    }
  }

  /** From an empty store, the moves published for any match are exactly
      the moves persisted in its history, in the same order. */
  lemma PublishedMovesMatchHistory(engine: Engine, ops: seq<Op>, g: Id)
    requires ValidRun(Empty, engine, ops)
    requires g in Run(Empty, engine, ops).store
    ensures var r := Run(Empty, engine, ops);
            MovesLogged(r.log, g) == r.store[g].moves
  {
    EmptyWellFormed();
    RunPreserves(Empty, engine, ops);
  }

  /** From an empty store, a match is announced as started at most once,
      never while still waiting, and always right after a join event. */
  lemma StartAnnouncedOnce(engine: Engine, ops: seq<Op>, g: Id)
    requires ValidRun(Empty, engine, ops)
    requires g in Run(Empty, engine, ops).store
    ensures var r := Run(Empty, engine, ops);
            && StartsLogged(r.log, g) <= 1
            && (r.store[g].status == Waiting ==> StartsLogged(r.log, g) == 0)
            && JoinPrecedesStart(r.log)
  {
    EmptyWellFormed();
    RunPreserves(Empty, engine, ops);
  }

  /** From an empty store, the player to move in an in-progress match is
      always seated, so the seat check in `addMove` never meets an empty seat. */
  lemma SeatToMoveFilled(engine: Engine, ops: seq<Op>, g: Id)
    requires ValidRun(Empty, engine, ops)
    requires g in Run(Empty, engine, ops).store
    requires Run(Empty, engine, ops).store[g].status.IsInProgress()
    ensures var game := Run(Empty, engine, ops).store[g];
            game.IsFull() && game.Seat(ToMove(game.status)).Some? && game.white != game.black
  {
    EmptyWellFormed();
    RunPreserves(Empty, engine, ops);
  }

  /** In a well-formed store, two moves accepted back to back in one match
      come from different players. */
  lemma TurnsAlternate(s: Service, engine: Engine, g: Id, p: Id, m: ChessMove, q: Id, m2: ChessMove)
    requires WellFormed(s)
    requires AddMove(s, engine, g, p, m).ok
    requires AddMove(AddMove(s, engine, g, p, m).service, engine, g, q, m2).ok
    ensures p != q
  {
  }
}
