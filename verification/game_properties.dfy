/** Properties that relate several calls of the match lifecycle operations. */
module GameProperties {
  import opened Optional
  import opened Pieces
  import opened ChessMoves
  import opened GameService

  /** The lifecycle the seating and move operations follow: a waiting match
      stays waiting or starts with white to move, and an accepted move hands
      the turn to the other colour. */
  predicate LifecycleStep(before: GameStatus, after: GameStatus) {
    || (before == Waiting && (after == Waiting || after == InProgressWhite))
    || (before == InProgressWhite && after == InProgressBlack)
    || (before == InProgressBlack && after == InProgressWhite)
  }

  predicate IsEnded(st: GameStatus) {
    st == EndedWhiteOutOfTime || st == EndedBlackOutOfTime
  }

  /** A successful seating and an accepted move each take one lifecycle step. */
  lemma SeatingAndMovesFollowLifecycle(s: Service, engine: Engine, gameId: Id, player: Id, coin: bool, move: ChessMove)
    ensures var r := AddPlayerToGame(s, gameId, player, coin);
            r.ok ==> LifecycleStep(s.store[gameId].status, r.service.store[gameId].status)
    ensures var r := AddMove(s, engine, gameId, player, move);
            r.ok ==> LifecycleStep(s.store[gameId].status, r.service.store[gameId].status)
  {
  }

  /** A match that has ended on time accepts no further seating. */
  lemma EndedRejectsSeating(s: Service, gameId: Id, player: Id, coin: bool)
    requires gameId in s.store && IsEnded(s.store[gameId].status)
    ensures AddPlayerToGame(s, gameId, player, coin) == Outcome(false, s)
  {
  }

  /** A match that has ended on time, or is still waiting, accepts no move. */
  lemma NotInProgressRejectsMoves(s: Service, engine: Engine, gameId: Id, player: Id, move: ChessMove)
    requires gameId in s.store && (IsEnded(s.store[gameId].status) || s.store[gameId].status == Waiting)
    ensures AddMove(s, engine, gameId, player, move) == Outcome(false, s)
  {
  }

  /** Clock expiry does not look at the status: it ends a waiting match, and
      a second expiry of the other colour overwrites an ended match. */
  lemma ExpiryIgnoresStatus(s: Service, gameId: Id, first: Color, second: Color)
    requires gameId in s.store
    ensures IsEnded(HandleClockExpired(s, gameId, first).store[gameId].status)
    ensures HandleClockExpired(HandleClockExpired(s, gameId, first), gameId, second).store[gameId].status
            == OutOfTime(second)
  {
  }

  /** A repeated expiry for the same colour leaves the match as the first one
      left it, but publishes a second end event. */
  lemma ExpiryRepeated(s: Service, gameId: Id, expired: Color)
    requires gameId in s.store
    ensures var once := HandleClockExpired(s, gameId, expired);
            var twice := HandleClockExpired(once, gameId, expired);
            && twice.store == once.store
            && twice.log == s.log + [GameEnd(gameId, OutOfTime(expired)), GameEnd(gameId, OutOfTime(expired))]
  {
  }

  /** A player who has just been seated cannot be seated again. */
  lemma JoinTwiceRejected(s: Service, gameId: Id, player: Id, coin: bool, coin2: bool)
    requires AddPlayerToGame(s, gameId, player, coin).ok
    ensures var r := AddPlayerToGame(s, gameId, player, coin).service;
            AddPlayerToGame(r, gameId, player, coin2) == Outcome(false, r)
  {
  }

  /** The seating that starts a match is the last one it accepts. */
  lemma StartClosesSeating(s: Service, gameId: Id, player: Id, coin: bool, other: Id, coin2: bool)
    requires AddPlayerToGame(s, gameId, player, coin).ok
    requires AddPlayerToGame(s, gameId, player, coin).service.store[gameId].status == InProgressWhite
    ensures var r := AddPlayerToGame(s, gameId, player, coin).service;
            !AddPlayerToGame(r, gameId, other, coin2).ok
  {
  }

  /** Creating a match and seating a different player starts it: the creator
      keeps the chosen colour, the joiner takes the other whatever the coin
      says, and the join event precedes the start event. */
  lemma CreateThenJoinStarts(s: Service, newId: Id, fen: string, creator: Id, color: Color, joiner: Id, coin: bool)
    requires newId !in s.store
    requires joiner != creator
    ensures var created := CreateGame(s, newId, fen, creator, color).1;
            var r := AddPlayerToGame(created, newId, joiner, coin);
            var g := r.service.store[newId];
            && r.ok
            && g.status == InProgressWhite
            && g.Seat(color) == Some(creator)
            && g.Seat(color.Opponent()) == Some(joiner)
            && r.service.log == s.log + [PlayerJoin(newId, joiner), GameStart(newId, g.white.value, g.black.value)]
  {
  }

  /** Only the player whose colour is to move can have a move accepted; any
      other caller is rejected without effect whatever the move. */
  lemma WrongPlayerRejected(s: Service, engine: Engine, matchId: Id, playerId: Id, move: ChessMove)
    requires matchId in s.store && s.store[matchId].status.IsInProgress()
    requires s.store[matchId].Seat(ToMove(s.store[matchId].status)) != Some(playerId)
    ensures AddMove(s, engine, matchId, playerId, move) == Outcome(false, s)
  {
  }
}
