# Chess match lifecycle and King movement, in Dafny

This project models two pieces of the Infuzion chess server.

- **The match lifecycle of `GameService`.** It covers creating a match in the
  WAITING state, seating the second player, and accepting moves from the
  player whose turn it is. It also covers ending a match when a clock
  expires, and the events each of these publishes. The model is written as
  pure transitions over a `Service` value, which holds:
  - the match store, a map from match id to an immutable `Game` record;
  - the publish/subscribe channel, an append-only `seq<Event>`, one
    constructor per topic (`chess::game.player_join`, `chess::game.start`,
    `chess::game.move`, `chess::game.end`).

  The board's legality check and move application (`Board.move` and
  `toFen`) are an `Engine` supplied by the caller. It maps the current FEN
  and a move to the new FEN, or to `None` when the board rejects the move.
  The `SecureRandom` seat choice is a boolean `coin` supplied by the caller.
  The fresh `Identifier` of a new match is a caller-supplied id that is not
  yet in the store.
- **The King's movement contract.** Its unit tests pin it down. A king may
  step one square in any direction. It may castle two squares toward a rook
  from e1/e8 when two things hold: the matching castling right is still in
  the board's castling set, and every square between king and rook is
  empty. Board coordinates are `(file, rank)` pairs, 0 through 7. A board is
  a map from square to piece together with the set of castling rights. Each
  test of the King test class is restated as a lemma over the start
  position.
- **`ChessMove`.** An immutable datatype `ChessMove(source, end, promotion)`
  with its three constructors. The getters are the datatype's fields.

On top of the single operations, `GameRuns` defines arbitrary sequences of
calls (`Run`). It proves that every call keeps a store invariant
(`WellFormed`). Consequences, for any run that starts from an empty store:
- the moves published for a match are exactly its persisted history;
- a match is announced as started at most once, and always right after a
  join event;
- an in-progress match always has both seats filled.

Modules, one per file: `Optional`, `Position`, `Pieces`, `ChessMoves`,
`Board`, `KingMovement`, `KingTests`, `GameService`, `GameProperties`,
`GameRuns`.

A duplicate timer fire might be expected to be harmless on a match that has
already ended, but `handleClockExpired` does not check the status: it always
overwrites it and always publishes an end event. The model does the same,
and `GameProperties.ExpiryRepeated` and `GameProperties.ExpiryIgnoresStatus`
state this behaviour.

## Model

| member | source | states |
|---|---|---|
| Pieces.NewKing | src/main/java/me/infuzion/chess/piece/King.java:8-12 | A King carries the KING type tag and keeps the colour and square it was built with |
| KingTests.GetType | src/test/java/me/infuzion/chess/piece/KingTest.java:12-16 | A white King built on (4,4) has type KING |
| ChessMoves.FromPositions | src/main/java/me/infuzion/chess/game/board/ChessMove.java:31-35 | The two-position constructor keeps source and end and leaves promotion absent |
| ChessMoves.WithPromotion | src/main/java/me/infuzion/chess/game/board/ChessMove.java:37-41 | The three-argument constructor keeps the promotion unchanged; with an absent promotion it equals the two-position constructor |
| ChessMoves.FromStrings | src/main/java/me/infuzion/chess/game/board/ChessMove.java:27-29 | The string constructor builds a move exactly when both names are valid squares; its squares carry those names and it has no promotion |
| ChessMoves.FromStringsRoundTrip | src/main/java/me/infuzion/chess/game/board/ChessMove.java:27-35 | Naming the squares of a promotion-free move and rebuilding it from the names yields the same move |
| ChessMoves.FromStringsIsFromPositions | src/main/java/me/infuzion/chess/game/board/ChessMove.java:27-29 | The string constructor equals the position constructor applied to the parsed squares |
| Board.SetPiece | src/test/java/me/infuzion/chess/piece/KingTest.java:46-48 | Setting a square changes only that square, and leaves the castling rights alone |
| Board.RemoveRight | src/test/java/me/infuzion/chess/piece/KingTest.java:57 | Revoking a castling right removes only that right and leaves the pieces alone |
| KingMovement.KingAllowed | src/test/java/me/infuzion/chess/piece/KingTest.java:18-138 | The king may make a one-square step onto a square its own colour does not hold, or castle from e1/e8 with the matching right held and the squares between king and rook empty; anything allowed lands off its own pieces and is a step or a castle |
| KingMovement.StepAllowed | src/test/java/me/infuzion/chess/piece/KingTest.java:25-29 | A one-square step is allowed exactly when no piece of the king's colour stands on the target, so every step to an empty neighbour is allowed |
| KingMovement.LongMoveRejected | src/test/java/me/infuzion/chess/piece/KingTest.java:31-35 | Staying in place, and any move of two or more squares that is not a castling move, is rejected |
| KingMovement.QueenSideCastleIff | src/test/java/me/infuzion/chess/piece/KingTest.java:44-52 | From e1/e8, castling to c1/c8 is allowed if and only if the queen-side right is held and b, c and d are empty |
| KingMovement.KingSideCastleIff | src/test/java/me/infuzion/chess/piece/KingTest.java:70-78 | From e1/e8, castling to g1/g8 is allowed if and only if the king-side right is held and f and g are empty |
| KingMovement.RevokeNeverEnables | src/test/java/me/infuzion/chess/piece/KingTest.java:57-61 | Revoking any castling right never makes a new move allowed |
| KingMovement.RevokeDisablesCastle | src/test/java/me/infuzion/chess/piece/KingTest.java:82-86 | From the home square, revoking a wing's right disables that wing's castle whatever the squares hold |
| KingTests.Allowed | src/test/java/me/infuzion/chess/piece/KingTest.java:18-36 | From (4,4) on the start position: the five listed neighbours are allowed; the four far squares and (4,4) itself are rejected |
| KingTests.WhiteQueenSideCastling | src/test/java/me/infuzion/chess/piece/KingTest.java:38-62 | c1 is rejected while b1-d1 are occupied; once they are cleared only c1 of the four castling squares is allowed; without the white queen-side right none is |
| KingTests.WhiteKingSideCastling | src/test/java/me/infuzion/chess/piece/KingTest.java:64-87 | g1 is rejected while f1/g1 are occupied; once they are cleared only g1 is allowed; without the white king-side right none is |
| KingTests.BlackQueenSideCastling | src/test/java/me/infuzion/chess/piece/KingTest.java:89-113 | For a king on e8: c8 is allowed only after b8-d8 are cleared, and never without the black queen-side right |
| KingTests.BlackKingSideCastling | src/test/java/me/infuzion/chess/piece/KingTest.java:115-138 | For a king on e8: g8 is allowed only after f8/g8 are cleared, and never without the black king-side right |
| GameService.CreateGame | src/main/java/me/infuzion/chess/web/domain/service/GameService.java:45-56 | The new match is WAITING and stored under the fresh id. The creator sits on the requested colour and the other seat is open. The current FEN is the initial FEN, the history is empty, and nothing is published |
| GameService.AddPlayerToGame | src/main/java/me/infuzion/chess/web/domain/service/GameService.java:77-120 | Seating fails, changing nothing, if and only if the match is missing, not WAITING, full, or already seats the player. On success the player takes the one open seat, or the coin's seat when both are open, and no occupied seat changes. Status becomes IN_PROGRESS_WHITE exactly when both seats are filled. A join event is appended, on the `chess::game.player_join` topic, followed by a start event on `chess::game.start` with both players only when the match started |
| GameService.HandleClockExpired | src/main/java/me/infuzion/chess/web/domain/service/GameService.java:122-131 | The match's status becomes the out-of-time status of the expired colour, every other field and match is kept, and exactly one end event is appended, on the `chess::game.end` topic |
| GameService.AddMove | src/main/java/me/infuzion/chess/web/domain/service/GameService.java:133-169 | A move fails, changing nothing, if and only if the match is missing, not in progress, not the caller's turn, or rejected by the board. An accepted move flips the turn, stores the board's new FEN, appends the move to the history and appends one move event, on the `chess::game.move` topic, with the mover's colour |
| GameProperties.SeatingAndMovesFollowLifecycle | src/main/java/me/infuzion/chess/web/domain/service/GameService.java:107-158 | A successful seating keeps a match WAITING or starts it with white to move; an accepted move hands the turn to the other colour |
| GameProperties.EndedRejectsSeating | src/main/java/me/infuzion/chess/web/domain/service/GameService.java:87-89 | A match ended on time accepts no seating and is left unchanged |
| GameProperties.NotInProgressRejectsMoves | src/main/java/me/infuzion/chess/web/domain/service/GameService.java:138-140 | A waiting or ended match accepts no move and is left unchanged |
| GameProperties.ExpiryIgnoresStatus | src/main/java/me/infuzion/chess/web/domain/service/GameService.java:122-128 | Expiry ends a match from any status; a later expiry of the other colour overwrites an ended status |
| GameProperties.ExpiryRepeated | src/main/java/me/infuzion/chess/web/domain/service/GameService.java:122-128 | A repeated expiry for the same colour leaves the store as the first left it but publishes a second end event |
| GameProperties.JoinTwiceRejected | src/main/java/me/infuzion/chess/web/domain/service/GameService.java:91-93 | A player just seated cannot be seated again in the same match |
| GameProperties.StartClosesSeating | src/main/java/me/infuzion/chess/web/domain/service/GameService.java:87-89 | After the seating that starts a match, no further seating is accepted |
| GameProperties.CreateThenJoinStarts | src/main/java/me/infuzion/chess/web/domain/service/GameService.java:95-119 | Creating a match and seating another player starts it. The creator keeps the chosen colour and the joiner gets the other, whatever the coin. The log gains the join event and then the start event |
| GameProperties.WrongPlayerRejected | src/main/java/me/infuzion/chess/web/domain/service/GameService.java:142-145 | A caller who is not seated on the colour to move is rejected, changing nothing |
| GameRuns.RunPreserves | src/main/java/me/infuzion/chess/web/domain/service/GameService.java:77-169 | Any sequence of calls keeps the store invariant, never deletes a match and never retracts a published event |
| GameRuns.PublishedMovesMatchHistory | src/main/java/me/infuzion/chess/web/domain/service/GameService.java:160-167 | From an empty store, the moves published for a match are, in order, exactly its persisted history |
| GameRuns.StartAnnouncedOnce | src/main/java/me/infuzion/chess/web/domain/service/GameService.java:111-117 | From an empty store, a match is announced as started at most once, never while it is waiting, and every start event directly follows a join event of the same match |
| GameRuns.SeatToMoveFilled | src/main/java/me/infuzion/chess/web/domain/service/GameService.java:142-143 | From an empty store, an in-progress match has both seats filled, by two different players, so the player to move is seated |
| GameRuns.TurnsAlternate | src/main/java/me/infuzion/chess/web/domain/service/GameService.java:142-158 | In a well-formed store, two moves accepted back to back in one match come from different players |

## Left out

- The Java bodies of `ChessPosition`, `BoardData`, `ChessBoard`, `Board.move`, `toFen`, `GameStatus`, `Game`, `MoveTypes` and `ChessPiece` are not part of this model. The datatypes here named `BoardData`, `ChessPiece`, `GameStatus` and `Game` are minimal stand-ins holding only what the modelled code reads and writes. Squares are modelled as a file/rank pair whose names are `[a-h][1-8]`. `(4,4)` in the tests is read as file 4, rank 4.
- KingMovement.KingAllowed: the movement code behind the King (`MoveTypes`) is not part of this model, so the rule is reconstructed from the tests. The one-square rule assumes a king may not land on a piece of its own colour; the tests only probe empty targets. Castling in chess also requires that neither king nor rook has moved, and that the king's square and the squares it passes through are not attacked. `KingAllowed` checks only the castling right and the empty squares between king and rook, so it is more permissive than that rule. `KingMovement.KingSideCastleIff` and `KingMovement.QueenSideCastleIff` hold for this simplified rule only.
- The full `Board.move` legality (check detection, sliding pieces, pawns, en passant, promotion rules) is abstracted into the `Engine` parameter.
- GameService.AddMove: when the status is in progress but the seat to move is empty, the source throws a `NullPointerException` in its seat check. The model returns false there. `GameRuns.SeatToMoveFilled` proves this state is unreachable from an empty store.
- GameService.HandleClockExpired: the source dereferences a missing match, so the model requires that the match exists. Idempotence and race safety against `addMove` are not claimed, because the code has neither.
- GameService.CreateGame: `new Identifier()` is replaced by a caller-supplied id that must not already be in the store. The generator's uniqueness is not modelled.
- The `Game`'s board object is represented only by its current FEN. Only the five statuses the service uses are modelled.
- `SecureRandom` is replaced by the `coin` parameter. Uniformity and independence of the choice are not modelled.
- Concurrency: the clock and subscription threads, and any interleaving of expiry with `addMove`. Calls are modelled one at a time.
- Server wiring, connection pools and the Redis subscription loop in `Chess.java` are left out, because they are I/O and thread plumbing.
- Timing measurements and console logging in `addMove` and `handleClockExpired` are left out, because they have no effect on state.
- The passthrough getters `getGame`, `getRecentGameForUser` and `getActiveGames` are left out, because they only forward to the store.
- `ChessMove.toString` is left out, because its format depends on `ChessPosition.toString`, which is not part of this model.
- `Knight`, `Bishop` and `Rook` are left out. `Knight.allowed` is a stub on an older API, and the other two only set a tag and a movement constant whose logic is not visible.
