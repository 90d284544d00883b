/**
 * The REST game actions (game/views.py `GameViewSet`): join, guess, pause, resume, and the two
 * end-of-game helpers, over the game row of `Models` and a store of profiles and history rows.
 */
module Views {
  import opened Common
  import opened Models

  const LetterPoints: int := 20

  datatype Outcome = Win | Loss | Draw

  /** A `GameHistory` row of the REST model. */
  datatype HistoryEntry = HistoryEntry(user: UserId, scoreInGame: int, result: Outcome)

  /** Profile totals and history rows. */
  class Store {
    var profiles: map<UserId, int>
    var history: seq<HistoryEntry>

    constructor (profiles: map<UserId, int>)
      ensures this.profiles == profiles && history == []
    {
      this.profiles := profiles;
      history := [];
    }
  }

  // ---------------------------------------------------------------- join

  /** Another game row, as the "already in a game" query sees it. */
  datatype GameRow = GameRow(status: Status, player1: UserId, player2: Option<UserId>)

  /** The user is a player of some other waiting or active game. */
  predicate BusyElsewhere(user: UserId, others: seq<GameRow>)
  {
    exists i :: 0 <= i < |others| && (others[i].status == Waiting || others[i].status == Active) &&
                (others[i].player1 == user || others[i].player2 == Some(user))
  }

  datatype JoinOutcome = NotJoinable | OwnGame | AlreadyInGame | Joined

  /** The checks of `join`, in order. */
  function JoinRefusal(status: Status, player1: UserId, player2: Option<UserId>, user: UserId, others: seq<GameRow>)
    : (r: Option<JoinOutcome>)
    ensures r.None? <==> (status == Waiting || player2.None?) && user != player1 && !BusyElsewhere(user, others)
    ensures r == Some(NotJoinable) <==> status != Waiting && player2.Some?
    ensures r.Some? ==> r.value != Joined
  {
    if status != Waiting && player2.Some? then Some(NotJoinable)
    else if user == player1 then Some(OwnGame)
    else if BusyElsewhere(user, others) then Some(AlreadyInGame)
    else None
  }

  /** `join`: the caller becomes player 2 and the game is initialised and active. */
  method Join(game: Game, user: UserId, others: seq<GameRow>, now: int) returns (r: JoinOutcome)
    modifies game
    ensures var refusal := JoinRefusal(old(game.status), game.player1, old(game.player2), user, others);
      && (refusal.Some? ==> r == refusal.value && unchanged(game))
      && (refusal.None? ==>
            && r == Joined
            && game.DisplayInSync()
            && game.Snap() == old(game.Snap()).(player2 := Some(user), status := Active,
                                                currentDisplayWord := Blanks(|game.word.text|),
                                                timeLimitSeconds := TimeLimitFor(game.word.difficulty),
                                                guessedLetters := "", currentTurn := Some(game.player1),
                                                startTime := now, lastActiveTime := now))
  {
    var refusal := JoinRefusal(game.status, game.player1, game.player2, user, others);
    if refusal.Some? {
      return refusal.value;
    }
    game.player2 := Some(user);
    game.status := Active;
    game.InitializeGame(now);
    r := Joined;
  }

  // ---------------------------------------------------------------- guess

  /** The `guessed_letters` field of a request: missing or falsy, not a string, or a non-empty string. */
  datatype LetterInput = Absent | NotText | Text(s: string)

  datatype GuessOutcome =
    | NoLetter | NotALetter | GameNotActive | NotYourTurn | TimeUp | AlreadyGuessed
    | Processed(correct: bool, ended: bool)

  /** The input checks of `guess`: present, then one alphabetic character. */
  function InputRefusal(input: LetterInput): (r: Option<GuessOutcome>)
    ensures r.None? <==> input.Text? && |input.s| == 1 && IsLetter(input.s[0])
    ensures r == Some(NoLetter) <==> input.Absent? || input == Text("")
  {
    if input.Absent? || input == Text("") then Some(NoLetter)
    else if input.NotText? || |input.s| != 1 || !IsLetter(input.s[0]) then Some(NotALetter)
    else None
  }

  /** The score fields after `user` gains `delta`: player 1's, else player 2's when the user is player 2. */
  function AddScore(s: GameSnap, player1: UserId, user: UserId, delta: int): GameSnap
  {
    if user == player1 then s.(player1Score := s.player1Score + delta)
    else if s.player2 == Some(user) then s.(player2Score := s.player2Score + delta)
    else s
  }

  /** An accepted guess before the end-of-game check: the letter logged, the masked word, the score. */
  function Guessed(s: GameSnap, player1: UserId, secret: string, user: UserId, letter: char): GameSnap
  {
    var correct := letter in secret;
    var guessed := s.guessedLetters + [letter];
    AddScore(s.(guessedLetters := guessed,
                currentDisplayWord := if correct then Display(secret, guessed) else s.currentDisplayWord),
             player1, user, if correct then LetterPoints else -LetterPoints)
  }

  /** The guess completes the word. */
  predicate Completes(secret: string, guessed: string, letter: char)
  {
    letter in secret && '_' !in Display(secret, guessed + [letter])
  }

  /** The player who moves next: the other one, when there is a second player. */
  function NextTurn(s: GameSnap, player1: UserId, user: UserId): Option<UserId>
  {
    if s.player2.Some? then (if user == player1 then s.player2 else Some(player1)) else s.currentTurn
  }

  /**
   * An accepted guess logs the letter, scores +20 or -20 by whether it occurs in the word, and
   * keeps the masked word in step with the guessed letters; the word is complete exactly when
   * every character of the word has been guessed.
   */
  lemma GuessedEffects(s: GameSnap, player1: UserId, secret: string, user: UserId, letter: char)
    requires s.currentDisplayWord == Display(secret, s.guessedLetters)
    requires user == player1 || s.player2 == Some(user)
    requires s.player2 != Some(player1)
    ensures var s' := Guessed(s, player1, secret, user, letter);
      && s'.guessedLetters == s.guessedLetters + [letter]
      && s'.currentDisplayWord == Display(secret, s'.guessedLetters)
      && (user == player1 ==> s'.player1Score == s.player1Score + (if letter in secret then 20 else -20) && s'.player2Score == s.player2Score)
      && (user != player1 ==> s'.player2Score == s.player2Score + (if letter in secret then 20 else -20) && s'.player1Score == s.player1Score)
      && (Completes(secret, s.guessedLetters, letter) <==>
            letter in secret && forall i :: 0 <= i < |secret| ==> secret[i] in s'.guessedLetters && secret[i] != '_')
  {
    if letter !in secret {
      MissKeepsDisplay(secret, s.guessedLetters, letter);
    }
    DisplayCompleteness(secret, s.guessedLetters + [letter]);
  }

  /** `guess`: input and turn checks, the clock, then one letter. */
  method Guess(game: Game, store: Store, user: UserId, input: LetterInput, now: int) returns (r: GuessOutcome)
    modifies game, store
    ensures var refusal := InputRefusal(input);
      && (refusal.Some? ==> r == refusal.value && unchanged(game, store))
      && (refusal.None? && old(game.status) != Active ==> r == GameNotActive && unchanged(game, store))
      && (refusal.None? && old(game.status) == Active && old(game.currentTurn) != Some(user) ==>
            r == NotYourTurn && unchanged(game, store))
      && (refusal.None? && old(game.status) == Active && old(game.currentTurn) == Some(user) ==>
            var letter := LowerChar(input.s[0]);
            var s := old(game.Snap());
            if old(game.RemainingTime(now)) <= 0 then
              var (w, draw) := TimeoutVerdict(s, game.player1);
              && r == TimeUp
              && game.Snap() == Ended(s, w, draw)
              && store.history == old(store.history) + Rows(PlayersData(s, game.player1), w, draw)
              && store.profiles == Totals(old(store.profiles), PlayersData(s, game.player1))
            else if letter in s.guessedLetters then
              r == AlreadyGuessed && unchanged(game, store)
            else
              var mid := Guessed(s, game.player1, game.Secret(), user, letter);
              var won := Completes(game.Secret(), s.guessedLetters, letter);
              && r == Processed(letter in game.Secret(), won)
              && (won ==>
                    && game.Snap() == Ended(mid, Some(user), false).(lastActiveTime := now)
                    && store.history == old(store.history) + Rows(PlayersData(mid, game.player1), Some(user), false)
                    && store.profiles == Totals(old(store.profiles), PlayersData(mid, game.player1)))
              && (!won ==>
                    && game.Snap() == mid.(currentTurn := NextTurn(s, game.player1, user), lastActiveTime := now)
                    && unchanged(store)))
  {
    var refusal := InputRefusal(input);
    if refusal.Some? {
      return refusal.value;
    }
    var letter := LowerChar(input.s[0]);
    if game.status != Active {
      return GameNotActive;
    }
    if game.currentTurn != Some(user) {
      return NotYourTurn;
    }
    if game.RemainingTime(now) <= 0 {
      EndGameDueToTimeout(game, store);
      return TimeUp;
    }
    if letter in game.guessedLetters {
      return AlreadyGuessed;
    }
    r := ApplyGuess(game, store, user, letter, now);
  }

  /** The accepted part of `guess`: log and score the letter, then finish the game or pass the turn. */
  method ApplyGuess(game: Game, store: Store, user: UserId, letter: char, now: int) returns (r: GuessOutcome)
    requires game.status == Active
    modifies game, store
    ensures var s := old(game.Snap());
      var mid := Guessed(s, game.player1, game.Secret(), user, letter);
      var won := Completes(game.Secret(), s.guessedLetters, letter);
      && r == Processed(letter in game.Secret(), won)
      && (won ==>
            && game.Snap() == Ended(mid, Some(user), false).(lastActiveTime := now)
            && store.history == old(store.history) + Rows(PlayersData(mid, game.player1), Some(user), false)
            && store.profiles == Totals(old(store.profiles), PlayersData(mid, game.player1)))
      && (!won ==>
            && game.Snap() == mid.(currentTurn := NextTurn(s, game.player1, user), lastActiveTime := now)
            && unchanged(store))
  {
    var correct, allGuessed := RecordGuess(game, user, letter);
    if correct && allGuessed {
      EndGame(game, store, Some(user), false);
    } else if game.player2.Some? {
      game.currentTurn := if user == game.player1 then game.player2 else Some(game.player1);
    }
    game.lastActiveTime := now;
    r := Processed(correct, correct && allGuessed);
  }

  /** The first half of an accepted guess: the letter logged, the masked word redrawn on a hit, the guesser scored. */
  method RecordGuess(game: Game, user: UserId, letter: char) returns (correct: bool, allGuessed: bool)
    modifies game
    ensures game.Snap() == Guessed(old(game.Snap()), game.player1, game.Secret(), user, letter)
    ensures correct <==> letter in game.Secret()
    ensures correct && allGuessed <==> Completes(game.Secret(), old(game.guessedLetters), letter)
  {
    var secret := game.Secret();
    correct := letter in secret;
    var delta := if correct then LetterPoints else -LetterPoints;
    game.guessedLetters := game.guessedLetters + [letter];
    allGuessed := false;
    if correct {
      var shown := Display(secret, game.guessedLetters);
      game.currentDisplayWord := shown;
      allGuessed := '_' !in shown;
    }
    if user == game.player1 {
      game.player1Score := game.player1Score + delta;
    } else if game.player2 == Some(user) {
      game.player2Score := game.player2Score + delta;
    }
  }

  // ---------------------------------------------------------------- pause and resume

  datatype PauseOutcome = PauseNotActive | PauseNotAPlayer | PauseDone

  /** `pause`: from active, by a player; banks the time since the last activity. */
  method Pause(game: Game, user: UserId, now: int) returns (r: PauseOutcome)
    modifies game
    ensures old(game.status) != Active ==> r == PauseNotActive && unchanged(game)
    ensures old(game.status) == Active && user != game.player1 && old(game.player2) != Some(user) ==>
      r == PauseNotAPlayer && unchanged(game)
    ensures old(game.status) == Active && (user == game.player1 || old(game.player2) == Some(user)) ==>
      && r == PauseDone
      && game.Snap() == old(game.Snap()).(status := Paused,
                                          timeElapsedBeforePause := old(game.timeElapsedBeforePause) + (now - old(game.lastActiveTime)))
      && game.RemainingTime(now) == old(game.timeLimitSeconds) - (old(game.timeElapsedBeforePause) + (now - old(game.lastActiveTime)))
  {
    if game.status != Active {
      return PauseNotActive;
    }
    if user != game.player1 && game.player2 != Some(user) {
      return PauseNotAPlayer;
    }
    game.timeElapsedBeforePause := game.timeElapsedBeforePause + (now - game.lastActiveTime);
    game.status := Paused;
    r := PauseDone;
  }

  datatype ResumeOutcome = ResumeNotPaused | ResumeNotAllowed | ResumeDone

  /** The caller check of `resume` as written: `player_1 != user or player_2 != user` refuses. */
  function ResumeGuardAsWritten(player1: UserId, player2: Option<UserId>, user: UserId): (passes: bool)
    ensures passes ==> player2 == Some(player1)
  {
    !(player1 != user || player2 != Some(user))
  }

  /** In any game whose two players differ, the written check refuses every caller, players included. */
  lemma ResumeGuardAsWrittenRefusesPlayers(player1: UserId, player2: UserId, user: UserId)
    requires player1 != player2
    ensures !ResumeGuardAsWritten(player1, Some(player2), user)
    ensures ResumeGuard(player1, Some(player2), player1) && ResumeGuard(player1, Some(player2), player2)
  {
  }

  /** The caller check `resume` evidently intends, the one `pause` makes: the caller is a player. */
  function ResumeGuard(player1: UserId, player2: Option<UserId>, user: UserId): (passes: bool)
    ensures passes <==> user == player1 || player2 == Some(user)
  {
    player1 == user || player2 == Some(user)
  }

  /**
   * `resume` as written: from paused, past the written caller check; restarts the clock from now.
   * In a game with two distinct players the check refuses every caller, so a paused game stays paused.
   */
  method Resume(game: Game, user: UserId, now: int) returns (r: ResumeOutcome)
    modifies game
    ensures old(game.status) != Paused ==> r == ResumeNotPaused && unchanged(game)
    ensures old(game.status) == Paused && !ResumeGuardAsWritten(game.player1, old(game.player2), user) ==>
      r == ResumeNotAllowed && unchanged(game)
    ensures old(game.status) == Paused && ResumeGuardAsWritten(game.player1, old(game.player2), user) ==>
      && r == ResumeDone
      && game.Snap() == old(game.Snap()).(status := Active, lastActiveTime := now)
    ensures old(game.player2).Some? && old(game.player2) != Some(game.player1) ==> r != ResumeDone && unchanged(game)
  {
    if game.status != Paused {
      return ResumeNotPaused;
    }
    if game.player1 != user || game.player2 != Some(user) {
      return ResumeNotAllowed;
    }
    Reactivate(game, now);
    r := ResumeDone;
  }

  /** `resume` with the caller check evidently intended: any player of the game may resume it. */
  method ResumeAsIntended(game: Game, user: UserId, now: int) returns (r: ResumeOutcome)
    modifies game
    ensures old(game.status) != Paused ==> r == ResumeNotPaused && unchanged(game)
    ensures old(game.status) == Paused && !ResumeGuard(game.player1, old(game.player2), user) ==>
      r == ResumeNotAllowed && unchanged(game)
    ensures old(game.status) == Paused && ResumeGuard(game.player1, old(game.player2), user) ==>
      && r == ResumeDone
      && game.Snap() == old(game.Snap()).(status := Active, lastActiveTime := now)
      && var banked := old(game.timeLimitSeconds) - old(game.timeElapsedBeforePause);
         game.RemainingTime(now) == if banked < 0 then 0 else banked
  {
    if game.status != Paused {
      return ResumeNotPaused;
    }
    if !ResumeGuard(game.player1, game.player2, user) {
      return ResumeNotAllowed;
    }
    Reactivate(game, now);
    r := ResumeDone;
  }

  /** The update both forms of `resume` make: active again, with the clock restarted from now. */
  method Reactivate(game: Game, now: int)
    modifies game
    ensures game.Snap() == old(game.Snap()).(status := Active, lastActiveTime := now)
  {
    game.status := Active;
    game.lastActiveTime := now;
  }

  // ---------------------------------------------------------------- end of game

  /** The `players_data` list of `_end_game`: each slot with its score. */
  function PlayersData(s: GameSnap, player1: UserId): seq<(Option<UserId>, int)>
  {
    [(Some(player1), s.player1Score), (s.player2, s.player2Score)]
  }

  /** The result recorded for one player. */
  function ResultFor(player: UserId, winner: Option<UserId>, isDraw: bool): Outcome
  {
    if isDraw then Draw else if winner == Some(player) then Win else Loss
  }

  /** The history rows `_end_game` appends for the present players of `data`, in order. */
  function Rows(data: seq<(Option<UserId>, int)>, winner: Option<UserId>, isDraw: bool): seq<HistoryEntry>
  {
    if |data| == 0 then [] else Rows(data[..|data| - 1], winner, isDraw) + RowOf(data[|data| - 1], winner, isDraw)
  }

  /** The row one slot of `players_data` contributes: none for an empty slot. */
  function RowOf(slot: (Option<UserId>, int), winner: Option<UserId>, isDraw: bool): seq<HistoryEntry>
  {
    if slot.0.Some? then [HistoryEntry(slot.0.value, slot.1, ResultFor(slot.0.value, winner, isDraw))] else []
  }

  /** The profile totals after `_end_game` adds each present player's score, floored at zero. */
  function Totals(profiles: map<UserId, int>, data: seq<(Option<UserId>, int)>): map<UserId, int>
  {
    if |data| == 0 then profiles else AddTotal(Totals(profiles, data[..|data| - 1]), data[|data| - 1])
  }

  /** One slot's profile update: its score added to the total (zero when missing), floored at zero. */
  function AddTotal(before: map<UserId, int>, slot: (Option<UserId>, int)): map<UserId, int>
  {
    if slot.0.Some? then
      var current := if slot.0.value in before then before[slot.0.value] else 0;
      before[slot.0.value := if current + slot.1 < 0 then 0 else current + slot.1]
    else before
  }

  /** Extending the processed prefix of `players_data` by one slot. */
  lemma PrefixStep(data: seq<(Option<UserId>, int)>, i: nat, profiles: map<UserId, int>, winner: Option<UserId>, isDraw: bool)
    requires i < |data|
    ensures Rows(data[..i + 1], winner, isDraw) == Rows(data[..i], winner, isDraw) + RowOf(data[i], winner, isDraw)
    ensures Totals(profiles, data[..i + 1]) == AddTotal(Totals(profiles, data[..i]), data[i])
  {
    assert data[..i + 1][..i] == data[..i];
  }

  /** The game row after `_end_game`. */
  function Ended(s: GameSnap, winner: Option<UserId>, isDraw: bool): GameSnap
  {
    s.(status := Finished, winner := winner, isDraw := isDraw, currentTurn := None)
  }

  /** Profile totals are never negative after `_end_game`, and every present player has one. */
  lemma {:induction false} TotalsNeverNegative(profiles: map<UserId, int>, data: seq<(Option<UserId>, int)>)
    requires forall u | u in profiles :: profiles[u] >= 0
    ensures forall u | u in Totals(profiles, data) :: Totals(profiles, data)[u] >= 0
    ensures forall i | 0 <= i < |data| && data[i].0.Some? :: data[i].0.value in Totals(profiles, data)
    ensures profiles.Keys <= Totals(profiles, data).Keys
  {
    if |data| > 0 {
      var prefix := data[..|data| - 1];
      TotalsNeverNegative(profiles, prefix);
      forall i | 0 <= i < |data| && data[i].0.Some? ensures data[i].0.value in Totals(profiles, data) {
        if i < |data| - 1 {
          assert data[i] == prefix[i];
        }
      }
    }
  }

  /**
   * For two distinct players, `_end_game` writes player 1's row then player 2's, with their game
   * scores, and each total becomes max(0, total + score); a draw is recorded for both, a win for
   * the winner and a loss for the other, and a loss for both when there is neither.
   */
  lemma EndGameForTwoPlayers(profiles: map<UserId, int>, p1: UserId, p2: UserId, s1: int, s2: int,
                             winner: Option<UserId>, isDraw: bool)
    requires p1 != p2
    ensures var data := [(Some(p1), s1), (Some(p2), s2)];
      var rows := Rows(data, winner, isDraw);
      var totals := Totals(profiles, data);
      var t1 := if p1 in profiles then profiles[p1] else 0;
      var t2 := if p2 in profiles then profiles[p2] else 0;
      && |rows| == 2 && rows[0].user == p1 && rows[0].scoreInGame == s1 && rows[1].user == p2 && rows[1].scoreInGame == s2
      && (isDraw ==> rows[0].result == Draw && rows[1].result == Draw)
      && (!isDraw && winner == Some(p1) ==> rows[0].result == Win && rows[1].result == Loss)
      && (!isDraw && winner == Some(p2) ==> rows[0].result == Loss && rows[1].result == Win)
      && (!isDraw && winner.None? ==> rows[0].result == Loss && rows[1].result == Loss)
      && totals.Keys == profiles.Keys + {p1, p2}
      && totals[p1] == (if t1 + s1 < 0 then 0 else t1 + s1)
      && totals[p2] == (if t2 + s2 < 0 then 0 else t2 + s2)
      && (forall u | u in profiles && u != p1 && u != p2 :: totals[u] == profiles[u])
  {
    var data := [(Some(p1), s1), (Some(p2), s2)];
    var first := [(Some(p1), s1)];
    assert data[..1] == first && first[..0] == [];
    assert Rows(first, winner, isDraw) == [HistoryEntry(p1, s1, ResultFor(p1, winner, isDraw))];
    assert Rows(data, winner, isDraw) == Rows(first, winner, isDraw) + [HistoryEntry(p2, s2, ResultFor(p2, winner, isDraw))];
    var t1 := if p1 in profiles then profiles[p1] else 0;
    assert Totals(profiles, first) == profiles[p1 := if t1 + s1 < 0 then 0 else t1 + s1];
  }

  /** `_end_game`, with the history rows and profile updates its loop is meant to make. */
  method EndGame(game: Game, store: Store, winner: Option<UserId>, isDraw: bool)
    modifies game, store
    ensures old(game.status) == Finished ==> unchanged(game, store)
    ensures old(game.status) != Finished ==>
      && game.Snap() == Ended(old(game.Snap()), winner, isDraw)
      && store.history == old(store.history) + Rows(PlayersData(old(game.Snap()), game.player1), winner, isDraw)
      && store.profiles == Totals(old(store.profiles), PlayersData(old(game.Snap()), game.player1))
  {
    if game.status == Finished {
      return;
    }
    game.status := Finished;
    game.winner := winner;
    game.isDraw := isDraw;
    game.currentTurn := None;
    var playersData := [(Some(game.player1), game.player1Score), (game.player2, game.player2Score)];
    RecordPlayers(store, playersData, winner, isDraw);
  }

  /** The loop of `_end_game` over `players_data`: a history row and a profile update per present player. */
  method RecordPlayers(store: Store, playersData: seq<(Option<UserId>, int)>, winner: Option<UserId>, isDraw: bool)
    modifies store
    ensures store.history == old(store.history) + Rows(playersData, winner, isDraw)
    ensures store.profiles == Totals(old(store.profiles), playersData)
  {
    var i := 0;
    while i < |playersData|
      invariant 0 <= i <= |playersData|
      invariant store.history == old(store.history) + Rows(playersData[..i], winner, isDraw)
      invariant store.profiles == Totals(old(store.profiles), playersData[..i])
    {
      var (player, score) := playersData[i];
      PrefixStep(playersData, i, old(store.profiles), winner, isDraw);
      if player.Some? {
        var p := player.value;
        var result := if isDraw then Draw else if winner == Some(p) then Win else Loss;
        store.history := store.history + [HistoryEntry(p, score, result)];
        var total := if p in store.profiles then store.profiles[p] else 0;
        store.profiles := store.profiles[p := if total + score < 0 then 0 else total + score];
      }
      i := i + 1;
    }
    assert playersData[..i] == playersData;
  }

  /**
   * `_end_game` as written: it reads a `difficulty` attribute that neither the game row nor the
   * history row has, so the first loop iteration raises inside the transaction, which is rolled
   * back and the error swallowed; only the in-memory game fields set before the loop remain.
   */
  method EndGameAsWritten(game: Game, store: Store, winner: Option<UserId>, isDraw: bool)
    modifies game
    ensures old(game.status) == Finished ==> unchanged(game)
    ensures old(game.status) != Finished ==> game.Snap() == Ended(old(game.Snap()), winner, isDraw)
    ensures store.history == old(store.history) && store.profiles == old(store.profiles)
  {
    if game.status == Finished {
      return;
    }
    game.status := Finished;
    game.winner := winner;
    game.isDraw := isDraw;
    game.currentTurn := None;
  }

  /** A finished two-player game: the written `_end_game` records nothing, the intended one two rows. */
  method EndGameAsWrittenLosesHistory()
  {
    var w := Models.Word("cake", Easy);
    var game := new Game(w, 1, Some(2), 0);
    var store := new Store(map[1 := 10, 2 := 10]);
    EndGameAsWritten(game, store, Some(1), false);
    assert store.history == [];
    var game2 := new Game(w, 1, Some(2), 0);
    var store2 := new Store(map[1 := 10, 2 := 10]);
    EndGame(game2, store2, Some(1), false);
    EndGameForTwoPlayers(map[1 := 10, 2 := 10], 1, 2, 0, 0, Some(1), false);
    assert |store2.history| == 2;
  }

  /** `_end_game_due_to_timeout`'s verdict: the higher scorer, or a draw on equal scores; no verdict without player 2. */
  function TimeoutVerdict(s: GameSnap, player1: UserId): (r: (Option<UserId>, bool))
    ensures r.1 <==> s.player2.Some? && s.player1Score == s.player2Score
    ensures r.0.Some? <==> s.player2.Some? && s.player1Score != s.player2Score
    ensures s.player2.Some? && s.player1Score > s.player2Score ==> r.0 == Some(player1)
    ensures s.player2.Some? && s.player2Score > s.player1Score ==> r.0 == s.player2
  {
    if s.player2.Some? then
      if s.player1Score > s.player2Score then (Some(player1), false)
      else if s.player2Score > s.player1Score then (s.player2, false)
      else (None, true)
    else (None, false)
  }

  /** `_end_game_due_to_timeout`: ends the game with the verdict on points. */
  method EndGameDueToTimeout(game: Game, store: Store)
    modifies game, store
    ensures old(game.status) == Finished ==> unchanged(game, store)
    ensures old(game.status) != Finished ==>
      var (w, draw) := TimeoutVerdict(old(game.Snap()), game.player1);
      && game.Snap() == Ended(old(game.Snap()), w, draw)
      && store.history == old(store.history) + Rows(PlayersData(old(game.Snap()), game.player1), w, draw)
      && store.profiles == Totals(old(store.profiles), PlayersData(old(game.Snap()), game.player1))
  {
    if game.status == Finished {
      return;
    }
    var winner: Option<UserId> := None;
    var isDraw := false;
    if game.player2.Some? {
      if game.player1Score > game.player2Score {
        winner := Some(game.player1);
      } else if game.player2Score > game.player1Score {
        winner := game.player2;
      } else {
        isDraw := true;
      }
    }
    EndGame(game, store, winner, isDraw);
  }
}
