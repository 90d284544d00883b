/**
 * The websocket game engine (game/consumers.py): the authoritative per-game record, the
 * guarded transitions of `GameConsumer.handle_*`, the idempotent `end_game`, and the guard
 * of `receive`. A game's Game and GameState rows are one record here; user rows (coins, xp)
 * and the history table are a second one, the ledger.
 */
module Consumers {
  import opened Common
  import opened WordBank

  const TurnTimeoutSeconds: int := 30
  const LetterPoints: int := 20
  const WordGuessPoints: int := 100
  const WrongWordOpponentPoints: int := 50
  const WinXp: nat := 50
  const MaxHints: nat := 3

  datatype Status = Pending | Active | Paused | Finished

  /** One entry of the append-only guess log. */
  datatype Guess = Guess(letter: string, position: int, correct: bool, playerId: UserId)

  /** The economy fields of a user row. */
  datatype Account = Account(coins: nat, xp: nat)

  datatype GameResult = Won | Lost | Draw

  datatype HistoryRow = HistoryRow(player: UserId, opponent: Option<UserId>, level: Level, result: GameResult, finalScore: int)

  datatype EndReason = AllLettersGuessed | WordGuessed | PlayerTimeUp

  /** The `position` field of a guess message: missing, not convertible by `int(...)`, or an integer. */
  datatype PositionArg = Absent | NotAnInteger | Given(n: int)

  datatype Action =
    | JoinGame
    | GuessLetter(letter: string, position: PositionArg)
    | GuessWord(word: string)
    | RequestHint
    | RevealLetter
    | PauseGame
    | ResumeGame
    | CheckTimeout
    | Unknown(name: string)

  datatype Refusal =
    | GameOver | NotAllowed | CannotJoin | NotYourTurn | MissingInput | PositionNotInteger
    | PositionOutOfRange | InvalidLetter | NotEnoughCoins | AllHintsUsed | NoHintText
    | NothingToReveal | NoSecondPlayer | NotActive | NotPaused | UnknownAction | ServerError

  /** What a handler sends: a broadcast event, a personal message, or nothing at all. */
  datatype Event =
    | PlayerJoined | Reconnected | LetterGuessed | GameEnded(reason: EndReason, winner: Option<UserId>)
    | HintProvided(hint: string, coins: nat) | LetterRevealed(letter: char, position: int, coins: nat)
    | GamePaused | GameResumed | TurnTimedOut | Silent

  datatype Reply = Refused(why: Refusal) | Sent(event: Event)

  /** The mutable part of a game record, as a value. */
  datatype Snapshot = Snapshot(
    status: Status, player2: Option<UserId>, winner: Option<UserId>, currentPlayer: Option<UserId>,
    guesses: seq<Guess>, revealed: map<UserId, seq<int>>, hintsUsed: map<UserId, seq<int>>,
    player1Score: int, player2Score: int, player1Time: int, player2Time: int,
    lastTurnTime: Option<int>, pausedAt: Option<int>)

  /** The user rows and the history table, as a value. */
  datatype Tables = Tables(accounts: map<UserId, Account>, history: seq<HistoryRow>)

  // ---------------------------------------------------------------- guess log

  /** The distinct positions that at least one correct guess targets. */
  function CorrectPositions(log: seq<Guess>): set<int>
  {
    set g | g in log && g.correct :: g.position
  }

  /** Every logged guess targets a position of `secret` and records whether it matched it. */
  ghost predicate GuessesWellFormed(log: seq<Guess>, secret: string)
  {
    forall i :: 0 <= i < |log| ==>
      0 <= log[i].position < |secret| && log[i].correct == (log[i].letter == [secret[log[i].position]])
  }

  /** Appending a guess never loses a correct position and adds at most its own. */
  lemma CorrectPositionsGrow(log: seq<Guess>, g: Guess)
    ensures CorrectPositions(log) <= CorrectPositions(log + [g])
    ensures CorrectPositions(log + [g]) == if g.correct then CorrectPositions(log) + {g.position} else CorrectPositions(log)
  {
    assert forall x :: x in log + [g] <==> x in log || x == g;
  }

  /** The correct positions are bounded by the word length, and reach it exactly when every position has been guessed. */
  lemma CorrectPositionsBounded(log: seq<Guess>, secret: string)
    requires GuessesWellFormed(log, secret)
    ensures |CorrectPositions(log)| <= |secret|
    ensures |CorrectPositions(log)| == |secret| <==> forall p :: 0 <= p < |secret| ==> PositionGuessed(log, p)
  {
    var c := CorrectPositions(log);
    forall x | x in c ensures 0 <= x < |secret| {
      var g :| g in log && g.correct && g.position == x;
      var i :| 0 <= i < |log| && log[i] == g;
    }
    RangeSubsetSize(c, |secret|);
    forall p ensures p in c <==> PositionGuessed(log, p) {
      if p in c {
        var g :| g in log && g.correct && g.position == p;
        var i :| 0 <= i < |log| && log[i] == g;
      }
      if PositionGuessed(log, p) {
        var i :| 0 <= i < |log| && log[i].correct && log[i].position == p;
        assert log[i] in log;
      }
    }
  }

  /** Some correct guess in the log targets position `p`. */
  ghost predicate PositionGuessed(log: seq<Guess>, p: int)
  {
    exists i :: 0 <= i < |log| && log[i].correct && log[i].position == p
  }

  // ---------------------------------------------------------------- letter guesses

  /** The pattern `^[A-Zآ-ی]$` under Python's `re.match`, whose `$` also matches before a final newline. */
  predicate LetterPatternOk(s: string)
  {
    (|s| == 1 && (IsAsciiUpper(s[0]) || IsPersianRange(s[0]))) ||
    (|s| == 2 && (IsAsciiUpper(s[0]) || IsPersianRange(s[0])) && s[1] == '\n')
  }

  /** The checks of `handle_guess_letter`, in the order it makes them, on the upper-cased letter. */
  function LetterGuessRefusal(current: Option<UserId>, user: UserId, letter: string, position: PositionArg, wordLen: nat)
    : (r: Option<Refusal>)
    ensures r.None? <==> current == Some(user) && position.Given? && 0 <= position.n < wordLen && LetterPatternOk(letter)
    ensures r == Some(NotYourTurn) <==> current != Some(user)
    ensures r == Some(PositionOutOfRange) ==> current == Some(user) && letter != [] && position.Given?
  {
    if current != Some(user) then Some(NotYourTurn)
    else if letter == [] || position.Absent? then Some(MissingInput)
    else if position.NotAnInteger? then Some(PositionNotInteger)
    else if !(0 <= position.n < wordLen) then Some(PositionOutOfRange)
    else if !LetterPatternOk(letter) then Some(InvalidLetter)
    else None
  }

  /** The player who moves after `user`: `player2 if user == player1 else player1`. */
  function Other(player1: UserId, player2: Option<UserId>, user: UserId): Option<UserId>
  {
    if user == player1 then player2 else Some(player1)
  }

  /** An accepted letter guess, before the end-of-game check: log, score, coin and turn. */
  function LetterStep(s: Snapshot, t: Tables, player1: UserId, user: UserId, letter: string, pos: int, secret: string, now: int)
    : (Snapshot, Tables)
    requires 0 <= pos < |secret| && user in t.accounts
  {
    var correct := letter == [secret[pos]];
    var delta := if correct then LetterPoints else -LetterPoints;
    var a := t.accounts[user];
    (s.(guesses := s.guesses + [Guess(letter, pos, correct, user)],
        player1Score := if user == player1 then s.player1Score + delta else s.player1Score,
        player2Score := if user == player1 then s.player2Score else s.player2Score + delta,
        currentPlayer := Other(player1, s.player2, user),
        lastTurnTime := Some(now)),
     t.(accounts := if correct then t.accounts[user := a.(coins := a.coins + 1)] else t.accounts))
  }

  /**
   * An accepted letter guess appends exactly one record, whose `correct` says whether the letter
   * is the secret's letter at that position; it moves the actor's score alone by 20 either way,
   * gives one coin exactly when correct, and hands the turn to the other player.
   */
  lemma LetterStepEffects(s: Snapshot, t: Tables, player1: UserId, user: UserId, letter: string, pos: int, secret: string, now: int)
    requires 0 <= pos < |secret| && user in t.accounts
    requires s.player2.Some? && s.player2.value != player1 && (user == player1 || user == s.player2.value)
    ensures var (s', t') := LetterStep(s, t, player1, user, letter, pos, secret, now);
      var correct := letter == [secret[pos]];
      && s'.guesses == s.guesses + [Guess(letter, pos, correct, user)]
      && (user == player1 ==> s'.player1Score == s.player1Score + (if correct then 20 else -20) && s'.player2Score == s.player2Score)
      && (user != player1 ==> s'.player2Score == s.player2Score + (if correct then 20 else -20) && s'.player1Score == s.player1Score)
      && t'.accounts.Keys == t.accounts.Keys && t'.history == t.history
      && t'.accounts[user].coins == t.accounts[user].coins + (if correct then 1 else 0)
      && (forall u :: u in t.accounts && u != user ==> t'.accounts[u] == t.accounts[u])
      && s'.currentPlayer.Some? && s'.currentPlayer != Some(user)
      && (s'.currentPlayer.value == player1 || s'.currentPlayer == s.player2)
  {
  }

  // ---------------------------------------------------------------- whole-word guesses

  /** `handle_guess_word` before `end_game`: the score change and the declared winner. */
  function WordStep(s: Snapshot, player1: UserId, user: UserId, guessed: string, secret: string): (Snapshot, Option<UserId>)
  {
    if guessed == secret then
      (if user == player1 then s.(player1Score := s.player1Score + WordGuessPoints)
       else s.(player2Score := s.player2Score + WordGuessPoints), Some(user))
    else
      (if user == player1 then s.(player2Score := s.player2Score + WrongWordOpponentPoints)
       else s.(player1Score := s.player1Score + WrongWordOpponentPoints),
       if s.player2 == Some(user) then Some(player1) else s.player2)
  }

  /** An exact guess gives the guesser +100 and the win; any other guess gives the opponent +50 and the win. */
  lemma WordStepDecides(s: Snapshot, player1: UserId, user: UserId, guessed: string, secret: string)
    requires s.player2.Some? && s.player2.value != player1 && (user == player1 || user == s.player2.value)
    ensures var (s', w) := WordStep(s, player1, user, guessed, secret);
      var opponent := if user == player1 then s.player2.value else player1;
      && (guessed == secret ==> w == Some(user) && ScoreOf(s', player1, user) == ScoreOf(s, player1, user) + 100
                                && ScoreOf(s', player1, opponent) == ScoreOf(s, player1, opponent))
      && (guessed != secret ==> w == Some(opponent) && ScoreOf(s', player1, opponent) == ScoreOf(s, player1, opponent) + 50
                                && ScoreOf(s', player1, user) == ScoreOf(s, player1, user))
  {
  }

  /** The score field that belongs to `user`. */
  function ScoreOf(s: Snapshot, player1: UserId, user: UserId): int
  {
    if user == player1 then s.player1Score else s.player2Score
  }

  // ---------------------------------------------------------------- hints and reveals

  /** A hint list as `request_hint` builds it: 1, 2, 3 in order, nothing skipped, at most three. */
  ghost predicate IsHintRun(s: seq<int>)
  {
    |s| <= MaxHints && forall i :: 0 <= i < |s| ==> s[i] == i + 1
  }

  /** The hint text for tier `k`; anything but 1, 2, 3 has none. */
  function HintText(w: Word, k: int): string
  {
    if k == 1 then w.hint1 else if k == 2 then w.hint2 else if k == 3 then w.hint3 else ""
  }

  /** Taking the next hint keeps a hint list a run. */
  lemma HintRunGrows(s: seq<int>)
    requires IsHintRun(s) && |s| < MaxHints
    ensures IsHintRun(s + [|s| + 1])
  {
  }

  /** The positions `reveal_letter` may choose: in range, not yet shown to the actor, not guessed correctly by anyone. */
  function Eligible(n: nat, mine: seq<int>, taken: set<int>): (r: seq<int>)
    ensures forall i :: i in r <==> 0 <= i < n && i !in mine && i !in taken
    ensures forall a :: 0 <= a < |r| ==> r[a] < n
    ensures forall a, b :: 0 <= a < b < |r| ==> r[a] < r[b]
  {
    if n == 0 then []
    else
      var prev := Eligible(n - 1, mine, taken);
      if n - 1 !in mine && n - 1 !in taken then prev + [n - 1] else prev
  }

  /** A revealed-position list: distinct positions of the word. */
  ghost predicate RevealsWellFormed(s: seq<int>, n: nat)
  {
    (forall i :: 0 <= i < |s| ==> 0 <= s[i] < n) && (forall i, j :: 0 <= i < j < |s| ==> s[i] != s[j])
  }

  /** Revealing a fresh position of the word keeps a revealed list well formed. */
  lemma RevealGrows(mine: seq<int>, pos: int, n: nat)
    requires RevealsWellFormed(mine, n) && 0 <= pos < n && pos !in mine
    ensures RevealsWellFormed(mine + [pos], n)
  {
  }

  // ---------------------------------------------------------------- timers

  /** `now - last_turn_time > 30` with both the turn owner and the stamp present. */
  predicate TurnExpired(current: Option<UserId>, lastTurnTime: Option<int>, now: int)
  {
    current.Some? && lastTurnTime.Some? && now - lastTurnTime.value > TurnTimeoutSeconds
  }

  /** The turn switch of `check_timeout`, before the time-budget check. */
  function TimeoutStep(s: Snapshot, player1: UserId, now: int): (Snapshot, bool)
  {
    if TurnExpired(s.currentPlayer, s.lastTurnTime, now) then
      (s.(currentPlayer := if s.currentPlayer == Some(player1) then s.player2 else Some(player1),
          lastTurnTime := Some(now)), true)
    else (s, false)
  }

  /** A turn switch restamps the turn, so a repeated check at the same instant switches nothing. */
  lemma TimeoutRepeatIsNoOp(s: Snapshot, player1: UserId, now: int)
    ensures var (s', switched) := TimeoutStep(s, player1, now);
      && (switched <==> TurnExpired(s.currentPlayer, s.lastTurnTime, now))
      && (!switched ==> s' == s)
      && TimeoutStep(s', player1, now) == (s', false)
  {
  }

  /** The turn stamp after `resume_game`: shifted by the pause, or `now` when either stamp is missing. */
  function ResumedTurnTime(lastTurnTime: Option<int>, pausedAt: Option<int>, now: int): (r: int)
    ensures pausedAt.Some? && lastTurnTime.Some? ==> now - r == pausedAt.value - lastTurnTime.value
    ensures pausedAt.None? || lastTurnTime.None? ==> r == now
  {
    match pausedAt
    case Some(p) => (match lastTurnTime case Some(l) => l + (now - p) case None => now)
    case None => now
  }

  // ---------------------------------------------------------------- end of game

  predicate Player1OutOfTime(s: Snapshot) { s.player1Time <= 0 && s.player2Time > 0 }

  predicate Player2OutOfTime(s: Snapshot) { s.player2Time <= 0 && s.player1Time > 0 }

  /** `_time // 10 if _time else 0` for a remaining time budget. */
  function TimeBonus(t: int): int
  {
    if t != 0 then t / 10 else 0
  }

  /** The leader on points, or none on equal points. */
  function ScoreLeader(s: Snapshot, player1: UserId): Option<UserId>
  {
    if s.player1Score > s.player2Score then Some(player1)
    else if s.player2Score > s.player1Score then s.player2
    else None
  }

  /** The winner `end_game` records. */
  function EndWinner(s: Snapshot, player1: UserId, reason: EndReason, explicit: Option<UserId>): Option<UserId>
  {
    if reason == PlayerTimeUp && Player1OutOfTime(s) then s.player2
    else if reason == PlayerTimeUp && Player2OutOfTime(s) then Some(player1)
    else if explicit.Some? then explicit
    else ScoreLeader(s, player1)
  }

  /** The history row of each present player, results mirrored. */
  function HistoryRows(s: Snapshot, player1: UserId, level: Level, winner: Option<UserId>): seq<HistoryRow>
  {
    var r1 := if winner.None? then Draw else if winner == Some(player1) then Won else Lost;
    var r2 := if winner.None? then Draw else if winner == Some(player1) then Lost else Won;
    [HistoryRow(player1, s.player2, level, r1, s.player1Score)] +
    (if s.player2.Some? then [HistoryRow(s.player2.value, Some(player1), level, r2, s.player2Score)] else [])
  }

  /** Requirements of `end_game` on its arguments: the users exist, and an explicit winner is a player. */
  ghost predicate CanFinish(s: Snapshot, player1: UserId, t: Tables, explicit: Option<UserId>)
  {
    && player1 in t.accounts
    && (s.player2.Some? ==> s.player2.value in t.accounts)
    && (explicit.Some? ==> explicit.value == player1 || explicit == s.player2)
  }

  /** `end_game` as a function of the record and the tables. */
  function Finish(s: Snapshot, player1: UserId, level: Level, t: Tables, reason: EndReason, explicit: Option<UserId>)
    : (Snapshot, Tables)
    requires CanFinish(s, player1, t, explicit)
  {
    if s.status == Finished then (s, t)
    else
      var s' := Decided(s, player1, reason, explicit);
      (s', Settled(t, s', player1, level))
  }

  /** The record after `end_game` decides the outcome: finished, the winner, and any time bonus. */
  function Decided(s: Snapshot, player1: UserId, reason: EndReason, explicit: Option<UserId>): Snapshot
  {
    var bonus1 := if reason == PlayerTimeUp && !Player1OutOfTime(s) && Player2OutOfTime(s) && explicit != Some(player1)
                  then TimeBonus(s.player1Time) else 0;
    var bonus2 := if reason == PlayerTimeUp && Player1OutOfTime(s) && explicit != s.player2
                  then TimeBonus(s.player2Time) else 0;
    s.(status := Finished, winner := EndWinner(s, player1, reason, explicit),
       player1Score := s.player1Score + bonus1, player2Score := s.player2Score + bonus2)
  }

  /** The tables after `end_game` settles a decided record: win xp and the history rows. */
  function Settled(t: Tables, s: Snapshot, player1: UserId, level: Level): Tables
    requires s.winner.Some? ==> s.winner.value in t.accounts
  {
    var w := s.winner;
    var accounts := if w.Some? then t.accounts[w.value := t.accounts[w.value].(xp := t.accounts[w.value].xp + WinXp)]
                    else t.accounts;
    Tables(accounts, t.history + HistoryRows(s, player1, level, w))
  }

  /** `end_game` is a no-op on a finished game: a second call, with any reason or winner, changes nothing. */
  lemma FinishIsIdempotent(s: Snapshot, player1: UserId, level: Level, t: Tables, reason: EndReason, explicit: Option<UserId>,
                           reason2: EndReason, explicit2: Option<UserId>)
    requires CanFinish(s, player1, t, explicit)
    ensures var (s', t') := Finish(s, player1, level, t, reason, explicit);
      && s'.status == Finished
      && (CanFinish(s', player1, t', explicit2) ==> Finish(s', player1, level, t', reason2, explicit2) == (s', t'))
  {
  }

  /**
   * Outside a time-up, the explicit winner takes precedence, else the higher scorer wins, else it is
   * a draw; scores are left alone, and only the winner gains xp, exactly 50.
   */
  lemma FinishWinnerRule(s: Snapshot, player1: UserId, level: Level, t: Tables, reason: EndReason, explicit: Option<UserId>)
    requires CanFinish(s, player1, t, explicit) && s.status != Finished && reason != PlayerTimeUp
    ensures var (s', t') := Finish(s, player1, level, t, reason, explicit);
      && (explicit.Some? ==> s'.winner == explicit)
      && (explicit.None? && s.player1Score > s.player2Score ==> s'.winner == Some(player1))
      && (explicit.None? && s.player2Score > s.player1Score ==> s'.winner == s.player2)
      && (explicit.None? && s.player1Score == s.player2Score ==> s'.winner.None?)
      && s'.player1Score == s.player1Score && s'.player2Score == s.player2Score
      && t'.accounts.Keys == t.accounts.Keys
      && (forall u :: u in t.accounts ==>
            t'.accounts[u].coins == t.accounts[u].coins &&
            t'.accounts[u].xp == t.accounts[u].xp + (if s'.winner == Some(u) then 50 else 0))
  {
  }

  /**
   * Finishing writes one history row per present player, with the other as opponent and the
   * results mirrored: won/lost for a winner, draw for both otherwise.
   */
  lemma FinishWritesHistory(s: Snapshot, player1: UserId, level: Level, t: Tables, reason: EndReason, explicit: Option<UserId>)
    requires CanFinish(s, player1, t, explicit) && s.status != Finished
    requires s.player2 != Some(player1)
    ensures var (s', t') := Finish(s, player1, level, t, reason, explicit);
      var rows := t'.history[|t.history|..];
      && |t'.history| == |t.history| + (if s.player2.Some? then 2 else 1)
      && t'.history[..|t.history|] == t.history
      && rows[0] == HistoryRow(player1, s.player2, level, rows[0].result, s'.player1Score)
      && (s'.winner.None? ==> rows[0].result == Draw)
      && (s'.winner == Some(player1) ==> rows[0].result == Won)
      && (s'.winner.Some? && s'.winner != Some(player1) ==> rows[0].result == Lost)
      && (s.player2.Some? ==>
            && rows[1] == HistoryRow(s.player2.value, Some(player1), level, rows[1].result, s'.player2Score)
            && (rows[0].result == Won <==> rows[1].result == Lost)
            && (rows[0].result == Draw <==> rows[1].result == Draw))
  {
    var (s', t') := Finish(s, player1, level, t, reason, explicit);
    assert t'.history == t.history + HistoryRows(s', player1, level, s'.winner);
  }

  /**
   * When one budget is exhausted and the other is not, the survivor wins; the survivor's time
   * bonus is paid only if the caller had not already named the survivor, so the call from
   * `check_timeout`, which names the survivor, pays no bonus.
   */
  lemma TimeUpSurvivorWins(s: Snapshot, player1: UserId, level: Level, t: Tables, explicit: Option<UserId>)
    requires CanFinish(s, player1, t, explicit) && s.status != Finished
    requires s.player2.Some?
    ensures var (s', _) := Finish(s, player1, level, t, PlayerTimeUp, explicit);
      && (Player1OutOfTime(s) ==>
            && s'.winner == s.player2
            && s'.player2Score == s.player2Score + (if explicit == s.player2 then 0 else s.player2Time / 10))
      && (Player2OutOfTime(s) ==>
            && s'.winner == Some(player1)
            && s'.player1Score == s.player1Score + (if explicit == Some(player1) then 0 else s.player1Time / 10))
      && (Player1OutOfTime(s) && explicit == s.player2 ==> s'.player1Score == s.player1Score && s'.player2Score == s.player2Score)
  {
  }

  // ---------------------------------------------------------------- the records

  /** The user rows and the history table that the engine writes. */
  class Ledger {
    var accounts: map<UserId, Account>
    var history: seq<HistoryRow>

    constructor (accounts: map<UserId, Account>)
      ensures this.accounts == accounts && history == []
    {
      this.accounts := accounts;
      history := [];
    }

    function Contents(): Tables
      reads this
    {
      Tables(accounts, history)
    }
  }

  /** A game's Game and GameState rows. */
  class GameRecord {
    const player1: UserId
    const level: Level
    const word: Word
    var status: Status
    var player2: Option<UserId>
    var winner: Option<UserId>
    var currentPlayer: Option<UserId>
    var guesses: seq<Guess>
    var revealed: map<UserId, seq<int>>
    var hintsUsed: map<UserId, seq<int>>
    var player1Score: int
    var player2Score: int
    var player1Time: int
    var player2Time: int
    var lastTurnTime: Option<int>
    var pausedAt: Option<int>

    /** A new game, with the schema's defaults: pending, no second player, no turn owner, empty logs. */
    constructor (player1: UserId, level: Level, word: Word, player1Time: int, player2Time: int)
      ensures this.player1 == player1 && this.level == level && this.word == word
      ensures Valid()
      ensures Snap() == Snapshot(Pending, None, None, None, [], map[], map[], 0, 0, player1Time, player2Time, None, None)
    {
      this.player1, this.level, this.word := player1, level, word;
      status, player2, winner, currentPlayer := Pending, None, None, None;
      guesses, revealed, hintsUsed := [], map[], map[];
      player1Score, player2Score := 0, 0;
      this.player1Time, this.player2Time := player1Time, player2Time;
      lastTurnTime, pausedAt := None, None;
    }

    /** The secret as the handlers compare against it: upper-cased. */
    function Secret(): string
    {
      Upper(word.text)
    }

    function Snap(): Snapshot
      reads this
    {
      Snapshot(status, player2, winner, currentPlayer, guesses, revealed, hintsUsed,
               player1Score, player2Score, player1Time, player2Time, lastTurnTime, pausedAt)
    }

    predicate IsPlayer(u: UserId)
      reads this
    {
      u == player1 || player2 == Some(u)
    }

    /** The record invariant every handler keeps. */
    ghost predicate Valid()
      reads this
    {
      && player2 != Some(player1)
      && (player2.None? ==> (status == Pending || status == Finished) && currentPlayer.None?)
      && (currentPlayer.Some? ==> IsPlayer(currentPlayer.value))
      && (winner.Some? ==> status == Finished && IsPlayer(winner.value))
      && GuessesWellFormed(guesses, Secret())
      && (forall u | u in hintsUsed :: IsHintRun(hintsUsed[u]))
      && (forall u | u in revealed :: RevealsWellFormed(revealed[u], |Secret()|))
    }

    /** The players' user rows exist. */
    ghost predicate Backed(l: Ledger)
      reads this, l
    {
      player1 in l.accounts && (player2.Some? ==> player2.value in l.accounts)
    }
  }

  // ---------------------------------------------------------------- handlers

  /** `end_game`: a no-op on a finished game; otherwise the winner, history rows and win xp. */
  method EndGame(g: GameRecord, l: Ledger, reason: EndReason, explicit: Option<UserId>) returns (reply: Reply)
    requires g.Valid() && g.Backed(l)
    requires explicit.Some? ==> g.IsPlayer(explicit.value)
    modifies g, l
    ensures g.Valid() && g.Backed(l)
    ensures CanFinish(old(g.Snap()), g.player1, old(l.Contents()), explicit)
    ensures (g.Snap(), l.Contents()) == Finish(old(g.Snap()), g.player1, g.level, old(l.Contents()), reason, explicit)
    ensures reply == if old(g.status) == Finished then Sent(Silent) else Sent(GameEnded(reason, g.winner))
  {
    if g.status == Finished {
      return Sent(Silent);
    }
    DecideOutcome(g, reason, explicit);
    Settle(g, l);
    reply := Sent(GameEnded(reason, g.winner));
  }

  /** The first half of `end_game`: the game is finished and its winner chosen, with any time bonus. */
  method DecideOutcome(g: GameRecord, reason: EndReason, explicit: Option<UserId>)
    modifies g
    ensures g.Snap() == Decided(old(g.Snap()), g.player1, reason, explicit)
  {
    var gameWinner := explicit;
    g.status := Finished;
    if gameWinner.None? {
      if g.player1Score > g.player2Score {
        gameWinner := Some(g.player1);
      } else if g.player2Score > g.player1Score {
        gameWinner := g.player2;
      }
    }
    if reason == PlayerTimeUp {
      if g.player1Time <= 0 && g.player2Time > 0 {
        gameWinner := g.player2;
        if explicit != g.player2 {
          g.player2Score := g.player2Score + TimeBonus(g.player2Time);
        }
      } else if g.player2Time <= 0 && g.player1Time > 0 {
        gameWinner := Some(g.player1);
        if explicit != Some(g.player1) {
          g.player1Score := g.player1Score + TimeBonus(g.player1Time);
        }
      }
    }
    g.winner := gameWinner;
  }

  /** The second half of `end_game`: the winner's xp, then one history row per present player. */
  method Settle(g: GameRecord, l: Ledger)
    requires g.winner.Some? ==> g.winner.value in l.accounts
    modifies l
    ensures l.Contents() == Settled(old(l.Contents()), g.Snap(), g.player1, g.level)
  {
    var result1, result2 := Draw, Draw;
    if g.winner.Some? {
      var w := g.winner.value;
      l.accounts := l.accounts[w := l.accounts[w].(xp := l.accounts[w].xp + WinXp)];
      if g.winner == Some(g.player1) {
        result1, result2 := Won, Lost;
      } else {
        result1, result2 := Lost, Won;
      }
    }
    l.history := l.history + [HistoryRow(g.player1, g.player2, g.level, result1, g.player1Score)];
    if g.player2.Some? {
      l.history := l.history + [HistoryRow(g.player2.value, Some(g.player1), g.level, result2, g.player2Score)];
    }
  }

  /**
   * `end_game` as written: past the finished check it enters `async with transaction.atomic()`,
   * and Django's `Atomic` has no asynchronous context-manager protocol, so the statement raises
   * before anything is changed; `receive` turns the exception into a server-error message.
   */
  method EndGameAsWritten(g: GameRecord, l: Ledger, reason: EndReason, explicit: Option<UserId>) returns (reply: Reply)
    ensures reply == if g.status == Finished then Sent(Silent) else Refused(ServerError)
  {
    if g.status == Finished {
      return Sent(Silent);
    }
    reply := Refused(ServerError);
  }

  /**
   * A game row that is already active (both seats taken, player 1 to move) when the word is
   * guessed: as written the game stays active; the intended step finishes it.
   */
  method EndGameAsWrittenNeverFinishes()
  {
    var w := Word("CAKE", Easy, "a", "b", "c");
    var g := new GameRecord(1, Easy, w, 300, 300);
    var l := new Ledger(map[1 := Account(0, 0), 2 := Account(0, 0)]);
    g.player2, g.status, g.currentPlayer := Some(2), Active, Some(1);
    assert g.Valid() && g.Backed(l);
    var reply := EndGameAsWritten(g, l, WordGuessed, Some(1));
    assert g.status == Active && l.history == [] && reply == Refused(ServerError);
    reply := EndGame(g, l, WordGuessed, Some(1));
    assert g.status == Finished && g.winner == Some(1) && |l.history| == 2;
  }

  /**
   * Word "cake", player 1 to move: guessing 'c' at 0 is correct. Player 1 scores 20, earns one
   * coin and hands the turn to player 2; the game goes on.
   */
  method CakeScenario()
  {
    var w := Word("cake", Easy, "a", "b", "c");
    var g := new GameRecord(1, Easy, w, 300, 300);
    var l := new Ledger(map[1 := Account(0, 0), 2 := Account(0, 0)]);
    var joined := HandleJoinGame(g, l, 2, true, 0);
    assert g.Secret() == "CAKE";
    var r := HandleGuessLetter(g, l, 1, "c", Given(0), 1);
    assert |CorrectPositions(g.guesses)| == 1 by {
      assert g.guesses == [Guess("C", 0, true, 1)];
      assert CorrectPositions(g.guesses) == {0};
    }
    assert r == Sent(LetterGuessed) && g.status == Active;
    assert g.player1Score == 20 && g.player2Score == 0 && g.currentPlayer == Some(2);
    assert l.accounts[1].coins == 1 && l.accounts[2].coins == 0;
  }

  /**
   * Word "cake", player 2 to move: guessing 'x' at 1 is wrong. Player 2 loses 20 points, earns
   * no coin and hands the turn to player 1.
   */
  method MissScenario()
  {
    var w := Word("cake", Easy, "a", "b", "c");
    var g := new GameRecord(1, Easy, w, 300, 300);
    var l := new Ledger(map[1 := Account(0, 0), 2 := Account(0, 0)]);
    var joined := HandleJoinGame(g, l, 2, false, 0);
    assert g.Secret() == "CAKE";
    assert Upper("x") == "X" && "X" != [g.Secret()[1]];
    var r := HandleGuessLetter(g, l, 2, "x", Given(1), 1);
    assert CorrectPositions(g.guesses) == {} by {
      assert g.guesses == [Guess("X", 1, false, 2)];
    }
    assert r == Sent(LetterGuessed) && g.status == Active;
    assert g.player1Score == 0 && g.player2Score == -20 && g.currentPlayer == Some(1);
    assert l.accounts[1].coins == 0 && l.accounts[2].coins == 0;
  }

  /** A wrong whole-word guess "BAKE" against "CAKE" by player 1 ends the game with player 2 as winner, whatever the scores. */
  lemma BakeScenario(s: Snapshot, t: Tables)
    requires s.player2 == Some(2) && s.status == Active && 1 in t.accounts && 2 in t.accounts
    ensures var (mid, w) := WordStep(s, 1, 1, "BAKE", "CAKE");
      && w == Some(2) && mid.player2Score == s.player2Score + 50
      && Finish(mid, 1, Easy, t, WordGuessed, w).0.winner == Some(2)
  {
    assert "BAKE" != "CAKE" by { assert "BAKE"[0] != "CAKE"[0]; }
  }

  /** The accepted part of `handle_join_game`: seat the second player, start the game, give the turn to one of the two. */
  method SeatSecondPlayer(g: GameRecord, user: UserId, firstIsPlayer1: bool, now: int)
    requires g.Valid() && g.status == Pending && user != g.player1 && g.player2.None?
    modifies g
    ensures g.Valid()
    ensures g.Snap() == old(g.Snap()).(status := Active, player2 := Some(user),
                                       currentPlayer := Some(if firstIsPlayer1 then g.player1 else user),
                                       lastTurnTime := Some(now),
                                       revealed := old(g.revealed)[user := []],
                                       hintsUsed := old(g.hintsUsed)[user := []])
  {
    g.player2 := Some(user);
    g.status := Active;
    g.currentPlayer := Some(if firstIsPlayer1 then g.player1 else user);
    g.lastTurnTime := Some(now);
    g.revealed := g.revealed[user := []];
    g.hintsUsed := g.hintsUsed[user := []];
    assert IsHintRun([]) && RevealsWellFormed([], |g.Secret()|);
  }

  /** `handle_join_game`: the first second player in a pending game joins; its players reconnect; anyone else is refused. */
  method HandleJoinGame(g: GameRecord, l: Ledger, user: UserId, firstIsPlayer1: bool, now: int) returns (reply: Reply)
    requires g.Valid() && g.Backed(l) && user in l.accounts
    modifies g
    ensures g.Valid() && g.Backed(l)
    ensures var joins := old(g.status) == Pending && user != g.player1 && old(g.player2).None?;
      && (joins ==>
            && reply == Sent(PlayerJoined)
            && g.Snap() == old(g.Snap()).(status := Active, player2 := Some(user),
                                          currentPlayer := Some(if firstIsPlayer1 then g.player1 else user),
                                          lastTurnTime := Some(now),
                                          revealed := old(g.revealed)[user := []],
                                          hintsUsed := old(g.hintsUsed)[user := []]))
      && (!joins ==> unchanged(g) && reply == if old(g.IsPlayer(user)) then Sent(Reconnected) else Refused(CannotJoin))
  {
    if g.status == Pending && user != g.player1 && g.player2.None? {
      SeatSecondPlayer(g, user, firstIsPlayer1, now);
      reply := Sent(PlayerJoined);
    } else if g.player2 == Some(user) || g.player1 == user {
      reply := Sent(Reconnected);
    } else {
      reply := Refused(CannotJoin);
    }
  }

  /** `handle_guess_letter`: one guess at one position by the turn owner, then the all-letters check. */
  method HandleGuessLetter(g: GameRecord, l: Ledger, user: UserId, rawLetter: string, position: PositionArg, now: int)
    returns (reply: Reply)
    requires g.Valid() && g.Backed(l) && user in l.accounts
    modifies g, l
    ensures g.Valid() && g.Backed(l)
    ensures var refusal := LetterGuessRefusal(old(g.currentPlayer), user, Upper(rawLetter), position, |g.Secret()|);
      && (refusal.Some? ==> reply == Refused(refusal.value) && unchanged(g, l))
      && (refusal.None? ==>
            var (mid, midT) := LetterStep(old(g.Snap()), old(l.Contents()), g.player1, user, Upper(rawLetter), position.n, g.Secret(), now);
            var complete := |CorrectPositions(mid.guesses)| == |g.Secret()|;
            && CanFinish(mid, g.player1, midT, None)
            && (g.Snap(), l.Contents()) == (if complete then Finish(mid, g.player1, g.level, midT, AllLettersGuessed, None) else (mid, midT))
            && reply == (if !complete then Sent(LetterGuessed)
                         else if old(g.status) == Finished then Sent(Silent)
                         else Sent(GameEnded(AllLettersGuessed, g.winner))))
  {
    var letter := Upper(rawLetter);
    var secret := g.Secret();
    var refusal := LetterGuessRefusal(g.currentPlayer, user, letter, position, |secret|);
    if refusal.Some? {
      return Refused(refusal.value);
    }
    ghost var log0 := g.guesses;
    RecordLetter(g, l, user, letter, position.n, now);
    assert g.guesses == log0 + [g.guesses[|log0|]];
    assert GuessesWellFormed(g.guesses, secret);
    if |CorrectPositions(g.guesses)| == |secret| {
      reply := EndGame(g, l, AllLettersGuessed, None);
    } else {
      reply := Sent(LetterGuessed);
    }
  }

  /** The accepted part of `handle_guess_letter`: the log entry, the score, the coin, and the turn. */
  method RecordLetter(g: GameRecord, l: Ledger, user: UserId, letter: string, pos: int, now: int)
    requires 0 <= pos < |g.Secret()| && user in l.accounts
    modifies g, l
    ensures (g.Snap(), l.Contents()) == LetterStep(old(g.Snap()), old(l.Contents()), g.player1, user, letter, pos, g.Secret(), now)
  {
    var secret := g.Secret();
    var correct := letter == [secret[pos]];
    g.guesses := g.guesses + [Guess(letter, pos, correct, user)];
    var delta := if correct then LetterPoints else -LetterPoints;
    if user == g.player1 {
      g.player1Score := g.player1Score + delta;
    } else {
      g.player2Score := g.player2Score + delta;
    }
    if correct {
      l.accounts := l.accounts[user := l.accounts[user].(coins := l.accounts[user].coins + 1)];
    }
    g.currentPlayer := if user == g.player1 then g.player2 else Some(g.player1);
    g.lastTurnTime := Some(now);
  }

  /** `handle_guess_word`: a whole-word guess by the turn owner always ends the game. */
  method HandleGuessWord(g: GameRecord, l: Ledger, user: UserId, rawWord: string) returns (reply: Reply)
    requires g.Valid() && g.Backed(l) && user in l.accounts
    modifies g, l
    ensures g.Valid() && g.Backed(l)
    ensures old(g.currentPlayer) != Some(user) ==> reply == Refused(NotYourTurn) && unchanged(g, l)
    ensures old(g.currentPlayer) == Some(user) ==>
      var (mid, w) := WordStep(old(g.Snap()), g.player1, user, Upper(rawWord), g.Secret());
      && CanFinish(mid, g.player1, old(l.Contents()), w)
      && (g.Snap(), l.Contents()) == Finish(mid, g.player1, g.level, old(l.Contents()), WordGuessed, w)
      && reply == (if old(g.status) == Finished then Sent(Silent) else Sent(GameEnded(WordGuessed, g.winner)))
  {
    if g.currentPlayer != Some(user) {
      return Refused(NotYourTurn);
    }
    var guessed := Upper(rawWord);
    var gameWinner: Option<UserId>;
    if guessed == g.Secret() {
      gameWinner := Some(user);
      if user == g.player1 {
        g.player1Score := g.player1Score + WordGuessPoints;
      } else {
        g.player2Score := g.player2Score + WordGuessPoints;
      }
    } else {
      gameWinner := if g.player2 == Some(user) then Some(g.player1) else g.player2;
      if user == g.player1 {
        g.player2Score := g.player2Score + WrongWordOpponentPoints;
      } else {
        g.player1Score := g.player1Score + WrongWordOpponentPoints;
      }
    }
    reply := EndGame(g, l, WordGuessed, gameWinner);
  }

  /** `handle_request_hint`: one coin buys the next hint tier, privately; the turn and its timer stay. */
  method HandleRequestHint(g: GameRecord, l: Ledger, user: UserId) returns (reply: Reply)
    requires g.Valid() && g.Backed(l) && user in l.accounts
    modifies g, l
    ensures g.Valid() && g.Backed(l)
    ensures var used := if user in old(g.hintsUsed) then old(g.hintsUsed)[user] else [];
      var hint := HintText(g.word, |used| + 1);
      var ok := old(l.accounts)[user].coins >= 1 && |used| < MaxHints && hint != "";
      && (!ok ==>
            && unchanged(g, l)
            && reply == Refused(if old(l.accounts)[user].coins < 1 then NotEnoughCoins
                                else if |used| >= MaxHints then AllHintsUsed else NoHintText))
      && (ok ==>
            && g.Snap() == old(g.Snap()).(hintsUsed := old(g.hintsUsed)[user := used + [|used| + 1]])
            && l.accounts == old(l.accounts)[user := old(l.accounts)[user].(coins := old(l.accounts)[user].coins - 1)]
            && l.history == old(l.history)
            && reply == Sent(HintProvided(hint, l.accounts[user].coins)))
  {
    if l.accounts[user].coins < 1 {
      return Refused(NotEnoughCoins);
    }
    var used := if user in g.hintsUsed then g.hintsUsed[user] else [];
    var next := |used| + 1;
    if next > MaxHints {
      return Refused(AllHintsUsed);
    }
    var hint := HintText(g.word, next);
    if hint == "" {
      return Refused(NoHintText);
    }
    l.accounts := l.accounts[user := l.accounts[user].(coins := l.accounts[user].coins - 1)];
    HintRunGrows(used);
    g.hintsUsed := g.hintsUsed[user := used + [next]];
    reply := Sent(HintProvided(hint, l.accounts[user].coins));
  }

  /** `handle_reveal_letter`: one coin shows the actor one eligible position, chosen by `choice`. */
  method HandleRevealLetter(g: GameRecord, l: Ledger, user: UserId, choice: nat) returns (reply: Reply)
    requires g.Valid() && g.Backed(l) && user in l.accounts
    modifies g, l
    ensures g.Valid() && g.Backed(l)
    ensures var mine := if user in old(g.revealed) then old(g.revealed)[user] else [];
      var candidates := Eligible(|g.Secret()|, mine, CorrectPositions(old(g.guesses)));
      && (old(l.accounts)[user].coins < 1 ==> reply == Refused(NotEnoughCoins) && unchanged(g, l))
      && (old(l.accounts)[user].coins >= 1 && candidates == [] ==> reply == Refused(NothingToReveal) && unchanged(g, l))
      && (old(l.accounts)[user].coins >= 1 && candidates != [] ==>
            var pos := candidates[choice % |candidates|];
            && 0 <= pos < |g.Secret()| && pos !in mine && pos !in CorrectPositions(old(g.guesses))
            && g.Snap() == old(g.Snap()).(revealed := old(g.revealed)[user := mine + [pos]])
            && l.accounts == old(l.accounts)[user := old(l.accounts)[user].(coins := old(l.accounts)[user].coins - 1)]
            && l.history == old(l.history)
            && reply == Sent(LetterRevealed(g.Secret()[pos], pos, l.accounts[user].coins)))
  {
    if l.accounts[user].coins < 1 {
      return Refused(NotEnoughCoins);
    }
    var secret := g.Secret();
    var mine := if user in g.revealed then g.revealed[user] else [];
    var candidates := Eligible(|secret|, mine, CorrectPositions(g.guesses));
    if candidates == [] {
      return Refused(NothingToReveal);
    }
    var pos := candidates[choice % |candidates|];
    assert pos in candidates;
    assert 0 <= pos < |secret| && pos !in mine && pos !in CorrectPositions(g.guesses);
    assert RevealsWellFormed(mine, |secret|);
    RevealGrows(mine, pos, |secret|);
    ghost var s0 := g.Snap();
    l.accounts := l.accounts[user := l.accounts[user].(coins := l.accounts[user].coins - 1)];
    g.revealed := g.revealed[user := mine + [pos]];
    assert g.Snap() == s0.(revealed := g.revealed);
    reply := Sent(LetterRevealed(secret[pos], pos, l.accounts[user].coins));
  }

  /** `handle_pause_game`: needs a second player and an active game; stamps the pause. */
  method HandlePauseGame(g: GameRecord, user: UserId, now: int) returns (reply: Reply)
    requires g.Valid()
    modifies g
    ensures g.Valid()
    ensures old(g.player2).None? ==> reply == Refused(NoSecondPlayer) && unchanged(g)
    ensures old(g.player2).Some? && old(g.status) != Active ==> reply == Refused(NotActive) && unchanged(g)
    ensures old(g.player2).Some? && old(g.status) == Active ==>
      reply == Sent(GamePaused) && g.Snap() == old(g.Snap()).(status := Paused, pausedAt := Some(now))
  {
    if g.player2.None? {
      return Refused(NoSecondPlayer);
    }
    if g.status == Active {
      g.status := Paused;
      g.pausedAt := Some(now);
      reply := Sent(GamePaused);
    } else {
      reply := Refused(NotActive);
    }
  }

  /** `handle_resume_game`: from paused only; the turn stamp moves forward by the pause. */
  method HandleResumeGame(g: GameRecord, user: UserId, now: int) returns (reply: Reply)
    requires g.Valid()
    modifies g
    ensures g.Valid()
    ensures old(g.status) != Paused ==> reply == Refused(NotPaused) && unchanged(g)
    ensures old(g.status) == Paused ==>
      reply == Sent(GameResumed) &&
      g.Snap() == old(g.Snap()).(status := Active, lastTurnTime := Some(ResumedTurnTime(old(g.lastTurnTime), old(g.pausedAt), now)),
                                 pausedAt := None)
  {
    if g.status == Paused {
      g.status := Active;
      if g.pausedAt.Some? {
        if g.lastTurnTime.Some? {
          g.lastTurnTime := Some(g.lastTurnTime.value + (now - g.pausedAt.value));
        } else {
          g.lastTurnTime := Some(now);
        }
      } else {
        g.lastTurnTime := Some(now);
      }
      g.pausedAt := None;
      reply := Sent(GameResumed);
    } else {
      reply := Refused(NotPaused);
    }
  }

  /** `handle_check_timeout`: a turn older than 30 seconds passes; an exhausted time budget ends the game. */
  method HandleCheckTimeout(g: GameRecord, l: Ledger, now: int) returns (reply: Reply)
    requires g.Valid() && g.Backed(l)
    modifies g, l
    ensures g.Valid() && g.Backed(l)
    ensures old(g.status) != Active ==> reply == Sent(Silent) && unchanged(g, l)
    ensures old(g.status) == Active ==>
      var (mid, switched) := TimeoutStep(old(g.Snap()), g.player1, now);
      && CanFinish(mid, g.player1, old(l.Contents()), mid.player2)
      && (mid.player1Time <= 0 ==>
            (g.Snap(), l.Contents()) == Finish(mid, g.player1, g.level, old(l.Contents()), PlayerTimeUp, mid.player2))
      && (mid.player1Time > 0 && mid.player2Time <= 0 ==>
            (g.Snap(), l.Contents()) == Finish(mid, g.player1, g.level, old(l.Contents()), PlayerTimeUp, Some(g.player1)))
      && (mid.player1Time > 0 && mid.player2Time > 0 ==>
            g.Snap() == mid && unchanged(l) && reply == Sent(if switched then TurnTimedOut else Silent))
  {
    if g.status != Active {
      return Sent(Silent);
    }
    var switched := false;
    if g.currentPlayer.Some? && g.lastTurnTime.Some? && now - g.lastTurnTime.value > TurnTimeoutSeconds {
      g.currentPlayer := if g.currentPlayer == Some(g.player1) then g.player2 else Some(g.player1);
      g.lastTurnTime := Some(now);
      switched := true;
    }
    if g.player1Time <= 0 {
      reply := EndGame(g, l, PlayerTimeUp, g.player2);
    } else if g.player2Time <= 0 {
      reply := EndGame(g, l, PlayerTimeUp, Some(g.player1));
    } else {
      reply := Sent(if switched then TurnTimedOut else Silent);
    }
  }

  /** `receive`: a finished game refuses everything; only joining is open to non-players; then dispatch. */
  method Receive(g: GameRecord, l: Ledger, user: UserId, action: Action, now: int, firstIsPlayer1: bool, choice: nat)
    returns (reply: Reply)
    requires g.Valid() && g.Backed(l) && user in l.accounts
    modifies g, l
    ensures g.Valid() && g.Backed(l)
    ensures old(g.status) == Finished ==> reply == Refused(GameOver) && unchanged(g, l)
    ensures old(g.status) != Finished && !action.JoinGame? && !old(g.IsPlayer(user)) ==>
      reply == Refused(NotAllowed) && unchanged(g, l)
    ensures old(g.status) != Finished && action.Unknown? && old(g.IsPlayer(user)) ==>
      reply == Refused(UnknownAction) && unchanged(g, l)
  {
    if g.status == Finished {
      return Refused(GameOver);
    }
    if !action.JoinGame? && !g.IsPlayer(user) {
      return Refused(NotAllowed);
    }
    match action
    case JoinGame => reply := HandleJoinGame(g, l, user, firstIsPlayer1, now);
    case GuessLetter(letter, position) => reply := HandleGuessLetter(g, l, user, letter, position, now);
    case GuessWord(word) => reply := HandleGuessWord(g, l, user, word);
    case RequestHint => reply := HandleRequestHint(g, l, user);
    case RevealLetter => reply := HandleRevealLetter(g, l, user, choice);
    case PauseGame => reply := HandlePauseGame(g, user, now);
    case ResumeGame => reply := HandleResumeGame(g, user, now);
    case CheckTimeout => reply := HandleCheckTimeout(g, l, now);
    case Unknown(_) => reply := Refused(UnknownAction);
  }
}
