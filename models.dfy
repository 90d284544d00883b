/**
 * The REST game row (game/models.py `Game`): its defaults, `initialize_game`, and the
 * remaining-time clock. Times are whole seconds on one clock.
 */
module Models {
  import opened Common

  datatype Status = Waiting | Active | Paused | Finished

  /** A word row as the REST model sees it. */
  datatype Word = Word(text: string, difficulty: Level)

  /** The mutable fields of a game row, as a value. */
  datatype GameSnap = GameSnap(
    player2: Option<UserId>, currentDisplayWord: string, guessedLetters: string, currentTurn: Option<UserId>,
    player1Score: int, player2Score: int, timeLimitSeconds: nat, startTime: int, lastActiveTime: int,
    timeElapsedBeforePause: int, status: Status, winner: Option<UserId>, isDraw: bool)

  const DefaultTimeLimit: nat := 600

  /** The clock budget `initialize_game` gives each difficulty. */
  function TimeLimitFor(level: Level): (r: nat)
    ensures level == Easy ==> r == 10 * 60
    ensures level == Medium ==> r == 7 * 60
    ensures level == Hard ==> r == 5 * 60
  {
    match level
    case Easy => 600
    case Medium => 420
    case Hard => 300
  }

  /** A string of `n` underscores. */
  function Blanks(n: nat): (r: string)
    ensures |r| == n && forall i :: 0 <= i < n ==> r[i] == '_'
  {
    seq(n, _ => '_')
  }

  /**
   * The masked word: each character of the lower-cased word shown when it has been guessed,
   * `_` otherwise.
   */
  function Display(word: string, guessed: string): (r: string)
    ensures |r| == |word|
    ensures forall i :: 0 <= i < |word| ==> r[i] == if word[i] in guessed then word[i] else '_'
  {
    seq(|word|, i requires 0 <= i < |word| => if word[i] in guessed then word[i] else '_')
  }

  /** Nothing guessed shows every position as blank. */
  lemma DisplayOfNothingIsBlank(word: string)
    ensures Display(word, "") == Blanks(|word|)
  {
  }

  /** A guess that misses the word leaves the masked word as it was. */
  lemma MissKeepsDisplay(word: string, guessed: string, letter: char)
    requires letter !in word
    ensures Display(word, guessed + [letter]) == Display(word, guessed)
  {
    forall i | 0 <= i < |word|
      ensures Display(word, guessed + [letter])[i] == Display(word, guessed)[i]
    {
      assert word[i] in guessed + [letter] <==> word[i] in guessed;
    }
  }

  /** The masked word has no blank exactly when every position holds a guessed character other than `_`. */
  lemma DisplayCompleteness(word: string, guessed: string)
    ensures '_' !in Display(word, guessed) <==> forall i :: 0 <= i < |word| ==> word[i] in guessed && word[i] != '_'
  {
    var d := Display(word, guessed);
    if '_' !in d {
      forall i | 0 <= i < |word| ensures word[i] in guessed && word[i] != '_' {
        assert d[i] in d;
      }
    } else {
      var k :| 0 <= k < |d| && d[k] == '_';
    }
  }

  /**
   * `get_remaining_time`: when the game is not active, the budget minus the time banked before the
   * pause; when active, also minus the time since `last_active_time`, floored at zero.
   */
  function Remaining(status: Status, limit: int, elapsed: int, lastActive: int, now: int): int
  {
    if status != Active then limit - elapsed
    else
      var remaining := limit - (elapsed + (now - lastActive));
      if remaining < 0 then 0 else remaining
  }

  /** The active clock never goes below zero, and runs down by exactly the time that passes while it is positive. */
  lemma ActiveClockBehaviour(limit: int, elapsed: int, lastActive: int, now: int, later: int)
    requires now <= later
    ensures 0 <= Remaining(Active, limit, elapsed, lastActive, later) <= Remaining(Active, limit, elapsed, lastActive, now)
    ensures Remaining(Active, limit, elapsed, lastActive, later) > 0 ==>
              Remaining(Active, limit, elapsed, lastActive, later) == Remaining(Active, limit, elapsed, lastActive, now) - (later - now)
  {
  }

  /**
   * Pausing banks the time since `last_active_time`, after which the clock stands still at the value
   * it had at the instant of the pause (while that value was not yet negative).
   */
  lemma PauseFreezesClock(limit: int, elapsed: int, lastActive: int, now: int, later: int)
    requires limit - (elapsed + (now - lastActive)) >= 0
    ensures Remaining(Paused, limit, elapsed + (now - lastActive), lastActive, later) == Remaining(Active, limit, elapsed, lastActive, now)
  {
  }

  /** Resuming restamps `last_active_time`, so the clock restarts from the banked value. */
  lemma ResumeRestartsClock(limit: int, elapsed: int, last: int, now: int)
    requires limit - elapsed >= 0
    ensures Remaining(Active, limit, elapsed, now, now) == Remaining(Paused, limit, elapsed, last, now)
  {
  }

  /** A REST game row. */
  class Game {
    const word: Word
    const player1: UserId
    var player2: Option<UserId>
    var currentDisplayWord: string
    var guessedLetters: string
    var currentTurn: Option<UserId>
    var player1Score: int
    var player2Score: int
    var timeLimitSeconds: nat
    var startTime: int
    var lastActiveTime: int
    var timeElapsedBeforePause: int
    var status: Status
    var winner: Option<UserId>
    var isDraw: bool

    /** A new row with the schema defaults: waiting, empty strings, zero scores, a 600-second budget. */
    constructor (word: Word, player1: UserId, player2: Option<UserId>, now: int)
      ensures this.word == word && this.player1 == player1
      ensures Snap() == GameSnap(player2, "", "", None, 0, 0, DefaultTimeLimit, now, now, 0, Waiting, None, false)
    {
      this.word, this.player1, this.player2 := word, player1, player2;
      currentDisplayWord, guessedLetters, currentTurn := "", "", None;
      player1Score, player2Score := 0, 0;
      timeLimitSeconds, startTime, lastActiveTime, timeElapsedBeforePause := DefaultTimeLimit, now, now, 0;
      status, winner, isDraw := Waiting, None, false;
    }

    function Snap(): GameSnap
      reads this
    {
      GameSnap(player2, currentDisplayWord, guessedLetters, currentTurn, player1Score, player2Score,
               timeLimitSeconds, startTime, lastActiveTime, timeElapsedBeforePause, status, winner, isDraw)
    }

    /** The word as the guess handler compares against it: lower-cased. */
    function Secret(): string
    {
      Lower(word.text)
    }

    /** The masked word agrees with the guessed letters. */
    predicate DisplayInSync()
      reads this
    {
      currentDisplayWord == Display(Secret(), guessedLetters)
    }

    function RemainingTime(now: int): int
      reads this
    {
      Remaining(status, timeLimitSeconds, timeElapsedBeforePause, lastActiveTime, now)
    }

    /**
     * `initialize_game`: a blank masked word, the difficulty's budget, no guesses, player 1 to
     * move, both clocks stamped `now`, and active exactly when a second player is present.
     * Scores and the banked time are left as they were.
     */
    method InitializeGame(now: int)
      modifies this
      ensures DisplayInSync()
      ensures Snap() == old(Snap()).(currentDisplayWord := Blanks(|word.text|),
                                     timeLimitSeconds := TimeLimitFor(word.difficulty),
                                     guessedLetters := "", currentTurn := Some(player1),
                                     startTime := now, lastActiveTime := now,
                                     status := if player2.Some? then Active else Waiting)
    {
      DisplayOfNothingIsBlank(Secret());
      currentDisplayWord := Blanks(|word.text|);
      assert currentDisplayWord == Display(Secret(), "");
      if word.difficulty == Easy {
        timeLimitSeconds := 10 * 60;
      } else if word.difficulty == Medium {
        timeLimitSeconds := 7 * 60;
      } else {
        timeLimitSeconds := 5 * 60;
      }
      guessedLetters := "";
      currentTurn := Some(player1);
      startTime := now;
      lastActiveTime := startTime;
      status := if player2.Some? then Active else Waiting;
    }
  }
}
