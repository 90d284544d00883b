/**
 * The serializers' logic (game/serializers.py): the masked word of `GameStateSerializer.get_word`
 * and the field and object validators, with their relation to what the two engines store.
 */
module Serializers {
  import opened Common
  import Consumers
  import Models
  import Views

  // ---------------------------------------------------------------- get_word

  /** One entry of the `guessed_letters` dict: its `correct` flag and `position`. */
  datatype GuessInfo = GuessInfo(correct: bool, position: int)

  /** The masked word, or the IndexError of a position outside the word. */
  datatype Masked = Masked(text: string) | IndexError

  /** Python list indexing: `p` names cell `p`, or cell `n + p` when negative; outside [-n, n) it is an error. */
  function Slot(p: int, n: nat): (r: Option<nat>)
    ensures r.Some? <==> -(n as int) <= p < n
    ensures r.Some? ==> r.value < n && (r.value == p || r.value == p + n)
  {
    if 0 <= p < n then Some(p) else if -(n as int) <= p < 0 then Some(p + n) else None
  }

  /** Writing `(symbol, position)` pairs into `cells` in order; the first bad position fails the whole. */
  function Paint(cells: seq<string>, writes: seq<(string, int)>): (r: Option<seq<string>>)
    ensures r.Some? ==> |r.value| == |cells|
  {
    if |writes| == 0 then Some(cells)
    else
      match Paint(cells, writes[..|writes| - 1])
      case None => None
      case Some(d) =>
        match Slot(writes[|writes| - 1].1, |cells|)
        case None => None
        case Some(k) => Some(d[k := writes[|writes| - 1].0])
  }

  /** The symbol of the last write that lands on cell `k`, if any. */
  function LastWrite(writes: seq<(string, int)>, k: nat, n: nat): Option<string>
  {
    if |writes| == 0 then None
    else if Slot(writes[|writes| - 1].1, n) == Some(k) then Some(writes[|writes| - 1].0)
    else LastWrite(writes[..|writes| - 1], k, n)
  }

  /** The writes of the correct entries of `guessed_letters`, in dict order. */
  function CorrectWrites(guessed: seq<(string, GuessInfo)>): (r: seq<(string, int)>)
    ensures |r| <= |guessed|
  {
    if |guessed| == 0 then []
    else
      var (letter, info) := guessed[|guessed| - 1];
      CorrectWrites(guessed[..|guessed| - 1]) + (if info.correct then [(letter, info.position)] else [])
  }

  /** `' '.join(cells)`. */
  function JoinSpaces(cells: seq<string>): string
  {
    if |cells| == 0 then "" else if |cells| == 1 then cells[0] else cells[0] + " " + JoinSpaces(cells[1..])
  }

  /** The masked word `get_word` computes: blank cells, correct guesses painted, then revealed letters. */
  function MaskOf(word: string, guessed: seq<(string, GuessInfo)>, revealed: seq<(string, int)>): Masked
  {
    match Paint(seq(|word|, _ => "_"), CorrectWrites(guessed) + revealed)
    case None => IndexError
    case Some(cells) => Masked(JoinSpaces(cells))
  }

  /** Once a write fails, any further writes still fail. */
  lemma {:induction false} PaintFailureSticks(cells: seq<string>, writes: seq<(string, int)>, more: seq<(string, int)>)
    requires Paint(cells, writes).None?
    ensures Paint(cells, writes + more).None?
    decreases |more|
  {
    if |more| > 0 {
      var init := more[..|more| - 1];
      assert (writes + more)[..|writes + more| - 1] == writes + init;
      PaintFailureSticks(cells, writes, init);
    } else {
      assert writes + more == writes;
    }
  }

  /** After painting, a cell holds the symbol of the last write landing on it, or its old content. */
  lemma {:induction false} PaintIsLastWrite(cells: seq<string>, writes: seq<(string, int)>, k: nat)
    requires Paint(cells, writes).Some? && k < |cells|
    ensures Paint(cells, writes).value[k] == match LastWrite(writes, k, |cells|) case None => cells[k] case Some(s) => s
  {
    if |writes| > 0 {
      PaintIsLastWrite(cells, writes[..|writes| - 1], k);
    }
  }

  /** Later writes win: a revealed letter overrides any guess at the same cell. */
  lemma {:induction false} LastWriteOfAppend(first: seq<(string, int)>, second: seq<(string, int)>, k: nat, n: nat)
    ensures LastWrite(first + second, k, n) == if LastWrite(second, k, n).Some? then LastWrite(second, k, n) else LastWrite(first, k, n)
    decreases |second|
  {
    if |second| > 0 {
      var init := second[..|second| - 1];
      assert (first + second)[..|first + second| - 1] == first + init;
      assert (first + second)[|first + second| - 1] == second[|second| - 1];
      LastWriteOfAppend(first, init, k, n);
    } else {
      assert first + second == first;
    }
  }

  /** A cell written by no correct guess and no revealed entry stays `_`; a revealed letter shows over any guess. */
  lemma MaskCells(word: string, guessed: seq<(string, GuessInfo)>, revealed: seq<(string, int)>, k: nat)
    requires k < |word|
    requires Paint(seq(|word|, _ => "_"), CorrectWrites(guessed) + revealed).Some?
    ensures var cells := Paint(seq(|word|, _ => "_"), CorrectWrites(guessed) + revealed).value;
      && (LastWrite(revealed, k, |word|).Some? ==> cells[k] == LastWrite(revealed, k, |word|).value)
      && (LastWrite(revealed, k, |word|).None? && LastWrite(CorrectWrites(guessed), k, |word|).Some? ==>
            cells[k] == LastWrite(CorrectWrites(guessed), k, |word|).value)
      && (LastWrite(revealed, k, |word|).None? && LastWrite(CorrectWrites(guessed), k, |word|).None? ==> cells[k] == "_")
  {
    PaintIsLastWrite(seq(|word|, _ => "_"), CorrectWrites(guessed) + revealed, k);
    LastWriteOfAppend(CorrectWrites(guessed), revealed, k, |word|);
  }

  /** With one-character symbols, the masked text has the word's length in symbols, one space between each two. */
  lemma {:induction false} JoinSpacesOfSymbols(cells: seq<string>)
    requires |cells| > 0 && forall i :: 0 <= i < |cells| ==> |cells[i]| == 1
    ensures |JoinSpaces(cells)| == 2 * |cells| - 1
    ensures forall i :: 0 <= i < |cells| ==> JoinSpaces(cells)[2 * i] == cells[i][0]
    ensures forall i :: 0 <= i < |cells| - 1 ==> JoinSpaces(cells)[2 * i + 1] == ' '
  {
    if |cells| > 1 {
      var rest := cells[1..];
      JoinSpacesOfSymbols(rest);
      var j := JoinSpaces(cells);
      assert j == cells[0] + " " + JoinSpaces(rest);
      forall i | 0 < i < |cells| ensures j[2 * i] == cells[i][0] {
        assert j[2 * i] == JoinSpaces(rest)[2 * (i - 1)];
      }
      forall i | 0 < i < |cells| - 1 ensures j[2 * i + 1] == ' ' {
        assert j[2 * i + 1] == JoinSpaces(rest)[2 * (i - 1) + 1];
      }
    }
  }

  /** One more write: it fails when the earlier ones did or its position is outside the cells. */
  lemma PaintSnoc(cells: seq<string>, writes: seq<(string, int)>, w: (string, int))
    ensures Paint(cells, writes + [w]) ==
      if Paint(cells, writes).None? || Slot(w.1, |cells|).None? then None
      else Some(Paint(cells, writes).value[Slot(w.1, |cells|).value := w.0])
  {
    assert (writes + [w])[..|writes|] == writes;
  }

  /** Painting two lists of writes is painting the second onto the result of the first. */
  lemma {:induction false} PaintAppend(cells: seq<string>, first: seq<(string, int)>, second: seq<(string, int)>)
    requires Paint(cells, first).Some?
    ensures Paint(cells, first + second) == Paint(Paint(cells, first).value, second)
    decreases |second|
  {
    if |second| > 0 {
      var init := second[..|second| - 1];
      var w := second[|second| - 1];
      assert second == init + [w];
      assert first + second == (first + init) + [w];
      PaintAppend(cells, first, init);
      PaintSnoc(cells, first + init, w);
      PaintSnoc(Paint(cells, first).value, init, w);
    } else {
      assert first + second == first;
    }
  }

  /** The correct writes of one more entry. */
  lemma CorrectWritesStep(guessed: seq<(string, GuessInfo)>, i: nat)
    requires i < |guessed|
    ensures CorrectWrites(guessed[..i + 1]) ==
      CorrectWrites(guessed[..i]) + (if guessed[i].1.correct then [(guessed[i].0, guessed[i].1.position)] else [])
  {
    assert guessed[..i + 1][..i] == guessed[..i];
  }

  /** The first loop of `get_word`: each correct guess is written at its position, in dict order. */
  method PaintCorrect(cells: array<string>, guessed: seq<(string, GuessInfo)>) returns (ok: bool)
    modifies cells
    ensures ok <==> Paint(old(cells[..]), CorrectWrites(guessed)).Some?
    ensures ok ==> Paint(old(cells[..]), CorrectWrites(guessed)) == Some(cells[..])
  {
    ghost var start := cells[..];
    var i := 0;
    while i < |guessed|
      invariant 0 <= i <= |guessed|
      invariant Paint(start, CorrectWrites(guessed[..i])) == Some(cells[..])
    {
      var (letter, info) := guessed[i];
      CorrectWritesStep(guessed, i);
      if info.correct {
        PaintSnoc(start, CorrectWrites(guessed[..i]), (letter, info.position));
        var k := Slot(info.position, cells.Length);
        if k.None? {
          CorrectWritesOfPrefix(guessed, i + 1);
          PaintFailureSticks(start, CorrectWrites(guessed[..i + 1]), CorrectWrites(guessed[i + 1..]));
          return false;
        }
        cells[k.value] := letter;
      } else {
        assert CorrectWrites(guessed[..i]) + [] == CorrectWrites(guessed[..i]);
      }
      i := i + 1;
    }
    assert guessed[..i] == guessed;
    return true;
  }

  /** The second loop of `get_word`: each revealed letter is written at its position, in dict order. */
  method PaintRevealed(cells: array<string>, revealed: seq<(string, int)>) returns (ok: bool)
    modifies cells
    ensures ok <==> Paint(old(cells[..]), revealed).Some?
    ensures ok ==> Paint(old(cells[..]), revealed) == Some(cells[..])
  {
    ghost var start := cells[..];
    var j := 0;
    while j < |revealed|
      invariant 0 <= j <= |revealed|
      invariant Paint(start, revealed[..j]) == Some(cells[..])
    {
      var (letter, position) := revealed[j];
      assert revealed[..j + 1] == revealed[..j] + [(letter, position)];
      PaintSnoc(start, revealed[..j], (letter, position));
      var k := Slot(position, cells.Length);
      if k.None? {
        PaintFailureSticks(start, revealed[..j + 1], revealed[j + 1..]);
        assert revealed[..j + 1] + revealed[j + 1..] == revealed;
        return false;
      }
      cells[k.value] := letter;
      j := j + 1;
    }
    assert revealed[..j] == revealed;
    return true;
  }

  /** `get_word`: a list of `_` as long as the word, the correct guesses written in, then the revealed letters. */
  method GetWord(word: string, guessed: seq<(string, GuessInfo)>, revealed: seq<(string, int)>) returns (r: Masked)
    ensures r == MaskOf(word, guessed, revealed)
  {
    ghost var blank := seq(|word|, _ => "_");
    var result := new string[|word|](_ => "_");
    assert result[..] == blank;
    var ok := PaintCorrect(result, guessed);
    if !ok {
      PaintFailureSticks(blank, CorrectWrites(guessed), revealed);
      return IndexError;
    }
    PaintAppend(blank, CorrectWrites(guessed), revealed);
    ok := PaintRevealed(result, revealed);
    if !ok {
      return IndexError;
    }
    r := Masked(JoinSpaces(result[..]));
  }

  /** The correct writes of a list split in two are those of each part. */
  lemma {:induction false} CorrectWritesOfPrefix(guessed: seq<(string, GuessInfo)>, i: nat)
    requires i <= |guessed|
    ensures CorrectWrites(guessed) == CorrectWrites(guessed[..i]) + CorrectWrites(guessed[i..])
    decreases |guessed| - i
  {
    if i < |guessed| {
      CorrectWritesOfPrefix(guessed, i + 1);
      assert guessed[..i + 1][..i] == guessed[..i];
      var tail := guessed[i..];
      assert tail[..|tail| - 1] == guessed[i..|guessed| - 1];
      CorrectWritesSplitLast(guessed, i);
    } else {
      assert guessed[..i] == guessed;
      assert guessed[i..] == [];
    }
  }

  /** Moving one entry from the front of the suffix to the end of the prefix. */
  lemma {:induction false} CorrectWritesSplitLast(guessed: seq<(string, GuessInfo)>, i: nat)
    requires i < |guessed|
    ensures CorrectWrites(guessed[i..]) == CorrectWrites([guessed[i]]) + CorrectWrites(guessed[i + 1..])
    decreases |guessed| - i
  {
    var tail := guessed[i..];
    if |tail| == 1 {
      assert guessed[i + 1..] == [];
    } else {
      CorrectWritesSplitLast(guessed[..|guessed| - 1], i);
      assert guessed[..|guessed| - 1][i..] == tail[..|tail| - 1];
      assert guessed[..|guessed| - 1][i + 1..] == guessed[i + 1..][..|guessed[i + 1..]| - 1];
      assert guessed[..|guessed| - 1][i] == guessed[i];
    }
  }

  // ---------------------------------------------------------------- GameStateSerializer validators

  /** Every listed hint number is 1, 2 or 3. */
  ghost predicate HintsValid(value: seq<(UserId, seq<int>)>)
  {
    forall i, j :: 0 <= i < |value| && 0 <= j < |value[i].1| ==> 1 <= value[i].1[j] <= 3
  }

  /** `validate_hints_used`: every user's list holds only hint numbers 1, 2 and 3. */
  method ValidateHintsUsed(value: seq<(UserId, seq<int>)>) returns (ok: bool)
    ensures ok <==> HintsValid(value)
  {
    var i := 0;
    while i < |value|
      invariant 0 <= i <= |value|
      invariant forall a, j :: 0 <= a < i && 0 <= j < |value[a].1| ==> 1 <= value[a].1[j] <= 3
    {
      var hints := value[i].1;
      var j := 0;
      while j < |hints|
        invariant 0 <= j <= |hints|
        invariant forall b :: 0 <= b < j ==> 1 <= hints[b] <= 3
      {
        if !(hints[j] == 1 || hints[j] == 2 || hints[j] == 3) {
          return false;
        }
        j := j + 1;
      }
      i := i + 1;
    }
    return true;
  }

  /** The hint lists the engine keeps always pass `validate_hints_used`. */
  lemma EngineHintListsPass(value: seq<(UserId, seq<int>)>)
    requires forall i :: 0 <= i < |value| ==> Consumers.IsHintRun(value[i].1)
    ensures HintsValid(value)
  {
    forall i, j | 0 <= i < |value| && 0 <= j < |value[i].1| ensures 1 <= value[i].1[j] <= 3 {
      assert Consumers.IsHintRun(value[i].1);
    }
  }

  /** `^[A-Z]$` under `re.match`: one capital, optionally followed by a final newline. */
  predicate SingleCapital(s: string)
  {
    (|s| == 1 && IsAsciiUpper(s[0])) || (|s| == 2 && IsAsciiUpper(s[0]) && s[1] == '\n')
  }

  datatype LetterFault = NotACapital | MissingField

  /** What is wrong with one `guessed_letters` entry, checked in the serializer's order. */
  function EntryFault(letter: string, keys: set<string>): Option<LetterFault>
  {
    if !SingleCapital(letter) then Some(NotACapital)
    else if "correct" !in keys || "position" !in keys then Some(MissingField)
    else None
  }

  /**
   * `validate_guessed_letters`, over the entries in dict order (each with the keys of its info):
   * the error of the first faulty entry, or none when every entry is fine.
   */
  method ValidateGuessedLetters(value: seq<(string, set<string>)>) returns (r: Option<LetterFault>)
    ensures r.None? <==> forall i :: 0 <= i < |value| ==> EntryFault(value[i].0, value[i].1).None?
    ensures r.Some? ==> exists i :: 0 <= i < |value| && EntryFault(value[i].0, value[i].1) == r &&
                                    forall j :: 0 <= j < i ==> EntryFault(value[j].0, value[j].1).None?
  {
    var i := 0;
    while i < |value|
      invariant 0 <= i <= |value|
      invariant forall j :: 0 <= j < i ==> EntryFault(value[j].0, value[j].1).None?
    {
      var (letter, keys) := value[i];
      if !SingleCapital(letter) {
        return Some(NotACapital);
      }
      if "correct" !in keys || "position" !in keys {
        return Some(MissingField);
      }
      i := i + 1;
    }
    return None;
  }

  /**
   * `validate_xp`, `validate_coins`, `validate_player1_score` and `validate_player2_score` make the
   * same check: negative values are rejected.
   */
  function AcceptsAmount(value: int): (ok: bool)
    ensures ok <==> value >= 0
  {
    !(value < 0)
  }

  /** A wrong first letter guess leaves the engine with a score that `validate_player1_score` rejects. */
  lemma EngineScoreCanFailValidation(s: Consumers.Snapshot, t: Consumers.Tables, player1: UserId, secret: string, now: int)
    requires |secret| > 0 && secret[0] != 'Q' && player1 in t.accounts && s.player1Score == 0
    ensures !AcceptsAmount(Consumers.LetterStep(s, t, player1, player1, "Q", 0, secret, now).0.player1Score)
  {
    assert "Q" != [secret[0]];
  }

  // ---------------------------------------------------------------- user serializers

  datatype UsernameFault = Taken | TooShort | BadFormat

  predicate IsAsciiAlnum(c: char) { IsAsciiLetter(c) || IsDigit(c) }

  /** `^[a-zA-Z][a-zA-Z0-9]*` matched in full. */
  predicate LetterThenAlnums(s: string)
  {
    |s| >= 1 && IsAsciiLetter(s[0]) && forall i :: 1 <= i < |s| ==> IsAsciiAlnum(s[i])
  }

  /** The username pattern under `re.match`, whose `$` also matches before a final newline. */
  predicate UsernamePattern(s: string)
  {
    LetterThenAlnums(s) || (|s| >= 2 && s[|s| - 1] == '\n' && LetterThenAlnums(s[..|s| - 1]))
  }

  /** `SignupSerializer.validate_username`: not taken, at least 4 characters, then the pattern. */
  function ValidateUsername(value: string, taken: set<string>): (r: Option<UsernameFault>)
    ensures r.None? <==> value !in taken && |value| >= 4 && UsernamePattern(value)
    ensures r == Some(Taken) <==> value in taken
    ensures r == Some(TooShort) <==> value !in taken && |value| < 4
  {
    if value in taken then Some(Taken)
    else if |value| < 4 then Some(TooShort)
    else if !UsernamePattern(value) then Some(BadFormat)
    else None
  }

  datatype SignupFault = PasswordsDiffer | PasswordTooShort

  /** `SignupSerializer.validate`: the passwords agree, then the password has at least 6 characters. */
  function ValidateSignup(password: string, confirmPassword: string): (r: Option<SignupFault>)
    ensures r.None? <==> password == confirmPassword && |password| >= 6
    ensures r == Some(PasswordsDiffer) <==> password != confirmPassword
  {
    if password != confirmPassword then Some(PasswordsDiffer)
    else if |password| < 6 then Some(PasswordTooShort)
    else None
  }

  datatype LoginFault = UnknownUser | ShortUsername | ShortPassword

  /** `LoginSerializer.validate`: an existing user, a username of at least 4 and a password of at least 6 characters. */
  function ValidateLogin(username: string, password: string, users: set<string>): (r: Option<LoginFault>)
    ensures r.None? <==> username in users && |username| >= 4 && |password| >= 6
    ensures r == Some(UnknownUser) <==> username !in users
    ensures r == Some(ShortUsername) <==> username in users && |username| < 4
  {
    if username !in users then Some(UnknownUser)
    else if |username| < 4 then Some(ShortUsername)
    else if |password| < 6 then Some(ShortPassword)
    else None
  }

  /**
   * The characters `\s` matches in a `str` pattern compiled without `re.ASCII`: Python's Unicode
   * whitespace, the characters `str.isspace` accepts.
   */
  predicate IsSpace(c: char)
  {
    ('\U{0009}' <= c <= '\U{000D}') || ('\U{001C}' <= c <= '\U{001F}') || c == ' ' ||
    c == '\U{0085}' || c == '\U{00A0}' || c == '\U{1680}' || ('\U{2000}' <= c <= '\U{200A}') ||
    c == '\U{2028}' || c == '\U{2029}' || c == '\U{202F}' || c == '\U{205F}' || c == '\U{3000}'
  }

  /** `validate_first_name` and `validate_last_name`: empty, or letters and spaces only. */
  function AcceptsName(value: string): (ok: bool)
    ensures ok <==> forall i :: 0 <= i < |value| ==> IsAsciiLetter(value[i]) || IsPersianRange(value[i]) || IsSpace(value[i])
  {
    value == [] || forall i :: 0 <= i < |value| ==> IsAsciiLetter(value[i]) || IsPersianRange(value[i]) || IsSpace(value[i])
  }

  /** A no-break space between two names is whitespace to the pattern; a hyphen is not. */
  lemma NameSpacing()
    ensures AcceptsName("Ann\U{00A0}Lee") && AcceptsName("Ann\tLee")
    ensures !AcceptsName("Ann-Lee")
  {
    assert !IsSpace("Ann-Lee"[3]);
  }

  // ---------------------------------------------------------------- game and history serializers

  /** `validate_level` (both serializers): one of easy, medium, hard. */
  function AcceptsLevel(value: string): (ok: bool)
    ensures ok <==> value == "easy" || value == "medium" || value == "hard"
  {
    value in ["easy", "medium", "hard"]
  }

  /** `GameSerializer.validate_status`: one of pending, active, paused, finished. */
  function AcceptsStatus(value: string): (ok: bool)
    ensures ok <==> value == "pending" || value == "active" || value == "paused" || value == "finished"
  {
    value in ["pending", "active", "paused", "finished"]
  }

  /** `GameSerializer.validate`: with a request, a given player1 must be the requesting user. */
  function AcceptsGame(requestUser: Option<UserId>, player1: Option<UserId>): (ok: bool)
    ensures !ok <==> requestUser.Some? && player1.Some? && player1 != requestUser
  {
    !(requestUser.Some? && player1.Some? && player1.value != requestUser.value)
  }

  /** `GameHistorySerializer.validate_result`: one of win, lose, draw. */
  function AcceptsResult(value: string): (ok: bool)
    ensures ok <==> value == "win" || value == "lose" || value == "draw"
  {
    value in ["win", "lose", "draw"]
  }

  /** `GameHistorySerializer.validate`: a given opponent differs from the given player. */
  function AcceptsHistoryPair(player: Option<UserId>, opponent: Option<UserId>): (ok: bool)
    ensures !ok <==> player.Some? && opponent.Some? && player == opponent
  {
    !(player.Some? && opponent.Some? && player.value == opponent.value)
  }

  /** The result text the websocket engine stores. */
  function EngineResultText(r: Consumers.GameResult): string
  {
    match r
    case Won => "won"
    case Lost => "lost"
    case Draw => "draw"
  }

  /** The text a level is stored under: the choice values of `Word.DIFFICULTY_CHOICES` and of the migration's `level`. */
  function LevelText(l: Level): string
  {
    match l
    case Easy => "easy"
    case Medium => "medium"
    case Hard => "hard"
  }

  /** `validate_level` accepts exactly the stored texts of the three levels, and each text names one level. */
  lemma LevelVocabularyAgrees(l: Level, m: Level, value: string)
    ensures AcceptsLevel(value) <==> exists k :: LevelText(k) == value
    ensures LevelText(l) == LevelText(m) ==> l == m
  {
    if AcceptsLevel(value) {
      var k := if value == "easy" then Easy else if value == "medium" then Medium else Hard;
      assert LevelText(k) == value;
    }
  }

  /** The result text the REST engine stores. */
  function RestResultText(r: Views.Outcome): string
  {
    match r
    case Win => "win"
    case Loss => "loss"
    case Draw => "draw"
  }

  /** The status text of the REST game row. */
  function RestStatusText(s: Models.Status): string
  {
    match s
    case Waiting => "waiting"
    case Active => "active"
    case Paused => "paused"
    case Finished => "finished"
  }

  /**
   * The vocabularies disagree: of the engine's results only a draw passes `validate_result`, of the
   * REST results a loss fails it, and the REST status `waiting` fails `validate_status`.
   */
  lemma VocabulariesDisagree(e: Consumers.GameResult, o: Views.Outcome, s: Models.Status)
    ensures AcceptsResult(EngineResultText(e)) <==> e == Consumers.Draw
    ensures AcceptsResult(RestResultText(o)) <==> o != Views.Loss
    ensures AcceptsStatus(RestStatusText(s)) <==> s != Models.Waiting
  {
  }

  /** Every history row the websocket engine writes for two distinct players passes `GameHistorySerializer.validate`. */
  lemma EngineHistoryPairsPass(row: Consumers.HistoryRow)
    requires row.opponent != Some(row.player)
    ensures AcceptsHistoryPair(Some(row.player), row.opponent)
  {
  }
}
