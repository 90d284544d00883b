# GuessWord game rules in Dafny

This project models the server-side rules of GuessWord, a two-player word-guessing game, and
the validators and data around them:

- **The websocket engine** (`game/consumers.py`), module `Consumers`. One game is a
  `GameRecord` class. It merges the Game and GameState rows: status, second player, winner, turn
  owner, the append-only guess log, the per-player hint and reveal lists, scores, time budgets
  and the turn and pause stamps. The user rows (coins, xp) and the history table are a `Ledger`
  class. Each `handle_*` handler is a method that takes a guard and then updates both objects in
  one step. The method's contract equals the new state to a function of the old one, and lemmas
  about those functions state the game's rules: the letter score of ±20, coin rewards, turn
  passing, the distinct-correct-positions end rule, the hint run 1, 2, 3, reveals, the 30-second
  turn timeout, pause and resume stamps, and the idempotent `end_game` with its winner rule,
  mirrored history rows and the +50 xp win award.
- **The older REST game** (`game/views.py` `GameViewSet` over the `Game` row of
  `game/models.py`), modules `Views` and `Models`. This is a separate rule set and is kept
  apart from the engine. Letters are guessed without positions. The masked display word is
  rebuilt from the guessed-letter string, and the game is won by completing it. A game clock
  with banked pause time, difficulty budgets of 600/420/300 seconds, and profile totals floored
  at zero complete it.
- **The serializers** (`game/serializers.py`), module `Serializers`. They build the masked word
  `"_ A _ E"` of `get_word`, and hold the field and object validators.
- **The word bank** (`game/seed_words.py`), module `WordBank`. It holds the 30-word seed table
  and the get-or-create seeding loop. Its `WordBank.Word` is the row the seeding writes, as the
  initial migration creates it (game/migrations/0001_initial.py:20-28). That row has `text`,
  `level` and `hint1`–`hint3`, and nothing makes a text unique. The `Word` class of
  `game/models.py` (lines 17-25) is a different shape: a unique `text`, a `difficulty` and no
  hints.
- **The sign-up form** (`src/components/SignUp.jsx`), module `SignUpForm`. It models
  `validateField`, the change handler and the submit guard.

Clocks are integer seconds passed in as `now`. Random choices are parameters: who moves first
on join is `firstIsPlayer1`, and the revealed position is `choice`, taken modulo the list of
eligible positions.

Where the code and its comments disagree, the model follows the code:

- The websocket handlers other than join, pause, resume and check-timeout do not check that the
  game is active. Only `receive` refuses a finished game. A paused game still accepts guesses
  from the turn owner, and a pending or paused game accepts hint and reveal purchases.
- The letter pattern `^[A-Zآ-ی]$` under `re.match` also accepts a letter followed by a final
  newline.
- The code never decrements the players' time budgets. `check_timeout` ends the game only when
  a budget is already at or below zero. It names the survivor as winner, so the time bonus of
  `end_game` is never paid on that path (`Consumers.TimeUpSurvivorWins`).
- The REST budgets are 600/420/300 seconds per difficulty. The REST history results are
  win/loss/draw; the websocket ones are won/lost/draw. `validate_result` accepts only
  win/lose/draw (`Serializers.VocabulariesDisagree`).

## Model

| member | source | states |
|---|---|---|
| `Consumers.Receive` | game/consumers.py:58-91 | A finished game refuses every action with no change. A non-player may only join. An unknown action from a player is refused with no change. |
| `Consumers.HandleJoinGame` | game/consumers.py:105-129 | Joining succeeds exactly when the game is pending, the user is not player 1 and there is no player 2. It then sets player 2, sets status active, gives the turn to one of the two players, stamps the turn and gives player 2 empty hint and reveal lists. Otherwise nothing changes; players get a reconnect and others a refusal. |
| `Consumers.SeatSecondPlayer` | game/consumers.py:108-121 | The second player is seated and the game made active. One of the two players gets the turn and the turn is stamped now. Player 2 starts with empty hint and reveal lists, and the record invariant is kept. |
| `Consumers.LetterGuessRefusal` | game/consumers.py:132-156 | A letter guess is accepted exactly when the user owns the turn, the position is an integer in [0, len(word)) and the letter matches the single-letter pattern. Not owning the turn is reported first. |
| `Consumers.HandleGuessLetter` | game/consumers.py:131-193 | A refused guess changes nothing. An accepted guess applies the letter step. The game then ends with reason all_letters_guessed exactly when the distinct correct positions number len(word). |
| `Consumers.RecordLetter` | game/consumers.py:158-185 | The accepted part of a letter guess leaves the record and ledger equal to the letter step of their old values. |
| `Consumers.LetterStepEffects` | game/consumers.py:161-184 | An accepted guess appends exactly one record {letter, position, letter == word[position], actor}. It moves only the actor's score, by +20 or −20, and adds one coin exactly when correct. No other user row changes, and the turn passes to the other player. |
| `Consumers.CorrectPositionsGrow` | game/consumers.py:170-189 | Appending a guess never removes a correct position. The set gains exactly that guess's position when it is correct, and nothing otherwise. |
| `Consumers.CorrectPositionsBounded` | game/consumers.py:189-193 | The set of distinct correct positions is at most len(word). It equals len(word) exactly when every position has a correct guess. |
| `Consumers.HandleGuessWord` | game/consumers.py:195-227 | Only the turn owner may guess the word. The guess always ends the game with reason word_guessed, using the winner and score of the word step. |
| `Consumers.WordStepDecides` | game/consumers.py:207-227 | An exact upper-cased match gives the guesser +100 and the win. Any other guess gives the opponent +50 and the win. The other score is unchanged. |
| `Consumers.BakeScenario` | game/consumers.py:215-227 | Guessing "BAKE" against "CAKE" hands player 2 the win and 50 points, whatever the scores. |
| `Consumers.HandleRequestHint` | game/consumers.py:229-268 | Refused with no change when coins < 1, three hints are used, or the hint text is empty. Otherwise it takes exactly one coin, extends the actor's hint list old by len(old)+1 and returns that tier's text. The turn, the turn stamp and every other field are unchanged. |
| `Consumers.HintRunGrows` | game/consumers.py:236-259 | A hint list that is 1..k with k < 3 stays 1..k+1 after the next hint. So hints come in order, never skip and never exceed three. |
| `Consumers.HandleRevealLetter` | game/consumers.py:270-314 | Refused with no change when coins < 1 or no position is eligible. Otherwise it costs one coin and adds exactly one in-range position, neither correctly guessed by anyone nor already revealed to the actor. It returns that position's letter, and the turn is untouched. |
| `Consumers.Eligible` | game/consumers.py:283-289 | A position is eligible exactly when it is in [0, len(word)), not yet revealed to the actor and not correctly guessed. The list is in increasing order. |
| `Consumers.RevealGrows` | game/consumers.py:295-303 | Adding a fresh eligible position keeps the revealed list made of distinct in-range positions. |
| `Consumers.HandlePauseGame` | game/consumers.py:316-333 | Pausing needs a second player and an active game. It then sets status paused and stamps paused_at = now; otherwise nothing changes. |
| `Consumers.HandleResumeGame` | game/consumers.py:335-354 | Resuming is allowed only from paused. It sets status active, moves the turn stamp by the pause and clears paused_at; otherwise nothing changes. |
| `Consumers.ResumedTurnTime` | game/consumers.py:339-346 | With both stamps present, the turn time elapsed at resume equals the time elapsed at the pause. With either stamp missing, the stamp becomes now. |
| `Consumers.HandleCheckTimeout` | game/consumers.py:356-399 | Does nothing unless the game is active. An exhausted budget ends the game with reason player_time_up in favour of the other player. Otherwise only the turn switch applies. |
| `Consumers.TimeoutRepeatIsNoOp` | game/consumers.py:365-379 | The turn switches exactly when a turn owner and stamp exist and now − last_turn_time > 30. Without a switch the state is unchanged. An immediate second check at the same time switches nothing and changes nothing. |
| `Consumers.EndGame` | game/consumers.py:401-458 | Leaves the record and ledger equal to the end-of-game function of their old values, and keeps the record invariant. |
| `Consumers.DecideOutcome` | game/consumers.py:406-432 | The record becomes finished, with the winner and any time bonus of the end-of-game rule. |
| `Consumers.Settle` | game/consumers.py:434-455 | The ledger gets the winner's xp and one history row per present player. |
| `Consumers.FinishIsIdempotent` | game/consumers.py:402-403 | After `end_game` the game is finished. A second call, with any reason or winner, changes neither the record nor the ledger. |
| `Consumers.FinishWinnerRule` | game/consumers.py:411-441 | Outside a time-up, the explicit winner takes precedence, then the higher scorer, then a draw. Scores and coins are unchanged. Exactly the winner gains 50 xp. |
| `Consumers.FinishWritesHistory` | game/consumers.py:435-455 | Finishing appends one row per present player, keeping earlier rows, with the other player as opponent and the final score. Results are won/lost mirrored, or draw for both. |
| `Consumers.TimeUpSurvivorWins` | game/consumers.py:419-430 | When exactly one budget is exhausted, the other player wins. The survivor's score gains its own budget // 10 only when it was not passed as the explicit winner, so no bonus is paid when it was named. |
| `Consumers.EndGameAsWritten` | game/consumers.py:401-405 | As written, `end_game` on an unfinished game fails at its transaction statement and changes nothing. |
| `Models.TimeLimitFor` | game/models.py:58-63 | The budget is 600 seconds for easy, 420 for medium and 300 for hard. |
| `Models.Game.constructor` | game/models.py:40-54 | A new row is waiting, with empty display and guesses, zero scores, a 600-second budget and nothing banked. |
| `Models.Game.InitializeGame` | game/models.py:56-70 | The display becomes len(word) underscores and agrees with the empty guesses. The budget follows the difficulty. Player 1 gets the turn and both clocks are stamped now. Status is active exactly when player 2 is set. Scores and banked time are kept. |
| `Models.DisplayOfNothingIsBlank` | game/models.py:57-64 | With no guessed letters, the masked word is all underscores. |
| `Models.MissKeepsDisplay` | game/views.py:225-231 | A letter that does not occur in the word leaves the masked word unchanged. |
| `Models.DisplayCompleteness` | game/views.py:227-230 | The masked word has no '_' exactly when every character of the word has been guessed. |
| `Models.ActiveClockBehaviour` | game/models.py:76-80 | The active clock is never negative and never increases as now advances. While positive, it runs down by exactly the elapsed time. |
| `Models.PauseFreezesClock` | game/models.py:72-74 | After pause banks the time since the last activity, the clock reads the value it had at the pause, whatever the later time. |
| `Models.ResumeRestartsClock` | game/views.py:305-306 | Resuming restamps the clock, so it restarts from the banked value. |
| `Views.JoinRefusal` | game/views.py:165-172 | Join is allowed exactly when the game is waiting or has no player 2, the caller is not player 1, and the caller is in no other waiting or active game. |
| `Views.Join` | game/views.py:162-184 | A refused join changes nothing. A successful join sets player 2 and makes the game active, then runs the initialisation. The display then agrees with the guesses. |
| `Views.InputRefusal` | game/views.py:192-196 | A guess input is accepted exactly when it is a one-character alphabetic string. A missing or empty input is reported first. |
| `Views.Guess` | game/views.py:187-276 | Input, status and turn refusals change nothing. A run-out clock ends the game by the timeout rule, through the corrected end of game. A letter already guessed changes nothing. Otherwise the guess is applied. |
| `Views.ApplyGuess` | game/views.py:214-254 | A valid guess records the letter and scores it. Completing the word finishes the game with the guesser as winner, through the corrected end of game that writes history and totals. Otherwise the turn flips to the other player. |
| `Views.RecordGuess` | game/views.py:215-237 | The game moves to the guessed step of the old state. The letter is reported correct exactly when it occurs in the word, and the word is reported complete exactly when the guess completes it. |
| `Views.GuessedEffects` | game/views.py:215-237 | A guess appends the lower-cased letter. The guesser gets +20 if the letter occurs anywhere in the word, else −20, and the other score is kept. The display stays equal to the word masked by the guessed letters. The guess completes the word exactly when every character has been guessed. |
| `Views.Pause` | game/views.py:280-296 | Pausing needs an active game and a player as caller. It adds now − last_active_time to the banked time and sets paused; otherwise nothing changes. |
| `Views.ResumeGuardAsWritten` | game/views.py:303-304 | The written caller check passes only in a game whose player 2 is player 1. |
| `Views.ResumeGuardAsWrittenRefusesPlayers` | game/views.py:303-304 | With two distinct players, the written check refuses every caller, while the intended check accepts both players. |
| `Views.ResumeGuard` | game/views.py:286-287 | The intended check passes exactly for the game's players. |
| `Views.Resume` | game/views.py:297-310 | Resume as written works only from paused and past the written check. With two distinct players it never resumes and changes nothing. |
| `Views.ResumeAsIntended` | game/views.py:297-310 | A player resumes a paused game. It becomes active with the clock restarted at the banked value, floored at zero. |
| `Views.TimeoutVerdict` | game/views.py:422-437 | With player 2 present, the higher scorer wins, or it is a draw on equal scores. Without player 2 there is no winner and no draw. |
| `Views.EndGameDueToTimeout` | game/views.py:413-439 | A finished game is left alone. Otherwise the game ends with the timeout verdict, through the corrected end of game. |
| `Views.EndGame` | game/views.py:359-411 | A finished game is left alone. Otherwise it becomes finished with the winner and draw flag and no turn. One history row and one profile update are made per present player. |
| `Views.RecordPlayers` | game/views.py:381-407 | The loop over the players' data appends exactly the rows and makes exactly the total updates of the end-of-game rule. |
| `Views.TotalsNeverNegative` | game/views.py:404-407 | Profile totals that start non-negative stay non-negative, and every present player gets a total. |
| `Views.EndGameForTwoPlayers` | game/views.py:381-407 | For two players, the rows come in order with their game scores and draw/win/loss results. Each total becomes max(0, total + score), and other profiles are unchanged. |
| `Views.EndGameAsWritten` | game/views.py:369-411 | As written, the in-memory game is marked finished, but no history row and no profile update survive. |
| `Serializers.GetWord` | game/serializers.py:157-167 | The two loops over an array compute the masked word, or the error of a position outside the word. |
| `Serializers.MaskCells` | game/serializers.py:159-166 | A cell shows the last revealed entry written to it, else the last correct guess written to it, else '_'. Revealed entries overwrite guesses. |
| `Serializers.JoinSpacesOfSymbols` | game/serializers.py:167 | The masked text holds len(word) symbols at even indices with a single space between each two. |
| `Serializers.ValidateHintsUsed` | game/serializers.py:172-176 | Accepts exactly when every listed hint number is 1, 2 or 3. |
| `Serializers.EngineHintListsPass` | game/serializers.py:172-176 | Every hint list the websocket engine builds passes the validator. |
| `Serializers.ValidateGuessedLetters` | game/serializers.py:178-184 | Accepts exactly when every key is a single capital A–Z and every info has both `correct` and `position`. Otherwise it reports the first faulty entry's error. |
| `Serializers.AcceptsAmount` | game/serializers.py:35-43 | xp, coins and both game scores are accepted exactly when non-negative. |
| `Serializers.EngineScoreCanFailValidation` | game/serializers.py:186-194 | A wrong first letter guess leaves the engine with a score the score validator rejects. |
| `Serializers.ValidateUsername` | game/serializers.py:78-87 | A username is rejected when taken, then when shorter than 4, then when not a letter followed by letters and digits. It is accepted exactly when none applies. |
| `Serializers.ValidateSignup` | game/serializers.py:67-76 | Sign-up is rejected when the passwords differ, then when the password is shorter than 6. |
| `Serializers.ValidateLogin` | game/serializers.py:9-23 | Login is rejected when the user is unknown, then when the username is shorter than 4, then when the password is shorter than 6. |
| `Serializers.AcceptsName` | game/serializers.py:45-53 | A first or last name is accepted exactly when it holds only letters and Unicode whitespace, or is empty. |
| `Serializers.NameSpacing` | game/serializers.py:45-53 | A no-break space or a tab between two names is accepted; a hyphen is not. |
| `Serializers.AcceptsLevel` | game/serializers.py:123-127 | A level is accepted exactly when it is easy, medium or hard. |
| `Serializers.LevelVocabularyAgrees` | game/serializers.py:123-127 | `validate_level` accepts exactly the stored choice texts of the three levels, and distinct levels have distinct texts. |
| `Serializers.AcceptsStatus` | game/serializers.py:129-133 | A status is accepted exactly when it is pending, active, paused or finished. |
| `Serializers.AcceptsGame` | game/serializers.py:135-140 | A game is rejected exactly when a request user is present and a given player1 differs from it. |
| `Serializers.AcceptsResult` | game/serializers.py:214-218 | A history result is accepted exactly when it is win, lose or draw. |
| `Serializers.AcceptsHistoryPair` | game/serializers.py:226-229 | A history row is rejected exactly when the player and a given opponent are the same. |
| `Serializers.VocabulariesDisagree` | game/serializers.py:214-218 | Of the engine's results only draw passes `validate_result`. Of the REST results, loss fails. The REST status waiting fails `validate_status`. |
| `Serializers.EngineHistoryPairsPass` | game/serializers.py:226-229 | A history row the engine writes for two distinct players passes the pair check. |
| `WordBank.EasyWords` | game/seed_words.py:17-27 | There are ten easy words of length 4–5, with distinct texts and three non-empty hints each. |
| `WordBank.MediumWords` | game/seed_words.py:28-38 | There are ten medium words of length 6, with distinct texts and three non-empty hints each. |
| `WordBank.HardWords` | game/seed_words.py:39-49 | There are ten hard words of length at least 8, with distinct texts and three non-empty hints each. |
| `WordBank.SeedList` | game/seed_words.py:16-50 | The table has 30 entries, ten per level in order, all texts distinct. Each entry has three non-empty hints and a length that fits its level. |
| `WordBank.WordTable.GetOrCreate` | game/seed_words.py:53-61 | Two or more rows with the same text and level raise MultipleObjectsReturned with no change. A single such row is returned with no change, so its hints are not overwritten. With none, exactly one row with the given hints is appended and reported as created. |
| `WordBank.AmbiguityIsOld` | game/seed_words.py:52-61 | Rows the loop adds never duplicate a text and level, so a pair is ambiguous afterwards exactly when it was before. |
| `WordBank.WordTable.GetOrCreateAll` | game/seed_words.py:52-61 | The loop gets through exactly when no entry's text and level was already held by two rows. It then leaves every entry with exactly one matching row. Old rows are kept, new rows come from the list, and nothing is added when every entry was already present. |
| `WordBank.WordTable.SeedWords` | game/seed_words.py:14-61 | Seeding fails exactly when some seed word already has duplicate rows, and then the transaction leaves the table unchanged. Otherwise every seed word has exactly one row, old rows are kept, and a table that already had them all is unchanged. |
| `WordBank.WordTable.SeedTwice` | game/seed_words.py:14-61 | A second seeding run adds no rows. When no seed word had duplicates, every seed word has a row afterwards. |
| `SignUpForm.ValidateField` | src/components/SignUp.jsx:20-74 | Only the validated field's key changes, and an unknown field leaves the map unchanged. Username and password give required, format or cleared by the credential class with minimum 4 or 8. confirm_password is clear exactly when non-empty and equal to the password. A name is clear exactly when it has at least 2 letters and nothing else. |
| `SignUpForm.PasswordChangeKeepsConfirmation` | src/components/SignUp.jsx:76-80 | Changing the password does not revalidate a confirmation that no longer matches. |
| `SignUpForm.SubmitAsWritten` | src/components/SignUp.jsx:82-91 | As written, submission is blocked exactly when the error map from before the submit is non-empty. |
| `SignUpForm.Submit` | src/components/SignUp.jsx:82-91 | Submission is blocked exactly when the error map after validating all five fields in turn is non-empty. |
| `SignUpForm.SubmitUnrolls` | src/components/SignUp.jsx:82-91 | Validating all five fields from any error map keyed by field names gives the same map as from no errors, because each validation overwrites its own key. |
| `SignUpForm.FormErrorsKeys` | src/components/SignUp.jsx:20-74 | After validating all fields from no errors, a field's key is present exactly when that field fails its rule. |
| `SignUpForm.SubmitBlocksInvalidForm` | src/components/SignUp.jsx:86-91 | Whatever field errors earlier typing left, the intended submission goes through exactly when every field passes its rule. |
| `SignUpForm.StaleConfirmationSubmits` | src/components/SignUp.jsx:76-91 | All fields are typed valid, then the password is changed to another valid one. The error map is then empty, so the button is enabled. As written the form is sent with mismatched passwords; the intended guard blocks it. |

## Left out

- Websocket plumbing: `connect`, `disconnect`, group membership and the `send_*`/`game_update` helpers (game/consumers.py:24-56, 464-501) are network I/O. A handler's reply is a `Reply` value naming the event or refusal it would send. The user-facing message texts are not modelled.
- Async, database and transaction wrappers (`sync_to_async`, `transaction.atomic`, `.save()`, `objects.create`, `get_or_create` on a real table): each handler is one update of in-memory objects. Two players acting at once, and their interleaving, are not modelled.
- Randomness: the first mover on join is a boolean parameter, and the revealed position is a caller-chosen index into the eligible list. The word choice of the REST `create` view is not part of this model.
- Wall-clock time: `timezone.now()` is an integer-second parameter. Fractional seconds from `total_seconds()`, and the `int(...)` truncation in `get_remaining_time`, do not arise.
- Time budgets: `player1_time`/`player2_time` are given when a record is created. The code never decrements them, so neither does the model. Python `None` budgets are not modelled, because the schema makes them required.
- The sign-up inputs' `required` attributes (src/components/SignUp.jsx:126, 140, 154, 168, 198) are browser constraint checks and are not modelled. Neither is the `disabled` binding of the submit button (line 223). The stale-confirmation witness of the fourth finding satisfies both.
- Letters: `\p{L}`, `str.isalpha` and the range `آ-ی` are modelled as ASCII letters plus U+0622–U+06CC. `str.upper`/`lower` act on ASCII letters only.
- Django's `validate_password`, `UserRegisterView`, the list/retrieve/create views, `_filter_game_output_data`, the profile, leaderboard and history views, and the serializers' `get_*` display fields and `to_representation` are presentation or foreign calls. They are not part of this model.
- `get_word` input: the `guessed_letters` and `revealed_letters` dicts are ordered lists of (letter, info) entries with integer positions and both fields present. The KeyError and TypeError of malformed entries are not modelled; only a position outside the word is.
- `validate_guessed_letters` input: each info is represented by its set of keys. An info that is not a dict is not modelled.
- `validate_hints_used` input: hint numbers are integers, so Python's `True == 1` and `1.0 == 1` do not arise.
- Consumers.Receive: its contract states only its own refusals. The effect of each dispatched action is stated by that handler's contract.
- Consumers.HandleCheckTimeout: the budget-exhausted branches are stated as the end-of-game function of the post-switch record. The reply in those branches is stated by `Consumers.EndGame`.
- The `async with transaction.atomic()` that opens the other handlers' updates (game/consumers.py:108, 158, 254, 298, 321, 337, 368) is the same statement as in the first finding. Those handlers are modelled as the intended atomic update; only `end_game` also has an as-written member.
- Views.Guess, Views.ApplyGuess and Views.EndGameDueToTimeout: they end the game through the corrected `Views.EndGame`, so they promise history rows and profile totals that the code as written never keeps (the second finding, game/views.py:398).
- The REST `guess` response after a timeout does not save the game row. Persistence is not modelled, so the model keeps the finished in-memory row.

## Findings

| source | as written | input that shows it | evidently intended | confidence | as-written member | corrected member |
|---|---|---|---|---|---|---|
| game/consumers.py:405 | `end_game` opens its update with `async with transaction.atomic()`. Django's `Atomic` has no asynchronous context-manager protocol, so the statement raises and `receive` reports a server error. | `guess_word` by the turn owner of a game row that is already active: the game stays active and no history is written (`Consumers.EndGameAsWrittenNeverFinishes`) | The update runs as one atomic step and the game finishes | not executed; high | `Consumers.EndGameAsWritten` | `Consumers.EndGame` |
| game/views.py:398 | `_end_game` passes `difficulty=game.difficulty`, but the `Game` row has no `difficulty` field (game/models.py:31-54). The first loop iteration raises, the transaction rolls back, and the error is swallowed. | Any two-player game reaching `_end_game`: no history row and no profile update (`Views.EndGameAsWrittenLosesHistory`) | One history row and one floored total update per present player | not executed; high | `Views.EndGameAsWritten` | `Views.EndGame` |
| game/views.py:303 | `player_1 != user or player_2 != user` refuses the caller unless the caller is both players | A paused game with distinct players 1 and 2, resumed by player 1: refused | `and`: refuse only non-players, as `pause` does | not executed; high | `Views.Resume` | `Views.ResumeAsIntended` |
| src/components/SignUp.jsx:86-91 | Each `validateField` call starts from the same stale `errors`, so only the last field's result survives. The guard then reads that stale `errors`. | All fields typed valid, then the password changed to another valid one: the error map is empty, the button is enabled, and the form is sent with mismatched passwords (`SignUpForm.StaleConfirmationSubmits`) | Validate every field in turn and block on any resulting error | not executed; high | `SignUpForm.SubmitAsWritten` | `SignUpForm.Submit` |
