# Cyber Room: a Dafny model of the Battle Tower and quiz core

Cyber Room is a Next.js quiz application. Users write quizzes in a small text
format, fight bosses floor by floor in the Battle Tower by answering quiz
questions, earn or lose experience and levels, and play timed challenges over
the questions of a folder. This project models the logic of that core in
Dafny and proves what it promises. It covers:

- **Experience update** (`Progression`). Two loops move experience across
  the level thresholds `level * 15`. The four combat stats then grow with
  the level difference and the multiples of ten the level passes.
- **Battle screen** (`Combat`). The combat screen's state is a `Battle`
  object. The model has its click handlers, the boss-attack, boss-defeat
  and lose effects, the settlement, and the Fisher–Yates `shuffleArray`.
- **Battle request** (`BossBattleRoute`). The route validates the request
  and draws the boss roster with replacement.
- **Tower selection** (`TowerSelection`). The selection screen has the
  experience bar, the floors, the difficulty of a floor, and the file and
  quiz toggles, select-all, clear and start handlers.
- **Quiz text parser** (`QuizParser`). The parser reads the `問題<n>:`
  quiz text format and holds the save-button rule.
- **Quiz creation** (`QuizRoute`). The route checks and maps every question
  of a new quiz.
- **Boss creation** (`BossRoute`) and its filename sanitiser (`FileName`).
- **Challenge routes** (`ChallengeQuestions`, `ChallengeClear`,
  `ChallengeHistory`). They shuffle, cut and format the challenge questions,
  upsert the `gameProgress` table, and join the clear history with the
  folder names.
- **Mode selection** (`QuizMode`). This is the game-mode filter and the
  selection handlers.
- **Dashboard navigation** (`Dashboard`). The dashboard moves between three
  views.
- **Shared JavaScript behaviour** (`JsText`, `Wrappers`). These model
  `parseInt`, `trim`, `String(...)`, truthiness and number-to-text.

Several parts of the system become inputs:

- The database, the session, the storage upload and the clock.
- Every `Math.random` draw: critical hits, special heals, chosen indices,
  swap picks, and the order the random-comparator sort produces.
- Experience is counted in integer tenths of a point. The 1.3 and 1.2
  multipliers and the threshold of 15 points are then whole numbers
  (13, 12 and 150).

Where the code and its design description differ, the model follows the
code:

- Experience is never clamped at 0.
- The boss roster is drawn with replacement, from bosses of exactly the
  requested difficulty, and has `selectedFloorLevel` entries.
- A level-down can overshoot the new level's threshold.
- A fractional `correctAnswer` passes the quiz route's check but marks no
  option correct.
- The quiz text parser does not compare the correct answer with the number
  of options.

## Model

| member | source | states |
|---|---|---|
| Progression.ShippedConfig | config/battle.ts:1-17 | The shipped threshold multiplier is 15 points (150 tenths) and the HP increment is 1 per level |
| Progression.LevelUpSpec | app/api/user/updateExperience/route.ts:39-48 | Levelling up never lowers the level. It conserves the experience counted from level 1. It stops with the total under the new level's threshold `level * k`. |
| Progression.LevelUpUnique | app/api/user/updateExperience/route.ts:41-44 | The level-up result is the only state with the same experience from level 1 that lies in its level's band `[0, level * k)`. |
| Progression.LevelDownSpec | app/api/user/updateExperience/route.ts:49-62 | Levelling down stays within `[1, old level]` and conserves the experience from level 1. It stops at level 1 or once the total reaches `(level - 1) * k`. |
| Progression.LevelDownOverfills | app/api/user/updateExperience/route.ts:51-57 | A loss leaving `0 <= total < (level-1)*k` still costs a level. The experience given back reaches the new level's own threshold. |
| Progression.SmallLossDropsALevel | app/api/user/updateExperience/route.ts:51-57 | At level 5 with 1.0 point, losing 0.1 point drops to level 4 with 60.9 points, above level 4's threshold. |
| Progression.LevelBaseIncreases | app/api/user/updateExperience/route.ts:41-44 | Reaching a higher level needs at least `k` more experience per level. |
| Progression.MilestoneTermCounts | app/api/user/updateExperience/route.ts:75-76 | `floor(new/10) - floor(old/10)` counts the multiples of ten passed: plus going up, minus going down. |
| Progression.GrowStatsKeepsMissingHp | app/api/user/updateExperience/route.ts:84-91 | `hp` and `maxHp` get the same increment, so `maxHp - hp` is preserved. |
| Progression.GrowStatsByMilestones | app/api/user/updateExperience/route.ts:72-99 | Each stat moves by `levels * perLevel`, plus 2 per multiple of ten passed on a gain and minus 2 per multiple of ten passed on a loss. |
| Progression.CrossThresholds | app/api/user/updateExperience/route.ts:29-62 | The two while loops compute exactly `Settle`: level-up on a gain, level-down on a loss, neither on zero. |
| Progression.LevelUpLoop | app/api/user/updateExperience/route.ts:39-48 | The level-up loop ends exactly where `LevelUp` does. |
| Progression.LevelDownLoop | app/api/user/updateExperience/route.ts:49-61 | The level-down loop ends exactly where `LevelDown` does. |
| Progression.ApplyExperience | app/api/user/updateExperience/route.ts:29-99 | The stored row has the settled level and unclamped experience, and the four stats moved by their increments. A zero change leaves the row unchanged. |
| Progression.UpdateExperience | app/api/user/updateExperience/route.ts:13-26 | 403 without a session and 404 without a user, both before any computation; otherwise the updated row. |
| Combat.ResolveEffects | components/dashboard/battletower/battletower.tsx:216-269 | An answer's effects: a correct attack deals `min(bossHp, damage*crit)`; a correct heal gives `min(missing, heal*special)`; a wrong attack costs `min(userHp, floor(atk/5))`; a wrong heal does nothing. Both HPs stay in range. |
| Combat.CriticalHitDoublesDamage | components/dashboard/battletower/battletower.tsx:216-231 | A critical hit does exactly twice the normal damage while the boss's HP lasts. |
| Combat.BossStrike | components/dashboard/battletower/battletower.tsx:155-162 | The player's HP drops by the boss's attack power, three times that on a critical hit, and is 0 when the hit is lethal. |
| Combat.SettlementExperience | components/dashboard/battletower/battletower.tsx:302-303 | A win sends `+d*f*1.3` and a loss `-d*f*1.2`, in tenths. The sign tells the outcome. |
| Combat.RetryHp | components/dashboard/battletower/battletower.tsx:350 | After a loss, HP resets to the snapshot's `maxHp`, or to 100 when that is missing or 0. |
| Combat.Battle.constructor | components/dashboard/battletower/battletower.tsx:58-82 | The initial screen state. |
| Combat.Battle.Load | components/dashboard/battletower/battletower.tsx:88-130 | Loading the battle data installs the first boss and the player's numbers. An empty roster loads no boss and keeps the max HP and healing power. The quiz drawn and the feedback are kept. |
| Combat.Battle.HandleAction | components/dashboard/battletower/battletower.tsx:189-208 | Ignored when the game is over, a question is pending or the boss is due. Otherwise it draws the given quiz and question, tags it with the mode and awaits the answer. |
| Combat.Battle.HandleAnswer | components/dashboard/battletower/battletower.tsx:211-283 | With a pending question and non-zero powers: resolves the answer, counts a turn, and lowers the boss countdown by 1. Otherwise nothing changes. |
| Combat.Battle.BossAttack | components/dashboard/battletower/battletower.tsx:151-179 | Only while the game is on, a boss is loaded and the countdown is `<= 0`. The boss strikes, the countdown restarts at the boss's interval and a turn is counted. |
| Combat.Battle.DefeatBoss | components/dashboard/battletower/battletower.tsx:132-147 | At boss HP 0, the next boss comes in with its HP and interval and turn 1; after the last boss, a win. The index stays in the roster. |
| Combat.Battle.CheckLose | components/dashboard/battletower/battletower.tsx:182-186 | HP at or below 0 ends the game as lost. |
| Combat.Battle.AfterRender | components/dashboard/battletower/battletower.tsx:132-186 | The effects run in their order: a player at 0 HP has lost, even if the last boss fell at the same time; otherwise a fallen last boss is a win, and with no outcome the game state is kept. A fallen boss with one after it is replaced by that boss, with its HP and interval and turn 1. Nothing else changes: HP, question, powers, quiz and feedback. |
| Combat.Battle.Settle | components/dashboard/battletower/battletower.tsx:294-360 | The experience sent per outcome. A won, successful settlement leaves the screen. A lost, successful one restores HP, turn 1 and no outcome, and keeps the boss and its HP. |
| Combat.ShuffleFromPermutes | components/dashboard/battletower/battletower.tsx:362-369 | Fisher–Yates only swaps, so it keeps the multiset of elements. |
| Combat.ShuffleArray | components/dashboard/battletower/battletower.tsx:362-369 | The shuffled copy is a fresh array, has the input's length and multiset and is the Fisher–Yates result. The input array is not modified. |
| BossBattleRoute.QuizzesWithIds | app/api/boss/battle/route.ts:32-44 | Exactly the quizzes whose id was requested. |
| BossBattleRoute.BossesOfDifficulty | app/api/boss/battle/route.ts:54-56 | Exactly the bosses of the requested difficulty. |
| BossBattleRoute.Roster | app/api/boss/battle/route.ts:66-70 | One boss per floor, each drawn from the pool. |
| BossBattleRoute.Post | app/api/boss/battle/route.ts:10-95 | 403 exactly without a session. Then 400 `Quiz IDs are required`, then 400 `Difficulty is required`, then 404 `No quizzes found for the provided IDs`, then 404 `No bosses found for the provided difficulty`, in that order. Otherwise the roster, the quizzes and the user fields unchanged. |
| BossBattleRoute.RosterRepeats | app/api/boss/battle/route.ts:67-70 | The same boss may fill every floor. |
| BossBattleRoute.RosterIgnoresPoolSize | app/api/boss/battle/route.ts:66-70 | The roster has `selectedFloorLevel` entries. With more floors than bosses, some boss appears twice. |
| TowerSelection.RemainingExp | components/dashboard/battletower/battleTower-selection.tsx:44-45 | The bar shows experience left exactly when the user's experience is under `level * 15`. |
| TowerSelection.RemainingExpAfterGain | components/dashboard/battletower/battleTower-selection.tsx:44-45 | After any gain, the bar's remaining experience is positive. |
| TowerSelection.CalculateDifficulty | components/dashboard/battletower/battleTower-selection.tsx:51-53 | `d = ceil(f/10)`: `10(d-1) < f <= 10d`. |
| TowerSelection.DifficultyBands | components/dashboard/battletower/battleTower-selection.tsx:51-53 | Floors 1–10 give 1, floors 11–20 give 2, and positive floors give at least 1. |
| TowerSelection.DifficultyMonotone | components/dashboard/battletower/battleTower-selection.tsx:51-53 | Higher floors never have lower difficulty. |
| TowerSelection.FloorLevels | components/dashboard/battletower/battleTower-selection.tsx:48 | Exactly `[1, ..., userLevel]`. |
| TowerSelection.FloorLevelsMembers | components/dashboard/battletower/battleTower-selection.tsx:48-53 | A floor is offered iff `1 <= f <= level`, and its difficulty is between 1 and that of the top floor. |
| TowerSelection.ToggleId | components/dashboard/battletower/battleTower-selection.tsx:62-68 | The toggled id flips membership; other ids are unaffected. |
| TowerSelection.ToggleTwice | components/dashboard/battletower/battleTower-selection.tsx:62-68 | Toggling an absent id twice restores the list. |
| TowerSelection.ToggleIdDistinct | components/dashboard/battletower/battleTower-selection.tsx:62-68 | Toggling keeps the file ids distinct. |
| TowerSelection.ToggleQuiz | components/dashboard/battletower/battleTower-selection.tsx:101-107 | A present id is removed entirely, other quizzes kept; an absent quiz is appended. |
| TowerSelection.ToggleQuizDistinct | components/dashboard/battletower/battleTower-selection.tsx:101-107 | Toggling keeps quiz ids distinct. |
| TowerSelection.FirstByIdDistinct | components/dashboard/battletower/battleTower-selection.tsx:77-81 | The `findIndex` filter leaves no duplicate ids. |
| TowerSelection.FirstByIdOfDistinct | components/dashboard/battletower/battleTower-selection.tsx:77-81 | The filter leaves a duplicate-free list unchanged. |
| TowerSelection.FirstByIdPrefix | components/dashboard/battletower/battleTower-selection.tsx:77-81 | Appending keeps the filtered prefix: first-occurrence order. |
| TowerSelection.QuizzesToSelect | components/dashboard/battletower/battleTower-selection.tsx:72-75 | Exactly the quizzes of the selected files of any folder. |
| TowerSelection.SelectAllSpec | components/dashboard/battletower/battleTower-selection.tsx:71-82 | Select-all keeps the earlier selection as a prefix, adds every quiz of the selected files and has no duplicate ids. |
| TowerSelection.Screen.constructor | components/dashboard/battletower/battleTower-selection.tsx:20-39 | The initial selections. |
| TowerSelection.Screen.HandleFolderChange | components/dashboard/battletower/battleTower-selection.tsx:56-59 | Changing folder clears the selected files. |
| TowerSelection.Screen.HandleFileToggle | components/dashboard/battletower/battleTower-selection.tsx:62-68 | The selected files become the toggle. |
| TowerSelection.Screen.HandleSelectAllQuizzes | components/dashboard/battletower/battleTower-selection.tsx:71-82 | The selected quizzes become the select-all result, extending the old selection. |
| TowerSelection.Screen.HandleClearQuizzes | components/dashboard/battletower/battleTower-selection.tsx:85-87 | No quiz selected. |
| TowerSelection.Screen.HandleClearFiles | components/dashboard/battletower/battleTower-selection.tsx:90-93 | Clearing files clears the quizzes too. |
| TowerSelection.Screen.HandleFloorChange | components/dashboard/battletower/battleTower-selection.tsx:96-98 | The chosen floor is stored. |
| TowerSelection.Screen.HandleQuizToggle | components/dashboard/battletower/battleTower-selection.tsx:101-107 | The selected quizzes become the quiz toggle. |
| TowerSelection.Screen.HandleStartBattle | components/dashboard/battletower/battleTower-selection.tsx:110-128 | Refused with no quiz or no floor. Otherwise it stores the floor's difficulty and the quizzes, and goes to that difficulty's tower page. |
| TowerSelection.TowerRouteNamesDifficulty | components/dashboard/battletower/battleTower-selection.tsx:127 | Reading the number after the tower prefix gives the difficulty back. |
| QuizParser.FindMarker | components/quiz/new-quiz.tsx:40 | The leftmost `問題<digits>:` marker at or after a position. |
| QuizParser.PiecesRebuild | components/quiz/new-quiz.tsx:40 | The split pieces with the consumed markers put back between them give back the input. |
| QuizParser.MarkersAreWhole | components/quiz/new-quiz.tsx:40 | Each consumed piece of text is one whole `問題<digits>:` marker. |
| QuizParser.PiecesHaveNoMarker | components/quiz/new-quiz.tsx:40 | No piece contains a marker: the split cuts at every one. |
| QuizParser.NonEmpty | components/quiz/new-quiz.tsx:41 | Exactly the non-empty pieces; a single piece is kept iff it is non-empty. |
| QuizParser.NonEmptyAppend | components/quiz/new-quiz.tsx:41 | The filter works piece by piece, so it keeps the pieces' order and multiplicity. |
| QuizParser.OptionEnd | components/quiz/new-quiz.tsx:46-48 | The lazy end of an option: the first next option, `正解:` or the end. |
| QuizParser.OptionSpans | components/quiz/new-quiz.tsx:46-48 | The global option scan: spans in order and not overlapping, each at a `\d+\.\s` start and ending at the lazy end, and no option start left between them, so every match is the leftmost one. |
| QuizParser.RawOptions | components/quiz/new-quiz.tsx:46-48 | One raw option per span, in order: the span's text, which begins with `\d+\.\s`. |
| QuizParser.OptionText | components/quiz/new-quiz.tsx:58 | For a raw option `\d+.` followed by text, the trimmed text after the full stop. |
| QuizParser.Options | components/quiz/new-quiz.tsx:57-59 | One option per raw option, in order: the trimmed text after its number and full stop. |
| QuizParser.QuestionEnd | components/quiz/new-quiz.tsx:45 | The question text stops at the first option start or `正解:`; none before it. |
| QuizParser.FindLabelledNumber | components/quiz/new-quiz.tsx:49-50 | The leftmost `mark\s*\d+` match. |
| QuizParser.Find | components/quiz/new-quiz.tsx:51 | The leftmost `解説:`. |
| QuizParser.ParseBlock | components/quiz/new-quiz.tsx:45-81 | A block is accepted iff it has a non-empty question, at least 4 options, a `正解:` number and a non-zero difficulty. The fields are the scanned values. |
| QuizParser.ParseQuizInput | components/quiz/new-quiz.tsx:37-90 | One question per non-empty block, in order, or the first bad block numbered from 1. Ok iff every block parses. |
| QuizParser.SaveDisabled | components/quiz/new-quiz.tsx:196 | Disabled iff saving or the quiz text or title is blank. |
| Wrappers.Collect | components/quiz/new-quiz.tsx:42-87 | A `map` whose callback may throw: all results, or the first failing position. |
| JsText.ParseInt | app/api/boss/route.ts:25-28 | `parseInt` yields a number iff, after leading spaces and a sign, a digit comes first. |
| JsText.ParseIntOfIntToString | app/api/boss/route.ts:25-28 | `parseInt` reads back any integer's decimal text. |
| JsText.ParseIntAuto | app/api/challenge/questions/route.ts:11-12 | `parseInt` without a radix agrees with the radix-10 reading unless a `0x` or `0X` prefix follows the spaces and sign. With the prefix it yields a number iff a hexadecimal digit comes next. |
| JsText.ParseIntAutoOfIntToString | app/api/challenge/questions/route.ts:11-12 | `parseInt` without a radix reads back any integer's decimal text. |
| JsText.ParseIntAutoOfHex | app/api/challenge/questions/route.ts:11-12 | `0x` followed by hexadecimal digits reads as their base-16 value. |
| JsText.TrimSlice | components/quiz/new-quiz.tsx:54 | `trim()` is the slice between the leading and trailing spaces; it is empty exactly when the text is blank. |
| JsText.TrimIdempotent | components/quiz/new-quiz.tsx:54 | Trimming twice is trimming once. |
| FileName.SanitizeCounts | app/api/quiz/route.ts:72 | Every allowed character is kept as often as it occurs; every other one is dropped. |
| FileName.SanitizeIsSubsequence | app/api/boss/route.ts:60 | The sanitised name is a subsequence of the original: order is kept. |
| FileName.SanitizeSafe | app/api/quiz/route.ts:72 | A name of allowed characters is unchanged. |
| FileName.SanitizeIdempotent | app/api/boss/route.ts:60 | Sanitising twice is sanitising once. |
| FileName.UploadPath | app/api/quiz/route.ts:73 | The path lies under `uploads/` and ends in the sanitised name, all of whose characters are allowed. |
| QuizRoute.MapQuestion | app/api/quiz/route.ts:128-142 | The stored question keeps the text and option texts in order. Difficulty defaults to 1 and feedback to `解説はありません。`. |
| QuizRoute.ExactlyOneCorrect | app/api/quiz/route.ts:132-135 | With a whole-number answer, exactly the option at that 1-based position is correct. |
| QuizRoute.FractionalAnswerMarksNone | app/api/quiz/route.ts:119-135 | A fractional answer passes the check and marks no option. |
| QuizRoute.Post | app/api/quiz/route.ts:25-168 | 400 iff the fileId, title, description or questions check fails. A failed upload gives 500. The first invalid question gives 500 with its 1-based number. Otherwise the quiz holds every question mapped, in order, and an uploaded image's public URL under `uploads/`. |
| QuizRoute.Create | app/api/quiz/route.ts:105-146 | The created quiz or the first question the check rejects. |
| QuizRoute.FormQuestionStored | app/api/quiz/route.ts:115-142 | A question the form parser accepted passes iff its answer is at most its option count. It is stored with one correct option and its explanation or the default. |
| BossRoute.Post | app/api/boss/route.ts:15-105 | 403, then 400 for a missing name or description or an unparseable number, then 500 when the upload fails. Otherwise the boss with `hp == maxHp`, the parsed numbers and an uploaded image's public URL under `uploads/`. |
| BossRoute.StoresAnyNumbers | app/api/boss/route.ts:93-104 | Any integers, including 0 and negatives, are stored as given: no positivity check. |
| ChallengeQuestions.Param | app/api/challenge/questions/route.ts:11-12 | A missing or empty parameter reads as 0. Without a `0x` prefix the text is read in base 10, as the radix-10 `parseInt`. |
| ChallengeQuestions.ParamOfDecimal | app/api/challenge/questions/route.ts:11-12 | A parameter holding an integer's decimal text reads as that integer. |
| ChallengeQuestions.ParamOfHex | app/api/challenge/questions/route.ts:11-12 | `0x` followed by hexadecimal digits reads as their base-16 value: `parseInt` has no radix there. |
| ChallengeQuestions.HexFolderId | app/api/challenge/questions/route.ts:11-12 | `folderId=0x1A` reads as folder 26, a positive id that passes the 400 check. |
| ChallengeQuestions.InFolder | app/api/challenge/questions/route.ts:29-36 | Exactly the questions of the folder. |
| ChallengeQuestions.PermutePreservesMultiset | app/api/challenge/questions/route.ts:4-6 | The shuffle is a reordering: same multiset. |
| ChallengeQuestions.Take | app/api/challenge/questions/route.ts:46 | `slice(0, limit)` keeps a prefix of length `min(limit, n)`. |
| ChallengeQuestions.Format | app/api/challenge/questions/route.ts:48-54 | Each record carries the question's id, text, options and feedback, and its quiz's image path. |
| ChallengeQuestions.Get | app/api/challenge/questions/route.ts:11-54 | 400 for the folder id, then for the limit, both read by `parseInt` without a radix. 404 iff the folder has no question. Otherwise `min(limit, n)` formatted shuffled questions. |
| ChallengeQuestions.Pick | app/api/challenge/questions/route.ts:46-54 | The i-th result is the formatted question at the shuffle's i-th position. |
| ChallengeQuestions.PickWithoutRepeats | app/api/challenge/questions/route.ts:4-6 | The result is a sub-multiset of the folder's questions, so distinct ids stay distinct. |
| ChallengeClear.Upsert | app/api/challenge/clear/route.ts:32-48 | A known key gets one more clear and the new time, keeping its question count. A new key gets one clear. Other keys are unchanged. |
| ChallengeClear.RepeatedClears | app/api/challenge/clear/route.ts:32-48 | n clears of a new key leave n clears, the first question count and the last time. |
| ChallengeClear.ProgressTable.Clear | app/api/challenge/clear/route.ts:10-48 | 403 and 400 (any falsy field) leave the table unchanged; otherwise the upsert. Every record has at least one clear. |
| ChallengeHistory.Dedupe | app/api/challenge/history/route.ts:30 | The folder ids are duplicate-free and exactly those of the records. |
| ChallengeHistory.FoldersWithIds | app/api/challenge/history/route.ts:31-34 | Exactly the folders whose id was asked for. |
| ChallengeHistory.NameMap | app/api/challenge/history/route.ts:37-40 | Maps exactly the fetched folder ids; the last folder's name wins. |
| ChallengeHistory.FolderName | app/api/challenge/history/route.ts:45 | The mapped non-empty name; otherwise exactly `不明なフォルダ`. Never empty. |
| ChallengeHistory.Get | app/api/challenge/history/route.ts:10-46 | 403 without a session. Otherwise one entry per record in order, the record unchanged, plus its folder name. |
| ChallengeHistory.HistoryNames | app/api/challenge/history/route.ts:30-46 | An entry's name is its folder's name when the folder exists with a name, and `不明なフォルダ` otherwise. |
| QuizMode.ConfigAscending | config/challenge.ts:7-25 | The configured modes strictly increase in question count. |
| QuizMode.FilterAscendingPrefix | features/challenge/select_quiz_mode.tsx:27-31 | On an ascending list the filter keeps a prefix, up to the first mode needing too many questions. |
| QuizMode.FilterMembers | features/challenge/select_quiz_mode.tsx:28-30 | Exactly the modes with at most the folder's question count. |
| QuizMode.AvailableGameModes | features/challenge/select_quiz_mode.tsx:27-31 | No mode without a folder. Otherwise exactly the configured modes the folder has enough questions for. |
| QuizMode.AvailablePrefix | features/challenge/select_quiz_mode.tsx:27-31 | The offered modes are a prefix of the configuration. |
| QuizMode.FindFolder | features/challenge/select_quiz_mode.tsx:50 | The first folder with the id, or none when no folder has it. |
| QuizMode.FindMode | features/challenge/select_quiz_mode.tsx:72-74 | A mode with that count, or none when there is no such mode. |
| QuizMode.ModeName | features/challenge/select_quiz_mode.tsx:76 | The mode's name, or none when the mode is missing or its name is empty. |
| QuizMode.ChallengeRouteInjective | features/challenge/select_quiz_mode.tsx:35-37 | The challenge URL determines both the folder id and the count. |
| QuizMode.ModeSelection.constructor | context/quiz_context.tsx:23-27 | Nothing selected at first. |
| QuizMode.ModeSelection.StartDisabled | features/challenge/select_quiz_mode.tsx:95 | Disabled iff there is no folder or no non-zero count. |
| QuizMode.ModeSelection.OnFolderChange | features/challenge/select_quiz_mode.tsx:49-53 | The found folder (or none) is selected and the count is reset. |
| QuizMode.ModeSelection.OnQuestionsChange | features/challenge/select_quiz_mode.tsx:71-77 | The count is stored, with the name of the available mode with that count, or none. |
| QuizMode.ModeSelection.StartChallenge | features/challenge/select_quiz_mode.tsx:33-39 | Navigates iff the button is enabled, to the URL carrying the folder id and the count. |
| Dashboard.Back | components/dashboard/dashboard-content.tsx:36-42 | Back goes one level up, and stays on the folder list. |
| Dashboard.BackTimesDepth | components/dashboard/dashboard-content.tsx:36-42 | n presses lower the depth by n, but not below the folders. |
| Dashboard.BackReachesFolders | components/dashboard/dashboard-content.tsx:36-42 | Two presses reach the folder list from any view. |
| Dashboard.DashboardContent.constructor | components/dashboard/dashboard-content.tsx:16-23 | The folder view with nothing selected. |
| Dashboard.DashboardContent.HandleFolderSelect | components/dashboard/dashboard-content.tsx:25-29 | Selects the folder, clears the file and shows files. |
| Dashboard.DashboardContent.HandleFileSelect | components/dashboard/dashboard-content.tsx:31-34 | Selects the file and shows quizzes; the folder stays. |
| Dashboard.DashboardContent.HandleBack | components/dashboard/dashboard-content.tsx:36-42 | Changes the view by `Back` and never the selections. |

## Left out

- The database, next-auth sessions, Supabase storage, `fetch` and the clock are inputs. This covers rows found, session present, upload succeeded and `Date.now()`.
- `Math.random` is a parameter wherever it is used. The challenge shuffle's random-comparator sort becomes an arbitrary permutation given as input. The model says nothing about its distribution.
- Floating point is not modelled. Experience is in integer tenths, which makes the 1.3 and 1.2 factors exact.
- `JSON.parse` of the questions text is an input. `QuizRoute` sees it as a syntax error, a non-array, or an array of question records whose fields have the types the route checks.
- QuizRoute.ValidQuestion: a `question` or `explanation` that is truthy but not a string, and a non-integer `difficulty`, are outside the model. The model's fields are strings and integers.
- Regular-expression engines are not modelled. Each pattern is a hand-written scanner with the leftmost-match and lazy-end rules of the patterns used.
- Progression: `config/battle.ts` defines no `attackPowerIncreasePerLevel` or `healingPowerIncreasePerLevel`. In the code both read as `undefined` and the two stats become `NaN`. The model takes both increments as parameters instead.
- Progression.UpdateExperience: a stored level below 1 is not modelled. The loops assume users start at level 1.
- Combat: the `setTimeout` pacing of the boss attack, alerts, toasts, router navigation and all rendering are left out. React effects become methods that a caller runs in React's order.
- Combat: the battle screen reads `selectedBattleQuizzes`, `difficulty` and `selectedFloorLevel` from a context that does not provide them. They are constructor inputs.
- Combat.Battle.Settle: does not model the asynchronous request. Its success is the parameter `requestSucceeds`.
- TowerSelection.Screen: the quiz context provides only the folder, the question count, the mode and their setters. The screen also destructures `selectedFloorLevel`, `setSelectedFloorLevel`, `setDifficulty` and `setSelectedBattleQuizzes`, which are all `undefined`. As shipped, `handleFloorChange` throws a TypeError, the `selectedFloorLevel === null` guard never fires, and `handleStartBattle` throws at `setDifficulty` once a quiz is selected. The model keeps the floor, the difficulty and the battle quizzes as screen fields, with `floor == None` standing for `null`, and the handlers set them as evidently intended.
- ChallengeQuestions.Get: the random order is a precondition-checked permutation of the folder's questions. Comparator sorts that produce other outcomes are not modelled.
- ChallengeHistory.Get: the order of the records (`lastClearedAt` descending) comes from the database and is taken as given.
- Dashboard.DashboardContent.HandleFileSelect: requires a selected folder, because files are offered only from the selected folder's list.
- The folder and file CRUD dialogs, edit and select screens, the zod-validated folder and file routes, the incorrect-answer insert route and all display components are not part of this model. They only call endpoints and render.
