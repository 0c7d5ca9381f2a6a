# Guardianes de la Quebrada — a Dafny model of the game core

Guardianes de la Quebrada is a browser game of five short levels about Andean plants,
backed by a small progress service. This project models two parts of it in Dafny and
proves properties of the model:

* **Progress aggregation.** The browser keeps a cached player record (`GameContext`):
  a reducer folds actions into it, and provider procedures call the progress service
  and dispatch the result. The service (`Server`) stores one progress document per
  player in the `game_progress` collection. Its handlers create a document, read it,
  patch it, and merge a level completion into it. The merge exists twice, once in the
  browser and once in the service. `ProgressCopies` proves that after any sequence of
  completions the two copies agree on the completed levels, the unlocked level and the
  best scores. It also proves that they disagree on the total: the browser adds every
  completion, repeats included, while the service sums the best scores.
* **The five levels.** Each level is a state machine that ends by reporting a
  completion `(level, score)`:
  * `Level1`: click away three contaminants.
  * `Level2`: fertilize and plant a 24-patch grid with a budget of 10 fertilizer.
  * `Level3`: tend the chachacoma day by day with three toggles, meters with ideal
    bands, a healthy-day streak and infusions.
  * `Level4`: a week of caring for purple corn, with cooldowns, scripted events and a
    ten-second harvest.
  * `Level5`: a five-question quiz.

The source's form is kept. Parts that update state in place are classes whose methods
change their fields: the provider, the store and each level's component state. Each
method is specified by pure functions of the old state, and the lemmas are proved
about those functions. Parts that are pure record updates are functions: the reducer,
the merge, `procesarAcciones`/`calcularSalud`, and the Level 4 actions and day turn.

Modelling choices:

* `Math.round(n / d * 100)` is `Common.Percent(n, d)`, computed exactly on integers as
  `(200n + d) div 2d`. `Math.round((h + s) / 2)` is `Common.RoundDiv(h + s, 2)`.
* A Python dict of level scores is an insertion-ordered list of pairs
  (`Server.ScoreDict`), read with `Get` and written with `Set`.
* The collection is a sequence of documents. `find_one` and `update_one` act on the
  first match (`Server.FindFirst`).
* Every step a level delays with `setTimeout` is folded into the same atomic turn.
* The Level 3 weather draw (`Math.random() < 0.2`) is the parameter `hot`.
* HTTP replies, generated ids and clock readings are inputs of the methods.

Behaviour of the code a reader might not expect:

* Level 4 health is never clamped to [0,100]. `Level4.HealthGoesNegative` exhibits
  this.
* Neither the browser nor the service checks that a completion's score lies in
  [0,100] or its level in [1,5]. The model takes any integers.
* The service grants three achievements, with fixed rules: `first_level`,
  `game_master` and `high_scorer` (`Server.CompleteRecord`).
* Some actions stay possible after a level ends. Level 3 toggles still work after
  `gameOver`. Level 4 allows every action during the harvest, because `gameOver` is
  only set when the harvest ends.
* The harvest opens on the day the day counter reaches 7, not after day 7.
* A defeat while the harvest clock runs is overturned: a later day can end the Level 4
  game in defeat, but the clock keeps running and its last tick ends the game again,
  in success, and reports the completion. The model reproduces this
  (`Level4.Level4.AdvanceDay` keeps the running harvest on a defeat, and
  `Level4.Level4.Tick` then calls `Finish` with success).

## Model

| member | source | states |
|---|---|---|
| `Common.Percent` | frontend/src/components/Level1.js:34 | the rounded percentage r satisfies 2d·r ≤ 200n + d < 2d·(r+1), i.e. it is the nearest integer to 100n/d with halves rounded up |
| `Common.PercentBounds` | frontend/src/components/Level2.js:74 | for 0 ≤ n the percentage is at least 0, at most 100 when n ≤ d, and exactly 100 when n = d |
| `Common.PercentMonotone` | frontend/src/components/Level1.js:34 | a larger numerator never gives a smaller rounded percentage |
| `Common.RoundDiv` | frontend/src/components/Level4.js:242 | the result is the nearest integer to n/d with halves rounded up (2d·r ≤ 2n + d < 2d·(r+1)) |
| `GameContext.CompletePlayer` | frontend/src/context/GameContext.js:33-53 | COMPLETE_LEVEL: the level is listed once (appended only if absent, no duplicates introduced); the unlocked level is the max of the old one and level+1; the level's best score is the max of the old best (0 if none) and the new score, other levels' scores untouched; the total grows by exactly the score; id, name and achievements unchanged |
| `GameContext.ApplyPatch` | frontend/src/context/GameContext.js:31-32 | UPDATE_PLAYER: every field present in the payload replaces the cached one, every absent field is kept |
| `GameContext.Reduce` | frontend/src/context/GameContext.js:23-57 | each action's effect on the state: SET_LOADING sets loading only, SET_ERROR records the message and clears loading, SET_PLAYER replaces the player and clears loading, UPDATE_PLAYER applies the patch to the player (`ApplyPatch`) and COMPLETE_LEVEL merges the completion into it (`CompletePlayer`), both leaving loading and error alone; unknown actions change nothing |
| `GameContext.TotalCountsEveryCompletion` | frontend/src/context/GameContext.js:51 | after any sequence of completions the cached total is the old total plus the sum of all their scores, repeats included |
| `GameContext.HighestUnlock` | frontend/src/context/GameContext.js:43 | the maximum of a starting level and every completion's level+1: at least each of them, and equal to the start or to some completion's level+1 |
| `GameContext.UnlockIsMaximum` | frontend/src/context/GameContext.js:43 | after any sequence of completions the unlocked level is the largest of the starting level and every level+1 (`HighestUnlock`), whatever the order |
| `GameContext.CompletedLevelsAreASet` | frontend/src/context/GameContext.js:34-36 | the completed list never holds a level twice, and holds exactly the levels it held plus the levels completed |
| `GameContext.BestScoreWins` | frontend/src/context/GameContext.js:44-50 | completing a level twice keeps the best of the old best and both scores, and lists the level exactly once |
| `GameContext.FreshPlayerFinishesLevelOne` | frontend/src/context/GameContext.js:9-53 | from the initial state, completing level 1 with 100 gives completed [1], unlocked level 2, total 100, scores {1: 100} |
| `GameContext.FromBody` | frontend/src/context/GameContext.js:68-76 | the cached player copies every field of the service's JSON record under its browser name |
| `GameContext.BestScore` | frontend/src/context/GameContext.js:47 | a level's recorded best, 0 when the level has none; never negative when no recorded score is |
| `GameContext.Provider.constructor` | frontend/src/context/GameContext.js:9-21 | the provider's reducer starts from the initial state: a placeholder player (empty id and name, level 1, nothing completed, total 0), not loading, no error |
| `GameContext.Provider.Dispatch` | frontend/src/context/GameContext.js:60 | the new state is the reducer applied to the old state and the action |
| `GameContext.Provider.CreatePlayer` | frontend/src/context/GameContext.js:62-83 | loading is set, then a successful reply becomes the cached player and resolves with the body, a failed one records the error and rejects; loading ends cleared either way |
| `GameContext.Provider.LoadPlayer` | frontend/src/context/GameContext.js:85-107 | each path's whole new state as the reducer chain it dispatches: a found player becomes the cached player; a 404 falls back to creating the player (SET_LOADING again, then SET_PLAYER or SET_ERROR, and its outcome is the result); any other failure records the error and rejects; loading ends cleared |
| `GameContext.Provider.CompleteLevel` | frontend/src/context/GameContext.js:109-123 | the request carries the cached player id, level, score and time; only an acknowledged request dispatches COMPLETE_LEVEL, a failed one dispatches SET_ERROR only: player unchanged, error recorded, loading cleared |
| `Server.Get` | backend/server.py:131 | a key that is absent reads the default |
| `Server.Set` | backend/server.py:130-133 | after assigning a key the dict holds exactly its old keys plus that key |
| `Server.GetAfterSet` | backend/server.py:130-133 | after `d[k] = v`, k reads v and every other key reads what it did |
| `Server.SetKeepsKeysUnique` | backend/server.py:130-133 | assigning a key never duplicates a key |
| `Server.SumValues` | backend/server.py:135 | `sum(level_scores.values())`: never negative when no score is, and at most 100 per key when every score is at most 100 |
| `Server.SumAfterSet` | backend/server.py:135 | the sum of the values changes by the new value minus the one it replaces |
| `Server.SetUnchanged` | backend/server.py:130-133 | storing the value a key already holds leaves the dict unchanged |
| `Server.NewProgress` | backend/server.py:39-48 | a new record starts at level 1 with no completed levels, total 0, no scores and no achievements |
| `Server.Grant` | backend/server.py:139-145 | a tag is appended only when its condition holds and it is missing: the old list is a prefix, nothing else is added, and a present tag changes nothing |
| `Server.CompleteRecord` | backend/server.py:124-154 | complete_level's merge: level listed once; best score wins and other scores are untouched; the total is the sum of the best scores; unlocked level is the max of old and level+1; achievements only grow, stay distinct, and a tag is held afterwards exactly when it was held before or its rule holds (first_level on level 1, game_master at five completed levels, high_scorer at score ≥ 100); id, name and creation time kept, update time set |
| `Server.RepeatCompletionIsIdempotent` | backend/server.py:124-154 | completing a level again with the same or a lower score rewrites the record as it was, except its update time |
| `Server.ApplyUpdate` | backend/server.py:104-110 | update_game_progress's $set: every non-null field replaces the stored one, the others are kept, the update time is set, id, name and creation time are kept |
| `Server.FindFirst` | backend/server.py:120 | find_one picks the first document matching the filter, and finds none exactly when no document matches |
| `Server.AtMostOneNamed` | backend/server.py:86-92 | with unique names a name is held by at most one document, and by exactly one when any document has it |
| `Server.Store.constructor` | backend/server.py:20 | the collection starts empty (and so has unique names) |
| `Server.Store.CreateGameProgress` | backend/server.py:84-93 | an existing record of that name is returned unchanged; otherwise a default record is appended and returned; afterwards exactly one document has the name |
| `Server.Store.GetGameProgress` | backend/server.py:95-100 | answers the stored record of that name exactly when one exists, 404 otherwise |
| `Server.Store.UpdateGameProgress` | backend/server.py:102-115 | an update that is not `Storable`, i.e. carries a non-empty integer-keyed `level_scores` (stored keys must be strings), fails with 500 and writes nothing; otherwise 404 and no change for an unknown id, else exactly the first matching document is patched |
| `Server.Store.CompleteLevel` | backend/server.py:117-161 | 404 and no change for an unknown id; otherwise exactly the matching document is replaced by the merge, and the new total is answered |
| `ProgressCopies.ToMap` | frontend/src/context/GameContext.js:74 | the JSON object of a score dict has the dict's keys, each reading the dict's value |
| `ProgressCopies.BodyOf` | backend/server.py:100 | the record as the browser receives it carries every field: id, name, unlocked level, completed levels, total, achievements, and the scores as a map |
| `ProgressCopies.ToMapAfterSet` | backend/server.py:130-133 | assigning a key in the dict is assigning it in the JSON object |
| `ProgressCopies.OneCompletionKeepsMirror` | frontend/src/context/GameContext.js:34-50 | one completion applied to both copies keeps them in agreement on completed levels, unlocked level and best scores |
| `ProgressCopies.CopiesAgree` | frontend/src/context/GameContext.js:34-50 | the same holds after any sequence of completions |
| `ProgressCopies.ServerTotalAtMostClientTotal` | backend/server.py:135 | with non-negative scores the service's total (sum of best scores) never exceeds the browser's running total |
| `ProgressCopies.RepeatedCompletionDiverges` | frontend/src/context/GameContext.js:51 | a fresh player who finishes level 1 twice with 100 shows 200 in the browser and 100 in the service |
| `Level1.Health` | frontend/src/components/Level1.js:34 | health lies in [0,100], is 100 once every contaminant is gone, and is otherwise the rounded share cleaned |
| `Level1.HealthMonotone` | frontend/src/components/Level1.js:33-34 | cleaning more never lowers health |
| `Level1.HealthOfThree` | frontend/src/components/Level1.js:33-34 | three clicks show 33, 67 and 100 |
| `Level1.Level1.constructor` | frontend/src/components/Level1.js:10-18 | health 0, nothing cleaned, three contaminants, not playing, start screen |
| `Level1.Level1.StartGame` | frontend/src/components/Level1.js:20-23 | the game screen shows and clicks start counting |
| `Level1.Level1.RemoveContaminant` | frontend/src/components/Level1.js:25-53 | ignored unless playing; otherwise one more is cleaned, health follows, and the completion (1, 100) with the victory screen comes exactly when all are cleaned |
| `Level1.Level1.ResetGame` | frontend/src/components/Level1.js:55-64 | back to the start state |
| `Level2.CountsAfterUpdate` | frontend/src/components/Level2.js:48-67 | replacing one patch changes each count by that patch's own difference |
| `Level2.PlantedAtMostFertilized` | frontend/src/components/Level2.js:37 | since planting needs fertilized ground, planted patches never outnumber fertilized ones |
| `Level2.GoalUnreachable` | frontend/src/components/Level2.js:69-70 | under the grid invariant at most 10 patches are planted, so the goal of 12 is never reached |
| `Level2.CanFertilize` | frontend/src/components/Level2.js:35 | the fertilize branch of a click needs fertilizer left and never overlaps the planting branch |
| `Level2.FertilizingKeepsGrid` | frontend/src/components/Level2.js:35 | fertilizing where the fertilize branch allows it keeps the grid invariant with one more fertilized patch and one unit of fertilizer less |
| `Level2.PlantingKeepsGrid` | frontend/src/components/Level2.js:37 | planting where the planting branch allows it keeps the grid invariant (every planted patch fertilized) with one more planted patch and the budget untouched |
| `Level2.Efficiency` | frontend/src/components/Level2.js:74 | the score is the rounded percentage of planted patches per unit of fertilizer spent (at least 1) |
| `Level2.EfficiencyAtMost100` | frontend/src/components/Level2.js:74 | planting no more than was fertilized scores between 0 and 100 |
| `Level2.EmptyGrid` | frontend/src/components/Level2.js:15 | an empty grid counts no fertilized and no planted patch |
| `Level2.Level2.constructor` | frontend/src/components/Level2.js:10-17 | 24 empty patches, zero counters, 10 fertilizer, no tool |
| `Level2.Level2.SelectTool` | frontend/src/components/Level2.js:28-30 | only the tool changes |
| `Level2.Level2.HandlePatchClick` | frontend/src/components/Level2.js:32-46 | fertilizes an unfertilized patch when the fertilizer tool is selected and fertilizer remains, plants a fertilized unplanted patch when the plant tool is selected, and otherwise changes nothing; never completes the level |
| `Level2.Level2.FertilizePatch` | frontend/src/components/Level2.js:48-62 | the patch becomes fertilized, one more fertilized patch, one less fertilizer; the grid invariant holds |
| `Level2.Level2.PlantMuna` | frontend/src/components/Level2.js:64-93 | the patch becomes planted and the planted count grows by one; the `>= 12` test is evaluated and never passes, so no completion is reported |
| `Level2.Level2.ResetGame` | frontend/src/components/Level2.js:95-105 | a fresh grid of 24 empty patches, zero counters, 10 fertilizer, no tool |
| `Level3.Classify` | frontend/src/components/Level3.js:200-210 | in band exactly when min ≤ v ≤ max, low exactly when v < min, high exactly when v ≥ min and v > max |
| `Level3.Step` | frontend/src/components/Level3.js:70-83 | a meter after boost (capped at 100) and decay (floored at 0) is non-negative, stays at most 100, and is v − decay (floored) without the boost |
| `Level3.ProcesarAcciones` | frontend/src/components/Level3.js:65-97 | each meter moves by its own toggle's boost and decay, the temperature is warm exactly on a hot draw, nothing else changes, and meters in [0,100] stay there |
| `Level3.Ideal` | frontend/src/components/Level3.js:121-123 | ideal conditions (every meter in its band) exclude too much water and too little sun |
| `Level3.HealthChange` | frontend/src/components/Level3.js:101-126 | the day's change lies in [−45, 5]; it is positive exactly in ideal conditions on a cool day (then +5), and at most −10 on a warm day or with too much water |
| `Level3.TipoOf` | frontend/src/components/Level3.js:158 | the ideal-conditions and infusion notices are successes, the others warnings |
| `Level3.Push` | frontend/src/components/Level3.js:61 | the new message goes first, followed by the older ones in order, at most five in all |
| `Level3.PushAll` | frontend/src/components/Level3.js:156-159 | adding a day's messages leaves min(5, old + new) entries, and after the new ones the older entries follow in their old order |
| `Level3.PushAllNewestFirst` | frontend/src/components/Level3.js:61 | after adding messages the buffer starts with the newest of them, newest first |
| `Level3.Notices` | frontend/src/components/Level3.js:104-148 | each notice is raised exactly when its condition holds, and at most four are raised |
| `Level3.CalcularSalud` | frontend/src/components/Level3.js:99-171 | health is the clamped sum; game over exactly at health 0; streak grows on days above 80 and resets otherwise; the fifth day makes one infusion worth 50 and resets the streak; the completion (3, score) is reported exactly on an infusion reaching 3 while not yet completed |
| `Level3.Day` | frontend/src/components/Level3.js:173-179 | a turn advances the day by one and keeps meters in range |
| `Level3.InitialInv` | frontend/src/components/Level3.js:10-24 | the initial record satisfies the invariant and the game is neither over nor completed |
| `Level3.DayKeepsInv` | frontend/src/components/Level3.js:128-169 | a day keeps meters and health in [0,100], the streak in [0,4], score = 50 × infusions, completed exactly from the third infusion, over exactly at health 0 |
| `Level3.CompletionScores150` | frontend/src/components/Level3.js:150-153 | the completion a day reports is level 3 with score 150, three infusions of 50 points |
| `Level3.AtMostOneCompletion` | frontend/src/components/Level3.js:150-153 | over any sequence of days, the level is reported complete at most once, and never once it has been |
| `Level3.ProgressBoundedByDays` | frontend/src/components/Level3.js:132-147 | 5 × infusions + streak grows by at most one per day played, and the day counter by at most one per turn |
| `Level3.CompletionTakesFifteenDays` | frontend/src/components/Level3.js:144-153 | from a fresh game the level cannot be completed in fewer than fifteen days |
| `Level3.Level3.constructor` | frontend/src/components/Level3.js:10-30 | the initial record, no toggles, no messages |
| `Level3.Level3.Toggle` | frontend/src/components/Level3.js:395-421 | flips exactly the chosen toggle |
| `Level3.Level3.AgregarMensaje` | frontend/src/components/Level3.js:51-63 | the message is pushed onto the five-slot buffer |
| `Level3.Level3.AgregarMensajes` | frontend/src/components/Level3.js:156-159 | the evening's messages are pushed one after the other |
| `Level3.Level3.AvanzarDia` | frontend/src/components/Level3.js:173-179 | the record becomes the day's outcome, the completion is reported as the day reports it, the toggles are cleared and the notices are buffered |
| `Level3.Level3.ReiniciarJuego` | frontend/src/components/Level3.js:181-198 | back to the initial record, toggles and empty buffer |
| `Level4.WaterPlant` | frontend/src/components/Level4.js:94-112 | ignored once over; within two days of the last watering it only costs 5 health; otherwise +30 water (capped), stamps the day, +5 health; bounds kept |
| `Level4.FertilizePlant` | frontend/src/components/Level4.js:114-132 | ignored once over; within three days of the last fertilizing it only costs 10 health; otherwise +40 nutrients (capped), stamps the day, +10 health; bounds kept |
| `Level4.SecondWateringPenalized` | frontend/src/components/Level4.js:97-109 | a second watering on the same day always takes the penalty and adds no water |
| `Level4.SecondFertilizingPenalized` | frontend/src/components/Level4.js:117-129 | a second fertilizing on the same day always takes the penalty and adds no nutrients |
| `Level4.RepeatedWateringUnclamped` | frontend/src/components/Level4.js:99-101 | k waterings on the first day leave health at 70 − 5k with nothing else changed |
| `Level4.HealthGoesNegative` | frontend/src/components/Level4.js:99-101 | fifteen such waterings leave health at −5 while the game goes on |
| `Level4.DailyPenalty` | frontend/src/components/Level4.js:147-162 | the penalty lies in [−30, 0], is 0 exactly when no meter is low, and with sun ≥ 60 comes only from water and nutrients |
| `Level4.Decay` | frontend/src/components/Level4.js:137-164 | day +1, water −15 and nutrients −10 floored at 0, sun −5 floored at 60, health takes the penalties of the new meters; nothing else changes; bounds kept |
| `Level4.SunPenaltyUnreachable` | frontend/src/components/Level4.js:144-157 | after the decay sun is at least 60, so a day costs at most 15 health |
| `Level4.EventOn` | frontend/src/components/Level4.js:42-77 | rain exactly on day 3, plague exactly on day 4, heat exactly on day 6, no event on any other day |
| `Level4.ApplyEvent` | frontend/src/components/Level4.js:42-77 | rain +20 water (capped) and counts as watering; plague −15 health only with nutrients below 40; heat −15 water (floored); bounds kept |
| `Level4.Judge` | frontend/src/components/Level4.js:180-195 | harvest exactly from day 7 with health ≥ 90; defeat exactly from day 7 with less, or at health ≤ 0 |
| `Level4.EndGame` | frontend/src/components/Level4.js:232-238 | the game is over with the outcome and harvest score recorded, nothing else changed |
| `Level4.NextDay` | frontend/src/components/Level4.js:134-199 | ignored once over; otherwise the decision is taken on the decayed health before the day's event, the day advances, and health, water, nutrients, sun and the cooldown stamps are those of the decayed record after the day's event; the game ends exactly on defeat; a day without defeat keeps the outcome and harvest score, a harvest shows the board, and any other day keeps the board flag |
| `Level4.PlagueDeathDeferred` | frontend/src/components/Level4.js:166-195 | the plague can push health below zero without ending the game that day |
| `Level4.CornPoints` | frontend/src/components/Level4.js:411-412 | a cob is worth 10 exactly when its index is a multiple of 4, else 5 |
| `Level4.BoardWorth75` | frontend/src/components/Level4.js:411-412 | clicking each of the twelve cobs once collects 75 |
| `Level4.HarvestTick` | frontend/src/components/Level4.js:209-219 | a tick keeps the score and takes one second, or stops the harvest at zero |
| `Level4.HarvestLastsTenTicks` | frontend/src/components/Level4.js:201-220 | a fresh harvest stays active for nine ticks and stops on the tenth, keeping its score |
| `Level4.FinalScore` | frontend/src/components/Level4.js:242 | the average of health and harvest score rounded with halves up: their sum is 2r or 2r − 1 |
| `Level4.FinalScoreBounds` | frontend/src/components/Level4.js:181-242 | with harvest-level health the final score is at least 45, and at most 100 when both parts are at most 100 |
| `Level4.Level4.constructor` | frontend/src/components/Level4.js:10-30 | the initial record and an idle harvest |
| `Level4.Level4.Water` | frontend/src/components/Level4.js:94-112 | applies the watering to the record |
| `Level4.Level4.Fertilize` | frontend/src/components/Level4.js:114-132 | applies the fertilizing to the record |
| `Level4.Level4.AdvanceDay` | frontend/src/components/Level4.js:134-199 | applies the day's turn and starts a fresh ten-second harvest when the verdict is harvest |
| `Level4.Level4.HarvestCorn` | frontend/src/components/Level4.js:222-230 | a click adds the cob's points only while the harvest runs |
| `Level4.Level4.Tick` | frontend/src/components/Level4.js:209-219 | one second of the clock; the last one ends the game in success and reports (4, final score) |
| `Level4.Level4.Finish` | frontend/src/components/Level4.js:232-245 | ends the game; a success reports (4, final score) |
| `Level4.Level4.RunOutClock` | frontend/src/components/Level4.js:201-220 | the clock runs until it stops, then the game ends in success with the collected score reported |
| `Level4.Level4.RestartGame` | frontend/src/components/Level4.js:247-264 | back to the initial record and an idle harvest |
| `Level5.CountCorrect` | frontend/src/components/Level5.js:64-81 | the number of correct answers never exceeds the number of answers |
| `Level5.FinalScore` | frontend/src/components/Level5.js:96-97 | the rounded percentage of five is 20 × correct |
| `Level5.AllCorrectIffPerfect` | frontend/src/components/Level5.js:70-71 | every answer is counted correct exactly when each chosen option is its question's key |
| `Level5.FinalScoreBounds` | frontend/src/components/Level5.js:93-98 | the final score lies in [0,100] and is 100 exactly for the answer key |
| `Level5.QuizScores` | frontend/src/components/Level5.js:16-62 | the answer key scores 5 correct and 100; answers 0,1,1,0,1 score 3 correct and 60 |
| `Level5.Level5.constructor` | frontend/src/components/Level5.js:10-14 | first question, score 0, unanswered, not completed |
| `Level5.Level5.SelectOption` | frontend/src/components/Level5.js:64-81 | ignored once answered; otherwise locks the question and scores one exactly when the option is the key; the score never exceeds the answers given |
| `Level5.Level5.NextQuestion` | frontend/src/components/Level5.js:83-98 | moves to the next question and clears the answer, or after the fifth ends the quiz and reports (5, final score) |
| `Level5.Level5.RestartGame` | frontend/src/components/Level5.js:100-106 | back to the first question with score 0 |

## Left out

- Rendering, CSS, animations (the Level 1 clouds and fade-outs), navigation and the
  level menu's unlock gate. They carry no game state.
- Transient messages and feedback: `showMessage`, the Level 4 educational facts and
  the Level 5 feedback text. They are display only.
- The Level 3 message fields `id` (from `Date.now()`) and `tiempo`. The latter reads
  a stale `dia`. The buffer keeps each message's text and kind only.
- The Level 4 educational fact is chosen with `Math.random()`. It has no effect on
  state.
- Timers are not modelled as concurrent. Every `setTimeout` step runs within its
  turn, so no user action can fall between a turn and its delayed parts.
- Level4.Level4.Tick: requires a running harvest. A later day that opens a second
  harvest starts a second interval in the source without clearing the first. The
  model keeps one clock.
- Level4.Level4.RestartGame: resets the harvest to idle and so stops the model's clock.
  The source's `restartGame` does not clear the harvest interval, and the interval's
  callback does not check `isActive`. A clock still running at a restart keeps counting
  down the reset harvest; its last tick ends the new game as completed with harvest
  score 0 and reports (4, Math.round(h / 2)), where h is the health its closure captured.
  The model's restarted game goes on instead.
- Level4.Level4.Finish: computes the final score from the current health. The
  source's `endGame` reads the health captured by the render that started the
  harvest, which can be older.
- Level3.Level3.AvanzarDia: requires the game not to be over, because the button is
  disabled then.
- Level5.Level5.NextQuestion: requires an answered, unfinished question, because the
  button appears only then.
- Level2.Level2.HandlePatchClick: the grid invariant includes "not completed". That
  state is unreachable (`Level2.GoalUnreachable`), so the completed screen is not
  modelled.
- Level 1 allows clicks past the third contaminant, because the three DOM elements
  that bound them in the source are not modelled.
- The completion reports' promises and their `.catch(console.error)` are not
  modelled. A level reports its completion and the provider's `CompleteLevel`
  processes one reply; overlapping requests are not modelled.
- Client-side persistence of the player name (`localStorage`) and the auto-load on
  mount. They are browser I/O.
- The network (axios), MongoDB, `uuid4` and `datetime.utcnow`. Replies, ids and
  times are inputs.
- MongoDB stores dict keys as strings; the model keys level scores by integer. A
  stored document therefore never holds integer keys; an update that would write
  them is the server error of `Server.Store.UpdateGameProgress`. The
  `progress.get(field, default)` fallbacks are not modelled, because stored
  documents always carry every field.
- Concurrent requests to the service. In particular, two simultaneous creations of
  one name could store two documents; the store's unique-name invariant assumes
  requests run one at a time.
- The status-check routes, the leaderboard and the application wiring in
  `server.py`. They are outside the progress core.
- Floating point. Rounding is computed exactly on integers, with halves rounded up as
  JavaScript's `Math.round` does; representation errors of the floating-point
  quotient are not modelled.
