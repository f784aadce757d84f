# tko-clone game engine, in Dafny

This project models the core of the tko-clone party-game server and the small
state machines of its two front ends. The server has two games:

- a list-ranking game (`Ranker`), in which every player suggests a list and
  ranks the others' suggestions;
- a shirt game (`TKO`), in which players draw designs, write slogans,
  combine parts dealt to them into shirts, score each other's shirts and
  vote between them.

Both games run on a session registry with a turn timer (`BaseGame`). The
presenter display (`PresenterStore`) follows the commands the server
broadcasts. The player's device offers a bounded toggle list for ranking and
selecting (`ToggleList`, `Rank`, `Select`), a cyclic part picker
(`ComposeShirt`) and an `interlace` helper (`Draw`).

Modules and files:

| file | module | models |
|---|---|---|
| wrappers.dfy | Wrappers | `Option` (JavaScript `undefined`) and `Result` (a thrown error) |
| lookup.dfy | Lookup | `findIndex`, `find`, `filter` as the game code uses them |
| util.dfy | Util | server/util.ts: Fisher–Yates `shuffle`, `generateRoomCode`, `sample` |
| shared_types.dfy | SharedTypes | players, presenters, outbound messages, timer broadcasts, polling stop ticks |
| base_game.dfy | BaseGame | server/Games/BaseGame.ts: roster, sessions, routing, turn timer, explain-and-wait |
| ranker_mechanics.dfy | RankerMechanics | server/Games/RankerMechanics.ts: `List`, `scoreRankings`, `evaluateSets` |
| ranker.dfy | Ranker | server/Games/Ranker.ts: both session handlers, the rank-option builder, the winner |
| tko.dfy | TKO | server/Games/TKO.ts: `input`, rounds, final scores, vote scores, dealing, collect loops |
| presenter_store.dfy | PresenterStore | presenter/src/store/Store.ts: `consumeCommand`, `goToPage` |
| toggle_list.dfy | ToggleList | the add/remove/tap logic shared by Rank.tsx and Select.tsx |
| rank.dfy, select.dfy | Rank, Select | the `Rank` and `Select` components' state |
| compose_shirt.dfy | ComposeShirt | the `ComposeShirt` component's picker indices |
| draw.dfy | Draw | `interlace` in Draw.tsx |

How the original's features map onto the model:

- **Objects become classes.** Objects whose fields change are classes, and
  their methods say in `modifies`/`ensures` what they change:
  `BaseGame.BaseGame`, `RankerMechanics.List`, `Ranker.Ranker`, `TKO.TKO`,
  `PresenterStore.Store`, `Rank.Rank`, `Select.Select` and
  `ComposeShirt.ComposeShirt`.
- **Messages go to an outbox.** Every call of the delivery callback
  `onCommunicate(id, payload)` is appended to an `outbox` sequence, in call
  order.
- **Session closures become tags.** The session handlers and the
  live-status producers are closures in the original. Here they are tags:
  `Ranker.Handler`, `Ranker.Updater` and `TKO.Updater`. `BaseGame.Input`
  routes a command and records it. The owning game then runs the handler
  the tag names.
- **Ranker's local arrays become fields.** `Ranker.round` keeps its
  suggestions and rankings in local arrays. Here they are the fields
  `listSuggestions` and `listSuggestionRanks`.
- **Random draws, ids and polled values are inputs.**
  - Every `Math.random()` result is a `real` in [0, 1). `shuffle` uses
    `draws[i]` at loop index `i`.
  - Generated ids (`shortId`) are parameters.
  - What a timer loop reads after each one-second tick (`hasEnded()`, a
    count) is given as a sequence with one entry per tick. The sleeps
    themselves are dropped.
- **Throws become `Err`.** A dereference of `undefined` or an explicit
  `throw` becomes a `Failure` value, produced at the statement where the
  original throws. State changes made before that statement are kept.
- **Scores are exact.** Scores are exact `real`s: `10 / position` and
  `value / 2`.

`end()` returns the value of the assignment `session.active = false`,
which is always `false` (server/Games/BaseGame.ts:134), so
`BaseGame.BaseGame.End` returns `false`.

## Model

Two members carry no contract of their own and so have no row:
`TKO.CreditTo`, the `sumOfScores` fold of one player's credits, is
described by `TKO.CreditToFiltered`, `TKO.CreditToNone` and
`TKO.CreditToAll`; `Ranker.Ranker.Winner` is `Ranker.WinnerOf` applied to
the round's rankings, suggestions and roster.

| member | source | states |
|---|---|---|
| Lookup.FindIndex | server/Games/BaseGame.ts:74 | `findIndex`: the first position whose element satisfies the test, or -1 exactly when no element does |
| Lookup.Find | server/Games/Ranker.ts:107-108 | `find`: `undefined` exactly when no element satisfies the test, otherwise the first element that does |
| Lookup.Filter | server/Games/Ranker.ts:74 | `filter`: the result holds only elements of the input that satisfy the test, holds every element that does, and is no longer than the input |
| Lookup.FilterMultiplicity | server/Games/Ranker.ts:74 | `filter` keeps each passing element exactly as often as the input holds it, and no element that fails the test |
| Lookup.FilterAppend | server/Games/Ranker.ts:74 | `filter` keeps input order: the filter of `a + b` is the filter of `a` followed by the filter of `b` |
| Util.DrawIndexInRange | server/util.ts:17 | a draw in [0, 1) picks a swap partner `j` with `0 <= j <= i` |
| Util.ShuffleDown | server/util.ts:16-19 | the passes of the loop from `i` down keep the length of the array |
| Util.Shuffled | server/util.ts:15-21 | `shuffle` keeps the length of the array |
| Util.ShuffleDownPermutes | server/util.ts:16-19 | every pass of the shuffle loop is a swap, so the loop permutes the array |
| Util.ShuffledIsPermutation | server/util.ts:15-21 | a shuffled sequence has the same length and the same multiset of elements |
| Util.Shuffle | server/util.ts:15-21 | the in-place loop returns the very array it got, and its contents become the shuffled permutation of the old contents |
| Util.ShuffleSeq | server/util.ts:15-21 | shuffling a copy of a sequence yields exactly the shuffled permutation of it |
| Util.GenerateRoomCode | server/util.ts:5-8 | the room code has exactly 4 letters, each from the 24-letter alphabet: the first four of three shuffled alphabets |
| Util.Sample | server/util.ts:23-25 | `undefined` exactly for an empty array, otherwise one of its elements |
| SharedTypes.Broadcast | server/Games/BaseGame.ts:218-223 | one message per presenter, in roster order, all with the same payload |
| SharedTypes.EmissionsLength | server/Games/BaseGame.ts:174-176 | `n` ticks send `n` messages to every presenter |
| SharedTypes.EmissionsCountDown | server/Games/BaseGame.ts:173-182 | one presenter sees `start, start - 1, ...`, one value per tick |
| SharedTypes.StopTick | server/Games/BaseGame.ts:174-180 | a polling loop stops after the first tick whose check holds, and runs every tick when no check holds |
| SharedTypes.StopTickAt | server/Games/BaseGame.ts:177-179 | a loop that first sees its stop at check `i` has run `i + 1` ticks |
| SharedTypes.EmitAppends | server/Games/BaseGame.ts:174-176 | emitting the next value after `n` ticks gives exactly the output of `n + 1` ticks |
| BaseGame.Ids | server/Games/BaseGame.ts:128 | a session's target ids are its targets' ids, in target order |
| BaseGame.ClaimingSession | server/Games/BaseGame.ts:74 | `input` picks the first session, in creation order, that is active and targets the sender; -1 exactly when none does |
| BaseGame.Deactivated | server/Games/BaseGame.ts:134 | `end()` clears the session's `active` flag and changes no other session |
| BaseGame.DeactivateIdempotent | server/Games/BaseGame.ts:134 | calling `end()` a second time changes nothing |
| BaseGame.Recorded | server/Games/BaseGame.ts:83 | a routed command is appended to the claiming session's responses and to no other session |
| BaseGame.BaseGame.constructor | server/Games/BaseGame.ts:37-45 | a new game has no players, presenters or sessions, and no status producer |
| BaseGame.BaseGame.SendToAllPresenters | server/Games/BaseGame.ts:218-223 | sends the payload to every presenter; the rest of the state is unchanged |
| BaseGame.BaseGame.AddPlayer | server/Games/BaseGame.ts:47-57 | appends exactly one player, with a room-namespaced id, and shows the new roster on every presenter |
| BaseGame.BaseGame.AddPresenter | server/Games/BaseGame.ts:59-63 | appends exactly one presenter and sends nothing |
| BaseGame.BaseGame.PlayerByName | server/Games/BaseGame.ts:65-67 | the first player with that name; `undefined` exactly when nobody has it |
| BaseGame.BaseGame.HasPlayerId | server/Games/BaseGame.ts:69-71 | true exactly when some player has that id |
| BaseGame.BaseGame.Input | server/Games/BaseGame.ts:73-87 | with no claiming session the reply is `no-op` and no session changes; otherwise only the first claiming session gains the command, and its handler is due with the updated responses and the sender's roster entry |
| BaseGame.BaseGame.RequestInput | server/Games/BaseGame.ts:116-144 | appends one active session with no responses, targeting all current players (`'all'`) or exactly the listed ones; sends target `i` its instruction, in target order |
| BaseGame.BaseGame.End | server/Games/BaseGame.ts:134-135 | after `end()` the session has ended (`hasEnded()` holds) and `end()` has returned false |
| BaseGame.BaseGame.HasEnded | server/Games/BaseGame.ts:135 | a session that has ended claims no further input: `input` routes no command to it |
| BaseGame.BaseGame.EmitTimer | server/Games/BaseGame.ts:164-171 | shows the remaining time on every presenter |
| BaseGame.BaseGame.DefaultTurnTimer | server/Games/BaseGame.ts:173-182 | emits `time, time - 1, ...` one per tick; stops after the first tick at which `hasEnded()` holds, without calling `end`; otherwise emits all `time` values and then ends the session once |
| BaseGame.BaseGame.ExplainAndWait | server/Games/BaseGame.ts:146-162 | installs the new status producer, replacing any earlier one; shows the explain step with empty `explainStats`, clearing earlier statuses, then pushes the first statuses |
| BaseGame.BaseGame.UpdateExplainAndWait | server/Games/BaseGame.ts:184-195 | does nothing without a producer; otherwise pushes its statuses to every presenter |
| RankerMechanics.List.constructor | server/Games/RankerMechanics.ts:16-18 | a new list has its title and author, and no items |
| RankerMechanics.List.AddItem | server/Games/RankerMechanics.ts:20-23 | `items` grows by exactly the item, at the end; afterwards `itemById(item.id)` returns the item; the map keeps matching the items |
| RankerMechanics.List.ItemById | server/Games/RankerMechanics.ts:25-27 | some item is found exactly when a listed item has that id; the found item has that id and is listed |
| RankerMechanics.FirstPlaceWorthMost | server/Games/RankerMechanics.ts:61-68 | every position is worth something; first place is worth exactly 10, more than any other position |
| RankerMechanics.SumScore | server/Games/RankerMechanics.ts:67-71 | the summed score of a group is never negative, and is zero exactly for an empty group |
| RankerMechanics.SumScoreBounds | server/Games/RankerMechanics.ts:67-71 | the score of `n` rankings lies in (0, 10n] |
| RankerMechanics.GroupOf | server/Games/RankerMechanics.ts:64 | a target's group holds only rankings of that target, each of them, and is no longer than the input |
| RankerMechanics.GroupOfIsFilter | server/Games/RankerMechanics.ts:64 | a `groupBy` group is the `filter` of the rankings by target id |
| RankerMechanics.GroupOfAppend | server/Games/RankerMechanics.ts:64 | a group keeps input order: the group of `a + b` is the group of `a` followed by that of `b` |
| RankerMechanics.GroupOfMultiplicity | server/Games/RankerMechanics.ts:64 | a group holds each ranking of its target exactly as often as the input does, and no ranking of another target |
| RankerMechanics.Targets | server/Games/RankerMechanics.ts:64-65 | the group keys: each ranked target exactly once, in order of first occurrence |
| RankerMechanics.Grouped | server/Games/RankerMechanics.ts:64-78 | one line per key, holding the key's group and its summed score |
| RankerMechanics.Insert | server/Games/RankerMechanics.ts:79-81 | inserting a line adds exactly that line |
| RankerMechanics.InsertMembers | server/Games/RankerMechanics.ts:79-81 | an insertion holds only the new line and the old ones |
| RankerMechanics.InsertSorted | server/Games/RankerMechanics.ts:79-81 | inserting into a list sorted by descending score keeps it sorted |
| RankerMechanics.InsertDistinct | server/Games/RankerMechanics.ts:79-81 | inserting a line with a new id keeps the ids distinct |
| RankerMechanics.SortByScore | server/Games/RankerMechanics.ts:79-81 | the sort is a permutation of its input |
| RankerMechanics.SortByScoreSorted | server/Games/RankerMechanics.ts:79-81 | the sort yields non-increasing scores and keeps ids distinct |
| RankerMechanics.SortByScoreHeadIsFirstBest | server/Games/RankerMechanics.ts:79-81 | the sort is stable at the top: its head is the earliest input line with the highest score |
| RankerMechanics.ScoreRankings | server/Games/RankerMechanics.ts:60-82 | one line per ranked target, none exactly when there are no rankings, and the lines are a reordering of the grouped lines |
| RankerMechanics.ScoreRankingsEntries | server/Games/RankerMechanics.ts:60-78 | `scoreRankings` gives one line per distinct target, and none for no input; each line holds exactly its target's rankings in input order, and their summed score |
| RankerMechanics.ScoreRankingsCovers | server/Games/RankerMechanics.ts:64-65 | every ranked target has a line |
| RankerMechanics.ScoreRankingsOnlyRanked | server/Games/RankerMechanics.ts:64-65 | every line is a ranked target |
| RankerMechanics.ScoreRankingsSorted | server/Games/RankerMechanics.ts:79-81 | the lines come in non-increasing score order |
| RankerMechanics.ScoreRankingsHeadIsBest | server/Games/RankerMechanics.ts:60-82 | the first line's target has the highest aggregate score of all ranked targets |
| RankerMechanics.ScoreRankingsHeadIsFirstBest | server/Games/RankerMechanics.ts:64-81 | on a tie for the top score, the first line is the tied target that comes first among the group keys |
| RankerMechanics.TotalPointsCounts | server/Games/RankerMechanics.ts:86-99 | the score is 225 per correct and 75 per misplaced position, so it lies between 0 and 225 per position |
| RankerMechanics.IndexOf | server/Games/RankerMechanics.ts:91 | `findIndex`: the first position holding the target, or -1 exactly when it is absent |
| RankerMechanics.EvaluateSets | server/Games/RankerMechanics.ts:85-108 | one tag per position of `correct`, decided by the target's first index in `supplied` (-1 incorrect, same index correct, otherwise misplaced); score = 225·#correct + 75·#misplaced |
| RankerMechanics.Summary | server/Games/RankerMechanics.ts:90-102 | the tag list has one tag per position, each decided by the first index |
| RankerMechanics.DisjointScoresZero | server/Games/RankerMechanics.ts:91-94 | a submission sharing no target with the answer scores 0 |
| RankerMechanics.AllIncorrectScoresZero | server/Games/RankerMechanics.ts:92-94 | only incorrect positions score 0 |
| RankerMechanics.ExactAnswerScoresFull | server/Games/RankerMechanics.ts:95-97 | submitting the answer itself, with distinct targets, scores 225 per position |
| RankerMechanics.AllCorrectScoresFull | server/Games/RankerMechanics.ts:95-97 | only correct positions score 225 each |
| RankerMechanics.CompleteSubmissionEarnsInclusion | server/Games/RankerMechanics.ts:91-100 | a submission that contains every answer target earns at least 75 per position |
| RankerMechanics.NoIncorrectCounts | server/Games/RankerMechanics.ts:92-101 | with no incorrect tag, every position is correct or misplaced |
| Ranker.SubmittedCount | server/Games/Ranker.ts:29 | a player's suggestion count is 0 exactly when they suggested nothing |
| Ranker.SubmittedCountAppend | server/Games/Ranker.ts:29 | a new suggestion counts for its author and nobody else |
| Ranker.SuggestionStats | server/Games/Ranker.ts:27-35 | one status per player, in roster order: the number of lists they suggested |
| Ranker.RankOptions | server/Games/Ranker.ts:73-75 | no more options than suggestions |
| Ranker.RankOptionsOthersOnly | server/Games/Ranker.ts:74 | every option offered is someone else's suggestion: a player never ranks their own |
| Ranker.RankOptionsComplete | server/Games/Ranker.ts:73-75 | every suggestion by someone else is offered |
| Ranker.DecimalString | server/Games/Ranker.ts:58 | the template literal prints a number as a non-empty string of decimal digits, with a leading `-` exactly for a negative number |
| Ranker.DecimalRoundTrip | server/Games/Ranker.ts:58 | reading the printed digits back gives the number printed |
| Ranker.RankPrompt | server/Games/Ranker.ts:72-84 | the prompt is `rank` with `numberToRank = min(3, options)` over the others' suggestions |
| Ranker.RankingsOf | server/Games/Ranker.ts:86-95 | one ranking per ranked id, by the sender, with the id at index `i` at position `i + 1` |
| Ranker.SingleBallotTop | server/Games/Ranker.ts:86-95 | a lone ballot of distinct ids puts its first choice on top, with score 10 |
| Ranker.EndIfAllResponded | server/Games/Ranker.ts:46-48 | a session ends exactly when its response count equals the player count, whoever sent the responses |
| Ranker.Reshuffled | server/Games/Ranker.ts:73 | each run of the option builder reshuffles the suggestion list in place |
| Ranker.ReshuffledPermutes | server/Games/Ranker.ts:73 | reshuffling never changes which suggestions exist |
| Ranker.PromptMessages | server/Games/Ranker.ts:70-84 | player `i` receives the prompt built after the `i + 1`-th reshuffle, in roster order |
| Ranker.Ranker.constructor | server/Games/Ranker.ts:18-19 | a new round has no suggestions and no rankings |
| Ranker.Ranker.OpenSuggestions | server/Games/Ranker.ts:22-52 | installs the suggestion counter, shows the explainer, and sends everyone `write` in one new session |
| Ranker.Ranker.BuildRankPrompts | server/Games/Ranker.ts:72-84 | for each player in turn, reshuffles the suggestions, then builds that player's rank prompt |
| Ranker.Ranker.OpenRanking | server/Games/Ranker.ts:55-103 | shows the ranking explainer, then sends everyone a rank prompt in one new session; the suggestions end up a permutation of themselves |
| Ranker.Ranker.RecordRanking | server/Games/Ranker.ts:86-95 | appends exactly the rankings of one submission, in order |
| Ranker.Ranker.SuggestionInput | server/Games/Ranker.ts:40-51 | appends exactly one new list, with the given id, the written title and the sender as author; ends the session exactly when the responses reach the player count; replies `wait` |
| Ranker.Ranker.RankingInput | server/Games/Ranker.ts:85-102 | a missing `ranked`, or a missing player with ids to rank, fails with nothing appended and the session untouched; otherwise appends the positions 1..k in order, ends the session exactly when the responses reach the player count, and replies `wait` |
| Ranker.Ranker.Input | server/Games/BaseGame.ts:73-87 | with no claiming session the reply is `no-op` and nothing changes; otherwise the command is recorded in the first claiming session and that session's handler runs: a suggestion appends one list by the sender and a ranking appends the sender's positions 1..k; the session ends when the responses reach the player count; on success the live counts go to every presenter, while a failing handler leaves the rankings and the outbox unchanged |
| Ranker.WinnerOf | server/Games/Ranker.ts:105-109 | picking the winner fails with `NoScores` exactly when there are no rankings, with `NoWinner` exactly when no suggestion has the top-scoring id, with `NoSuggester` exactly when the first such suggestion's author is not in the roster, and with nothing else; on success the winner is the first suggestion with the top id and its author the first roster entry with that id |
| Ranker.Ranker.WinnerHasTopScore | server/Games/Ranker.ts:106-107 | the winning suggestion has the highest aggregate ranking score |
| TKO.ToAllPlayers | server/Games/TKO.ts:736-741 | one message per player, in roster order |
| TKO.StatsOf | server/Games/TKO.ts:101-110 | one status per player, in roster order: the number of designs, slogans or shirts they made under the matching producer, or `?` while undisclosed |
| TKO.Reached | server/Games/TKO.ts:553-560 | a collect loop's check after a tick holds exactly when the polled count equals the target |
| TKO.ShirtById | server/Games/TKO.ts:679 | the round's shirt with that id; `undefined` exactly when there is none |
| TKO.ScoringPlayers | server/Games/TKO.ts:522 | everyone but the shirt's creator scores it |
| TKO.VotingPlayers | server/Games/TKO.ts:498-499 | exactly the players with no shirt in the vote may vote |
| TKO.VoteOptions | server/Games/TKO.ts:507 | one option per shirt, with its slogan text and id; fails exactly when some shirt lacks a slogan |
| TKO.BonusScores | server/Games/TKO.ts:687-699 | a DESIGN bonus to the design's creator and a SLOGAN bonus to the slogan's creator, each value/2, together the full value |
| TKO.ShirtCredits | server/Games/TKO.ts:390 | a shirt score credits the shirt's creator with its value |
| TKO.AdhocCredits | server/Games/TKO.ts:391 | an adhoc score credits its target with its value |
| TKO.CreditToFiltered | server/Games/TKO.ts:390-391 | what a player is credited is `sumOfScores` (server/Games/TKO.ts:827-829) of the credits filtered by owner |
| TKO.CreditToNone | server/Games/TKO.ts:390-391 | a player who owns none of the credits scores 0 (the `reduce` of an empty filter) |
| TKO.CreditToAll | server/Games/TKO.ts:827-829 | a player who owns every credit scores `sumOfScores` of them all |
| TKO.FinalScores | server/Games/TKO.ts:387-398 | one final score per player, in roster order |
| TKO.CreditsConserved | server/Games/TKO.ts:389-396 | with distinct ids, and every credit going to a player, the players' credits sum to the total credited |
| TKO.SumFinalSplits | server/Games/TKO.ts:389-396 | the final scores sum to the players' shirt credits plus their adhoc credits |
| TKO.FinalScoresConserve | server/Games/TKO.ts:387-398 | the final scores distribute exactly the points awarded: they sum to all shirt scores plus all adhoc scores |
| TKO.VoteValue | server/Games/TKO.ts:402 | `floor(1000 / n)`: `n` votes share at most 1000 points and fall short by less than `n` |
| TKO.VoteScores | server/Games/TKO.ts:405-413 | one VOTE adhoc score per vote, to the voted shirt's creator |
| TKO.VotePointsTotal | server/Games/TKO.ts:400-413 | a voting round awards `n·floor(1000/n)` points in all, never more than 1000 |
| TKO.Available | server/Games/TKO.ts:584-593 | a player is offered only parts not made by them and not yet used |
| TKO.Share | server/Games/TKO.ts:580-581 | `take(count / players)` takes the integer part of the quotient: `share · players <= count < (share + 1) · players`; no share for no players |
| TKO.Take | server/Games/TKO.ts:580-581 | `take(n)` gives the first `n` elements, or all when there are fewer |
| TKO.TakeAvailable | server/Games/TKO.ts:584-593 | at most `n` parts, each from the pool, not made by the player and not used |
| TKO.TakeAvailableIsTake | server/Games/TKO.ts:584-593 | the one-pass deal equals `take(n)` of the two chained `filter`s |
| TKO.DesignsFor | server/Games/TKO.ts:584-588 | at most the share of designs, each from the pool, not made by the player and not yet used |
| TKO.SlogansFor | server/Games/TKO.ts:589-593 | at most the share of slogans, each from the pool, not made by the player and not yet used |
| TKO.DealStep | server/Games/TKO.ts:583-594 | dealing one more player unused parts keeps the deal fair |
| TKO.DealMessages | server/Games/TKO.ts:599-605 | one `shirt` message per player with the parts dealt to them |
| TKO.Dealing | server/Games/TKO.ts:583-594 | the deal after `n` turns, the reference for the deal methods: one offer per player dealt, and the reshuffled pools keep their lengths |
| TKO.DealingNext | server/Games/TKO.ts:583-594 | a turn that reshuffles the pools, offers the next player the first shares available to them and marks the offer used is the next step of the dealing |
| TKO.TurnFair | server/Games/TKO.ts:583-594 | one turn of the dealing keeps the pools a permutation of the originals, every offer within the share and free of the player's own parts, and every dealt id used |
| TKO.DealingFair | server/Games/TKO.ts:578-606 | after any number of turns the deal so far is fair to the players dealt and the pools are permutations of the originals |
| TKO.DealingPermutes | server/Games/TKO.ts:583-588 | the reshuffles of the dealing never change which parts exist |
| TKO.DealingIsFair | server/Games/TKO.ts:578-606 | the full dealing is fair: one offer per player, nobody gets their own part, no part goes to two players, and nobody gets more than the share |
| TKO.TKO.constructor | server/Games/TKO.ts:36-53 | no parts, no previous rounds, an empty current round, both flags on, no producer |
| TKO.TKO.StatsUpdate | server/Games/TKO.ts:464-475 | nothing without a producer; otherwise one status message per presenter |
| TKO.TKO.UpdateExplainAndWait | server/Games/TKO.ts:464-475 | pushes the producer's statuses, if any; nothing else changes |
| TKO.TKO.ExplainAndWait | server/Games/TKO.ts:447-462 | replaces the producer, shows the explain step with empty `explainStats` and pushes the first statuses |
| TKO.TKO.Input | server/Games/TKO.ts:627-734 | design and slogan each append exactly one part by the sender, with nothing else changed; slogan replies `slogan` while repeating, otherwise `wait`; a shirt always succeeds and is built from the parts looked up by id, a part that matches no id left missing; a score adds one shirt score, plus two value/2 bonuses when bonuses are on and none otherwise; a score or vote naming no shirt fails; scoring a shirt that lacks its design or slogan fails only while bonuses are on; a vote with no voting round fails; any other type fails |
| TKO.TKO.NewRound | server/Games/TKO.ts:234-243 | files the current round, starts an empty one, empties designs and slogans, and turns both flags on |
| TKO.TKO.ComputeFinalScoresForRound | server/Games/TKO.ts:387-398 | stores the round's final scores and changes nothing else |
| TKO.TKO.ComputeVotingResult | server/Games/TKO.ts:400-413 | fails exactly when there is no voting round; otherwise appends one VOTE score of floor(1000/#votes) per vote in the last round |
| TKO.TKO.EmitTimer | server/Games/TKO.ts:477-484 | shows the remaining time on every presenter |
| TKO.TKO.Countdown | server/Games/TKO.ts:609-616 | tick `i` (1..time, 45 in every collect loop) shows `time - i`; the loop stops after the first tick whose check holds; only the outbox changes |
| TKO.TKO.CollectDesigns | server/Games/TKO.ts:547-561 | asks every player for a design; stops once the design count reaches the old count plus the player count |
| TKO.TKO.CollectSlogans | server/Games/TKO.ts:563-576 | asks every player for slogans; with no target it runs all 45 ticks |
| TKO.TKO.CollectScoresFor | server/Games/TKO.ts:521-545 | asks everyone but the creator to score; stops once the old score count plus the scorer count is reached |
| TKO.TKO.CollectVotesBetween | server/Games/TKO.ts:494-519 | opens a new voting round, asks exactly the players without a shirt in the vote, and stops once all of them have voted |
| TKO.TKO.DealShirtParts | server/Games/TKO.ts:578-606 | the offers, and the reshuffled pools left behind, are exactly those of the dealing: each player in roster order reshuffles both pools and is offered the first share of the parts not theirs and not yet used; one `shirt` message per player, in order; the pools are permuted, not changed |
| TKO.TKO.DealOne | server/Games/TKO.ts:584-594 | one turn: reshuffles both pools in place, offers the first share of the parts not the player's and not used, marks them used and sends the offer; the state is the dealing one turn further |
| TKO.TKO.CollectShirts | server/Games/TKO.ts:578-617 | deals exactly as the dealing does, and the deal is fair; then waits until every player has submitted one more shirt |
| PresenterStore.Merge | presenter/src/store/Store.ts:64 | `Object.assign` copies every supplied key over the metadata and keeps the other keys |
| PresenterStore.Field | presenter/src/store/Store.ts:61 | destructuring reads the key's value, or `undefined` when it is absent |
| PresenterStore.AnnouncementFields | presenter/src/store/Store.ts:59-62 | exactly the three announcement keys, each with its value or `undefined` |
| PresenterStore.StepPage | presenter/src/store/Store.ts:67-81 | each of the five steps opens its own page, and any other step opens none |
| PresenterStore.StepMetadata | presenter/src/store/Store.ts:59-65 | after an announcement the metadata keys are the old ones plus the three; after any other step, the old ones plus the supplied ones |
| PresenterStore.AnnouncementClearsStale | presenter/src/store/Store.ts:59-62 | each announcement key holds the new value, or `undefined` when absent, never an old one |
| PresenterStore.AnnouncementKeepsOthers | presenter/src/store/Store.ts:62 | an announcement keeps every other metadata key as it was |
| PresenterStore.MergeIdempotent | presenter/src/store/Store.ts:83-85 | replaying a merge changes nothing further |
| PresenterStore.Store.constructor | presenter/src/store/Store.ts:24-46 | the display starts on the landing page, with no players, empty metadata and timer 0 |
| PresenterStore.Store.GoToPage | presenter/src/store/Store.ts:116-119 | sets the page and nothing else |
| PresenterStore.Store.ConsumeCommand | presenter/src/store/Store.ts:48-89 | `all-players` replaces only the players; a step updates the metadata as above and sets its page, if any; `pure-metadata` only merges; `timer` only sets the timer |
| ToggleList.Added | remote/src/Components/Rank/Rank.tsx:33-38 | adding is a no-op when full; otherwise it appends at the end, never going over the cap |
| ToggleList.Removed | remote/src/Components/Rank/Rank.tsx:41-43 | removal drops exactly that id, keeps every other id, and keeps the list duplicate-free |
| ToggleList.Tapped | remote/src/Components/Rank/Rank.tsx:46-49 | tapping a chosen id removes it; tapping any other id tries to add it |
| ToggleList.TapBounded | remote/src/Components/Rank/Rank.tsx:33-38 | a tap never takes the list over its cap |
| ToggleList.TapDistinct | remote/src/Components/Rank/Rank.tsx:45-49 | a tap never creates a duplicate |
| ToggleList.TapsKeepInvariant | remote/src/Components/Rank/Rank.tsx:30-49 | starting from the empty list, any taps leave at most the cap, with no duplicates |
| ToggleList.RemovedAbsent | remote/src/Components/Rank/Rank.tsx:41-43 | removing an id that is not chosen changes nothing |
| ToggleList.RemovedAt | remote/src/Components/Rank/Rank.tsx:41-43 | removing the id at position `i` closes the gap and keeps the order of the rest |
| ToggleList.RankShown | remote/src/Components/Rank/Rank.tsx:57-62 | the shown rank is the id's first position plus one; 0 (blank) exactly when the id is not chosen |
| ToggleList.UntapShiftsRanks | remote/src/Components/Rank/Rank.tsx:41-62 | untapping an option moves every later option up one rank and leaves the earlier ones unchanged |
| ToggleList.TapTwiceRestores | remote/src/Components/Rank/Rank.tsx:33-49 | tapping an unchosen id while there is room, then tapping it again, restores the list |
| Rank.Rank.constructor | remote/src/Components/Rank/Rank.tsx:30 | nothing is ranked at first |
| Rank.Rank.AddToRankArray | remote/src/Components/Rank/Rank.tsx:33-38 | appends unless `numberToRank` ids are already ranked |
| Rank.Rank.RemoveFromRankArray | remote/src/Components/Rank/Rank.tsx:41-43 | drops the id and keeps the others in order |
| Rank.Rank.TapItem | remote/src/Components/Rank/Rank.tsx:46-49 | untaps a ranked id or ranks a new one; stays within `numberToRank` and duplicate-free |
| Rank.Rank.Submit | remote/src/Components/Rank/Rank.tsx:74-80 | sends the ids in tap order exactly when `numberToRank` are ranked, and nothing otherwise |
| Select.Select.constructor | remote/src/Components/Select/Select.tsx:30 | nothing is selected at first |
| Select.Select.AddToSelectArray | remote/src/Components/Select/Select.tsx:33-38 | appends unless `numberToSelect` ids are already selected |
| Select.Select.RemoveFromSelectArray | remote/src/Components/Select/Select.tsx:41-43 | drops the id and keeps the others in order |
| Select.Select.TapItem | remote/src/Components/Select/Select.tsx:46-49 | unselects a selected id or selects a new one; stays within `numberToSelect` and duplicate-free |
| Select.Select.Submit | remote/src/Components/Select/Select.tsx:74-80 | sends the ids exactly when `numberToSelect` are selected, and nothing otherwise |
| ComposeShirt.NextIndex | remote/src/Components/ComposeShirt/ComposeShirt.tsx:97-104 | the next index stays in [0, len): one up, or wrapping from the last index to 0 |
| ComposeShirt.PreviousIndex | remote/src/Components/ComposeShirt/ComposeShirt.tsx:107-120 | one down, or wrapping from 0 to len - 1 |
| ComposeShirt.PreviousUndoesNext | remote/src/Components/ComposeShirt/ComposeShirt.tsx:97-112 | for an in-range index, previous after next returns to it |
| ComposeShirt.NextUndoesPrevious | remote/src/Components/ComposeShirt/ComposeShirt.tsx:97-112 | for an in-range index, next after previous returns to it |
| ComposeShirt.NextTimesBelow | remote/src/Components/ComposeShirt/ComposeShirt.tsx:97-99 | short of the end, `k` taps on next move `k` places |
| ComposeShirt.NextTimesSplit | remote/src/Components/ComposeShirt/ComposeShirt.tsx:97-99 | `a + b` taps on next are `a` taps followed by `b` taps |
| ComposeShirt.FullCircle | remote/src/Components/ComposeShirt/ComposeShirt.tsx:97-104 | `len` taps on next go all the way round, back to the start |
| ComposeShirt.ComposeShirt.constructor | remote/src/Components/ComposeShirt/ComposeShirt.tsx:27-31 | both indices start at 0 |
| ComposeShirt.ComposeShirt.NextDesign | remote/src/Components/ComposeShirt/ComposeShirt.tsx:97-99 | advances the design index cyclically; the slogan index is unchanged |
| ComposeShirt.ComposeShirt.NextSlogan | remote/src/Components/ComposeShirt/ComposeShirt.tsx:102-104 | advances the slogan index cyclically; the design index is unchanged |
| ComposeShirt.ComposeShirt.PreviousDesign | remote/src/Components/ComposeShirt/ComposeShirt.tsx:107-112 | moves the design index back, wrapping from 0 to the last |
| ComposeShirt.ComposeShirt.PreviousSlogan | remote/src/Components/ComposeShirt/ComposeShirt.tsx:115-120 | moves the slogan index back, wrapping from 0 to the last |
| ComposeShirt.ComposeShirt.Submit | remote/src/Components/ComposeShirt/ComposeShirt.tsx:56-60 | sends the ids of the design and slogan at the current indices |
| Draw.Interlace | remote/src/Components/Draw/Draw.tsx:80-88 | `n >= 1` items give `2n - 1` elements: the items in order at even positions, `el` at odd positions, the last item last; an empty list gives the single `undefined` of `list[-1]` |

## Left out

- Timing: every sleep (`waitFor`, `setTimeout`) is dropped.
  - The game scripts are not modelled as a whole. These are `Ranker.orchestrate`, `Ranker.round`'s sequencing, `TKO.orchestrate` and `scoreAndVoteCeremonies`, and the `announceRound`, `makeAnnouncement` and `showScores` steps.
  - The round-2 lucky-design shirts (server/Games/TKO.ts:157-231) are not modelled.
  - What is kept from these scripts are the phases they chain: the explain-and-wait, request, timer, collect, deal and score operations above.
- The live reveal in `computeAndBroadcastVotingResult` (server/Games/TKO.ts:415-430) is not modelled. This includes its dereference of the voter's name. It only re-broadcasts the vote scores one by one, between sleeps.
- Transport is not modelled.
  - `SocketCommunicator` (server/Games/TKO.ts:761-817), socket.io and the HTTP layer are left out.
  - `onCommunicate` calls are the `outbox`.
  - The presenter `Store`'s `create`/`join` requests are HTTP.
- Console logging is not modelled.
- Randomness and ids are inputs.
  - Every `Math.random()` result is a parameter.
  - uuid-based ids are parameters, for players, presenters, sessions, lists, designs, slogans and shirts.
  - The ids of `ItemRanking` and of adhoc scores are never read, so they are not modelled.
- Floating point is not modelled. Scores are exact reals, and IEEE rounding of `10 / position` sums and of `value / 2` is not modelled.
- `TKO.addPlayer`, `addPresenter`, `hasPlayerId` and `playerByName` (server/Games/TKO.ts:55-88) are left out. They repeat the `BaseGame` operations modelled above. Only the id scheme differs, and `Player.generateId` is not part of this model. `TKO.TKO.constructor` takes its roster as given.
- The optional `shirt` in an explain step's metadata (server/Games/BaseGame.ts:151, server/Games/TKO.ts:451) is not carried in the model's messages.
- BaseGame.BaseGame.ExplainAndWait: the producer's output is passed in as `stats`, because the producer is a closure of the owning game.
- BaseGame.BaseGame.UpdateExplainAndWait: the producer's output is likewise passed in as `stats`.
- Ranker.Ranker.SuggestionInput: the title of a new list is `metadata.text` as a string; a command without `text` (an `undefined` title) is not modelled.
- Ranker.WinnerOf: the announcements that follow it are left out (server/Games/Ranker.ts:109-111).
- RankerMechanics.Targets: the group keys are taken in order of first occurrence, which is the order `Object.keys` gives for keys that are not integer-like, as every generated list id is: `shortId('list')` gives `list-` followed by hex digits (server/Games/RankerMechanics.ts:5-10). JavaScript lists integer-like keys such as `"1"` or `"42"` first, in ascending numeric order; that order is not modelled. It matters only when a client sends such ids in `ranked` and they tie for the top score.
- `RankerMechanics`'s `Round` and `Score` classes are not modelled. Nothing in the core uses them.
- PresenterStore.Store.ConsumeCommand:
  - metadata values are opaque (`Value`);
  - a `step` command whose inner `metadata` object is missing is not modelled: for an `announcement` step the destructuring throws (presenter/src/store/Store.ts:61); for any other step `Object.assign` copies nothing and only the page changes (presenter/src/store/Store.ts:64);
  - the `Player` copies made by `new Player(p)` are plain values.
- ComposeShirt.ComposeShirt.constructor requires both lists to be non-empty, because the first render reads `designs[0]` and `slogans[0]`. For an empty list, `nextDesign` would compute `NaN`; this is not modelled.
- Rendering is not modelled. This covers every `render` method, the presenter's pages, the drawing canvas of Draw.tsx and the other display components.
