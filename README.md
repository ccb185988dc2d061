# Words Collide — a verified model of the game server

Words Collide is a two-player word game. A player creates a game, gets a
four-letter code, and a second player joins with that code. Each round
deals 20 letters: 8 vowels and 12 consonants, shuffled. For 120 seconds both
players submit words spelled from those letters. When the timer runs out,
a word counts only if the opponent did not also submit it, and it scores by
length: 10 points for 3 letters, 15 for 4 and 20 for 5 or more. The higher
round score wins the round. The first player to win two rounds wins the
match. After a round both players press "ready" to go on. After a match
both can ask for a rematch. If a player's connection drops, their game is
deleted.

This project models the server's game logic, `backend/server.js`, in Dafny.
It has seven modules:

- `Wrappers`: the `Option` type.
- `Words`:
  - word normalisation (`toLowerCase().trim()`), the points table and the letter-availability check `canFormWord`;
  - the ordered validation chain of `submitWord`, as a `Verdict`.
- `Letters`:
  - `generateGameCode` and `generateLetters`;
  - randomness is an input: the draws come in as indices, and the comparator shuffle as a series of transpositions.
- `Scoring`:
  - the player record `createPlayer` builds;
  - the round's uniqueness scoring, defined by how `endRound` counts the entries in `roundSubmissions`;
  - an independent definition as "points of the words the opponent did not submit", with proofs that the two agree.
- `GameRules`:
  - a game's state as a value, with one pure transition per operation: create, join, round start, one firing of the round interval, round end, submit, ready and rematch;
  - the game invariant, and lemmas stating what each transition promises, including a whole scripted round.
- `Session`:
  - a `Game` class whose fields are the game object's fields, with one method per operation (`StartRound`, `Tick`, `EndRound`, `Join`, `SubmitWord`, `Ready`, `PlayAgain`);
  - each method is proved to turn `State()` into the matching `GameRules` transition of `old(State())`;
  - `StartRound` is a step inside `Join`, `Ready` and `PlayAgain`, so it does not promise the invariant on its own. Those three methods, `Tick`, `EndRound` and `SubmitWord` are each proved to keep it.
- `Registry`:
  - the server's `games` table, as a map from code to `Game`, plus the codes in insertion order (the order of `for … in`);
  - one method per socket handler.

## Model

| member | source | states |
|---|---|---|
| `Words.Trim` | backend/server.js:208 | The result is a slice of the input, and neither of its ends is JavaScript whitespace. Everything cut off before or after it is whitespace. |
| `Words.Untrimmed` | backend/server.js:208 | A string with no whitespace at either end is unchanged by `trim`. |
| `Words.CalculateScore` | backend/server.js:55-60 | A word scores nothing exactly when it is shorter than 3. Otherwise it scores 10, 15 or 20. |
| `Words.ScoreTable` | backend/server.js:55-60 | The points table: 5 or more letters 20, 4 letters 15, 3 letters 10, fewer than 3 nothing. |
| `Words.ScoreGrowsWithLength` | backend/server.js:55-60 | A longer word never scores less than a shorter one. |
| `Words.CanFormWord` | backend/server.js:61-71 | True exactly when the multiset of the upper-cased word is contained in the multiset of the letters. So no letter is used more often than it was dealt. |
| `Words.CanFormBoundsLength` | backend/server.js:61-71 | A word that can be formed is no longer than the letter pool. |
| `Words.CanFormExamples` | backend/server.js:61-71 | "AA" cannot be formed from a single A. "cat" can be formed from C, A, T, X, whatever the case. |
| `Words.CountLetters` | backend/server.js:62-65 | For every character, the count table holds the number of times it occurs among the letters. |
| `Words.Check` | backend/server.js:210-217 | For each outcome, an iff with the condition that produces it, checked in the source's order: too short, then a common word, then unavailable letters, then already submitted by this player, then not in the dictionary. Otherwise the word is accepted. |
| `Words.AcceptedWordScores` | backend/server.js:210-217 | An accepted word is worth at least 10 points and is no longer than the letter pool. |
| `Letters.CodeOf` | backend/server.js:38-42 | A code built from four draws is four upper-case letters A–Z. |
| `Letters.GenerateGameCode` | backend/server.js:37-44 | The code returned is not a key of the table. It is four upper-case letters. It comes from one of the random attempts, namely the first unused one. |
| `Letters.ApplySwaps` | backend/server.js:53 | The shuffle keeps the length and the multiset of letters. |
| `Letters.PoolShape` | backend/server.js:45-54 | A round's pool holds exactly 20 upper-case letters, and it is a permutation of 8 vowels followed by 12 consonants. |
| `Letters.Shuffle` | backend/server.js:53 | The in-place shuffle of the array performs exactly the given series of transpositions. |
| `Letters.ConstructorCanBeDealt` | backend/server.js:45-54 | Some valid draws deal a pool that holds the letters of CONSTRUCTOR. |
| `Letters.GenerateLetters` | backend/server.js:45-54 | The array built by the two push loops and then shuffled is `Pool(d)`: the 8 drawn vowels, then the 12 drawn consonants, after the shuffle's transpositions. |
| `Scoring.CountInZero` | backend/server.js:127-130 | A word has no entry from a list exactly when the list does not hold it. |
| `Scoring.ListedWordIsClaimed` | backend/server.js:125-136 | Every submitted word has at least one entry in `roundSubmissions`, so the lookup on line 136 always finds one. |
| `Scoring.UniquenessScoring` | backend/server.js:125-141 | For two players whose lists hold no duplicates, the round score computed from `roundSubmissions` equals the points of the words the opponent did not submit. This holds for both players. |
| `Scoring.SharedWordScoresNothing` | backend/server.js:133-139 | A word two players both submitted has at least two entries, so it earns nothing for either player. |
| `Scoring.UnsharedWordScores` | backend/server.js:133-139 | A word a player submitted that the opponent did not submit adds its points to the player's round score, so the score is at least the word's points. |
| `Scoring.RoundScoreByWords` | backend/server.js:133-141 | A round score depends only on the players' submission lists. |
| `Scoring.ScoringIdempotent` | backend/server.js:133-141 | Scoring again gives the same round scores, because `roundScore` is reset to 0 before it is summed. |
| `Scoring.UniquenessExample` | backend/server.js:125-141 | If A submits cat and dog and B submits cat, A scores 10 and B scores 0. |
| `GameRules.NewPlayer` | backend/server.js:163-172 | A new player has the given id and name. Their totals, round score and rounds won are 0, their word list is empty, and they are neither ready nor asking for a rematch. |
| `GameRules.PlayerIndex` | backend/server.js:204 | `find` by connection id: the first player with that id, or none when no player has it. |
| `GameRules.CreatedInv` | backend/server.js:177-189 | A new game holds only its creator. It is waiting, with no tick running, and it satisfies the game invariant. |
| `GameRules.RoundStartResets` | backend/server.js:87-115 | A round start sets the status to playing, counts the round, sets the timer to 120, deals the new letters and starts the tick. It clears each player's words, round score, ready flag and rematch flag, and keeps their totals, rounds won, ids and names. |
| `GameRules.RoundStartedInv` | backend/server.js:87-115 | Starting a round for two players who have each won at most one round keeps the invariant. |
| `GameRules.RoundEndRules` | backend/server.js:117-158 | Round end stops the tick, and each round score is the uniqueness score, added to the total. A strictly higher score wins the round and exactly one round won; equal scores are a "Tie" and nobody gains. The match is over exactly when someone has two rounds won, and that player is named game winner. |
| `GameRules.RoundEndScoresUniqueWords` | backend/server.js:125-141 | At round end each player's round score is the points of the words the opponent did not submit. |
| `GameRules.RoundEndOnlyWhilePlaying` | backend/server.js:119 | `endRound` changes nothing unless the game is playing. |
| `GameRules.RoundEndedInv` | backend/server.js:117-158 | Round end keeps the game invariant. |
| `GameRules.TickedInv` | backend/server.js:107-114 | One firing of the interval keeps the game invariant. |
| `GameRules.TickCountdown` | backend/server.js:107-110 | Each of the first `timer` firings takes exactly one second off the timer and changes nothing else. |
| `GameRules.RoundLastsTimerPlusOneTicks` | backend/server.js:107-114 | A round is still playing after `timer` firings. The next firing ends it, and any further firings change nothing, because the interval is cleared. |
| `GameRules.JoinedInv` | backend/server.js:191-200 | The creator stays first and the joiner is added second. The resulting game satisfies the invariant. |
| `GameRules.SubmittedRules` | backend/server.js:202-222 | An ignored or rejected submission changes nothing. An accepted one requires a playing game and a known sender; it appends the normalised word, which was not yet in the sender's list, to that list only. The invariant, including duplicate-free lists, is kept. |
| `GameRules.ReadiedRules` | backend/server.js:224-235 | Outside round end, or from an unknown sender, nothing changes. Otherwise the sender becomes ready, and the next round starts exactly when the other player was already ready. The invariant is kept. |
| `GameRules.ReplayedRules` | backend/server.js:237-254 | Outside game over, or from an unknown sender, nothing changes. At game over a rematch starts exactly when the other player had already asked for one. A rematch begins at round 1 with the new letters and two players, whose ids and names are kept and whose totals, round scores and rounds won are 0. Otherwise only the sender's rematch flag is set. The invariant is kept. |
| `GameRules.ReplayedInv` | backend/server.js:237-254 | `playAgain` keeps the game invariant. |
| `GameRules.RoundEndedAsWritten` | backend/server.js:117-141 | `endRound` as written throws exactly when the game is playing and some player listed "constructor" or "__proto__". The throw comes after the tick is cleared and the status is set to round end, so no score, rounds-won count or winner changes. In every other case the result is `RoundEnded`. |
| `GameRules.ConstructorIsAccepted` | backend/server.js:202-222 | In a playing game whose letters spell CONSTRUCTOR, "constructor" is accepted from a known player who has not yet submitted it, if the dictionary holds it. Afterwards a player's list holds an inherited key. |
| `GameRules.ConstructorBreaksRoundEnd` | backend/server.js:117-141 | If player 1 alone submitted "constructor", `endRound` as written throws and player 1's total is unchanged. The intended round end would add at least 20 points to it. |
| `GameRules.CatRoundScenario` | backend/server.js:87-160 | A created game is joined and round 1 starts. A submits "cat", which is accepted, and B submits nothing. After 121 firings the round has ended: A wins it with 10 points and B has 0. |
| `Session.TallySubmissions` | backend/server.js:125-131 | For every word, the number of entries in the built `roundSubmissions` map is the number of times the players submitted it. |
| `Session.ScorePlayers` | backend/server.js:133-141 | The scoring loop yields exactly `Scored(players)`: each player's uniqueness round score, added to their total. |
| `Session.SettleRound` | backend/server.js:143-152 | The round result is `Settled`: a strictly higher round score gains a round won and names the round winner. Equal scores are a "Tie". |
| `Session.ResetEach` | backend/server.js:98-103 | Every player has their words, round score, ready flag and rematch flag cleared, and nothing else changes. |
| `Session.ClearScores` | backend/server.js:246-250 | Every player's total, round score and rounds won are zeroed, and nothing else changes. |
| `Session.Validate` | backend/server.js:210-217 | The checks of `submitWord` give exactly the verdict `Check` specifies. |
| `Session.Game.constructor` | backend/server.js:177-186 | The new game object is `Created(code, id, name)` and is valid. |
| `Session.Game.StartRound` | backend/server.js:87-115 | The new state is `RoundStarted` of the old state, with the pool `generateLetters` produces. |
| `Session.Game.Tick` | backend/server.js:107-114 | One firing: the new state is `Ticked` of the old state, and the invariant is kept. |
| `Session.Game.EndRound` | backend/server.js:117-160 | The new state is `RoundEnded` of the old state, and the invariant is kept. |
| `Session.Game.Join` | backend/server.js:196-199 | The new state is `Joined` of the old state, and the invariant is kept. |
| `Session.Game.SubmitWord` | backend/server.js:206-221 | The new state and the reported outcome are `Submitted` of the old state, and the invariant is kept. |
| `Session.Game.Ready` | backend/server.js:227-234 | The new state is `Readied` of the old state, and the invariant is kept. |
| `Session.Game.PlayAgain` | backend/server.js:240-253 | The new state is `Replayed` of the old state, and the invariant is kept. |
| `Session.Game.CancelTick` | backend/server.js:261 | `clearInterval` stops the tick and changes nothing else. |
| `Registry.FirstHolding` | backend/server.js:257-260 | The first code in key order whose game has a player with the connection id, or none when no game has one. |
| `Registry.DeleteKey` | backend/server.js:263 | Deleting a key leaves the other keys, still without repeats. |
| `Registry.FirstHoldingIs` | backend/server.js:257-260 | A position that holds the id, with no earlier position holding it, is the one the search finds. |
| `Registry.Registry.constructor` | backend/server.js:26 | The table starts empty. |
| `Registry.Registry.CreateGame` | backend/server.js:177-189 | The new code was not in use and is four upper-case letters. It is added last in key order, under a fresh game in the `Created` state, and no other entry changes. |
| `Registry.Registry.JoinGame` | backend/server.js:191-200 | "Game not found" exactly when the code is unknown, and "Game is full" exactly when the game already has two players; either error changes nothing. Otherwise the game becomes `Joined`. |
| `Registry.Registry.SubmitWord` | backend/server.js:202-206 | An unknown code is ignored. Otherwise the game performs `Submitted`. |
| `Registry.Registry.PlayerReady` | backend/server.js:224-227 | An unknown code is ignored. Otherwise the game performs `Readied`. |
| `Registry.Registry.PlayAgain` | backend/server.js:237-240 | An unknown code is ignored. Otherwise the game performs `Replayed`. |
| `Registry.Registry.Disconnect` | backend/server.js:256-267 | If no game holds the connection, nothing changes. Otherwise the first game in key order that holds it has its tick cancelled and is deleted from the table and from the key order. Every other game is left as it was. |
| `Registry.Registry.FindGameOf` | backend/server.js:257-260 | The for-in search stops at the first game in key order that has a player with the connection id, or after the last code when none has one. |
| `Registry.Registry.DeleteGame` | backend/server.js:261-263 | `clearInterval` and `delete`: the key leaves both the order and the table, the removed game's tick is stopped, and the remaining games are unchanged. |

## Findings

| source | as written | input that shows it | evidently intended | confidence | as-written member | corrected member |
|---|---|---|---|---|---|---|
| backend/server.js:125-129 | `roundSubmissions` is a plain object, so looking up "constructor" finds the inherited `Object` constructor. The `if` on line 128 skips creating the list, and `push` on line 129 throws a TypeError. By then lines 121-123 have cleared the interval and set the status to round end. Nothing is scored, no winner is recorded, and the exception leaves the interval callback. | A pool holding C, O, N, S, T, R, U, C, T, O, R, and a dictionary holding "constructor". One player submits "constructor" and the round runs out. | The word is tallied like any other, so an unshared "constructor" scores 20 points. | high; not executed | `GameRules.RoundEndedAsWritten`, `GameRules.ConstructorBreaksRoundEnd` | `GameRules.RoundEnded`, `GameRules.RoundEndRules` |

## Left out

- Socket.IO, Express, the HTTP server and the healthcheck route are not modelled. Neither are the room joins or the emits (`gameUpdate`, `timerTick`, `playerLeft`, `gameCreated`). Handler results (`JoinResult`, `SubmitOutcome`) stand for what the sender is told.
- `getGameStateForClient` is a projection of fields for the network, so it is not modelled.
- `Math.random` is not modelled. Its draws are parameters: indices into the alphabet, vowels and consonants. Their distribution, and the bias of sorting with a random comparator, are not modelled.
- The comparator shuffle `letters.sort(() => 0.5 - Math.random())` is modelled as an arbitrary series of transpositions. That covers every order the sort can produce, but not which orders are likely.
- The word list `an-array-of-english-words` is a `set<string>` parameter.
- Case mapping covers ASCII letters only. Unicode case mapping and the UTF-16 length JavaScript uses are not modelled; `string` is a sequence of Dafny characters.
- `setInterval` and its timing are not modelled. The interval handle is the boolean `tickActive`. `Session.Game.Tick` requires a live tick, because a cleared interval never fires.
- The game field `submittedWords = {}`, set on each round start, is never read, so it is not modelled.
- `timer`, `roundWinner` and `gameWinner` are undefined before they are first set. The model uses 0 and `None`.
- `Letters.GenerateGameCode`: the source calls itself again until it draws an unused code. V8 does not eliminate that call, so with every code in use the recursion exhausts the stack and `createGame` throws a RangeError. The model takes a finite list of attempts and requires one of them to be unused.
- `GameRules.RoundEnded`, `Session.TallySubmissions` and `Session.Game.EndRound` tally every word, "constructor" included. They model the intended round end; the throwing one is `GameRules.RoundEndedAsWritten` (see Findings). What the uncaught exception does to the Node process afterwards is not modelled.
- Game codes that collide with keys inherited from `Object.prototype` (such as `constructor`, `__proto__`, `toString`, `valueOf` and `hasOwnProperty`) are not modelled. In the source such a code makes `games[gameCode]` truthy, and the handler then throws on `game.players`. Codes are plain keys of a map.
- Payloads of the wrong type (a word that is not a string, a missing name) throw in the source. The model takes typed parameters.
- `Registry.Registry.Disconnect` deletes only the first game in key order that holds the connection, as the source does. A connection that created or joined several games leaves the others in place.
- The frontend (`frontend/src`) is not part of this model.
