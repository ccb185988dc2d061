/**
 * The session state machine as values: a game's state and one pure function
 * per transition (create, join, round start, tick, round end, submit, ready,
 * rematch). The class in module Session is proved to perform exactly these
 * transitions; the lemmas here state what the transitions promise.
 */
module GameRules {
  import opened Wrappers
  import opened Words
  import opened Letters
  import opened Scoring

  const ROUND_DURATION: nat := 120
  /** The round winner recorded for equal round scores. */
  const TIE: string := "Tie"

  datatype Status = Waiting | Playing | RoundEnd | GameOver

  /** Everything a game object holds; `tickActive` stands for a live `intervalId`. */
  datatype GameState = GameState(
    code: string,
    players: seq<Player>,
    status: Status,
    round: nat,
    letters: seq<char>,
    timer: int,
    roundWinner: Option<string>,
    gameWinner: Option<string>,
    tickActive: bool)

  /** `createPlayer`: a player who has scored nothing, won nothing, listed nothing and asked for nothing. */
  function NewPlayer(id: string, name: string): (p: Player)
    ensures p.id == id && p.name == name
    ensures p.totalScore == 0 && p.roundScore == 0 && p.roundsWon == 0
    ensures p.submittedWords == [] && NoDuplicates(p.submittedWords)
    ensures !p.ready && !p.wantsToPlayAgain
  {
    Player(id, name, 0, 0, 0, [], false, false)
  }

  /** The game `createGame` stores: its creator alone, waiting, round 0, no letters, no tick. */
  function Created(code: string, id: string, name: string): GameState {
    GameState(code, [NewPlayer(id, name)], Waiting, 0, [], 0, None, None, false)
  }

  /** `players.find(p => p.id === id)`: the first player with the connection id, if any. */
  function PlayerIndex(ps: seq<Player>, id: string): (r: Option<nat>)
    ensures r.Some? ==> r.value < |ps| && ps[r.value].id == id
                        && forall k :: 0 <= k < r.value ==> ps[k].id != id
    ensures r.None? ==> forall k :: 0 <= k < |ps| ==> ps[k].id != id
  {
    if ps == [] then None
    else if ps[0].id == id then Some(0)
    else match PlayerIndex(ps[1..], id)
      case None => None
      case Some(k) => Some(k + 1)
  }

  // ---------------------------------------------------------------------
  // Rounds
  // ---------------------------------------------------------------------

  function ResetForRound(p: Player): Player {
    p.(submittedWords := [], roundScore := 0, ready := false, wantsToPlayAgain := false)
  }

  /** `startRound`: new letters, next round, full timer, per-round fields cleared, tick running. */
  function RoundStarted(s: GameState, letters: seq<char>): GameState {
    s.(status := Playing,
       letters := letters,
       round := s.round + 1,
       timer := ROUND_DURATION,
       players := seq(|s.players|, i requires 0 <= i < |s.players| => ResetForRound(s.players[i])),
       tickActive := true)
  }

  /** `endRound` reads two players whenever it acts. */
  predicate CanEndRound(s: GameState) {
    s.status == Playing ==> |s.players| == 2
  }

  /** The round result: the strictly higher round score gains a round won and names the winner. */
  function Settled(a: Player, b: Player): (Player, Player, string) {
    if a.roundScore > b.roundScore then (a.(roundsWon := a.roundsWon + 1), b, a.name)
    else if b.roundScore > a.roundScore then (a, b.(roundsWon := b.roundsWon + 1), b.name)
    else (a, b, TIE)
  }

  /**
   * `endRound`: nothing unless playing; otherwise stops the tick, scores the
   * round, credits the round to the strictly higher scorer (or records a
   * tie), and ends the match once someone has won two rounds.
   */
  function RoundEnded(s: GameState): GameState
    requires CanEndRound(s)
  {
    if s.status != Playing then s
    else
      var sc := Scored(s.players);
      var (a', b', winner) := Settled(sc[0], sc[1]);
      var over := a'.roundsWon >= 2 || b'.roundsWon >= 2;
      s.(tickActive := false,
         players := [a', b'],
         roundWinner := Some(winner),
         status := if over then GameOver else RoundEnd,
         gameWinner := if over then Some(if a'.roundsWon > b'.roundsWon then a'.name else b'.name)
                       else s.gameWinner)
  }

  /** One firing of the round's interval: count down, or end the round at zero. */
  function Ticked(s: GameState): (r: GameState)
    requires CanEndRound(s)
    ensures CanEndRound(r)
  {
    if s.timer > 0 then s.(timer := s.timer - 1) else RoundEnded(s)
  }

  /** The state after the interval has fired up to `n` times (it stops once cancelled). */
  function Ticks(s: GameState, n: nat): (r: GameState)
    requires CanEndRound(s)
    ensures CanEndRound(r)
    decreases n
  {
    if n == 0 || !s.tickActive then s else Ticks(Ticked(s), n - 1)
  }

  // ---------------------------------------------------------------------
  // Handlers
  // ---------------------------------------------------------------------

  /** `joinGame` once the game is found and not full: the joiner is appended and a round starts. */
  function Joined(s: GameState, id: string, name: string, letters: seq<char>): GameState {
    RoundStarted(s.(players := s.players + [NewPlayer(id, name)]), letters)
  }

  /** What `submitWord` reports to the submitter. */
  datatype SubmitOutcome = Ignored | Rejected(reason: Rejection) | Accepted(word: string)

  /**
   * `submitWord` once the game is found: ignored unless the sender plays in
   * it and it is playing; otherwise the normalised word is checked and, if
   * accepted, appended to the sender's list.
   */
  function Submitted(s: GameState, id: string, word: string, dictionary: set<string>): (GameState, SubmitOutcome) {
    match PlayerIndex(s.players, id)
    case None => (s, Ignored)
    case Some(k) =>
      if s.status != Playing then (s, Ignored)
      else
        var w := Normalize(word);
        var p := s.players[k];
        match Check(w, s.letters, p.submittedWords, dictionary)
        case Reject(why) => (s, Rejected(why))
        case Accept =>
          (s.(players := s.players[k := p.(submittedWords := p.submittedWords + [w])]), Accepted(w))
  }

  predicate AllReady(ps: seq<Player>) {
    forall i :: 0 <= i < |ps| ==> ps[i].ready
  }

  predicate AllWantRematch(ps: seq<Player>) {
    forall i :: 0 <= i < |ps| ==> ps[i].wantsToPlayAgain
  }

  /** `playerReady`: only at round end; the next round starts once both players are ready. */
  function Readied(s: GameState, id: string, letters: seq<char>): GameState {
    match PlayerIndex(s.players, id)
    case None => s
    case Some(k) =>
      if s.status != RoundEnd then s
      else
        var t := s.(players := s.players[k := s.players[k].(ready := true)]);
        if |t.players| == 2 && AllReady(t.players) then RoundStarted(t, letters) else t
  }

  function ResetForMatch(p: Player): Player {
    p.(totalScore := 0, roundScore := 0, roundsWon := 0)
  }

  /**
   * `playAgain`: only after game over; once both players want a rematch,
   * scores, rounds won and the round counter go back to zero and a round starts.
   */
  function Replayed(s: GameState, id: string, letters: seq<char>): GameState {
    match PlayerIndex(s.players, id)
    case None => s
    case Some(k) =>
      if s.status != GameOver then s
      else
        var t := s.(players := s.players[k := s.players[k].(wantsToPlayAgain := true)]);
        if |t.players| == 2 && AllWantRematch(t.players) then
          RoundStarted(t.(players := seq(2, i requires 0 <= i < 2 => ResetForMatch(t.players[i])), round := 0), letters)
        else t
  }

  // ---------------------------------------------------------------------
  // The invariant of a live game
  // ---------------------------------------------------------------------

  /** At game over one player has exactly two rounds won, the other at most one, and is named winner. */
  predicate MatchDecided(s: GameState) {
    && |s.players| == 2
    && ((s.players[0].roundsWon == 2 && s.players[1].roundsWon <= 1 && s.gameWinner == Some(s.players[0].name))
     || (s.players[1].roundsWon == 2 && s.players[0].roundsWon <= 1 && s.gameWinner == Some(s.players[1].name)))
  }

  predicate Inv(s: GameState) {
    && 1 <= |s.players| <= 2
    && (s.status == Waiting <==> |s.players| == 1)
    && (s.tickActive <==> s.status == Playing)
    && (s.status == Playing ==> 0 <= s.timer <= ROUND_DURATION)
    && (s.status != Waiting ==> |s.letters| == POOL_SIZE && s.round >= 1)
    && (forall i :: 0 <= i < |s.players| ==> NoDuplicates(s.players[i].submittedWords))
    && (s.status != GameOver ==> forall i :: 0 <= i < |s.players| ==> s.players[i].roundsWon <= 1)
    && (s.status == GameOver ==> MatchDecided(s))
  }

  // ---------------------------------------------------------------------
  // What the transitions promise
  // ---------------------------------------------------------------------

  lemma CreatedInv(code: string, id: string, name: string)
    ensures Inv(Created(code, id, name))
    ensures Created(code, id, name).status == Waiting && !Created(code, id, name).tickActive
  {
  }

  /**
   * A round start sets playing, counts the round, resets the timer, clears
   * every player's words, round score and flags, and keeps totals and
   * rounds won.
   */
  lemma RoundStartResets(s: GameState, letters: seq<char>)
    ensures var t := RoundStarted(s, letters);
      && t.status == Playing && t.tickActive && t.round == s.round + 1
      && t.timer == ROUND_DURATION && t.letters == letters
      && |t.players| == |s.players|
      && forall i :: 0 <= i < |s.players| ==>
           && t.players[i].submittedWords == [] && t.players[i].roundScore == 0
           && !t.players[i].ready && !t.players[i].wantsToPlayAgain
           && t.players[i].totalScore == s.players[i].totalScore
           && t.players[i].roundsWon == s.players[i].roundsWon
           && t.players[i].id == s.players[i].id && t.players[i].name == s.players[i].name
  {
  }

  lemma RoundStartedInv(s: GameState, letters: seq<char>)
    requires |s.players| == 2 && |letters| == POOL_SIZE
    requires forall i :: 0 <= i < 2 ==> s.players[i].roundsWon <= 1
    ensures Inv(RoundStarted(s, letters))
  {
  }

  /**
   * The round result: the strictly higher round score wins the round and
   * gains exactly one round won; equal scores are a tie and nobody gains.
   * The match ends exactly when someone reaches two rounds won, and then
   * that player is the game winner. Scores are the round's uniqueness scores.
   */
  lemma {:induction false} RoundEndRules(s: GameState)
    requires Inv(s) && s.status == Playing
    ensures var t := RoundEnded(s);
      var sc := Scored(s.players);
      && !t.tickActive && |t.players| == 2
      && (forall i :: 0 <= i < 2 ==>
            && t.players[i].roundScore == RoundScore(s.players[i].submittedWords, s.players)
            && t.players[i].totalScore == s.players[i].totalScore + t.players[i].roundScore
            && t.players[i].submittedWords == s.players[i].submittedWords)
      && (sc[0].roundScore > sc[1].roundScore ==>
            t.players[0].roundsWon == s.players[0].roundsWon + 1
            && t.players[1].roundsWon == s.players[1].roundsWon
            && t.roundWinner == Some(s.players[0].name))
      && (sc[1].roundScore > sc[0].roundScore ==>
            t.players[1].roundsWon == s.players[1].roundsWon + 1
            && t.players[0].roundsWon == s.players[0].roundsWon
            && t.roundWinner == Some(s.players[1].name))
      && (sc[0].roundScore == sc[1].roundScore ==>
            t.players[0].roundsWon == s.players[0].roundsWon
            && t.players[1].roundsWon == s.players[1].roundsWon
            && t.roundWinner == Some(TIE))
      && (t.status == GameOver <==> (t.players[0].roundsWon == 2 || t.players[1].roundsWon == 2))
      && (t.status != GameOver ==> t.status == RoundEnd && t.gameWinner == s.gameWinner)
      && (t.status == GameOver ==> MatchDecided(t))
  {
  }

  /** With the invariant, the round's scores are the points of each player's unshared words. */
  lemma RoundEndScoresUniqueWords(s: GameState)
    requires Inv(s) && s.status == Playing
    ensures var t := RoundEnded(s);
      && t.players[0].roundScore == UniqueScore(s.players[0].submittedWords, s.players[1].submittedWords)
      && t.players[1].roundScore == UniqueScore(s.players[1].submittedWords, s.players[0].submittedWords)
  {
    assert s.players == [s.players[0], s.players[1]];
    UniquenessScoring(s.players[0], s.players[1]);
    RoundEndRules(s);
  }

  /** endRound does nothing unless the game is playing. */
  lemma RoundEndOnlyWhilePlaying(s: GameState)
    requires CanEndRound(s) && s.status != Playing
    ensures RoundEnded(s) == s
  {
  }

  lemma RoundEndedInv(s: GameState)
    requires Inv(s)
    ensures Inv(RoundEnded(s))
  {
    if s.status == Playing {
      RoundEndRules(s);
    }
  }

  lemma TickedInv(s: GameState)
    requires Inv(s) && s.tickActive
    ensures Inv(Ticked(s))
  {
    RoundEndedInv(s);
  }

  /** Each firing before the timer runs out only takes one second off the timer. */
  lemma {:induction false} TickCountdown(s: GameState, n: nat)
    requires Inv(s) && s.status == Playing && n <= s.timer
    ensures Ticks(s, n) == s.(timer := s.timer - n)
    decreases n
  {
    if n > 0 {
      var t := Ticked(s);
      assert t == s.(timer := s.timer - 1);
      TickCountdown(t, n - 1);
    }
  }

  /**
   * A round that starts with `timer` seconds is still playing after that
   * many firings and is ended by the next one; later firings change nothing.
   */
  lemma RoundLastsTimerPlusOneTicks(s: GameState, extra: nat)
    requires Inv(s) && s.status == Playing
    ensures Ticks(s, s.timer).status == Playing
    ensures Ticks(s, s.timer + 1 + extra) == RoundEnded(s.(timer := 0))
  {
    TickCountdown(s, s.timer);
    var z := s.(timer := 0);
    RoundEndedInv(z);
    assert Ticks(s, s.timer + 1 + extra) == Ticks(z, 1 + extra) by {
      TicksSplit(s, s.timer, 1 + extra);
    }
    var e := RoundEnded(z);
    assert Ticked(z) == e && !e.tickActive;
    assert Ticks(z, 1 + extra) == Ticks(e, extra);
    assert Ticks(e, extra) == e;
  }

  lemma {:induction false} TicksSplit(s: GameState, m: nat, n: nat)
    requires Inv(s) && s.status == Playing && m <= s.timer
    ensures Ticks(s, m + n) == Ticks(Ticks(s, m), n)
    decreases m
  {
    if m > 0 {
      var t := Ticked(s);
      assert t == s.(timer := s.timer - 1);
      TicksSplit(t, m - 1, n);
    }
  }

  lemma JoinedInv(s: GameState, id: string, name: string, letters: seq<char>)
    requires Inv(s) && |s.players| < 2 && |letters| == POOL_SIZE
    ensures Inv(Joined(s, id, name, letters))
    ensures Joined(s, id, name, letters).players[0].id == s.players[0].id
    ensures Joined(s, id, name, letters).players[1].id == id
  {
    RoundStartedInv(s.(players := s.players + [NewPlayer(id, name)]), letters);
  }

  /**
   * A rejected or ignored submission changes nothing; an accepted one adds
   * the normalised word exactly once to the sender's list and to nobody
   * else's, so every list stays free of duplicates.
   */
  lemma SubmittedRules(s: GameState, id: string, word: string, dictionary: set<string>)
    requires Inv(s)
    ensures var (t, out) := Submitted(s, id, word, dictionary);
      && Inv(t)
      && (!out.Accepted? ==> t == s)
      && (out.Accepted? ==>
            && s.status == Playing && PlayerIndex(s.players, id).Some?
            && out.word == Normalize(word)
            && var k := PlayerIndex(s.players, id).value;
            && out.word !in s.players[k].submittedWords
            && t == s.(players := s.players[k := s.players[k].(submittedWords := s.players[k].submittedWords + [out.word])]))
  {
    var (t, out) := Submitted(s, id, word, dictionary);
    if out.Accepted? {
      var k := PlayerIndex(s.players, id).value;
      var l := s.players[k].submittedWords;
      assert out.word !in l;
      assert NoDuplicates(l + [out.word]);
    }
  }

  /**
   * Ready flags only count at round end: the sender becomes ready, and the
   * next round starts exactly when every other player was ready already.
   */
  lemma ReadiedRules(s: GameState, id: string, letters: seq<char>)
    requires Inv(s) && |letters| == POOL_SIZE
    ensures var t := Readied(s, id, letters);
      && Inv(t)
      && (s.status != RoundEnd || PlayerIndex(s.players, id).None? ==> t == s)
      && (s.status == RoundEnd && PlayerIndex(s.players, id).Some? ==>
            var k := PlayerIndex(s.players, id).value;
            && (t.status == Playing <==> forall i :: 0 <= i < 2 && i != k ==> s.players[i].ready)
            && (t.status == Playing ==> t.round == s.round + 1 && t.letters == letters)
            && (t.status != Playing ==> t == s.(players := s.players[k := s.players[k].(ready := true)])))
  {
    if s.status == RoundEnd && PlayerIndex(s.players, id).Some? {
      var k := PlayerIndex(s.players, id).value;
      var u := s.(players := s.players[k := s.players[k].(ready := true)]);
      if AllReady(u.players) {
        RoundStartedInv(u, letters);
        assert forall i :: 0 <= i < 2 && i != k ==> s.players[i] == u.players[i];
      } else {
        var i :| 0 <= i < 2 && !u.players[i].ready;
        assert i != k;
      }
    }
  }

  /** `playAgain` keeps the game invariant. */
  lemma ReplayedInv(s: GameState, id: string, letters: seq<char>)
    requires Inv(s) && |letters| == POOL_SIZE
    ensures Inv(Replayed(s, id, letters))
  {
    if s.status == GameOver && PlayerIndex(s.players, id).Some? {
      var k := PlayerIndex(s.players, id).value;
      var u := s.(players := s.players[k := s.players[k].(wantsToPlayAgain := true)]);
      if AllWantRematch(u.players) {
        RoundStartedInv(u.(players := seq(2, i requires 0 <= i < 2 => ResetForMatch(u.players[i])), round := 0), letters);
      }
    }
  }

  /**
   * Rematch requests only count after game over: the sender's flag is set,
   * and the rematch starts exactly when the other player had already asked.
   * It then starts at round 1 with every total, round score and rounds-won
   * count at zero.
   */
  lemma ReplayedRules(s: GameState, id: string, letters: seq<char>)
    requires Inv(s) && |letters| == POOL_SIZE
    ensures var t := Replayed(s, id, letters);
      && Inv(t)
      && (s.status != GameOver || PlayerIndex(s.players, id).None? ==> t == s)
      && (s.status == GameOver && PlayerIndex(s.players, id).Some? ==>
            var k := PlayerIndex(s.players, id).value;
            && (t.status == Playing <==> forall i :: 0 <= i < 2 && i != k ==> s.players[i].wantsToPlayAgain)
            && (t.status == Playing ==>
                  && t.round == 1 && t.letters == letters && |t.players| == 2
                  && forall i :: 0 <= i < 2 ==>
                       && t.players[i].totalScore == 0 && t.players[i].roundScore == 0 && t.players[i].roundsWon == 0
                       && t.players[i].id == s.players[i].id && t.players[i].name == s.players[i].name)
            && (t.status != Playing ==> t == s.(players := s.players[k := s.players[k].(wantsToPlayAgain := true)])))
  {
    ReplayedInv(s, id, letters);
    if s.status == GameOver && PlayerIndex(s.players, id).Some? {
      var k := PlayerIndex(s.players, id).value;
      var u := s.(players := s.players[k := s.players[k].(wantsToPlayAgain := true)]);
      if AllWantRematch(u.players) {
        assert forall i :: 0 <= i < 2 && i != k ==> s.players[i] == u.players[i];
      } else {
        var i :| 0 <= i < 2 && !u.players[i].wantsToPlayAgain;
        assert i != k;
      }
    }
  }

  // ---------------------------------------------------------------------
  // endRound as written: inherited keys of `roundSubmissions`
  // ---------------------------------------------------------------------

  /**
   * Some player listed a word whose lookup in the plain object
   * `roundSubmissions` finds a value inherited from `Object.prototype`:
   * the lower-case keys "constructor" and "__proto__".
   */
  predicate ListsInheritedKey(ps: seq<Player>) {
    exists i :: 0 <= i < |ps| && ("constructor" in ps[i].submittedWords || "__proto__" in ps[i].submittedWords)
  }

  /** How `endRound` as written finishes: it settles the round, or it throws in the middle of the tally. */
  datatype EndOutcome = Finished(state: GameState) | Threw(state: GameState)

  /**
   * `endRound` as written. An inherited key makes the `if` skip the empty
   * list, and `push` is then called on the inherited value, which throws
   * after the tick was cleared and the status set to round end: nothing
   * is scored and no winner is recorded. Otherwise it is `RoundEnded`.
   */
  function RoundEndedAsWritten(s: GameState): (r: EndOutcome)
    requires CanEndRound(s)
    ensures r.Threw? <==> s.status == Playing && ListsInheritedKey(s.players)
    ensures r.Finished? ==> r.state == RoundEnded(s)
    ensures r.Threw? ==>
      && r.state.status == RoundEnd && !r.state.tickActive && r.state.players == s.players
      && r.state.roundWinner == s.roundWinner && r.state.gameWinner == s.gameWinner
  {
    if s.status == Playing && ListsInheritedKey(s.players) then
      Threw(s.(tickActive := false, status := RoundEnd))
    else Finished(RoundEnded(s))
  }

  /** "constructor" is its own normal form, spells CONSTRUCTOR, and is not a common word. */
  lemma ConstructorIsNormal()
    ensures Normalize("constructor") == "constructor"
    ensures ToUpper("constructor") == "CONSTRUCTOR"
    ensures "constructor" !in COMMON_WORDS
  {
    ConstructorLowered();
    Untrimmed("constructor");
    ConstructorUppered();
    ConstructorUncommon();
  }

  lemma ConstructorUncommon()
    ensures "constructor" !in COMMON_WORDS
  {
  }

  lemma ConstructorLowered()
    ensures ToLower("constructor") == "constructor"
  {
  }

  lemma ConstructorUppered()
    ensures ToUpper("constructor") == "CONSTRUCTOR"
  {
  }

  /**
   * `submitWord` accepts "constructor" from a player who has not listed it
   * yet, whenever the pool spells it and the dictionary holds it.
   */
  lemma ConstructorIsAccepted(s: GameState, id: string, dictionary: set<string>)
    requires Inv(s) && s.status == Playing && PlayerIndex(s.players, id).Some?
    requires "constructor" !in s.players[PlayerIndex(s.players, id).value].submittedWords
    requires multiset("CONSTRUCTOR") <= multiset(s.letters) && "constructor" in dictionary
    ensures var (t, out) := Submitted(s, id, "constructor", dictionary);
      out == Accepted("constructor") && ListsInheritedKey(t.players)
  {
    ConstructorIsNormal();
    var k := PlayerIndex(s.players, id).value;
    var p := s.players[k];
    assert CanForm("constructor", s.letters);
    assert Check("constructor", s.letters, p.submittedWords, dictionary) == Accept;
    var t := s.(players := s.players[k := p.(submittedWords := p.submittedWords + ["constructor"])]);
    assert Submitted(s, id, "constructor", dictionary) == (t, Accepted("constructor"));
    assert t.players[k].submittedWords[|p.submittedWords|] == "constructor";
  }

  /**
   * The discrepancy: when only the first player listed "constructor", the
   * round as written throws with every total unchanged, while the intended
   * round end credits that player at least the word's 20 points.
   */
  lemma ConstructorBreaksRoundEnd(s: GameState)
    requires Inv(s) && s.status == Playing
    requires "constructor" in s.players[0].submittedWords && "constructor" !in s.players[1].submittedWords
    ensures RoundEndedAsWritten(s).Threw?
    ensures RoundEndedAsWritten(s).state.players[0].totalScore == s.players[0].totalScore
    ensures RoundEnded(s).players[0].totalScore >= s.players[0].totalScore + 20
  {
    assert ListsInheritedKey(s.players);
    RoundEndRules(s);
    RoundEndScoresUniqueWords(s);
    UnsharedWordScores("constructor", s.players[0].submittedWords, s.players[1].submittedWords);
  }

  /** A freshly joined two-player game, before anything is submitted. */
  predicate FreshRound(s: GameState, letters: seq<char>) {
    && Inv(s) && s.status == Playing && s.round == 1 && s.timer == ROUND_DURATION
    && s.letters == letters && |s.players| == 2
    && s.players[0].id == "a" && s.players[0].name == "A" && s.players[1].name == "B"
    && (forall i :: 0 <= i < 2 ==>
          s.players[i].submittedWords == [] && s.players[i].roundsWon == 0 && s.players[i].totalScore == 0)
  }

  lemma ScenarioJoin(letters: seq<char>)
    requires |letters| == POOL_SIZE
    ensures FreshRound(Joined(Created("WXYZ", "a", "A"), "b", "B", letters), letters)
  {
    JoinedInv(Created("WXYZ", "a", "A"), "b", "B", letters);
  }

  /** "cat" is its own normal form, spells CAT, and is not a common word. */
  lemma CatIsNormal()
    ensures Normalize("cat") == "cat"
    ensures ToUpper("cat") == "CAT"
    ensures "cat" !in COMMON_WORDS
  {
    CatLowered();
    Untrimmed("cat");
    CatUppered();
    CatUncommon();
  }

  lemma CatLowered()
    ensures ToLower("cat") == "cat"
  {
  }

  lemma CatUppered()
    ensures ToUpper("cat") == "CAT"
  {
  }

  lemma CatUncommon()
    ensures "cat" !in COMMON_WORDS
  {
  }

  lemma ScenarioSubmit(s: GameState, letters: seq<char>, dictionary: set<string>)
    requires FreshRound(s, letters) && multiset("CAT") <= multiset(letters) && "cat" in dictionary
    ensures Submitted(s, "a", "cat", dictionary)
         == (s.(players := s.players[0 := s.players[0].(submittedWords := ["cat"])]), Accepted("cat"))
  {
    CatIsNormal();
    assert CanForm("cat", letters);
    assert s.players[0].submittedWords == [];
    assert Check("cat", s.letters, s.players[0].submittedWords, dictionary) == Accept;
    assert s.players[0].submittedWords + ["cat"] == ["cat"];
    assert PlayerIndex(s.players, "a") == Some(0);
  }

  lemma ScenarioRoundEnd(s: GameState, letters: seq<char>)
    requires FreshRound(s, letters)
    ensures var t := Ticks(s.(players := s.players[0 := s.players[0].(submittedWords := ["cat"])]), ROUND_DURATION + 1);
      && |t.players| == 2 && t.status == RoundEnd && t.roundWinner == Some("A")
      && t.players[0].roundsWon == 1 && t.players[1].roundsWon == 0
      && t.players[0].totalScore == 10 && t.players[1].totalScore == 0
  {
    var s2 := s.(players := s.players[0 := s.players[0].(submittedWords := ["cat"])]);
    assert Inv(s2);
    RoundLastsTimerPlusOneTicks(s2, 0);
    var z := s2.(timer := 0);
    RoundEndScoresUniqueWords(z);
    RoundEndRules(z);
    assert ["cat"][..0] == [];
    assert UniqueScore(["cat"], []) == 10;
  }

  /**
   * A whole round: A creates WXYZ, B joins, A submits "cat" (its letters are
   * in the pool, the word is in the dictionary), B submits nothing, and the
   * interval fires until the round ends: A wins the round with 10 points.
   */
  lemma CatRoundScenario(letters: seq<char>, dictionary: set<string>)
    requires |letters| == POOL_SIZE && multiset("CAT") <= multiset(letters)
    requires "cat" in dictionary
    ensures CanEndRound(Submitted(Joined(Created("WXYZ", "a", "A"), "b", "B", letters), "a", "cat", dictionary).0)
    ensures var s1 := Joined(Created("WXYZ", "a", "A"), "b", "B", letters);
      var (s2, out) := Submitted(s1, "a", "cat", dictionary);
      var s3 := Ticks(s2, ROUND_DURATION + 1);
      && s1.status == Playing && s1.round == 1 && s1.timer == ROUND_DURATION
      && out == Accepted("cat") && |s2.players| == 2 && s2.players[0].submittedWords == ["cat"]
      && |s3.players| == 2 && s3.status == RoundEnd && s3.roundWinner == Some("A")
      && s3.players[0].roundsWon == 1 && s3.players[1].roundsWon == 0
      && s3.players[0].totalScore == 10 && s3.players[1].totalScore == 0
  {
    var s1 := Joined(Created("WXYZ", "a", "A"), "b", "B", letters);
    ScenarioJoin(letters);
    ScenarioSubmit(s1, letters, dictionary);
    ScenarioRoundEnd(s1, letters);
  }
}
