/**
 * A live game object, updated in place by the round logic (`startRound`,
 * the interval tick, `endRound`) and by the socket handlers once the game
 * has been looked up. Each method is proved to turn `State()` into the
 * matching GameRules transition of `old(State())`: `StartRound` performs
 * `RoundStarted`, and `CancelTick` only stops the tick. `StartRound` is a
 * step inside `Join`, `Ready` and `PlayAgain` and does not promise the
 * invariant on its own; those three, `Tick`, `EndRound` and `SubmitWord`
 * each keep it.
 */
module Session {
  import opened Wrappers
  import opened Words
  import opened Letters
  import opened Scoring
  import opened GameRules

  /** `roundSubmissions[w].length`, or 0 where the table has no entry for `w`. */
  function Entries(submissions: map<string, seq<string>>, w: string): nat {
    if w in submissions then |submissions[w]| else 0
  }

  /**
   * The first pass of `endRound`: builds `roundSubmissions`, mapping each
   * word to the id of every player who listed it, so that a word's entry
   * count is the number of times the players listed it.
   */
  method TallySubmissions(ps: seq<Player>) returns (submissions: map<string, seq<string>>)
    ensures forall w :: Entries(submissions, w) == Claimants(w, ps)
  {
    submissions := map[];
    for i := 0 to |ps|
      invariant forall w :: Entries(submissions, w) == Claimants(w, ps[..i])
    {
      var p := ps[i];
      for j := 0 to |p.submittedWords|
        invariant forall w :: Entries(submissions, w) == Claimants(w, ps[..i]) + CountIn(w, p.submittedWords[..j])
      {
        var w := p.submittedWords[j];
        assert p.submittedWords[..j + 1][..j] == p.submittedWords[..j];
        var ids := if w in submissions then submissions[w] else [];
        submissions := submissions[w := ids + [p.id]];
      }
      assert ps[..i + 1][..i] == ps[..i];
      assert p.submittedWords[..|p.submittedWords|] == p.submittedWords;
    }
    assert ps[..|ps|] == ps;
  }

  /**
   * The second pass of `endRound`: every player's round score restarts at
   * zero and gains the points of each listed word with a single entry; the
   * total then gains the round score.
   */
  method ScorePlayers(before: seq<Player>, submissions: map<string, seq<string>>) returns (ps: seq<Player>)
    requires forall w :: Entries(submissions, w) == Claimants(w, before)
    ensures ps == Scored(before)
  {
    ps := before;
    for i := 0 to |ps|
      invariant |ps| == |before|
      invariant forall k :: 0 <= k < i ==> ps[k] == Scored(before)[k]
      invariant forall k :: i <= k < |ps| ==> ps[k] == before[k]
    {
      var p := ps[i];
      var roundScore := 0;
      for j := 0 to |p.submittedWords|
        invariant roundScore == RoundScore(p.submittedWords[..j], before)
      {
        var w := p.submittedWords[j];
        ListedWordIsClaimed(w, before, i);
        assert p.submittedWords[..j + 1][..j] == p.submittedWords[..j];
        if |submissions[w]| == 1 {
          roundScore := roundScore + CalculateScore(w);
        }
      }
      assert p.submittedWords[..|p.submittedWords|] == p.submittedWords;
      ps := ps[i := p.(roundScore := roundScore, totalScore := p.totalScore + roundScore)];
    }
  }

  /** The round result of `endRound`: credits the strictly higher scorer, or records a tie. */
  method SettleRound(a: Player, b: Player) returns (p1: Player, p2: Player, winner: string)
    ensures (p1, p2, winner) == Settled(a, b)
  {
    p1, p2 := a, b;
    if p1.roundScore > p2.roundScore {
      p1 := p1.(roundsWon := p1.roundsWon + 1);
      winner := p1.name;
    } else if p2.roundScore > p1.roundScore {
      p2 := p2.(roundsWon := p2.roundsWon + 1);
      winner := p2.name;
    } else {
      winner := TIE;
    }
  }

  /** The `forEach` of `startRound`: clears every player's words, round score and flags. */
  method ResetEach(before: seq<Player>) returns (ps: seq<Player>)
    ensures ps == seq(|before|, i requires 0 <= i < |before| => ResetForRound(before[i]))
  {
    ps := before;
    for i := 0 to |ps|
      invariant |ps| == |before|
      invariant forall k :: 0 <= k < i ==> ps[k] == ResetForRound(before[k])
      invariant forall k :: i <= k < |ps| ==> ps[k] == before[k]
    {
      ps := ps[i := ps[i].(submittedWords := [], roundScore := 0, ready := false, wantsToPlayAgain := false)];
    }
  }

  /** The `forEach` of `playAgain`: zeroes every player's total, round score and rounds won. */
  method ClearScores(before: seq<Player>) returns (ps: seq<Player>)
    ensures ps == seq(|before|, i requires 0 <= i < |before| => ResetForMatch(before[i]))
  {
    ps := before;
    for i := 0 to |ps|
      invariant |ps| == |before|
      invariant forall k :: 0 <= k < i ==> ps[k] == ResetForMatch(before[k])
      invariant forall k :: i <= k < |ps| ==> ps[k] == before[k]
    {
      ps := ps[i := ps[i].(totalScore := 0, roundScore := 0, roundsWon := 0)];
    }
  }

  /** The checks of `submitWord`, in order, on the normalised word. */
  method Validate(w: string, letters: seq<char>, submitted: seq<string>, dictionary: set<string>) returns (v: Verdict)
    ensures v == Check(w, letters, submitted, dictionary)
  {
    if |w| < 3 {
      return Reject(TooShort);
    }
    if w in COMMON_WORDS {
      return Reject(TooCommon);
    }
    var formable := CanFormWord(w, letters);
    if !formable {
      return Reject(UnavailableLetters);
    }
    if w in submitted {
      return Reject(AlreadySubmitted);
    }
    if w !in dictionary {
      return Reject(NotAWord);
    }
    return Accept;
  }

  class Game {
    const code: string
    var players: seq<Player>
    var status: Status
    var round: nat
    var letters: seq<char>
    var timer: int
    var roundWinner: Option<string>
    var gameWinner: Option<string>
    /** Whether the round's interval is scheduled (`intervalId` set and not cleared). */
    var tickActive: bool

    ghost function State(): GameState
      reads this
    {
      GameState(code, players, status, round, letters, timer, roundWinner, gameWinner, tickActive)
    }

    ghost predicate Valid()
      reads this
    {
      Inv(State())
    }

    /** The game `createGame` stores under a fresh code. */
    constructor (code: string, id: string, name: string)
      ensures State() == Created(code, id, name)
      ensures Valid()
    {
      this.code := code;
      players := [NewPlayer(id, name)];
      status := Waiting;
      round := 0;
      letters := [];
      timer := 0;
      roundWinner := None;
      gameWinner := None;
      tickActive := false;
      new;
      CreatedInv(code, id, name);
    }

    /** `startRound`: cancels any running tick, resets the round, and schedules a new tick. */
    method StartRound(d: LetterDraws)
      requires WellFormed(d)
      modifies this
      ensures State() == RoundStarted(old(State()), Pool(d))
    {
      var pool := GenerateLetters(d);
      var ps := ResetEach(players);
      tickActive := false;
      status := Playing;
      letters := pool;
      round := round + 1;
      timer := ROUND_DURATION;
      players := ps;
      tickActive := true;
    }

    /** One firing of the interval: count down, or end the round once the timer is at zero. */
    method Tick()
      requires Valid() && tickActive
      modifies this
      ensures Valid()
      ensures State() == Ticked(old(State()))
    {
      TickedInv(State());
      if timer > 0 {
        timer := timer - 1;
      } else {
        EndRound();
      }
    }

    /**
     * `endRound`: while playing, clears the tick, tallies every word's
     * submitters, scores each player's words that only they submitted,
     * adds the round score to the total, and settles the round and match.
     */
    method EndRound()
      requires Valid()
      modifies this
      ensures Valid()
      ensures State() == RoundEnded(old(State()))
    {
      if status != Playing {
        return;
      }
      RoundEndedInv(State());
      tickActive := false;
      status := RoundEnd;

      var submissions := TallySubmissions(players);
      var ps := ScorePlayers(players, submissions);
      var p1, p2, winner := SettleRound(ps[0], ps[1]);
      roundWinner := Some(winner);
      players := [p1, p2];
      if p1.roundsWon >= 2 || p2.roundsWon >= 2 {
        status := GameOver;
        gameWinner := Some(if p1.roundsWon > p2.roundsWon then p1.name else p2.name);
      }
    }

    /** `joinGame` after its checks: appends the second player and starts the first round. */
    method Join(id: string, name: string, d: LetterDraws)
      requires Valid() && |players| < 2 && WellFormed(d)
      modifies this
      ensures Valid()
      ensures State() == Joined(old(State()), id, name, Pool(d))
    {
      JoinedInv(State(), id, name, Pool(d)) by { PoolShape(d); }
      players := players + [NewPlayer(id, name)];
      StartRound(d);
    }

    /** `submitWord` after the lookup: the checks in order, then the append on acceptance. */
    method SubmitWord(id: string, word: string, dictionary: set<string>) returns (out: SubmitOutcome)
      requires Valid()
      modifies this
      ensures Valid()
      ensures (State(), out) == Submitted(old(State()), id, word, dictionary)
    {
      SubmittedRules(State(), id, word, dictionary);
      var k := PlayerIndex(players, id);
      if k.None? || status != Playing {
        return Ignored;
      }
      var w := Normalize(word);
      var p := players[k.value];
      var v := Validate(w, letters, p.submittedWords, dictionary);
      if v.Reject? {
        return Rejected(v.reason);
      }
      players := players[k.value := p.(submittedWords := p.submittedWords + [w])];
      out := Accepted(w);
    }

    /** `playerReady` after the lookup. */
    method Ready(id: string, d: LetterDraws)
      requires Valid() && WellFormed(d)
      modifies this
      ensures Valid()
      ensures State() == Readied(old(State()), id, Pool(d))
    {
      ReadiedRules(State(), id, Pool(d)) by { PoolShape(d); }
      var k := PlayerIndex(players, id);
      if k.None? || status != RoundEnd {
        return;
      }
      players := players[k.value := players[k.value].(ready := true)];
      if |players| == 2 && AllReady(players) {
        StartRound(d);
      }
    }

    /** `playAgain` after the lookup: on a double opt-in, zero the match and start round 1. */
    method PlayAgain(id: string, d: LetterDraws)
      requires Valid() && WellFormed(d)
      modifies this
      ensures Valid()
      ensures State() == Replayed(old(State()), id, Pool(d))
    {
      ReplayedInv(State(), id, Pool(d)) by { PoolShape(d); }
      var k := PlayerIndex(players, id);
      if k.None? || status != GameOver {
        return;
      }
      players := players[k.value := players[k.value].(wantsToPlayAgain := true)];
      if |players| == 2 && AllWantRematch(players) {
        players := ClearScores(players);
        round := 0;
        StartRound(d);
      }
    }

    /** `clearInterval` on a game that is being discarded. */
    method CancelTick()
      modifies this
      ensures State() == old(State()).(tickActive := false)
    {
      tickActive := false;
    }
  }
}
