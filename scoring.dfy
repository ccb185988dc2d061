/**
 * Uniqueness scoring at the end of a round: a word scores for a player only
 * when no other entry of the round's submissions holds the same word.
 */
module Scoring {
  import opened Words

  /** The player record (`createPlayer`). */
  datatype Player = Player(
    id: string,
    name: string,
    totalScore: nat,
    roundScore: nat,
    roundsWon: nat,
    submittedWords: seq<string>,
    ready: bool,
    wantsToPlayAgain: bool)

  predicate NoDuplicates(s: seq<string>) {
    forall i, j :: 0 <= i < j < |s| ==> s[i] != s[j]
  }

  /** How many times `w` occurs in `words`. */
  function CountIn(w: string, words: seq<string>): nat {
    if words == [] then 0
    else CountIn(w, words[..|words| - 1]) + (if words[|words| - 1] == w then 1 else 0)
  }

  /**
   * The length of `roundSubmissions[w]`: one entry for every time a player
   * listed `w`, players taken in order.
   */
  function Claimants(w: string, ps: seq<Player>): nat {
    if ps == [] then 0
    else Claimants(w, ps[..|ps| - 1]) + CountIn(w, ps[|ps| - 1].submittedWords)
  }

  /** The points `words` earn this round: a word with exactly one entry scores, any other nothing. */
  function RoundScore(words: seq<string>, ps: seq<Player>): nat {
    if words == [] then 0
    else
      var w := words[|words| - 1];
      RoundScore(words[..|words| - 1], ps) + (if Claimants(w, ps) == 1 then CalculateScore(w) else 0)
  }

  /** Reference definition: the points of the words the opponent did not also submit. */
  function UniqueScore(words: seq<string>, opponent: seq<string>): nat {
    if words == [] then 0
    else
      var w := words[|words| - 1];
      UniqueScore(words[..|words| - 1], opponent) + (if w in opponent then 0 else CalculateScore(w))
  }

  /** Every player's round score recomputed from zero and added to their total. */
  function Scored(ps: seq<Player>): (r: seq<Player>) {
    seq(|ps|, i requires 0 <= i < |ps| =>
      var rs := RoundScore(ps[i].submittedWords, ps);
      ps[i].(roundScore := rs, totalScore := ps[i].totalScore + rs))
  }

  lemma {:induction false} CountInZero(w: string, s: seq<string>)
    ensures CountIn(w, s) == 0 <==> w !in s
  {
    if s != [] {
      CountInZero(w, s[..|s| - 1]);
      assert s == s[..|s| - 1] + [s[|s| - 1]];
    }
  }

  lemma {:induction false} CountInOnce(w: string, s: seq<string>)
    requires NoDuplicates(s) && w in s
    ensures CountIn(w, s) == 1
  {
    var init := s[..|s| - 1];
    assert s == init + [s[|s| - 1]];
    if s[|s| - 1] == w {
      assert w !in init;
      CountInZero(w, init);
    } else {
      CountInOnce(w, init);
    }
  }

  /** A word some player listed has at least one entry. */
  lemma {:induction false} ListedWordIsClaimed(w: string, ps: seq<Player>, k: nat)
    requires k < |ps| && w in ps[k].submittedWords
    ensures Claimants(w, ps) >= 1
  {
    if k == |ps| - 1 {
      CountInZero(w, ps[k].submittedWords);
    } else {
      ListedWordIsClaimed(w, ps[..|ps| - 1], k);
    }
  }

  /**
   * With two players whose lists hold no duplicates, a player's round score
   * is the points of the words the opponent did not submit: a shared word
   * adds nothing to either.
   */
  lemma UniquenessScoring(p: Player, q: Player)
    requires NoDuplicates(p.submittedWords) && NoDuplicates(q.submittedWords)
    ensures RoundScore(p.submittedWords, [p, q]) == UniqueScore(p.submittedWords, q.submittedWords)
    ensures RoundScore(q.submittedWords, [p, q]) == UniqueScore(q.submittedWords, p.submittedWords)
  {
    var ps := [p, q];
    forall w ensures Claimants(w, ps) == CountIn(w, p.submittedWords) + CountIn(w, q.submittedWords) {
      assert ps[..1] == [p] && [p][..0] == [];
      assert Claimants(w, [p]) == CountIn(w, p.submittedWords);
    }
    UniqueOnPrefix(p.submittedWords, q.submittedWords, ps, |p.submittedWords|);
    UniqueOnPrefix(q.submittedWords, p.submittedWords, ps, |q.submittedWords|);
    assert p.submittedWords[..|p.submittedWords|] == p.submittedWords;
    assert q.submittedWords[..|q.submittedWords|] == q.submittedWords;
  }

  lemma {:induction false} UniqueOnPrefix(mine: seq<string>, theirs: seq<string>, ps: seq<Player>, j: nat)
    requires NoDuplicates(mine) && j <= |mine|
    requires forall w :: Claimants(w, ps) == CountIn(w, mine) + CountIn(w, theirs)
    ensures RoundScore(mine[..j], ps) == UniqueScore(mine[..j], theirs)
  {
    if j > 0 {
      var w := mine[j - 1];
      assert mine[..j][..j - 1] == mine[..j - 1];
      UniqueOnPrefix(mine, theirs, ps, j - 1);
      CountInOnce(w, mine);
      CountInZero(w, theirs);
    }
  }

  /**
   * A word two players both listed has at least two entries, so it earns
   * nothing for either of them.
   */
  lemma {:induction false} SharedWordScoresNothing(w: string, ps: seq<Player>, i: nat, j: nat)
    requires i < j < |ps| && w in ps[i].submittedWords && w in ps[j].submittedWords
    ensures Claimants(w, ps) >= 2
  {
    if j == |ps| - 1 {
      ListedWordIsClaimed(w, ps[..|ps| - 1], i);
      CountInZero(w, ps[j].submittedWords);
    } else {
      SharedWordScoresNothing(w, ps[..|ps| - 1], i, j);
    }
  }

  /** A listed word the opponent did not submit contributes its full points. */
  lemma {:induction false} UnsharedWordScores(w: string, words: seq<string>, opponent: seq<string>)
    requires w in words && w !in opponent
    ensures UniqueScore(words, opponent) >= CalculateScore(w)
  {
    var last := words[|words| - 1];
    if last != w {
      assert words == words[..|words| - 1] + [last];
      UnsharedWordScores(w, words[..|words| - 1], opponent);
    }
  }

  /** Scores depend on the submission lists alone, not on the other fields of the players. */
  lemma {:induction false} ClaimantsByWords(w: string, ps: seq<Player>, qs: seq<Player>)
    requires |ps| == |qs|
    requires forall i :: 0 <= i < |ps| ==> ps[i].submittedWords == qs[i].submittedWords
    ensures Claimants(w, ps) == Claimants(w, qs)
  {
    if ps != [] {
      ClaimantsByWords(w, ps[..|ps| - 1], qs[..|qs| - 1]);
    }
  }

  lemma {:induction false} RoundScoreByWords(words: seq<string>, ps: seq<Player>, qs: seq<Player>)
    requires |ps| == |qs|
    requires forall i :: 0 <= i < |ps| ==> ps[i].submittedWords == qs[i].submittedWords
    ensures RoundScore(words, ps) == RoundScore(words, qs)
  {
    if words != [] {
      RoundScoreByWords(words[..|words| - 1], ps, qs);
      ClaimantsByWords(words[|words| - 1], ps, qs);
    }
  }

  /**
   * Round-end scoring is idempotent: scoring again from the same submission
   * lists gives every player the same round score.
   */
  lemma ScoringIdempotent(ps: seq<Player>)
    ensures |Scored(Scored(ps))| == |ps|
    ensures forall i :: 0 <= i < |ps| ==> Scored(Scored(ps))[i].roundScore == Scored(ps)[i].roundScore
  {
    var once := Scored(ps);
    forall i | 0 <= i < |ps| ensures Scored(once)[i].roundScore == once[i].roundScore {
      RoundScoreByWords(ps[i].submittedWords, once, ps);
    }
  }

  /** A submits cat and dog, B submits cat: A scores 10 for dog, B scores nothing. */
  lemma UniquenessExample(a: Player, b: Player)
    requires a.submittedWords == ["cat", "dog"] && b.submittedWords == ["cat"]
    ensures RoundScore(a.submittedWords, [a, b]) == 10
    ensures RoundScore(b.submittedWords, [a, b]) == 0
  {
    UniquenessScoring(a, b);
    assert ["cat", "dog"][..1] == ["cat"];
    assert ["cat"][..0] == [];
  }
}
