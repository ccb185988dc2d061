/**
 * The two random generators of the game engine: the 20-letter pool of a
 * round and the 4-letter code of a new game. Randomness is an input: each
 * `Math.floor(Math.random() * n)` becomes an index below n supplied by the
 * caller, and the comparator-based shuffle becomes a sequence of swaps.
 */
module Letters {

  const VOWELS: string := "AEIOU"
  const CONSONANTS: string := "BCDFGHJKLMNPQRSTVWXYZ"
  const ALPHABET: string := "ABCDEFGHIJKLMNOPQRSTUVWXYZ"
  const POOL_SIZE: nat := 20

  predicate IsUpperLetter(c: char) {
    'A' <= c <= 'Z'
  }

  // ---------------------------------------------------------------------
  // Game codes
  // ---------------------------------------------------------------------

  /** One attempt at a code: four draws, each an index into the alphabet. */
  predicate IsCodeDraw(draw: seq<nat>) {
    |draw| == 4 && forall i :: 0 <= i < 4 ==> draw[i] < |ALPHABET|
  }

  /** The code an attempt spells. */
  function CodeOf(draw: seq<nat>): (code: string)
    requires IsCodeDraw(draw)
    ensures |code| == 4 && forall i :: 0 <= i < 4 ==> IsUpperLetter(code[i])
  {
    seq(4, i requires 0 <= i < 4 => ALPHABET[draw[i]])
  }

  /**
   * `generateGameCode`: spells a code from the next attempt and draws again
   * while the code is already in use. The result is the code of the first
   * attempt that is not in use: four upper-case letters naming no live game.
   */
  method GenerateGameCode(attempts: seq<seq<nat>>, inUse: set<string>) returns (code: string)
    requires forall k :: 0 <= k < |attempts| ==> IsCodeDraw(attempts[k])
    requires exists k :: 0 <= k < |attempts| && CodeOf(attempts[k]) !in inUse
    ensures code !in inUse
    ensures |code| == 4 && forall i :: 0 <= i < 4 ==> IsUpperLetter(code[i])
    ensures exists k :: 0 <= k < |attempts| && code == CodeOf(attempts[k])
                        && forall k' :: 0 <= k' < k ==> CodeOf(attempts[k']) in inUse
  {
    var n := 0;
    while true
      invariant n < |attempts|
      invariant forall k' :: 0 <= k' < n ==> CodeOf(attempts[k']) in inUse
      invariant exists k :: n <= k < |attempts| && CodeOf(attempts[k]) !in inUse
      decreases |attempts| - n
    {
      var draw := attempts[n];
      code := "";
      for i := 0 to 4
        invariant code == CodeOf(draw)[..i]
      {
        code := code + [ALPHABET[draw[i]]];
      }
      assert code == CodeOf(draw);
      if code !in inUse {
        return;
      }
      n := n + 1;
    }
  }

  // ---------------------------------------------------------------------
  // Letter pools
  // ---------------------------------------------------------------------

  /**
   * The random input of one pool: eight vowel indices, twelve consonant
   * indices, and the swaps the shuffle performs.
   */
  datatype LetterDraws = LetterDraws(vowels: seq<nat>, consonants: seq<nat>, swaps: seq<(nat, nat)>)

  predicate WellFormed(d: LetterDraws) {
    && |d.vowels| == 8 && (forall i :: 0 <= i < 8 ==> d.vowels[i] < |VOWELS|)
    && |d.consonants| == 12 && (forall i :: 0 <= i < 12 ==> d.consonants[i] < |CONSONANTS|)
    && forall k :: 0 <= k < |d.swaps| ==> d.swaps[k].0 < POOL_SIZE && d.swaps[k].1 < POOL_SIZE
  }

  /** The letters in the order they were pushed: eight vowels, then twelve consonants. */
  function Drawn(d: LetterDraws): seq<char>
    requires WellFormed(d)
  {
    seq(8, i requires 0 <= i < 8 => VOWELS[d.vowels[i]])
      + seq(12, i requires 0 <= i < 12 => CONSONANTS[d.consonants[i]])
  }

  function Swap(s: seq<char>, i: nat, j: nat): seq<char>
    requires i < |s| && j < |s|
  {
    s[i := s[j]][j := s[i]]
  }

  /** The letters after the given swaps, applied first to last: a permutation of them. */
  function ApplySwaps(s: seq<char>, swaps: seq<(nat, nat)>): (r: seq<char>)
    requires forall k :: 0 <= k < |swaps| ==> swaps[k].0 < |s| && swaps[k].1 < |s|
    ensures |r| == |s|
    ensures multiset(r) == multiset(s)
  {
    if swaps == [] then s
    else
      var t := ApplySwaps(s, swaps[..|swaps| - 1]);
      var (i, j) := swaps[|swaps| - 1];
      SwapPermutes(t, i, j);
      Swap(t, i, j)
  }

  lemma SwapPermutes(s: seq<char>, i: nat, j: nat)
    requires i < |s| && j < |s|
    ensures multiset(Swap(s, i, j)) == multiset(s)
  {
    var t := s[i := s[j]];
    assert multiset(t) == multiset(s) - multiset{s[i]} + multiset{s[j]};
    assert t[i] == s[j];
    assert multiset(t[j := s[i]]) == multiset(t) - multiset{t[j]} + multiset{s[i]};
  }

  /** The pool of a round: the drawn letters in shuffled order. */
  function Pool(d: LetterDraws): seq<char>
    requires WellFormed(d)
  {
    ApplySwaps(Drawn(d), d.swaps)
  }

  /**
   * Every pool has exactly 20 upper-case letters and, as a multiset, is
   * eight letters from AEIOU and twelve from the 21 consonants.
   */
  lemma {:induction false} PoolShape(d: LetterDraws)
    requires WellFormed(d)
    ensures |Pool(d)| == POOL_SIZE
    ensures multiset(Pool(d)) == multiset(Drawn(d)[..8]) + multiset(Drawn(d)[8..])
    ensures forall i :: 0 <= i < 8 ==> Drawn(d)[i] in VOWELS
    ensures forall i :: 8 <= i < POOL_SIZE ==> Drawn(d)[i] in CONSONANTS
    ensures forall c :: c in Pool(d) ==> IsUpperLetter(c)
  {
    var s := Drawn(d);
    assert s == s[..8] + s[8..];
    DrawnAreUpper(d);
    forall c | c in Pool(d) ensures IsUpperLetter(c) {
      assert c in multiset(Pool(d));
      assert c in multiset(s);
    }
  }

  lemma DrawnAreUpper(d: LetterDraws)
    requires WellFormed(d)
    ensures forall c :: c in Drawn(d) ==> IsUpperLetter(c)
  {
    assert forall c :: c in VOWELS ==> IsUpperLetter(c);
    assert forall c :: c in CONSONANTS ==> IsUpperLetter(c);
  }

  /** The shuffle, in place: performs the swaps one after the other. */
  method Shuffle(a: array<char>, swaps: seq<(nat, nat)>)
    requires forall k :: 0 <= k < |swaps| ==> swaps[k].0 < a.Length && swaps[k].1 < a.Length
    modifies a
    ensures a[..] == ApplySwaps(old(a[..]), swaps)
  {
    for k := 0 to |swaps|
      invariant a[..] == ApplySwaps(old(a[..]), swaps[..k])
    {
      var (i, j) := swaps[k];
      assert swaps[..k + 1][..k] == swaps[..k];
      a[i], a[j] := a[j], a[i];
    }
    assert swaps[..|swaps|] == swaps;
  }

  /**
   * `generateLetters`: pushes eight random vowels and twelve random
   * consonants, then shuffles the array in place.
   */
  method GenerateLetters(d: LetterDraws) returns (letters: seq<char>)
    requires WellFormed(d)
    ensures letters == Pool(d)
  {
    var drawn: seq<char> := [];
    for i := 0 to 8
      invariant drawn == Drawn(d)[..i]
    {
      drawn := drawn + [VOWELS[d.vowels[i]]];
    }
    for i := 0 to 12
      invariant drawn == Drawn(d)[..8 + i]
    {
      drawn := drawn + [CONSONANTS[d.consonants[i]]];
    }
    assert drawn == Drawn(d);
    var a := new char[|drawn|](i requires 0 <= i < |drawn| => drawn[i]);
    assert a[..] == drawn;
    Shuffle(a, d.swaps);
    letters := a[..];
  }

  /** Draws whose pool spells CONSTRUCTOR: O, U, O among the vowels; C, N, S, T, R, C, T, R among the consonants. */
  const CONSTRUCTOR_DRAWS: LetterDraws :=
    LetterDraws([3, 4, 3, 0, 0, 0, 0, 0], [1, 10, 14, 15, 13, 1, 15, 13, 0, 0, 0, 0], [])

  /** `generateLetters` can deal a pool that spells "constructor". */
  lemma ConstructorCanBeDealt()
    ensures WellFormed(CONSTRUCTOR_DRAWS)
    ensures multiset("CONSTRUCTOR") <= multiset(Pool(CONSTRUCTOR_DRAWS))
  {
    ConstructorPool();
    ConstructorLetters();
    Within(Pool(CONSTRUCTOR_DRAWS));
  }

  lemma ConstructorPool()
    ensures WellFormed(CONSTRUCTOR_DRAWS)
    ensures |Pool(CONSTRUCTOR_DRAWS)| == 20
    ensures Pool(CONSTRUCTOR_DRAWS)[..3] == "OUO"
    ensures Pool(CONSTRUCTOR_DRAWS)[8..16] == "CNSTRCTR"
  {
    ConstructorDrawsInRange();
    ConstructorVowels();
    ConstructorConsonants();
    assert Pool(CONSTRUCTOR_DRAWS) == Drawn(CONSTRUCTOR_DRAWS);
  }

  lemma ConstructorDrawsInRange()
    ensures WellFormed(CONSTRUCTOR_DRAWS)
  {
    var d := CONSTRUCTOR_DRAWS;
    forall i | 0 <= i < 12 ensures d.consonants[i] < |CONSONANTS| {
      assert d.consonants[i] in d.consonants;
    }
  }

  lemma ConstructorVowels()
    requires WellFormed(CONSTRUCTOR_DRAWS)
    ensures Drawn(CONSTRUCTOR_DRAWS)[..3] == "OUO"
  {
    var v := CONSTRUCTOR_DRAWS.vowels;
    assert VOWELS[v[0]] == 'O' && VOWELS[v[1]] == 'U' && VOWELS[v[2]] == 'O';
  }

  lemma ConstructorConsonants()
    requires WellFormed(CONSTRUCTOR_DRAWS)
    ensures Drawn(CONSTRUCTOR_DRAWS)[8..16] == "CNSTRCTR"
  {
    var c := CONSTRUCTOR_DRAWS.consonants;
    assert CONSONANTS[c[0]] == 'C' && CONSONANTS[c[1]] == 'N' && CONSONANTS[c[2]] == 'S' && CONSONANTS[c[3]] == 'T';
    assert CONSONANTS[c[4]] == 'R' && CONSONANTS[c[5]] == 'C' && CONSONANTS[c[6]] == 'T' && CONSONANTS[c[7]] == 'R';
  }

  lemma ConstructorLetters()
    ensures multiset("CONSTRUCTOR") == multiset("OUO") + multiset("CNSTRCTR")
  {
    assert "CONSTRUCTOR" == "C" + "O" + "NSTR" + "U" + "CT" + "O" + "R";
    assert "OUO" == "O" + "U" + "O" && "CNSTRCTR" == "C" + "NSTR" + "CT" + "R";
    Regrouped("C", "O", "NSTR", "U", "CT", "O", "R");
  }

  /** Regrouping the pieces of a word does not change its letters. */
  lemma Regrouped(a: seq<char>, b: seq<char>, c: seq<char>, d: seq<char>, e: seq<char>, f: seq<char>, g: seq<char>)
    ensures multiset(a + b + c + d + e + f + g) == multiset(b + d + f) + multiset(a + c + e + g)
  {
  }

  /** The letters of the first three and of the middle eight of a pool are among the pool's letters. */
  lemma Within(s: seq<char>)
    requires |s| >= 16
    ensures multiset(s[..3]) + multiset(s[8..16]) <= multiset(s)
  {
    assert s == s[..3] + s[3..8] + s[8..16] + s[16..];
  }
}
