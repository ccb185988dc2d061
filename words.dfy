/**
 * Word handling of the game engine: normalising a submission, the points a
 * word is worth, whether a word can be spelt from the round's letters, and
 * the ordered validation chain that accepts or rejects a submission.
 */
module Words {

  /** The common words that are refused whatever the dictionary says. */
  const COMMON_WORDS: set<string> :=
    {"the", "and", "for", "you", "are", "with", "was", "not", "but", "from"}

  // ---------------------------------------------------------------------
  // Normalisation: lower-casing and trimming a submission
  // ---------------------------------------------------------------------

  /** The code points JavaScript's `trim` removes: WhiteSpace and LineTerminator. */
  predicate IsWhitespace(c: char) {
    || c == ' ' || c == '\t' || c == '\n' || c == '\r' || c == '\U{B}' || c == '\U{C}'
    || c == '\U{A0}' || c == '\U{1680}' || ('\U{2000}' <= c <= '\U{200A}')
    || c == '\U{2028}' || c == '\U{2029}' || c == '\U{202F}' || c == '\U{205F}'
    || c == '\U{3000}' || c == '\U{FEFF}'
  }

  function LowerChar(c: char): char {
    if 'A' <= c <= 'Z' then (c as int + 32) as char else c
  }

  function UpperChar(c: char): char {
    if 'a' <= c <= 'z' then (c as int - 32) as char else c
  }

  function ToLower(s: string): string {
    seq(|s|, i requires 0 <= i < |s| => LowerChar(s[i]))
  }

  function ToUpper(s: string): string {
    seq(|s|, i requires 0 <= i < |s| => UpperChar(s[i]))
  }

  /** Drops leading whitespace: what remains is a suffix that does not start with whitespace. */
  function TrimStart(s: string): (r: string)
    ensures |r| <= |s| && r == s[|s| - |r|..]
    ensures r == [] || !IsWhitespace(r[0])
    ensures forall i :: 0 <= i < |s| - |r| ==> IsWhitespace(s[i])
  {
    if s != [] && IsWhitespace(s[0]) then TrimStart(s[1..]) else s
  }

  /** Drops trailing whitespace: what remains is a prefix that does not end with whitespace. */
  function TrimEnd(s: string): (r: string)
    ensures |r| <= |s| && r == s[..|r|]
    ensures r == [] || !IsWhitespace(r[|r| - 1])
    ensures forall i :: |r| <= i < |s| ==> IsWhitespace(s[i])
  {
    if s != [] && IsWhitespace(s[|s| - 1]) then TrimEnd(s[..|s| - 1]) else s
  }

  /** `r` is `s` with `i` characters of whitespace cut from the front and only whitespace cut from the back. */
  predicate CutFrom(s: string, r: string, i: nat) {
    && i + |r| <= |s| && r == s[i..i + |r|]
    && (forall k :: 0 <= k < i ==> IsWhitespace(s[k]))
    && (forall k :: i + |r| <= k < |s| ==> IsWhitespace(s[k]))
  }

  /**
   * `trim`: the result is a slice of the input that neither starts nor ends
   * with whitespace, and everything cut off on either side is whitespace.
   */
  function Trim(s: string): (r: string)
    ensures r == [] || (!IsWhitespace(r[0]) && !IsWhitespace(r[|r| - 1]))
    ensures exists i :: CutFrom(s, r, i)
  {
    TrimCuts(s);
    TrimEnd(TrimStart(s))
  }

  lemma TrimCuts(s: string)
    ensures CutFrom(s, TrimEnd(TrimStart(s)), |s| - |TrimStart(s)|)
  {
    var t := TrimStart(s);
    SuffixThenPrefix(s, t, TrimEnd(t));
  }

  /** Cutting whitespace off the front and then off the back leaves a slice with only whitespace around it. */
  lemma SuffixThenPrefix(s: string, t: string, r: string)
    requires |t| <= |s| && t == s[|s| - |t|..]
    requires forall k :: 0 <= k < |s| - |t| ==> IsWhitespace(s[k])
    requires |r| <= |t| && r == t[..|r|]
    requires forall k :: |r| <= k < |t| ==> IsWhitespace(t[k])
    ensures CutFrom(s, r, |s| - |t|)
  {
    var i := |s| - |t|;
    assert r == s[i..i + |r|];
    forall k | i + |r| <= k < |s|
      ensures IsWhitespace(s[k])
    {
      assert s[k] == t[k - i];
    }
  }

  /** A string with no whitespace at either end is its own trim. */
  lemma Untrimmed(s: string)
    requires s != [] && !IsWhitespace(s[0]) && !IsWhitespace(s[|s| - 1])
    ensures Trim(s) == s
  {
    assert TrimStart(s) == s;
  }

  /** `word.toLowerCase().trim()`, applied to every submission. */
  function Normalize(word: string): string {
    Trim(ToLower(word))
  }

  // ---------------------------------------------------------------------
  // Scoring a single word
  // ---------------------------------------------------------------------

  /**
   * `calculateScore`: 10, 15 and 20 points for three, four and five or more
   * letters; a word of fewer than three letters is worth nothing.
   */
  function CalculateScore(word: string): (points: nat)
    ensures points == 0 <==> |word| < 3
    ensures points in {0, 10, 15, 20}
  {
    if |word| >= 5 then 20
    else if |word| == 4 then 15
    else if |word| == 3 then 10
    else 0
  }

  /** The points table: 3 letters 10, 4 letters 15, 5 or more 20, fewer than 3 nothing. */
  lemma ScoreTable(word: string)
    ensures |word| >= 5 ==> CalculateScore(word) == 20
    ensures |word| == 4 ==> CalculateScore(word) == 15
    ensures |word| == 3 ==> CalculateScore(word) == 10
    ensures |word| < 3 ==> CalculateScore(word) == 0
  {
  }

  /** A longer word never scores less than a shorter one. */
  lemma ScoreGrowsWithLength(a: string, b: string)
    requires |a| <= |b|
    ensures CalculateScore(a) <= CalculateScore(b)
  {
  }

  // ---------------------------------------------------------------------
  // Spelling a word from the round's letters
  // ---------------------------------------------------------------------

  /**
   * Every character of the upper-cased word occurs in the word at most as
   * often as it occurs among the letters: multiset containment.
   */
  predicate CanForm(word: string, letters: seq<char>) {
    multiset(ToUpper(word)) <= multiset(letters)
  }

  /** How many unused copies of `c` the count table still holds (`letterCounts[c] || 0`). */
  function Tally(counts: map<char, nat>, c: char): nat {
    if c in counts then counts[c] else 0
  }

  /** The first loop of `canFormWord`: a table with the number of copies of each letter. */
  method CountLetters(letters: seq<char>) returns (counts: map<char, nat>)
    ensures forall c :: Tally(counts, c) == multiset(letters)[c]
  {
    counts := map[];
    for i := 0 to |letters|
      invariant forall c :: Tally(counts, c) == multiset(letters[..i])[c]
    {
      var c := letters[i];
      assert letters[..i + 1] == letters[..i] + [c];
      counts := counts[c := Tally(counts, c) + 1];
    }
    assert letters[..|letters|] == letters;
  }

  /**
   * `canFormWord`: counts the letters into a table, then spends one copy for
   * each character of the upper-cased word, failing as soon as none is left.
   */
  method CanFormWord(word: string, letters: seq<char>) returns (ok: bool)
    ensures ok <==> CanForm(word, letters)
  {
    var counts := CountLetters(letters);
    var w := ToUpper(word);
    assert w[..0] == [];
    for j := 0 to |w|
      invariant Unspent(counts, w, j, letters)
    {
      var ch := w[j];
      if Tally(counts, ch) == 0 {
        OverdrawnLetter(counts, w, j, letters);
        return false;
      }
      SpendOne(counts, w, j, letters);
      counts := counts[ch := counts[ch] - 1];
    }
    AllSpent(counts, w, letters);
    return true;
  }

  /** After spending the first `j` characters of `w`, the table holds what the letters have left over. */
  predicate Unspent(counts: map<char, nat>, w: string, j: nat, letters: seq<char>)
    requires j <= |w|
  {
    forall c :: Tally(counts, c) + multiset(w[..j])[c] == multiset(letters)[c]
  }

  /** Spending one available copy of w[j] keeps the table in step with the letters. */
  lemma SpendOne(counts: map<char, nat>, w: string, j: nat, letters: seq<char>)
    requires j < |w| && Unspent(counts, w, j, letters) && Tally(counts, w[j]) > 0
    ensures Unspent(counts[w[j] := counts[w[j]] - 1], w, j + 1, letters)
  {
    assert w[..j + 1] == w[..j] + [w[j]];
  }

  /** With no copy of w[j] left, the word needs one more than the letters hold. */
  lemma OverdrawnLetter(counts: map<char, nat>, w: string, j: nat, letters: seq<char>)
    requires j < |w| && Unspent(counts, w, j, letters) && Tally(counts, w[j]) == 0
    ensures !(multiset(w) <= multiset(letters))
  {
    assert multiset(w[..j])[w[j]] == multiset(letters)[w[j]];
    assert w == w[..j] + [w[j]] + w[j + 1..];
    assert multiset(w)[w[j]] > multiset(letters)[w[j]];
  }

  /** Once the whole word is spent without running short, every character fits. */
  lemma AllSpent(counts: map<char, nat>, w: string, letters: seq<char>)
    requires Unspent(counts, w, |w|, letters)
    ensures multiset(w) <= multiset(letters)
  {
    assert w[..|w|] == w;
  }

  /** A word that can be spelt is no longer than the pool it is spelt from. */
  lemma CanFormBoundsLength(word: string, letters: seq<char>)
    requires CanForm(word, letters)
    ensures |word| <= |letters|
  {
    var a, b := multiset(ToUpper(word)), multiset(letters);
    assert |a| == |word|;
    SubMultisetSize(a, b);
  }

  lemma SubMultisetSize(a: multiset<char>, b: multiset<char>)
    requires a <= b
    ensures |a| <= |b|
  {
    assert b == a + (b - a);
  }

  /** "AA" needs two A's, but the pool has one; "cat" fits in C, A, T, X whatever the case. */
  lemma CanFormExamples()
    ensures !CanForm("AA", ['A'])
    ensures CanForm("cat", ['C', 'A', 'T', 'X'])
  {
    assert ToUpper("AA") == "AA";
    assert multiset("AA")['A'] == 2;
    assert ToUpper("cat") == "CAT";
    assert multiset(['C', 'A', 'T', 'X']) == multiset("CAT") + multiset{'X'};
  }

  // ---------------------------------------------------------------------
  // The validation chain of submitWord
  // ---------------------------------------------------------------------

  /** Why a submission was refused, one reason per check. */
  datatype Rejection = TooShort | TooCommon | UnavailableLetters | AlreadySubmitted | NotAWord

  datatype Verdict = Accept | Reject(reason: Rejection)

  /**
   * The checks of submitWord on a normalised word, in their fixed order:
   * length, common words, letters, the player's own earlier words,
   * dictionary. The first check that fails gives the reason.
   */
  function Check(word: string, letters: seq<char>, submitted: seq<string>, dictionary: set<string>): (v: Verdict)
    ensures v == Accept <==>
      |word| >= 3 && word !in COMMON_WORDS && CanForm(word, letters) && word !in submitted && word in dictionary
    ensures v == Reject(TooShort) <==> |word| < 3
    ensures v == Reject(TooCommon) <==> |word| >= 3 && word in COMMON_WORDS
    ensures v == Reject(UnavailableLetters) <==>
      |word| >= 3 && word !in COMMON_WORDS && !CanForm(word, letters)
    ensures v == Reject(AlreadySubmitted) <==>
      |word| >= 3 && word !in COMMON_WORDS && CanForm(word, letters) && word in submitted
    ensures v == Reject(NotAWord) <==>
      |word| >= 3 && word !in COMMON_WORDS && CanForm(word, letters) && word !in submitted && word !in dictionary
  {
    if |word| < 3 then Reject(TooShort)
    else if word in COMMON_WORDS then Reject(TooCommon)
    else if !CanForm(word, letters) then Reject(UnavailableLetters)
    else if word in submitted then Reject(AlreadySubmitted)
    else if word !in dictionary then Reject(NotAWord)
    else Accept
  }

  /** An accepted word scores at least 10 and fits in the pool it was spelt from. */
  lemma AcceptedWordScores(word: string, letters: seq<char>, submitted: seq<string>, dictionary: set<string>)
    requires Check(word, letters, submitted, dictionary) == Accept
    ensures 10 <= CalculateScore(word)
    ensures |word| <= |letters|
  {
    CanFormBoundsLength(word, letters);
  }
}
