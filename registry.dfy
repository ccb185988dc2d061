/**
 * The table of live games (`games`, keyed by game code) and the socket
 * handlers that act on it. Besides the map, the registry keeps the codes in
 * insertion order, the order in which `for (const gameCode in games)`
 * visits them.
 */
module Registry {
  import opened Wrappers
  import opened Letters
  import opened Scoring
  import opened GameRules
  import opened Session

  /** What `joinGame` tells the joiner: one of its two errors, or nothing (it joined). */
  datatype JoinResult = GameNotFound | GameFull | JoinedGame

  /** The game under `code` exists and has a player with connection `id`. */
  predicate Holds(sessions: map<string, GameState>, code: string, id: string) {
    code in sessions && PlayerIndex(sessions[code].players, id).Some?
  }

  /** The position of the first code, in key order, whose game has a player with connection `id`. */
  function FirstHolding(codes: seq<string>, sessions: map<string, GameState>, id: string): (r: Option<nat>)
    ensures r.Some? ==> r.value < |codes| && Holds(sessions, codes[r.value], id)
                        && forall k :: 0 <= k < r.value ==> !Holds(sessions, codes[k], id)
    ensures r.None? ==> forall k :: 0 <= k < |codes| ==> !Holds(sessions, codes[k], id)
  {
    if codes == [] then None
    else if Holds(sessions, codes[0], id) then Some(0)
    else match FirstHolding(codes[1..], sessions, id)
      case None => None
      case Some(k) => Some(k + 1)
  }

  predicate Distinct(codes: seq<string>) {
    forall i, j :: 0 <= i < j < |codes| ==> codes[i] != codes[j]
  }

  /** Deleting a key from a table without repeated keys leaves exactly the other keys, in order. */
  lemma DeleteKey(codes: seq<string>, i: nat)
    requires Distinct(codes) && i < |codes|
    ensures Distinct(codes[..i] + codes[i + 1..])
    ensures forall c :: c in codes[..i] + codes[i + 1..] <==> c in codes && c != codes[i]
  {
    var r := codes[..i] + codes[i + 1..];
    forall c | c in codes && c != codes[i] ensures c in r {
      var k :| 0 <= k < |codes| && codes[k] == c;
      if k < i { assert r[k] == c; } else { assert r[k - 1] == c; }
    }
  }

  class Registry {
    /** The keys of `games`, oldest first. */
    var codes: seq<string>
    var games: map<string, Game>

    ghost predicate Valid()
      reads this, games.Values
    {
      && (forall c :: c in games ==> games[c].code == c && games[c].Valid())
      && (forall c, c' :: c in games && c' in games && c != c' ==> games[c] != games[c'])
      && Distinct(codes)
      && (forall c :: c in codes <==> c in games)
    }

    /** The state of every live game, by code. */
    ghost function Sessions(): map<string, GameState>
      reads this, games.Values
    {
      map c | c in games :: games[c].State()
    }

    constructor ()
      ensures Valid() && games == map[] && codes == []
    {
      codes := [];
      games := map[];
    }

    /**
     * `createGame`: stores a new waiting game, with its creator as the only
     * player, under a code that no live game uses.
     */
    method CreateGame(id: string, name: string, attempts: seq<seq<nat>>) returns (code: string)
      requires Valid()
      requires forall k :: 0 <= k < |attempts| ==> IsCodeDraw(attempts[k])
      requires exists k :: 0 <= k < |attempts| && CodeOf(attempts[k]) !in games
      modifies this
      ensures Valid()
      ensures code !in old(games) && |code| == 4 && forall i :: 0 <= i < 4 ==> IsUpperLetter(code[i])
      ensures codes == old(codes) + [code]
      ensures games == old(games)[code := games[code]] && fresh(games[code])
      ensures games[code].State() == Created(code, id, name)
    {
      code := GenerateGameCode(attempts, games.Keys);
      var g := new Game(code, id, name);
      games := games[code := g];
      codes := codes + [code];
    }

    /**
     * `joinGame`: an unknown code or a full game is reported and changes
     * nothing; otherwise the joiner becomes the second player and the first
     * round starts.
     */
    method JoinGame(code: string, id: string, name: string, d: LetterDraws) returns (r: JoinResult)
      requires Valid() && WellFormed(d)
      modifies if code in games then {games[code]} else {}
      ensures Valid()
      ensures r == GameNotFound <==> code !in games
      ensures r == GameFull <==> code in games && |old(games[code].players)| >= 2
      ensures games == old(games) && codes == old(codes)
      ensures r == JoinedGame ==> games[code].State() == Joined(old(games[code].State()), id, name, Pool(d))
      ensures r == GameFull ==> games[code].State() == old(games[code].State())
    {
      if code !in games {
        return GameNotFound;
      }
      var g := games[code];
      if |g.players| >= 2 {
        return GameFull;
      }
      g.Join(id, name, d);
      r := JoinedGame;
    }

    /** `submitWord`: silently ignored for an unknown code, otherwise handled by the game. */
    method SubmitWord(code: string, id: string, word: string, dictionary: set<string>) returns (out: SubmitOutcome)
      requires Valid()
      modifies if code in games then {games[code]} else {}
      ensures Valid()
      ensures games == old(games) && codes == old(codes)
      ensures code !in games ==> out == Ignored
      ensures code in games ==> (games[code].State(), out) == Submitted(old(games[code].State()), id, word, dictionary)
    {
      if code !in games {
        return Ignored;
      }
      out := games[code].SubmitWord(id, word, dictionary);
    }

    /** `playerReady`: silently ignored for an unknown code, otherwise handled by the game. */
    method PlayerReady(code: string, id: string, d: LetterDraws)
      requires Valid() && WellFormed(d)
      modifies if code in games then {games[code]} else {}
      ensures Valid()
      ensures games == old(games) && codes == old(codes)
      ensures code in games ==> games[code].State() == Readied(old(games[code].State()), id, Pool(d))
    {
      if code in games {
        games[code].Ready(id, d);
      }
    }

    /** `playAgain`: silently ignored for an unknown code, otherwise handled by the game. */
    method PlayAgain(code: string, id: string, d: LetterDraws)
      requires Valid() && WellFormed(d)
      modifies if code in games then {games[code]} else {}
      ensures Valid()
      ensures games == old(games) && codes == old(codes)
      ensures code in games ==> games[code].State() == Replayed(old(games[code].State()), id, Pool(d))
    {
      if code in games {
        games[code].PlayAgain(id, d);
      }
    }

    /**
     * `disconnect`: visits the games in key order and, at the first one in
     * which the connection plays, cancels its tick and deletes it; every
     * other game is left as it was.
     */
    method Disconnect(id: string) returns (removed: Option<string>)
      requires Valid()
      modifies this, games.Values
      ensures Valid()
      ensures var f := FirstHolding(old(codes), old(Sessions()), id);
        && (f.None? ==> removed == None && codes == old(codes) && games == old(games))
        && (f.Some? ==>
              && removed == Some(old(codes)[f.value])
              && codes == old(codes)[..f.value] + old(codes)[f.value + 1..]
              && games == old(games) - {removed.value}
              && !old(games)[removed.value].tickActive)
      ensures forall c :: c in games ==> games[c].State() == old(games[c].State())
    {
      ghost var sessions := Sessions();
      var i := FindGameOf(id, sessions);
      if i == |codes| {
        return None;
      }
      ghost var codes0, games0 := codes, games;
      removed := Some(codes[i]);
      DeleteGame(i);
      assert codes == codes0[..i] + codes0[i + 1..];
      assert games == games0 - {removed.value};
    }

    /** The for-in search of `disconnect`: the first position, in key order, of a game holding `id`. */
    method FindGameOf(id: string, ghost sessions: map<string, GameState>) returns (i: nat)
      requires Valid() && sessions == Sessions()
      ensures i <= |codes|
      ensures FirstHolding(codes, sessions, id) == if i == |codes| then None else Some(i)
    {
      i := 0;
      while i < |codes| && PlayerIndex(games[codes[i]].players, id).None?
        invariant 0 <= i <= |codes|
        invariant forall k :: 0 <= k < i ==> !Holds(sessions, codes[k], id)
      {
        assert codes[i] in games && sessions[codes[i]] == games[codes[i]].State();
        i := i + 1;
      }
      if i < |codes| {
        assert Holds(sessions, codes[i], id);
        FirstHoldingIs(codes, sessions, id, i);
      }
    }

    /** `clearInterval` and `delete games[gameCode]` for the game at position `i` in key order. */
    method DeleteGame(i: nat)
      requires Valid() && i < |codes|
      modifies this, games[codes[i]]
      ensures Valid()
      ensures codes == old(codes[..i] + codes[i + 1..])
      ensures games == old(games) - {old(codes[i])}
      ensures !old(games[codes[i]]).tickActive
      ensures forall c :: c in games ==> games[c].State() == old(games[c].State())
    {
      var c := codes[i];
      DeleteKey(codes, i);
      games[c].CancelTick();
      games := games - {c};
      codes := codes[..i] + codes[i + 1..];
    }
  }

  /** The first position holding the connection is the one FirstHolding finds. */
  lemma {:induction false} FirstHoldingIs(codes: seq<string>, sessions: map<string, GameState>, id: string, i: nat)
    requires i < |codes| && Holds(sessions, codes[i], id)
    requires forall k :: 0 <= k < i ==> !Holds(sessions, codes[k], id)
    ensures FirstHolding(codes, sessions, id) == Some(i)
  {
    if i > 0 {
      FirstHoldingIs(codes[1..], sessions, id, i - 1);
    }
  }
}
