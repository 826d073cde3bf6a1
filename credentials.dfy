/** The pool of Divar bearer tokens used for contact lookups
    (bot/utils/tokenManager.js). The pool lives in a JSON file; the file is
    modelled as a field that is missing or holds the list. */
module Credentials {
  import opened Text

  /** `tokens.filter(t => t !== badToken)`. */
  function Evict(tokens: seq<string>, bad: string): (r: seq<string>)
    ensures bad !in r
    ensures forall t :: t != bad ==> (t in r <==> t in tokens)
  {
    Filter(tokens, (t: string) => t != bad)
  }

  /** `Math.floor(r * n)` for a draw `0 <= r < 1`. */
  function PickIndex(r: real, n: nat): (i: nat)
    requires 0.0 <= r < 1.0 && n > 0
    ensures i < n
  {
    var x := r * n as real;
    assert (1.0 - r) * n as real > 0.0;
    x.Floor
  }

  /** What `getRandomToken` returns for the draw `r`: nothing for an empty
      pool, otherwise the token at the drawn index. */
  function Pick(tokens: seq<string>, r: real): (t: Option<string>)
    requires 0.0 <= r < 1.0
    ensures t.None? <==> tokens == []
    ensures t.Some? ==> t.value in tokens
  {
    if tokens == [] then None else Some(tokens[PickIndex(r, |tokens|)])
  }

  /** Every token of the pool can be drawn. */
  lemma EveryTokenCanBePicked(tokens: seq<string>, i: nat)
    requires i < |tokens|
    ensures Pick(tokens, i as real / |tokens| as real) == Some(tokens[i])
  {
    var n := |tokens| as real;
    assert i as real / n * n == i as real;
  }

  class CredentialPool {
    /** The token file: None when it does not exist. */
    var file: Option<seq<string>>

    constructor (initial: Option<seq<string>>)
      ensures file == initial
    {
      file := initial;
    }

    /** The list the file holds; a missing file holds none. */
    function Stored(): seq<string>
      reads this
    {
      if file.Some? then file.value else []
    }

    /** `getTokens()`: a missing file is created holding [] (tokenManager.js:8-15). */
    method GetTokens() returns (tokens: seq<string>)
      modifies this
      ensures tokens == old(Stored())
      ensures file == Some(tokens)
    {
      if file.None? {
        file := Some([]);
        return [];
      }
      tokens := file.value;
    }

    /** `saveTokens(tokensArray)`: the file is overwritten with the list. */
    method SaveTokens(tokens: seq<string>)
      modifies this
      ensures file == Some(tokens)
    {
      file := Some(tokens);
    }

    /** `getRandomToken()`, the draw `Math.random()` given as `r`. */
    method GetRandomToken(r: real) returns (token: Option<string>)
      requires 0.0 <= r < 1.0
      modifies this
      ensures token == Pick(old(Stored()), r)
      ensures file == Some(old(Stored()))
    {
      var tokens := GetTokens();
      if |tokens| == 0 {
        return None;
      }
      var randomIndex := PickIndex(r, |tokens|);
      token := Some(tokens[randomIndex]);
    }

    /** `removeBadToken(badToken)`: every copy of the token is removed, the
      rest is written back, and the number of remaining tokens returned. */
    method RemoveBadToken(bad: string) returns (remaining: nat)
      modifies this
      ensures file == Some(Evict(old(Stored()), bad))
      ensures remaining == |Evict(old(Stored()), bad)|
    {
      var tokens := GetTokens();
      tokens := Filter(tokens, (t: string) => t != bad);
      SaveTokens(tokens);
      remaining := |tokens|;
    }
  }

  // ---------------------------------------------------------------------------
  // What eviction promises
  // ---------------------------------------------------------------------------

  /** Eviction removes exactly the copies of the bad token and keeps the
      others, with their multiplicities, in order. */
  lemma EvictCounts(tokens: seq<string>, bad: string, t: string)
    ensures Count(Evict(tokens, bad), t) == if t == bad then 0 else Count(tokens, t)
    ensures |Evict(tokens, bad)| == |tokens| - Count(tokens, bad)
  {
    EvictCount(tokens, bad, t);
    EvictLength(tokens, bad);
  }

  /** Eviction of the last token or of none. */
  lemma EvictSnoc(tokens: seq<string>, bad: string)
    requires tokens != []
    ensures var last := tokens[|tokens| - 1];
            Evict(tokens, bad) == Evict(tokens[..|tokens| - 1], bad) + (if last != bad then [last] else [])
  {
  }

  lemma {:induction false} EvictCount(tokens: seq<string>, bad: string, t: string)
    ensures Count(Evict(tokens, bad), t) == if t == bad then 0 else Count(tokens, t)
    decreases |tokens|
  {
    if tokens != [] {
      var init, last := tokens[..|tokens| - 1], tokens[|tokens| - 1];
      EvictCount(init, bad, t);
      EvictSnoc(tokens, bad);
      CountSnoc(Evict(init, bad), if last != bad then [last] else [], t);
    }
  }

  lemma {:induction false} EvictLength(tokens: seq<string>, bad: string)
    ensures |Evict(tokens, bad)| == |tokens| - Count(tokens, bad)
    decreases |tokens|
  {
    if tokens != [] {
      EvictLength(tokens[..|tokens| - 1], bad);
      EvictSnoc(tokens, bad);
    }
  }

  lemma {:induction false} CountSnoc(s: seq<string>, tail: seq<string>, x: string)
    requires |tail| <= 1
    ensures Count(s + tail, x) == Count(s, x) + Count(tail, x)
  {
    if tail != [] {
      assert (s + tail)[..|s + tail| - 1] == s;
    } else {
      assert s + tail == s;
    }
  }

  /** The survivors keep their order. */
  lemma EvictKeepsOrder(tokens: seq<string>, bad: string)
    ensures IsSubsequence(Evict(tokens, bad), tokens)
  {
    FilterIsSubsequence(tokens, (t: string) => t != bad);
  }

  /** Evicting an absent token changes nothing. */
  lemma EvictAbsent(tokens: seq<string>, bad: string)
    requires bad !in tokens
    ensures Evict(tokens, bad) == tokens
  {
    FilterAllKept(tokens, (t: string) => t != bad);
  }

  /** Evicting twice is evicting once. */
  lemma EvictTwice(tokens: seq<string>, bad: string)
    ensures Evict(Evict(tokens, bad), bad) == Evict(tokens, bad)
  {
    FilterIdempotent(tokens, (t: string) => t != bad);
  }
}
