/** The in-place shuffle of a new deck: it swaps from the last place down. */
module Shuffle {
  import opened Wrappers
  import opened Cards

  function Swap<T>(s: seq<T>, i: nat, j: nat): (r: seq<T>)
    requires i < |s| && j < |s|
    ensures |r| == |s| && r[i] == s[j] && r[j] == s[i]
    ensures forall k :: 0 <= k < |s| && k != i && k != j ==> r[k] == s[k]
  {
    s[i := s[j]][j := s[i]]
  }

  lemma SwapPermutes<T>(s: seq<T>, i: nat, j: nat)
    requires i < |s| && j < |s|
    ensures multiset(Swap(s, i, j)) == multiset(s)
  {
  }

  /** One pick for each place from n - 1 down to 1; the pick for place i lies in 0..i. */
  ghost predicate InRange(n: nat, picks: seq<nat>) {
    && |picks| == (if n == 0 then 0 else n - 1)
    && forall k :: 0 <= k < |picks| ==> picks[k] <= n - 1 - k
  }

  /** What the picks make of s when only its first n places are shuffled. */
  ghost function Shuffled<T>(s: seq<T>, n: nat, picks: seq<nat>): (r: seq<T>)
    requires n <= |s| && InRange(n, picks)
    ensures |r| == |s|
    decreases n
  {
    if n <= 1 then s else Shuffled(Swap(s, n - 1, picks[0]), n - 1, picks[1..])
  }

  /** A random draw that failed counts as a pick of place 0. */
  function Picks(draws: seq<Option<nat>>): (picks: seq<nat>)
    ensures |picks| == |draws|
    ensures forall k :: 0 <= k < |draws| ==> picks[k] == if draws[k].Some? then draws[k].value else 0
  {
    seq(|draws|, k requires 0 <= k < |draws| => if draws[k].Some? then draws[k].value else 0)
  }

  method SwapCells<T>(a: array<T>, i: nat, j: nat)
    requires i < a.Length && j < a.Length
    modifies a
    ensures a[..] == Swap(old(a[..]), i, j)
  {
    a[i], a[j] := a[j], a[i];
  }

  method ShuffleInPlace<T>(a: array<T>, draws: seq<Option<nat>>)
    requires InRange(a.Length, Picks(draws))
    modifies a
    ensures a[..] == Shuffled(old(a[..]), a.Length, Picks(draws))
  {
    var n := a.Length;
    if n == 0 { return; }
    ghost var picks := Picks(draws);
    ghost var goal := Shuffled(a[..], n, picks);
    var i := n - 1;
    assert picks[0..] == picks;
    while i > 0
      invariant 0 <= i < n
      invariant InRange(i + 1, picks[n - 1 - i..])
      invariant Shuffled(a[..], i + 1, picks[n - 1 - i..]) == goal
      decreases i
    {
      ghost var before := a[..];
      ghost var rest := picks[n - 1 - i..];
      var j := match draws[n - 1 - i] case Some(p) => p case None => 0;
      assert j == rest[0] <= i;
      NextPick(before, i + 1, rest, picks, n - i);
      SwapCells(a, i, j);
      i := i - 1;
    }
  }

  /** One step of the loop uses up one pick. */
  lemma NextPick<T>(s: seq<T>, n: nat, rest: seq<nat>, picks: seq<nat>, k: nat)
    requires 1 < n <= |s| && InRange(n, rest) && 1 <= k <= |picks| && rest == picks[k - 1..]
    ensures rest[1..] == picks[k..] && InRange(n - 1, picks[k..])
    ensures Shuffled(s, n, rest) == Shuffled(Swap(s, n - 1, rest[0]), n - 1, picks[k..])
  {
    assert rest[1..] == picks[k..];
  }

  /** A shuffle only moves cards, and only within the first n places. */
  lemma {:induction false} ShuffledPermutes<T>(s: seq<T>, n: nat, picks: seq<nat>)
    requires n <= |s| && InRange(n, picks)
    ensures multiset(Shuffled(s, n, picks)) == multiset(s)
    ensures forall k :: n <= k < |s| ==> Shuffled(s, n, picks)[k] == s[k]
    decreases n
  {
    if n > 1 {
      SwapPermutes(s, n - 1, picks[0]);
      ShuffledPermutes(Swap(s, n - 1, picks[0]), n - 1, picks[1..]);
    }
  }

  /** The place settled first receives the card its pick names. */
  lemma LastPlaceIsPicked<T>(s: seq<T>, n: nat, picks: seq<nat>)
    requires 1 < n <= |s| && InRange(n, picks)
    ensures Shuffled(s, n, picks)[n - 1] == s[picks[0]]
  {
    ShuffledPermutes(Swap(s, n - 1, picks[0]), n - 1, picks[1..]);
  }

  /** t holds the cards of s, rearranged within the first n places only. */
  ghost predicate Arrangement<T(!new)>(s: seq<T>, n: nat, t: seq<T>) {
    && n <= |s| == |t|
    && multiset(t[..n]) == multiset(s[..n])
    && forall k :: n <= k < |s| ==> t[k] == s[k]
  }

  lemma LastComesFromPrefix<T(!new)>(s: seq<T>, n: nat, t: seq<T>) returns (j: nat)
    requires Arrangement(s, n, t) && n >= 1
    ensures j < n && s[j] == t[n - 1]
  {
    assert t[..n][n - 1] in multiset(t[..n]);
    assert t[n - 1] in s[..n];
    j :| 0 <= j < n && s[..n][j] == t[n - 1];
  }

  lemma PrefixWithoutLast<T>(s: seq<T>, n: nat)
    requires 1 <= n <= |s|
    ensures multiset(s[..n - 1]) == multiset(s[..n]) - multiset{s[n - 1]}
  {
    assert s[..n] == s[..n - 1] + [s[n - 1]];
  }

  lemma SwapPrefix<T>(s: seq<T>, n: nat, j: nat)
    requires 1 <= n <= |s| && j < n
    ensures multiset(Swap(s, n - 1, j)[..n]) == multiset(s[..n])
  {
    assert Swap(s, n - 1, j)[..n] == Swap(s[..n], n - 1, j);
    SwapPermutes(s[..n], n - 1, j);
  }

  lemma SwapMatchesPrefix<T>(s: seq<T>, n: nat, t: seq<T>, j: nat)
    requires 1 <= n <= |s| == |t| && j < n && s[j] == t[n - 1] && multiset(t[..n]) == multiset(s[..n])
    ensures multiset(t[..n - 1]) == multiset(Swap(s, n - 1, j)[..n - 1])
  {
    SwapPrefix(s, n, j);
    PrefixWithoutLast(t, n);
    PrefixWithoutLast(Swap(s, n - 1, j), n);
  }

  lemma SwapKeepsArrangement<T(!new)>(s: seq<T>, n: nat, t: seq<T>, j: nat)
    requires Arrangement(s, n, t) && n >= 1 && j < n && s[j] == t[n - 1]
    ensures Arrangement(Swap(s, n - 1, j), n - 1, t)
  {
    SwapMatchesPrefix(s, n, t, j);
  }

  /** Every arrangement is reached: its picks are read off it from the last place down. */
  lemma {:induction false} ShuffleReaches<T(!new)>(s: seq<T>, n: nat, t: seq<T>) returns (picks: seq<nat>)
    requires Arrangement(s, n, t)
    ensures InRange(n, picks) && Shuffled(s, n, picks) == t
    decreases n
  {
    if n <= 1 {
      picks := [];
      if n == 1 {
        var j := LastComesFromPrefix(s, n, t);
      }
    } else {
      var j := LastComesFromPrefix(s, n, t);
      SwapKeepsArrangement(s, n, t, j);
      var rest := ShuffleReaches(Swap(s, n - 1, j), n - 1, t);
      picks := [j] + rest;
      assert picks[1..] == rest;
    }
  }

  lemma SwapKeepsDistinct<T(!new)>(s: seq<T>, i: nat, j: nat)
    requires i < |s| && j < |s| && Distinct(s)
    ensures Distinct(Swap(s, i, j))
  {
  }

  /** No arrangement is reached twice. */
  lemma {:induction false} ShuffleInjective<T(!new)>(s: seq<T>, n: nat, p: seq<nat>, q: seq<nat>)
    requires n <= |s| && InRange(n, p) && InRange(n, q) && Distinct(s)
    requires Shuffled(s, n, p) == Shuffled(s, n, q)
    ensures p == q
    decreases n
  {
    if n > 1 {
      LastPlaceIsPicked(s, n, p);
      LastPlaceIsPicked(s, n, q);
      SwapKeepsDistinct(s, n - 1, p[0]);
      ShuffleInjective(Swap(s, n - 1, p[0]), n - 1, p[1..], q[1..]);
      assert p == [p[0]] + p[1..] && q == [q[0]] + q[1..];
    }
  }

  ghost predicate Reaches<T(!new)>(s: seq<T>, picks: seq<nat>, t: seq<T>) {
    InRange(|s|, picks) && Shuffled(s, |s|, picks) == t
  }

  /** The shuffle is a bijection from pick sequences in range to arrangements, for every length. */
  lemma ShuffleBijection<T(!new)>(s: seq<T>, t: seq<T>)
    requires Distinct(s)
    ensures multiset(t) == multiset(s) <==> exists picks :: Reaches(s, picks, t)
    ensures forall p, q :: Reaches(s, p, t) && Reaches(s, q, t) ==> p == q
  {
    if multiset(t) == multiset(s) {
      assert |t| == |multiset(t)| == |multiset(s)| == |s|;
      assert s[..|s|] == s && t[..|s|] == t;
      var picks := ShuffleReaches(s, |s|, t);
      assert Reaches(s, picks, t);
    }
    forall p | Reaches(s, p, t) ensures multiset(t) == multiset(s) {
      ShuffledPermutes(s, |s|, p);
    }
    forall p, q | Reaches(s, p, t) && Reaches(s, q, t) ensures p == q {
      ShuffleInjective(s, |s|, p, q);
    }
  }

  /** A deck is full when it holds the 52 cards, each once, in any order. */
  ghost predicate FullDeck(deck: seq<StoredCard>) {
    multiset(deck) == multiset(OrderedDeck())
  }

  lemma FullDeckSize(deck: seq<StoredCard>)
    requires FullDeck(deck)
    ensures |deck| == DECK_SIZE
  {
    assert |deck| == |multiset(deck)| == |multiset(OrderedDeck())| == |OrderedDeck()|;
  }

  lemma {:induction false} DistinctCounts<T(!new)>(s: seq<T>, x: T)
    requires Distinct(s)
    ensures multiset(s)[x] <= 1
  {
    if |s| > 0 {
      var init := s[..|s| - 1];
      DistinctCounts(init, x);
      assert s == init + [s[|s| - 1]];
      if x == s[|s| - 1] {
        assert x !in init;
      }
    }
  }

  lemma RepeatedCounts<T(!new)>(s: seq<T>, i: nat, j: nat)
    requires i < j < |s| && s[i] == s[j]
    ensures multiset(s)[s[i]] >= 2
  {
    assert s == s[..j] + [s[j]] + s[j + 1..];
    assert s[..j][i] == s[i];
  }

  /** No two places of a full deck hold the same card. */
  lemma FullDeckDistinct(deck: seq<StoredCard>)
    requires FullDeck(deck)
    ensures Distinct(deck)
  {
    OrderedDeckDistinct();
    forall i, j | 0 <= i < j < |deck| ensures deck[i] != deck[j] {
      DistinctCounts(OrderedDeck(), deck[i]);
      if deck[i] == deck[j] {
        RepeatedCounts(deck, i, j);
      }
    }
  }

  /** What the random draws make of the ordered deck: always a full one. */
  ghost function ShuffledBy(draws: seq<Option<nat>>): (deck: seq<StoredCard>)
    requires InRange(DECK_SIZE, Picks(draws))
    ensures FullDeck(deck)
  {
    ShuffledPermutes(OrderedDeck(), DECK_SIZE, Picks(draws));
    Shuffled(OrderedDeck(), DECK_SIZE, Picks(draws))
  }

  /** newShuffledDeck: the ordered deck, shuffled in place by the given random draws. */
  method NewShuffledDeck(draws: seq<Option<nat>>) returns (deck: seq<StoredCard>)
    requires InRange(DECK_SIZE, Picks(draws))
    ensures deck == ShuffledBy(draws)
    ensures FullDeck(deck)
  {
    var cards := BuildDeck();
    var a := new StoredCard[DECK_SIZE](i requires 0 <= i < DECK_SIZE => cards[i]);
    assert a[..] == cards;
    ShuffleInPlace(a, draws);
    deck := a[..];
    ShuffledPermutes(cards, DECK_SIZE, Picks(draws));
  }
}
