/** The choice of the next player: the players whose turn number differs from
    the current one, sorted by turn number, and the first of them above the
    current number, or else the first of them overall. */
module TurnOrder {
  import opened GameStateTypes

  /** The players whose turn number is not `current`, in list order. */
  function Others(ps: seq<Player>, current: int): (r: seq<Player>)
    ensures forall p :: p in r <==> p in ps && p.turnOrder != current
  {
    if ps == [] then []
    else (if ps[0].turnOrder != current then [ps[0]] else []) + Others(ps[1..], current)
  }

  predicate SortedByTurn(s: seq<Player>)
  {
    forall i, j :: 0 <= i < j < |s| ==> s[i].turnOrder <= s[j].turnOrder
  }

  /** Puts `x` after every element whose turn number is not greater than its
      own, which keeps the sort stable. */
  function Insert(x: Player, s: seq<Player>): (r: seq<Player>)
    requires SortedByTurn(s)
    ensures SortedByTurn(r)
    ensures multiset(r) == multiset(s) + multiset{x}
  {
    if s == [] then [x]
    else if x.turnOrder < s[0].turnOrder then [x] + s
    else
      var t := Insert(x, s[1..]);
      InsertBounded(x, s, t);
      assert s == [s[0]] + s[1..];
      [s[0]] + t
  }

  /** Every element of `t` (the head's tail with `x` inserted) is at least
      the head of `s`. */
  lemma InsertBounded(x: Player, s: seq<Player>, t: seq<Player>)
    requires s != [] && SortedByTurn(s) && s[0].turnOrder <= x.turnOrder
    requires multiset(t) == multiset(s[1..]) + multiset{x}
    ensures forall k :: 0 <= k < |t| ==> s[0].turnOrder <= t[k].turnOrder
  {
    forall k | 0 <= k < |t| ensures s[0].turnOrder <= t[k].turnOrder {
      assert t[k] in multiset(t);
      if t[k] != x {
        assert t[k] in multiset(s[1..]);
        var j :| 0 <= j < |s[1..]| && s[1..][j] == t[k];
        assert s[j + 1] == t[k];
      }
    }
  }

  /** A stable sort by turn number. */
  function SortByTurn(s: seq<Player>): (r: seq<Player>)
    ensures SortedByTurn(r)
    ensures multiset(r) == multiset(s)
  {
    if s == [] then []
    else
      assert s == s[..|s| - 1] + [s[|s| - 1]];
      Insert(s[|s| - 1], SortByTurn(s[..|s| - 1]))
  }

  /** The first player of `s` whose turn number is above `current`. */
  function FirstAbove(s: seq<Player>, current: int): (r: Option<Player>)
    ensures r.Some? ==> r.value in s && r.value.turnOrder > current
    ensures r.None? <==> forall p :: p in s ==> p.turnOrder <= current
    ensures r.Some? && SortedByTurn(s) ==>
      forall p :: p in s && p.turnOrder > current ==> r.value.turnOrder <= p.turnOrder
  {
    if s == [] then None
    else if s[0].turnOrder > current then Some(s[0])
    else
      assert SortedByTurn(s) ==> SortedByTurn(s[1..]);
      assert forall p :: p in s ==> p == s[0] || p in s[1..];
      FirstAbove(s[1..], current)
  }

  /** The player who plays after the holder of turn number `current`: the
      first sorted other player above `current`, else the first sorted other
      player; None when there is no other player. */
  function NextUp(ps: seq<Player>, current: int): Option<Player>
  {
    var sorted := SortByTurn(Others(ps, current));
    var up := FirstAbove(sorted, current);
    if up.Some? then up
    else if |sorted| > 0 then Some(sorted[0])
    else None
  }

  /** NextUp is the successor on the ring ordered by turn number: the other
      player with the smallest turn number above `current`, wrapping round to
      the other player with the smallest turn number overall. */
  lemma {:induction false} NextUpIsSuccessor(ps: seq<Player>, current: int)
    ensures NextUp(ps, current).None? <==> forall p :: p in ps ==> p.turnOrder == current
    ensures NextUp(ps, current).Some? ==>
      NextUp(ps, current).value in ps && NextUp(ps, current).value.turnOrder != current
    ensures (exists p :: p in ps && p.turnOrder > current) ==>
      NextUp(ps, current).Some? && NextUp(ps, current).value.turnOrder > current &&
      forall p :: p in ps && p.turnOrder > current ==>
        NextUp(ps, current).value.turnOrder <= p.turnOrder
    ensures (forall p :: p in ps ==> p.turnOrder <= current) ==>
      forall p :: p in ps && p.turnOrder != current ==>
        NextUp(ps, current).Some? && NextUp(ps, current).value.turnOrder <= p.turnOrder
  {
    var others := Others(ps, current);
    var sorted := SortByTurn(others);
    assert forall p :: p in sorted <==> p in others by {
      forall p ensures p in sorted <==> p in others {
        assert p in sorted <==> p in multiset(sorted);
        assert p in others <==> p in multiset(others);
      }
    }
    var up := FirstAbove(sorted, current);
    if up.None? && |sorted| > 0 {
      forall p | p in sorted ensures sorted[0].turnOrder <= p.turnOrder {
        var k :| 0 <= k < |sorted| && sorted[k] == p;
      }
    }
  }
}
