/** The game as the strategies see it.

    The board engine itself (legal-move generation, simulated plays, disk
    counting) is not part of this model: a strategy only ever asks it three
    questions, and `Othello` records the answers. The tie lists that the
    greedy strategies build, and random.choice, are defined here once and
    shared by MaximizeStrategy and MinimizeStrategy. */
module Game {
  import opened Errors

  /** `othello.turn`: the side to move. */
  datatype Side = Black | White

  /** The pair returned by `othello.count_disks`, one count per side. */
  datatype DiskCount = DiskCount(black: nat, white: nat) {
    /** `counter[side]` */
    function Of(side: Side): nat {
      match side
      case Black => black
      case White => white
    }
  }

  /** The engine's answers:
      - `turn` is `othello.turn`;
      - `reversible(side)` is `othello.reversible_area_list(side)`, the legal moves;
      - `countAfter(side, move)` is `othello.count_disks(*othello.simulate_play(side, move))`,
        the disk counts after `side` plays `move` on a copy of the board. */
  datatype Othello = Othello(
    turn: Side,
    reversible: Side -> seq<int>,
    countAfter: (Side, int) -> DiskCount)

  /** The candidate moves of the side to move. */
  function Candidates(g: Othello): seq<int> {
    g.reversible(g.turn)
  }

  /** The number of disks the side to move owns after playing `move`:
      the simulation is run for `g.turn` and read at `counter[g.turn]`. */
  function MoverCount(g: Othello, move: int): nat {
    g.countAfter(g.turn, move).Of(g.turn)
  }

  /** The moves of `cs`, in the order of `cs`, whose mover count is `m`. */
  function Ties(g: Othello, cs: seq<int>, m: nat): seq<int>
    decreases |cs|
  {
    if cs == [] then []
    else
      var last := cs[|cs| - 1];
      Ties(g, cs[..|cs| - 1], m) + (if MoverCount(g, last) == m then [last] else [])
  }

  /** `a` is `b` with some elements left out, the rest kept in order. */
  ghost predicate IsSubsequence(a: seq<int>, b: seq<int>)
    decreases |b|
  {
    || a == []
    || (&& b != []
        && (|| (a[|a| - 1] == b[|b| - 1] && IsSubsequence(a[..|a| - 1], b[..|b| - 1]))
            || IsSubsequence(a, b[..|b| - 1])))
  }

  /** A move is in the tie list exactly when it is a candidate with count `m`. */
  lemma {:induction false} TiesMembership(g: Othello, cs: seq<int>, m: nat)
    ensures forall x :: x in Ties(g, cs, m) <==> x in cs && MoverCount(g, x) == m
    decreases |cs|
  {
    if cs != [] {
      var pre := cs[..|cs| - 1];
      TiesMembership(g, pre, m);
      assert cs == pre + [cs[|cs| - 1]];
    }
  }

  /** Every move of count `m` occurs in the tie list as often as in `cs`,
      every other move not at all: no move is dropped or added twice. */
  lemma {:induction false} TiesMultiplicity(g: Othello, cs: seq<int>, m: nat)
    ensures forall x :: multiset(Ties(g, cs, m))[x] == if MoverCount(g, x) == m then multiset(cs)[x] else 0
    decreases |cs|
  {
    if cs != [] {
      var pre, last := cs[..|cs| - 1], cs[|cs| - 1];
      TiesMultiplicity(g, pre, m);
      assert cs == pre + [last];
      assert multiset(cs) == multiset(pre) + multiset{last};
      var tail := if MoverCount(g, last) == m then [last] else [];
      assert multiset(Ties(g, cs, m)) == multiset(Ties(g, pre, m)) + multiset(tail);
    }
  }

  /** The tie list keeps the candidates' relative order. */
  lemma {:induction false} TiesSubsequence(g: Othello, cs: seq<int>, m: nat)
    ensures IsSubsequence(Ties(g, cs, m), cs)
    decreases |cs|
  {
    if cs != [] {
      var pre, last := cs[..|cs| - 1], cs[|cs| - 1];
      var t := Ties(g, pre, m);
      TiesSubsequence(g, pre, m);
      if MoverCount(g, last) == m {
        var a := t + [last];
        assert a[..|a| - 1] == t;
      } else {
        assert Ties(g, cs, m) == t;
      }
    }
  }

  /** With distinct candidates the tie list holds each move at most once. */
  lemma TiesDistinct(g: Othello, cs: seq<int>, m: nat)
    requires forall i, j :: 0 <= i < j < |cs| ==> cs[i] != cs[j]
    ensures forall i, j :: 0 <= i < j < |Ties(g, cs, m)| ==> Ties(g, cs, m)[i] != Ties(g, cs, m)[j]
  {
    var t := Ties(g, cs, m);
    forall i, j | 0 <= i < j < |t| ensures t[i] != t[j] {
      if t[i] == t[j] {
        TiesMultiplicity(g, cs, m);
        DistinctOnce(cs, t[i]);
        TwiceInMultiset(t, i, j);
        assert false;
      }
    }
  }

  /** In a sequence without repetitions every value occurs at most once. */
  lemma {:induction false} DistinctOnce(s: seq<int>, x: int)
    requires forall i, j :: 0 <= i < j < |s| ==> s[i] != s[j]
    ensures multiset(s)[x] <= 1
    decreases |s|
  {
    if s != [] {
      var pre := s[..|s| - 1];
      DistinctOnce(pre, x);
      assert s == pre + [s[|s| - 1]];
      if s[|s| - 1] == x {
        assert x !in pre;
      }
    }
  }

  /** A value at two positions occurs at least twice. */
  lemma TwiceInMultiset(s: seq<int>, i: nat, j: nat)
    requires i < j < |s| && s[i] == s[j]
    ensures multiset(s)[s[i]] >= 2
  {
    assert s == s[..i] + [s[i]] + s[i + 1..j] + [s[j]] + s[j + 1..];
  }

  /** When no candidate has count `m`, the tie list for `m` is empty. */
  lemma {:induction false} TiesNoneAtLevel(g: Othello, cs: seq<int>, m: nat)
    requires forall x :: x in cs ==> MoverCount(g, x) != m
    ensures Ties(g, cs, m) == []
    decreases |cs|
  {
    if cs != [] {
      var pre := cs[..|cs| - 1];
      assert forall x :: x in pre ==> x in cs;
      TiesNoneAtLevel(g, pre, m);
    }
  }

  /** Only the mover's counts matter: two engines that give the side to
      move the same count for every candidate yield the same tie lists. */
  lemma {:induction false} TiesFrame(g1: Othello, g2: Othello, cs: seq<int>, m: nat)
    requires forall x :: x in cs ==> MoverCount(g1, x) == MoverCount(g2, x)
    ensures Ties(g1, cs, m) == Ties(g2, cs, m)
    decreases |cs|
  {
    if cs != [] {
      var pre := cs[..|cs| - 1];
      assert forall x :: x in pre ==> x in cs;
      TiesFrame(g1, g2, pre, m);
    }
  }

  /** `random.choice(xs)`: some element of `xs`, left unspecified, or
      IndexError when `xs` is empty. */
  method Choice(xs: seq<int>) returns (r: Result<int>)
    ensures r.Failure? <==> xs == []
    ensures r.Failure? ==> r.error == IndexError
    ensures r.Success? ==> r.value in xs
  {
    if xs == [] {
      r := Failure(IndexError);
    } else {
      var i :| 0 <= i < |xs|;
      r := Success(xs[i]);
    }
  }
}
