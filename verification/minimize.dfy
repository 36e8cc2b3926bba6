/** The "minimize" strategy: play a move after which the side to move owns
    as few disks as possible, chosen at random among the moves that tie.
    (The class doc-comment of strategy/minimize.py speaks of maximizing;
    its loop minimizes, and this model follows the loop.) */
module MinimizeStrategy {
  import opened Errors
  import opened Game

  /** The values `min_merit` takes: the starting `float("inf")`, or a count. */
  datatype Merit = Infinity | Finite(n: nat) {
    /** `min_merit > count`. Exceeding rules out being equal, so the reset
        and append branches of the loop never both apply; a merit that does
        not exceed the count is a finite count no larger than it. */
    predicate Exceeds(count: nat): (r: bool)
      ensures r ==> this != Finite(count)
      ensures !r ==> Finite? && n <= count
    {
      match this
      case Infinity => true
      case Finite(n) => n > count
    }
  }

  /** The value `min_merit` ends with after scanning `cs`: infinite when
      `cs` is empty, otherwise the least mover count of `cs`. */
  function MinCount(g: Othello, cs: seq<int>): Merit
    decreases |cs|
  {
    if cs == [] then Infinity
    else
      var count := MoverCount(g, cs[|cs| - 1]);
      match MinCount(g, cs[..|cs| - 1])
      case Infinity => Finite(count)
      case Finite(before) => Finite(if count < before then count else before)
  }

  /** MinCount is the least mover count of `cs`: finite exactly when there
      is a candidate, reached by some candidate and beaten by none. */
  lemma {:induction false} MinCountIsLeast(g: Othello, cs: seq<int>)
    ensures MinCount(g, cs).Infinity? <==> cs == []
    ensures MinCount(g, cs).Finite? ==> forall x :: x in cs ==> MinCount(g, cs).n <= MoverCount(g, x)
    ensures MinCount(g, cs).Finite? ==> exists x :: x in cs && MoverCount(g, x) == MinCount(g, cs).n
    decreases |cs|
  {
    if cs != [] {
      var pre := cs[..|cs| - 1];
      MinCountIsLeast(g, pre);
      assert cs == pre + [cs[|cs| - 1]];
    }
  }

  /** A count strictly below everything so far (in particular the first
      count, below the infinite start) discards the earlier ties. */
  lemma SmallerCountResets(g: Othello, cs: seq<int>, c: int)
    requires MinCount(g, cs).Exceeds(MoverCount(g, c))
    ensures MinCount(g, cs + [c]) == Finite(MoverCount(g, c))
    ensures Ties(g, cs + [c], MoverCount(g, c)) == [c]
  {
    var ext := cs + [c];
    assert ext[..|ext| - 1] == cs;
    MinCountIsLeast(g, cs);
    TiesNoneAtLevel(g, cs, MoverCount(g, c));
  }

  /** The tie list of the least count: empty while `min_merit` is infinite. */
  function MinTies(g: Othello, cs: seq<int>): seq<int> {
    match MinCount(g, cs)
    case Infinity => []
    case Finite(n) => Ties(g, cs, n)
  }

  /** `min_merit` starts above every possible count, so the first candidate
      scored always resets: it becomes the minimum and the whole tie list. */
  lemma FirstCandidateResets(g: Othello, c: int)
    ensures Infinity.Exceeds(MoverCount(g, c))
    ensures MinCount(g, [c]) == Finite(MoverCount(g, c))
    ensures MinTies(g, [c]) == [c]
  {
    SmallerCountResets(g, [], c);
    assert [] + [c] == [c];
  }

  /** Every move in the final tie list has the least count, every candidate
      with the least count is in it, and it is empty only without candidates. */
  lemma MinTiesAreTheMinima(g: Othello, cs: seq<int>)
    ensures forall x :: x in MinTies(g, cs) <==>
      x in cs && forall y :: y in cs ==> MoverCount(g, x) <= MoverCount(g, y)
    ensures MinTies(g, cs) == [] <==> cs == []
  {
    MinCountIsLeast(g, cs);
    if cs != [] {
      var n := MinCount(g, cs).n;
      TiesMembership(g, cs, n);
      var w :| w in cs && MoverCount(g, w) == n;
      assert w in MinTies(g, cs);
      forall x | x in cs && forall y :: y in cs ==> MoverCount(g, x) <= MoverCount(g, y)
        ensures x in MinTies(g, cs)
      {
        assert MoverCount(g, x) <= MoverCount(g, w);
      }
    }
  }

  /** Every candidate is scored by the entry of the side to move,
      `counter[turn]`: engines that agree on those counts yield the same
      `min_merit` and the same tie list, whatever the other side's counts. */
  lemma {:induction false} OnlyMoverCountsMatter(g1: Othello, g2: Othello, cs: seq<int>)
    requires forall x :: x in cs ==> MoverCount(g1, x) == MoverCount(g2, x)
    ensures MinCount(g1, cs) == MinCount(g2, cs)
    ensures MinTies(g1, cs) == MinTies(g2, cs)
    decreases |cs|
  {
    if cs != [] {
      var pre := cs[..|cs| - 1];
      assert forall x :: x in pre ==> x in cs;
      OnlyMoverCountsMatter(g1, g2, pre);
      assert cs[|cs| - 1] in cs;
    }
    if MinCount(g1, cs).Finite? {
      TiesFrame(g1, g2, cs, MinCount(g1, cs).n);
    }
  }

  /** The loop of `put_disk`: returns `min_strategy` and `min_merit` as
      they stand after every candidate has been scored. */
  method Scan(g: Othello) returns (minStrategy: seq<int>, minMerit: Merit)
    ensures minMerit == MinCount(g, Candidates(g))
    ensures minStrategy == MinTies(g, Candidates(g))
  {
    var turn := g.turn;
    minStrategy, minMerit := [], Infinity;
    var candidates := g.reversible(turn);
    for i := 0 to |candidates|
      invariant minMerit == MinCount(g, candidates[..i])
      invariant minStrategy == MinTies(g, candidates[..i])
    {
      var candidate := candidates[i];
      var counter := g.countAfter(g.turn, candidate);
      assert candidates[..i + 1] == candidates[..i] + [candidate];
      if minMerit.Exceeds(counter.Of(turn)) {
        SmallerCountResets(g, candidates[..i], candidate);
        minStrategy := [candidate];
        minMerit := Finite(counter.Of(turn));
      } else if minMerit == Finite(counter.Of(turn)) {
        minStrategy := minStrategy + [candidate];
      }
    }
    assert candidates[..|candidates|] == candidates;
  }

  /** What `put_disk` may return: IndexError when there is no candidate,
      otherwise a move from the final tie list. */
  ghost predicate Admissible(g: Othello, r: Result<int>) {
    var cs := Candidates(g);
    if cs == [] then r == Failure(IndexError)
    else r.Success? && r.value in MinTies(g, cs)
  }

  /** `Minimize.put_disk`: a candidate whose mover count no other candidate
      undercuts, or IndexError from random.choice when there is no candidate. */
  method PutDisk(g: Othello) returns (r: Result<int>)
    ensures Admissible(g, r)
    ensures r.Failure? <==> Candidates(g) == []
    ensures r.Success? ==> r.value in Candidates(g)
    ensures r.Success? ==> forall x :: x in Candidates(g) ==> MoverCount(g, r.value) <= MoverCount(g, x)
  {
    var minStrategy, minMerit := Scan(g);
    var cs := Candidates(g);
    MinTiesAreTheMinima(g, cs);
    r := Choice(minStrategy);
    if r.Success? {
      var v := r.value;
      assert v in minStrategy;
    }
  }
}
