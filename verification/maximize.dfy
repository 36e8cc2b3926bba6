/** The "maximize" strategy: play a move after which the side to move owns
    as many disks as possible, chosen at random among the moves that tie. */
module MaximizeStrategy {
  import opened Errors
  import opened Game

  /** The value `max_merit` ends with after scanning `cs`: it starts at 0
      and is raised to every larger mover count. */
  function MaxCount(g: Othello, cs: seq<int>): nat
    decreases |cs|
  {
    if cs == [] then 0
    else
      var before, count := MaxCount(g, cs[..|cs| - 1]), MoverCount(g, cs[|cs| - 1]);
      if before < count then count else before
  }

  /** MaxCount is the larger of 0 and the greatest mover count of `cs`:
      no candidate does better, and unless it is 0 some candidate reaches it. */
  lemma {:induction false} MaxCountIsGreatest(g: Othello, cs: seq<int>)
    ensures forall x :: x in cs ==> MoverCount(g, x) <= MaxCount(g, cs)
    ensures MaxCount(g, cs) == 0 || exists x :: x in cs && MoverCount(g, x) == MaxCount(g, cs)
    ensures cs == [] ==> MaxCount(g, cs) == 0
    decreases |cs|
  {
    if cs != [] {
      var pre := cs[..|cs| - 1];
      MaxCountIsGreatest(g, pre);
      assert cs == pre + [cs[|cs| - 1]];
    }
  }

  /** A count strictly above everything so far discards the earlier ties:
      the tie list becomes the one new move. */
  lemma GreaterCountResets(g: Othello, cs: seq<int>, c: int)
    requires MaxCount(g, cs) < MoverCount(g, c)
    ensures MaxCount(g, cs + [c]) == MoverCount(g, c)
    ensures Ties(g, cs + [c], MoverCount(g, c)) == [c]
  {
    var ext := cs + [c];
    assert ext[..|ext| - 1] == cs;
    MaxCountIsGreatest(g, cs);
    TiesNoneAtLevel(g, cs, MoverCount(g, c));
  }

  /** With at least one candidate the tie list of the best count is never
      empty, since every count is at least the initial 0. */
  lemma MaxTiesNonEmpty(g: Othello, cs: seq<int>)
    requires cs != []
    ensures Ties(g, cs, MaxCount(g, cs)) != []
  {
    MaxCountIsGreatest(g, cs);
    TiesMembership(g, cs, MaxCount(g, cs));
    if MaxCount(g, cs) == 0 {
      assert cs[0] in cs;
      assert MoverCount(g, cs[0]) == 0;
      assert cs[0] in Ties(g, cs, MaxCount(g, cs));
    } else {
      var x :| x in cs && MoverCount(g, x) == MaxCount(g, cs);
      assert x in Ties(g, cs, MaxCount(g, cs));
    }
  }

  /** Every candidate is scored by the entry of the side to move,
      `counter[turn]`: engines that agree on those counts yield the same
      `max_merit` and the same tie list, whatever the other side's counts. */
  lemma {:induction false} OnlyMoverCountsMatter(g1: Othello, g2: Othello, cs: seq<int>)
    requires forall x :: x in cs ==> MoverCount(g1, x) == MoverCount(g2, x)
    ensures MaxCount(g1, cs) == MaxCount(g2, cs)
    ensures Ties(g1, cs, MaxCount(g1, cs)) == Ties(g2, cs, MaxCount(g2, cs))
    decreases |cs|
  {
    if cs != [] {
      var pre := cs[..|cs| - 1];
      assert forall x :: x in pre ==> x in cs;
      OnlyMoverCountsMatter(g1, g2, pre);
      assert cs[|cs| - 1] in cs;
    }
    TiesFrame(g1, g2, cs, MaxCount(g1, cs));
  }

  /** The loop of `put_disk`: returns `max_strategy` and `max_merit` as
      they stand after every candidate has been scored. */
  method Scan(g: Othello) returns (maxStrategy: seq<int>, maxMerit: nat)
    ensures maxMerit == MaxCount(g, Candidates(g))
    ensures maxStrategy == Ties(g, Candidates(g), maxMerit)
  {
    var turn := g.turn;
    maxStrategy, maxMerit := [], 0;
    var candidates := g.reversible(turn);
    for i := 0 to |candidates|
      invariant maxMerit == MaxCount(g, candidates[..i])
      invariant maxStrategy == Ties(g, candidates[..i], maxMerit)
    {
      var candidate := candidates[i];
      var counter := g.countAfter(g.turn, candidate);
      assert candidates[..i + 1] == candidates[..i] + [candidate];
      if maxMerit < counter.Of(turn) {
        GreaterCountResets(g, candidates[..i], candidate);
        maxStrategy := [candidate];
        maxMerit := counter.Of(turn);
      } else if maxMerit == counter.Of(turn) {
        maxStrategy := maxStrategy + [candidate];
      }
    }
    assert candidates[..|candidates|] == candidates;
  }

  /** What `put_disk` may return: IndexError when there is no candidate,
      otherwise a move from the final tie list. */
  ghost predicate Admissible(g: Othello, r: Result<int>) {
    var cs := Candidates(g);
    if cs == [] then r == Failure(IndexError)
    else r.Success? && r.value in Ties(g, cs, MaxCount(g, cs))
  }

  /** `Maximize.put_disk`: a candidate whose mover count no other candidate
      beats, or IndexError from random.choice when there is no candidate. */
  method PutDisk(g: Othello) returns (r: Result<int>)
    ensures Admissible(g, r)
    ensures r.Failure? <==> Candidates(g) == []
    ensures r.Success? ==> r.value in Candidates(g)
    ensures r.Success? ==> forall x :: x in Candidates(g) ==> MoverCount(g, x) <= MoverCount(g, r.value)
  {
    var maxStrategy, maxMerit := Scan(g);
    var cs := Candidates(g);
    if cs != [] {
      MaxTiesNonEmpty(g, cs);
    }
    r := Choice(maxStrategy);
    if r.Success? {
      var v := r.value;
      assert v in maxStrategy;
      TiesMembership(g, cs, maxMerit);
      assert v in cs;
      MaxCountIsGreatest(g, cs);
    }
  }
}
