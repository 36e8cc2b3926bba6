/** The "random" strategy: any legal move of the side to move. */
module RandomStrategy {
  import opened Errors
  import opened Game

  /** What `put_disk` may return: IndexError when there is no candidate,
      otherwise any candidate. */
  ghost predicate Admissible(g: Othello, r: Result<int>) {
    if Candidates(g) == [] then r == Failure(IndexError)
    else r.Success? && r.value in Candidates(g)
  }

  /** `Random.put_disk`: random.choice over the candidates. */
  method PutDisk(g: Othello) returns (r: Result<int>)
    ensures Admissible(g, r)
    ensures r.Failure? <==> Candidates(g) == []
  {
    r := Choice(g.reversible(g.turn));
  }
}
