/** Strategy dispatch: a `Strategy` object holds one installed strategy,
    chosen by name, and hands every move request to it. */
module Strategies {
  import opened Errors
  import opened Game
  import RandomStrategy
  import MaximizeStrategy
  import MinimizeStrategy

  /** Keyword arguments, by name; their values are opaque here. */
  type Kwargs = map<string, string>

  /** The strategy objects `set_strategy` can install. `Minmax` is a
      min-max searcher of the given depth; `QLearning` keeps the keyword
      arguments it was constructed with. */
  datatype Kind =
    | Random
    | Maximize
    | Minimize
    | Minmax(depth: nat)
    | QLearning(kwargs: Kwargs)

  /** The names `set_strategy` accepts. */
  const Names: set<string> :=
    {"random", "maximize", "minimize", "min-max short", "min-max", "min-max long", "QLearning"}

  /** The keyword parameters of the QLearning constructor. */
  const QLearningParameters: set<string> := {"alpha", "gamma", "epsilon", "Q_values"}

  /** The named parameters of `set_strategy` itself: a keyword argument with
      one of these names is a second value for it, and Python raises
      TypeError when binding the call, before the body runs. */
  const BoundParameters: set<string> := {"self", "strategy"}

  /** Two installed strategies of the same kind (a QLearning object is of
      one kind whatever its arguments). */
  predicate SameKind(a: Kind, b: Kind) {
    match (a, b)
    case (Random, Random) => true
    case (Maximize, Maximize) => true
    case (Minimize, Minimize) => true
    case (Minmax(d), Minmax(e)) => d == e
    case (QLearning(_), QLearning(_)) => true
    case _ => false
  }

  /** The call `set_strategy(name, **kwargs)` up to its assignment: the
      TypeError of a keyword that repeats one of its own parameters, then
      the decision chain (the strategy a name builds, a KeyError for any
      other name, and the TypeError `QLearning(**kwargs)` raises for a
      keyword it does not take). */
  function Construct(name: string, kwargs: Kwargs): (r: Result<Kind>)
    ensures r.Failure? <==>
      || !(kwargs.Keys !! BoundParameters)
      || name !in Names
      || (name == "QLearning" && !(kwargs.Keys <= QLearningParameters))
    ensures r.Failure? ==>
      r.error == (if kwargs.Keys !! BoundParameters && name !in Names then KeyError else TypeError)
  {
    if !(kwargs.Keys !! BoundParameters) then Failure(TypeError)
    else if name == "random" then Success(Random)
    else if name == "maximize" then Success(Maximize)
    else if name == "minimize" then Success(Minimize)
    else if name == "min-max short" then Success(Minmax(2))
    else if name == "min-max" then Success(Minmax(4))
    else if name == "min-max long" then Success(Minmax(6))
    else if name == "QLearning" then
      if kwargs.Keys <= QLearningParameters then Success(QLearning(kwargs)) else Failure(TypeError)
    else Failure(KeyError)
  }

  /** Each accepted name installs its own kind; the three min-max names
      search 2, 4 and 6 plies, in strictly increasing order. */
  lemma NameTable(kwargs: Kwargs)
    requires kwargs.Keys !! BoundParameters
    ensures Construct("random", kwargs) == Success(Random)
    ensures Construct("maximize", kwargs) == Success(Maximize)
    ensures Construct("minimize", kwargs) == Success(Minimize)
    ensures Construct("min-max short", kwargs) == Success(Minmax(2))
    ensures Construct("min-max", kwargs) == Success(Minmax(4))
    ensures Construct("min-max long", kwargs) == Success(Minmax(6))
    ensures kwargs.Keys <= QLearningParameters ==> Construct("QLearning", kwargs) == Success(QLearning(kwargs))
    ensures Construct("min-max short", kwargs).value.depth < Construct("min-max", kwargs).value.depth
              < Construct("min-max long", kwargs).value.depth
  {
  }

  /** A keyword argument named "self" or "strategy" is a TypeError,
      whatever the name. */
  lemma RepeatedParameterIsTypeError(name: string, kwargs: Kwargs)
    requires !(kwargs.Keys !! BoundParameters)
    ensures Construct(name, kwargs) == Failure(TypeError)
  {
  }

  /** Names match exactly: any other string, however close, is a KeyError. */
  lemma UnknownNameIsKeyError(name: string, kwargs: Kwargs)
    requires name !in Names
    requires kwargs.Keys !! BoundParameters
    ensures Construct(name, kwargs) == Failure(KeyError)
  {
  }

  /** Keyword arguments reach only the QLearning constructor: for every
      other name, keywords that bind no parameter of `set_strategy`
      neither change the result nor cause an error. */
  lemma KwargsReachOnlyQLearning(name: string, k1: Kwargs, k2: Kwargs)
    requires name != "QLearning"
    requires k1.Keys !! BoundParameters && k2.Keys !! BoundParameters
    ensures Construct(name, k1) == Construct(name, k2)
  {
  }

  /** The kind installed depends on the name alone, so installing the same
      name twice leaves the same kind installed. */
  lemma KindDependsOnlyOnName(name: string, k1: Kwargs, k2: Kwargs)
    requires Construct(name, k1).Success? && Construct(name, k2).Success?
    ensures SameKind(Construct(name, k1).value, Construct(name, k2).value)
  {
  }

  class Strategy {
    /** `self._strategy` */
    var installed: Kind

    /** `Strategy(othello)`: the name defaults to "random". */
    constructor ()
      ensures installed == Random
    {
      installed := Random;
    }

    /** `Strategy(othello, name)`: installs the named strategy, or raises
      KeyError so that no object results. */
    static method Create(name: string) returns (r: Result<Strategy>)
      ensures r.Failure? <==> name !in Names
      ensures r.Failure? ==> r.error == KeyError
      ensures r.Success? ==> fresh(r.value) && Construct(name, map[]) == Success(r.value.installed)
    {
      var s := new Strategy();
      var o := s.SetStrategy(name, map[]);
      if o.Fail? {
        r := Failure(o.error);
      } else {
        r := Success(s);
      }
    }

    /** `set_strategy(name, **kwargs)`: installs what the name builds; on an
        error nothing is assigned and the old strategy stays installed. */
    method SetStrategy(name: string, kwargs: Kwargs) returns (o: Outcome)
      modifies this
      ensures o.Fail? <==> Construct(name, kwargs).Failure?
      ensures o.Fail? ==> o.error == Construct(name, kwargs).error && installed == old(installed)
      ensures o.Pass? ==> installed == Construct(name, kwargs).value
    {
      var built := Construct(name, kwargs);
      if built.Failure? {
        o := Fail(built.error);
      } else {
        installed := built.value;
        o := Pass;
      }
    }

    /** `selecter(othello)`: whatever the installed strategy's `put_disk`
        returns. The min-max searcher and the Q-learning player are not
        part of this model: `minmax(depth)` and `qlearning(kwargs)` stand
        for what those objects answer on `g`. */
    method Selecter(g: Othello, minmax: nat -> Result<int>, qlearning: Kwargs -> Result<int>)
      returns (r: Result<int>)
      ensures installed.Random? ==> RandomStrategy.Admissible(g, r)
      ensures installed.Maximize? ==> MaximizeStrategy.Admissible(g, r)
      ensures installed.Minimize? ==> MinimizeStrategy.Admissible(g, r)
      ensures installed.Minmax? ==> r == minmax(installed.depth)
      ensures installed.QLearning? ==> r == qlearning(installed.kwargs)
    {
      match installed
      case Random => r := RandomStrategy.PutDisk(g);
      case Maximize => r := MaximizeStrategy.PutDisk(g);
      case Minimize => r := MinimizeStrategy.PutDisk(g);
      case Minmax(depth) => r := minmax(depth);
      case QLearning(kwargs) => r := qlearning(kwargs);
    }
  }
}
