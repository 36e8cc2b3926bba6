# Reversi move-selection strategies, modelled in Dafny

This project models the strategy layer of a Reversi (Othello) player. A
`Strategy` object holds one installed strategy, picked by name, and forwards
each move request to it. Two of the strategies are greedy:

- "maximize" plays a move after which the side to move owns as many disks as possible.
- "minimize" plays a move after which it owns as few as possible.

Each greedy strategy walks the legal moves once. It keeps a running best count
and a list of the moves that tie it, then picks one of them with
`random.choice`.

The board engine is not part of this model. That covers the legal moves
(`reversible_area_list`), simulated plays (`simulate_play`) and disk counting
(`count_disks`). The strategies only ask the engine three questions, and the
datatype `Game.Othello` holds the answers:

- the side to move;
- the legal moves of a side;
- the disk counts after a side plays a move.

`random.choice` is modelled as a choice of any element of the list, with an
IndexError on an empty list. It is not a random number generator.

Modules, one per source file:

- `Errors` (errors.dfy): the exceptions raised, as `Result` and `Outcome` values.
- `Game` (game.dfy): the engine's answers, the tie list `Ties`, and `Choice` (random.choice). `MoverCount(g, move)` is a plain definition: `counter[turn]` after `simulate_play(othello.turn, candidate)`, the score both greedy loops use.
- `MaximizeStrategy` (maximize.dfy): strategy/maximize.py.
- `MinimizeStrategy` (minimize.dfy): strategy/minimize.py. The `float("inf")` start value is the `Infinity` case of `Merit`.
- `RandomStrategy` (random.dfy): strategy/random.py. Only `Selecter` uses it.
- `Strategies` (strategy.dfy): strategy/strategy.py, with the class `Strategy` holding `installed` (`self._strategy`).

Where the documentation and the code disagree, the model follows the code.
The class doc-comment of strategy/minimize.py (line 8) says the strategy
maximizes. Its loop minimizes (lines 43-47).

## Model

| member | source | states |
|---|---|---|
| `Game.Choice` | strategy/maximize.py:48 | random.choice fails with IndexError exactly when the list is empty; otherwise it returns an element of the list |
| `Game.TiesMembership` | strategy/maximize.py:43-47 | a move is in the tie list for count m if and only if it is a candidate and its mover count is m |
| `Game.TiesMultiplicity` | strategy/maximize.py:39-47 | every move with count m occurs in the tie list exactly as often as among the candidates; every other move does not occur at all |
| `Game.TiesSubsequence` | strategy/maximize.py:39-47 | the tie list keeps the candidates' relative order |
| `Game.TiesDistinct` | strategy/maximize.py:39-47 | with distinct candidates, the tie list holds each move at most once |
| `Game.TiesNoneAtLevel` | strategy/maximize.py:43-45 | when no candidate has count m, the tie list for m is empty |
| `Game.TiesFrame` | strategy/maximize.py:40-43 | the tie list depends only on the mover's counts for the candidates; both strategies score with these lines (minimize.py:40-43 too) |
| `MaximizeStrategy.MaxCountIsGreatest` | strategy/maximize.py:36-45 | the final max_merit bounds every candidate's mover count; it is 0 or reached by some candidate; it is 0 with no candidates (so it is the larger of 0 and the greatest count) |
| `MaximizeStrategy.GreaterCountResets` | strategy/maximize.py:43-45 | a count strictly above the running maximum becomes the new maximum, and the tie list becomes that one move |
| `MaximizeStrategy.MaxTiesNonEmpty` | strategy/maximize.py:36-47 | with at least one candidate, the tie list of the maximum is non-empty |
| `MaximizeStrategy.OnlyMoverCountsMatter` | strategy/maximize.py:34-43 | every candidate is scored by counter[turn] for the one side to move; engines that agree on those counts give the same max_merit and tie list |
| `MaximizeStrategy.Scan` | strategy/maximize.py:33-47 | after the loop, max_merit is MaxCount of the candidates and max_strategy is their tie list for it |
| `MaximizeStrategy.PutDisk` | strategy/maximize.py:33-48 | IndexError exactly when there are no candidates; otherwise the move is a candidate from the final tie list, and no candidate gives the mover more disks |
| `MinimizeStrategy.Merit.Exceeds` | strategy/minimize.py:43-46 | min_merit > count excludes min_merit == count, so the reset and append branches never both apply; when it fails, min_merit is a finite count no larger than the new one |
| `MinimizeStrategy.FirstCandidateResets` | strategy/minimize.py:36-45 | the infinite start is above every count, so the first candidate always resets: min_merit becomes its count and the tie list is that one move |
| `MinimizeStrategy.MinCountIsLeast` | strategy/minimize.py:36-45 | the final min_merit is infinite exactly when there are no candidates; otherwise it is reached by some candidate and no candidate goes below it |
| `MinimizeStrategy.SmallerCountResets` | strategy/minimize.py:43-45 | a count strictly below the running minimum (or below infinity) becomes the new minimum, and the tie list becomes that one move |
| `MinimizeStrategy.MinTiesAreTheMinima` | strategy/minimize.py:43-47 | a move is in the final tie list if and only if it is a candidate with the least count; the list is empty only without candidates |
| `MinimizeStrategy.OnlyMoverCountsMatter` | strategy/minimize.py:34-43 | every candidate is scored by counter[turn] for the one side to move; engines that agree on those counts give the same min_merit and tie list |
| `MinimizeStrategy.Scan` | strategy/minimize.py:33-47 | after the loop, min_merit is MinCount of the candidates and min_strategy is the tie list of that minimum |
| `MinimizeStrategy.PutDisk` | strategy/minimize.py:33-48 | IndexError exactly when there are no candidates; otherwise the move is a candidate from the final tie list, and no candidate leaves the mover fewer disks |
| `RandomStrategy.PutDisk` | strategy/random.py:45-46 | IndexError exactly when there are no candidates; otherwise some candidate |
| `Strategies.Construct` | strategy/strategy.py:53-68 | the call fails exactly when a keyword argument is named "self" or "strategy" (TypeError, whatever the name), when the name is outside the seven accepted ones (KeyError), or for QLearning with a keyword its constructor does not take (TypeError) |
| `Strategies.RepeatedParameterIsTypeError` | strategy/strategy.py:44 | a keyword argument that repeats a parameter of set_strategy ("self" or "strategy") raises TypeError for every name |
| `Strategies.NameTable` | strategy/strategy.py:53-66 | with no repeated parameter among the keywords, each accepted name builds its own kind; "min-max short", "min-max" and "min-max long" search depths 2, 4 and 6, strictly increasing |
| `Strategies.UnknownNameIsKeyError` | strategy/strategy.py:67-68 | any name not matched exactly raises KeyError (when no keyword repeats a parameter of set_strategy) |
| `Strategies.KwargsReachOnlyQLearning` | strategy/strategy.py:53-66 | for every name but "QLearning", keyword arguments that do not repeat a parameter of set_strategy change nothing |
| `Strategies.KindDependsOnlyOnName` | strategy/strategy.py:44-66 | installing the same name twice installs the same kind |
| `Strategies.Strategy.constructor` | strategy/strategy.py:31-42 | construction without a name installs the Random strategy |
| `Strategies.Strategy.Create` | strategy/strategy.py:31-42 | construction with a name installs what that name builds, or raises KeyError and gives no object |
| `Strategies.Strategy.SetStrategy` | strategy/strategy.py:44-68 | installs what the name builds; on KeyError or TypeError it reports the error and the installed strategy is unchanged |
| `Strategies.Strategy.Selecter` | strategy/strategy.py:70-84 | returns exactly what the installed strategy's put_disk returns |

## Left out

- The board engine (bitboards, legal-move generation, simulated plays, disk counting) is not part of this model. Its answers are the fields of `Game.Othello`.
- The min-max searcher (`MinmaxC`) is not part of this model. `Selecter` takes its answer for each depth as the parameter `minmax`.
- The Q-learning player is left out. Its learning is floating-point, its move choice uses `random.random`, and its tables are pickle file I/O. `Selecter` takes its answer as the parameter `qlearning`. Only its constructor's accepted keyword names (strategy/qlearning.py:35) are modelled.
- Keyword argument values are opaque. They are modelled as strings, because only their names matter to the code modelled here.
- The `othello` argument of `Strategy.__init__` is unused by the source and is omitted.
- Each `set_strategy` call in the source builds a new strategy object. The model records only which kind is installed, so object identity is not captured.
- Randomness is nondeterministic choice: `Game.Choice` may return any element, and no distribution is modelled.
- The GUI, the Elo rating code and the training scripts are left out. They are UI, floating-point arithmetic, file I/O and process orchestration.
