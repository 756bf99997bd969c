# EvolutionGame organism topology, in Dafny

This project models how EvolutionGame builds its creatures. An organism is a set
of anchors (point masses) joined by muscles (elastic edges). The builder numbers
the anchors 1..`anchors_nr`. It first lays a chain of muscles
1-2, 2-3, ..., (`anchors_nr`-1)-`anchors_nr`, so that no anchor is left loose.
It then adds muscles numbered `anchors_nr`..`muscles_nr`, each between two
randomly chosen, different anchors. Finally it overwrites `muscles_nr` with the
number of muscles it actually made. A population builds its organisms from
anchor and muscle counts drawn at random within its limits.

The modules:

- `Runtime` (runtime.dfy) covers the Python built-ins the builder depends on:
  `list(range(..))`, `list.remove`, `random.choice` and `random.randint`.
  Each exception they can raise becomes an `Err` value (`ChoiceFromEmpty` for
  IndexError, `RemoveMissing` and `EmptyRange` for the two ValueErrors). A
  random draw is a nondeterministic choice (`:|`), limited to the range the
  Python function promises.
- `Topology` (topology.dfy) treats the muscles as an undirected multigraph over
  the anchor numbers. It defines walks, reachability and connectivity, and
  proves that a chain connects every anchor.
- `Organisms` (organisms.dfy) holds `Anchor` and `Muscle` (values), `NewMuscle`
  (the muscle constructor's choice of endpoints) and the class `Organism`. The
  class's `InitializeAnchors` and `InitializeMuscles` build their lists in
  loops, as the source does. `BuiltMuscles` describes every muscle list the
  builder can produce, and the lemmas prove properties of it.
- `Populations` (population.dfy) holds the class `Population`, whose
  constructor samples the counts and builds the organisms.

Where the code and its doc-comments disagree, the model follows the code:

- The population loop runs over `range(1, organisms_nr)`, so it builds
  `organisms_nr - 1` organisms. The doc-comment calls `organisms_nr` the number
  of organisms.
- The doc-comment says the anchor limit is raised to 2 whatever the input.
  The code does not clamp it: `randint(2, anchors_nr_limit)` raises when the
  limit is below 2.

## Model

| member | source | states |
|---|---|---|
| `Runtime.Interval` | organismEvolutionGame.py:259 | `list(range(lo, hi))` holds exactly the integers lo..hi-1, ascending, with no repeats, and has max(0, hi-lo) elements |
| `Runtime.ListRemove` | organismEvolutionGame.py:263 | `list.remove` raises exactly when the value is absent. Otherwise it removes the first occurrence and keeps the other elements in order. Every other value keeps its membership. On a list without repeats, the removed value is gone and no repeats appear |
| `Runtime.Choice` | organismEvolutionGame.py:260 | `random.choice` raises exactly on an empty list; otherwise it returns an element of the list |
| `Runtime.RandInt` | organismEvolutionGame.py:27-28 | `random.randint(lo, hi)` raises exactly when hi < lo; otherwise it returns a value in lo..hi |
| `Organisms.NewMuscle` | organismEvolutionGame.py:255-270 | Two supplied endpoints are stored unchanged and unchecked. With none supplied it raises iff `anchors_nr` < 2; otherwise the ends are two different anchors of 1..`anchors_nr`. With one supplied it raises ValueError if that end is outside 1..`anchors_nr` and IndexError if `anchors_nr` is 1; otherwise it keeps the supplied end and picks a different in-range one. The muscle keeps its number |
| `Organisms.BuiltCount` | organismEvolutionGame.py:117-121 | the number of muscles made (chain plus muscles `anchors_nr`..`muscles_nr`) is never below `anchors_nr` - 1 and, for `anchors_nr` >= 1, equals max(`anchors_nr` - 1, `muscles_nr`) |
| `Organisms.Organism.InitializeAnchors` | organismEvolutionGame.py:91-95 | returns max(0, `anchors_nr`) anchors whose numbers are 1, 2, ... in list order |
| `Organisms.Organism.InitializeMuscles` | organismEvolutionGame.py:116-122 | Raises (IndexError, `muscles_nr` untouched) exactly when a random muscle is due and there are fewer than two anchors. Otherwise the list is one the builder can produce: the chain as its first `anchors_nr` - 1 muscles, every muscle joining two different anchors of 1..`anchors_nr`, numbers 1..len in order, length `BuiltCount`. The stored `muscles_nr` becomes that length |
| `Organisms.Organism.constructor` | organismEvolutionGame.py:67-71 | the organism keeps `anchors_nr`, gets numbered anchors and a muscle list the builder can produce, and its `muscles_nr` is the built count; its object invariant `Valid` holds |
| `Organisms.Organism.Describe` | organismEvolutionGame.py:73-81 | returns (`anchors_nr`, `muscles_nr`) and changes nothing; `muscles_nr` is the number of muscles and at least `anchors_nr` - 1 |
| `Organisms.Organism.EndAnchors` | organismEvolutionGame.py:289-291 | for every muscle of a built organism, `anchors[connection[0] - 1]` and `anchors[connection[1] - 1]` are in range, are the anchors numbered by the connection, and are two different anchors |
| `Organisms.BackboneConnects` | organismEvolutionGame.py:111-118 | any muscle list that begins with the chain connects all anchors, whatever the later muscles join |
| `Organisms.BuiltMusclesConnect` | organismEvolutionGame.py:109-122 | every muscle list the builder can produce makes a connected graph over 1..`anchors_nr` |
| `Organisms.SmallRequestGivesChain` | organismEvolutionGame.py:117-121 | when `muscles_nr` <= `anchors_nr` - 1 the builder produces exactly the chain, numbered 1..`anchors_nr` - 1 |
| `Organisms.FourAnchorsTwoMuscles` | organismEvolutionGame.py:117-121 | four anchors with two requested muscles give exactly the muscles (1,2), (2,3), (3,4): three, not two |
| `Organisms.OrganismConnected` | organismEvolutionGame.py:111 | every constructed organism is one connected structure: each anchor is reachable from each other one through muscles |
| `Topology.ChainConnects` | organismEvolutionGame.py:111 | if consecutive anchors i, i+1 are joined for every i in 1..n-1, every anchor of 1..n is reachable from every other by a walk that stays within 1..n |
| `Topology.ConnectedTouchesEveryAnchor` | organismEvolutionGame.py:111 | with two or more anchors, connectivity means every anchor is attached to some muscle, so an anchor that no muscle touches is not allowed |
| `Populations.Population.constructor` | organismEvolutionGame.py:20-31 | Builds max(0, `organisms_nr` - 1) fresh, distinct organisms. Each has 2..`anchors_nr_limit` anchors and a muscle count between max(1, `anchors_nr` - 1) and max(`anchors_nr` - 1, `muscles_nr_limit`). The limits are stored as given |
| `Populations.PopulationConnected` | organismEvolutionGame.py:26-31 | every organism of a population is connected |

## Left out

- Organisms.Organism.constructor: requires `MusclesBuildable` (at least two anchors, or no random muscle due) instead of raising, because a Dafny constructor cannot fail; the raise itself is modelled by `InitializeMuscles`, which returns `Err(ChoiceFromEmpty)` exactly in the excluded cases.
- Populations.Population.constructor: requires `anchors_nr_limit >= 2` and `muscles_nr_limit >= 1` whenever an organism is built (`organisms_nr >= 2`), instead of raising ValueError from `randint`, for the same reason; `RandInt` models the raise.
- Floating-point attributes are not modelled because they carry no structural invariant. These are the organism `size` and `center_correction`, and the anchor position, `friction`, `weight` and `size = weight*100`. They also include the muscle `contraction_time`, `contraction_speed` and `relaxation_time`, and the population's `size_limit` sample.
- `Mover.update`, `Organism.update` and the physics fields (location, velocity, gravity, the bounce at -0.5) are not modelled. They are floating-point integration over Processing's `PVector`, which is not part of this model.
- `initialDisplay`, `display`, `Anchor.display` and `Muscle.display` are left out because they are Processing drawing calls. Only the anchor lookup in `Muscle.display` is kept, as `EndAnchors`.
- The console output of `describe`, `describePopulation`, `describeAnchors`, `describeMuscles`, `Anchor.describe` and `Muscle.describe` is left out as I/O. Only `Organism.describe`'s returned pair is modelled. The other describers return the stored lists, or tuples of stored fields: floats, plus, for `Muscle.describe`, the muscle's connection pair, which is the modelled `Muscle.connection`.
- `animateOrganism` has an empty body.
- The pseudo-random generator is not modelled. Every draw is a nondeterministic choice within its range, so the model makes no claim about the distribution, only about the range.
- `active_window` is only passed on to the float and physics code above.
- Python's dynamic typing is not modelled. Endpoints are `Option<int>`, where `None` stands for an omitted argument; non-integer arguments are not modelled.
