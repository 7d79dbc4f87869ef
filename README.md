# Race simulator core, modelled in Dafny

This project models the simulation logic of a small race simulator
(`simulador_carrera.py`). A fixed field of five runners laps a 50-unit loop
track. On each tick every runner's speed is perturbed. The tick then
accounts a notional lap time (track length over speed), the covered
distance, the completed laps and the best lap. A start/stop flag gates the
race. A second loop derives a leaderboard with each runner's gap to the
leader and gap to the next-ranked runner.

Files and modules:

- `wrappers.dfy` (`Wrappers`): the `Option` type. `None` stands for the
  best lap's initial `float("inf")` and for "no document".
- `runner.dfy` (`Runners`): the `RunnerRecord` value and the `Runner`
  class. The class is the runner dictionary, updated in place by
  `SimulateLap`. `Tick` is the pure update rule that `SimulateLap` is
  proved against. There are also lemmas about repeated ticks.
- `timing.dfy` (`Timing`): the leader, the stable time ordering, the
  `list.index` lookup and the two gaps of `generar_xml`, as pure functions
  over a list of runner records.
- `race.dfy` (`Race`): the `Race` class. It holds the module globals
  `corredores` and `simulacion_activa`. Its methods are runner
  initialisation, start, stop, one iteration of the simulation loop and one
  iteration of the export loop.

Randomness is a parameter. The initial speeds (`random.uniform(8, 9)`) and
the per-tick perturbations (`random.uniform(-0.8, 0.8)`) are passed in by
the caller. Numbers are Dafny `real`s.

The source divides by the perturbed speed without a guard. So `Tick`,
`SimulateLap` and `Step` require each perturbed speed to be positive.
`FirstNineTicksAreSafe` shows that the drawn ranges guarantee this for the
first nine ticks. `TenthTickCanReachZeroSpeed` exhibits ten in-range draws
after which the tenth tick divides by zero.

Where the code and its design description differ, the model follows the
code:

- Ties in the ranking are broken by list position: `min` keeps the first
  minimum and `sorted` is stable. The design text says "by id". The two
  agree while the list is in id order, which `SortRanksByTimeThenId`
  proves.
- Initial speeds come from the closed range [8, 9], as `random.uniform`
  gives them. The design text says the range is half-open.
- The runner count is the constant 5. No "invalid configuration" path
  exists, so none is modelled.
- The best lap starts as infinity while the last lap starts at 0.0. So
  "best lap ≤ last lap" holds only once a lap has been timed. `WellFormed`
  states it that way.

## Model

| member | source | states |
|---|---|---|
| `Runners.LapsCovered` | simulador_carrera.py:60 | the lap count is the integer floor of distance over track length: at most the ratio and more than the ratio minus one, and non-negative for a non-negative distance |
| `Runners.InitialRecord` | simulador_carrera.py:41-49 | a new runner has the given id and speed, zero laps, times and distance, no best lap yet, and is well formed |
| `Runners.Tick` | simulador_carrera.py:52-63 | one tick keeps the id, sets the speed to old speed + noise, records lap time = track / new speed (> 0), adds exactly that to the total time and the new speed to the distance (both strictly grow), sets laps = floor(distance / track), and makes the best lap min(old best, this lap); a well-formed runner stays well formed and never loses a lap |
| `Runners.Runner.constructor` | simulador_carrera.py:41-49 | the runner dictionary literal of `inicializar_corredores` equals `InitialRecord(id, speed)` |
| `Runners.Runner.SimulateLap` | simulador_carrera.py:52-63 | updating the runner in place leaves exactly the fields `Tick` gives for the old fields and the noise |
| `Runners.Run` | simulador_carrera.py:103-106 | repeated ticks keep the id, never decrease total time or distance, strictly increase both after at least one tick, and keep a well-formed runner well formed with a non-decreasing lap count |
| `Runners.RunBestLapIsMinimum` | simulador_carrera.py:57-63 | after one or more ticks the best lap is the minimum of the previous best and every lap time recorded, it is one of them, and the last lap is the last one recorded |
| `Runners.BoundedNoiseKeepsSpeedPositive` | simulador_carrera.py:53-54 | while the number of ticks times 0.8 is below the speed, in-range noise never makes a perturbed speed non-positive |
| `Runners.FirstNineTicksAreSafe` | simulador_carrera.py:40-54 | from an initial speed in [8, 9], any nine ticks of in-range noise divide by a positive speed |
| `Runners.TenthTickCanReachZeroSpeed` | simulador_carrera.py:53-54 | ten in-range draws of -0.8 from speed 8 make the tenth perturbed speed non-positive, so the unguarded division fails |
| `Timing.LeaderIndex` | simulador_carrera.py:69 | the leader has the least total time, and every runner listed before it is strictly slower (the first minimum, as `min` picks it) |
| `Timing.SortByTime` | simulador_carrera.py:84 | the ranking is ordered by total time and is a permutation of the runner list |
| `Timing.SortIsStable` | simulador_carrera.py:84 | for every total time, the runners with that time appear in the ranking in their list order |
| `Timing.SortRanksByTimeThenId` | simulador_carrera.py:84 | for a list in increasing id order, the ranking is strictly ordered by total time, then id |
| `Timing.LeaderRanksFirst` | simulador_carrera.py:69-84 | the runner `min` picks as leader is exactly the first of the ranking |
| `Timing.IndexOf` | simulador_carrera.py:85 | `list.index` returns the first position holding an equal record |
| `Timing.Leaderboard` | simulador_carrera.py:69-92 | an empty list gives no document (`min` raises); otherwise the document has one entry per runner |
| `Timing.LeaderboardKeepsListOrder` | simulador_carrera.py:71-81 | entry i belongs to runner i of the list (not the ranking) and carries its id, laps, speed, last lap, total, best lap and distance |
| `Timing.GapToLeaderIsNonNegative` | simulador_carrera.py:83 | each gap to the leader is own total minus the leader's total, is never negative, and is zero for the leader |
| `Timing.GapToNextIsNonPositive` | simulador_carrera.py:84-91 | each gap to the next is own total minus the total of the runner right after it in the ranking, never positive, and 0.0 for the last-ranked runner |
| `Race.InitialRecords` | simulador_carrera.py:36-49 | the built list has one runner per drawn speed; runner k has id k + 1, that speed and zeroed counters |
| `Race.InitialFieldIsValid` | simulador_carrera.py:36-49 | a freshly built list has ids 1..N in order, every runner well formed, and every initial speed in [8, 9] |
| `Race.TickAll` | simulador_carrera.py:106 | one tick of the field advances each runner by its own noise, independently of the others |
| `Race.TickAllKeepsFieldValid` | simulador_carrera.py:56-60 | a tick of the field keeps ids 1..N and every runner well formed, strictly increases every total time and distance, and never lowers a lap count |
| `Race.AdvanceField` | simulador_carrera.py:106 | updating the distinct runner objects in place leaves the field `TickAll` gives |
| `Race.Race.constructor` | simulador_carrera.py:31-33 | the program starts with no runners and the race inactive |
| `Race.Race.InitializeRunners` | simulador_carrera.py:36-49 | the runner list is replaced by five new runner objects whose records are `InitialRecords(speeds)`; the flag is untouched |
| `Race.Race.Start` | simulador_carrera.py:114-125 | when inactive: the race becomes active, the reply is "started" and the runners are rebuilt; when active: the reply is "already active" and the runners are untouched |
| `Race.Race.Stop` | simulador_carrera.py:128-135 | the race ends inactive; the reply is "stopped" if it was active and "not active" otherwise; the runners are never touched |
| `Race.Race.Step` | simulador_carrera.py:103-111 | if active, every runner advances once (`TickAll`), keeping the field valid; if inactive, nothing changes and the loop ends |
| `Race.Race.Export` | simulador_carrera.py:66-92 | while active the export yields the leaderboard of the current runners, which always exists and has five entries; once inactive it yields nothing |
| `Race.StartStopTwice` | simulador_carrera.py:117-135 | start twice answers "started" then "already active"; stop twice answers "stopped" then "not active" |
| `Race.EvenStartTies` | simulador_carrera.py:52-83 | three runners at speed 8 with zero noise: after one tick each has lap time 6.25, distance 8 and no lap, and all tie with gap 0 to the leader |

## Left out

- The web routes, CORS setup and health endpoint are not modelled. They are transport plumbing.
- The Socket.IO server, `sio.emit` and the connect/disconnect handlers are not modelled. They are network I/O, and the emitted payload is just the runner list.
- The XML document is not modelled. That covers building and serialising it, writing and reading `timing.xml`, and the "not available" reply before the first write. Those are a foreign library and file I/O. The model keeps the entries as values.
- The `:.2f` formatting of the numbers is not modelled. It is float-to-text conversion; the model keeps the real values.
- `random.uniform` is not modelled. Its draws are parameters. Their ranges appear as `InitialSpeedsDrawn` and `NoiseInRange`.
- `start_time`, `datetime.now()` and the elapsed-time timestamp are not modelled. They read the wall clock.
- The `asyncio` tasks, `gather`, `sleep` and the interleaving of the export and simulation loops are not modelled. Each loop is modelled as one iteration (`Race.Race.Step`, `Race.Race.Export`). A caller may interleave them in any order.
- IEEE float rounding, infinity arithmetic and division by zero are not modelled. Numbers are exact reals. Division requires a positive speed.
- Runners.Tick: requires the perturbed speed to be positive, because the source divides by it unguarded.
- Race.Race.Step: requires every perturbed speed to be positive, for the same reason.
