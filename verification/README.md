# Kanban pull line — a Dafny model

This project models the engine of a Kanban pull-line simulation. Four stations
make up the line: cutting → folding → bonding → labeling. Each station holds
four things:

- a resource stock, the units it can consume;
- a produced stock, finished units waiting to be pushed downstream;
- a Kanban card, a replenishment request;
- the time of its last production event.

Each station visit (`process_item`) runs three steps in a fixed order:

1. **Production.** A unit of resource becomes a unit of produced stock once the
   sampled processing time has elapsed. A starved station clears the global
   stop flag instead.
2. **Push transfer.** The station tops its successor up to 100 units, but only
   while the successor's card is set. The card is cleared only when the
   request is met in full.
3. **Kanban trigger.** The station raises its own card when its resource stock
   is at or below 60 times its optimal stock.

A shift (`simulate_shift`) repeats ticks. A tick visits the four stations in
line order. The shift ends when one of three things happens: the shift
duration is reached, the stop flag has been cleared, or every resource stock
is at or below zero after a tick.

The project has two files:

- `line.dfy`, module `KanbanLine`, is the value-level rulebook. It holds the
  stations (`Post`), a per-station table `PerPost<T>` that stands for the
  source's dictionaries keyed by station, the line state `LineState` and the
  configuration `Config`. The functions `Produce`, `Push`, `Raise`, `Step`,
  `Tick` and `Shift` give one step, one visit, one tick and one shift. The lemmas
  state what each of them guarantees.
- `simulation.dfy`, module `Simulation`, holds the engine as the source runs
  it. Class `Simulation` holds the dictionaries and the stop flag as fields
  that its methods update in place. `ProcessItem` runs one station visit and
  `Run` runs the shift loop. Each method's postcondition ties the new state to
  the rulebook function of the old state.

Clock and randomness are inputs. `ProcessItem` takes the current time `now`
and the processing time sampled for that visit. `Run` takes the start time,
a positive clock step per tick, and a sampler `sample(tick, station)`. Cutting's
unbounded raw-material feed (`float('inf')`) is a flag, `Config.unbounded`.
While it is set, cutting's resource stock is never at or below any bound and a
production event does not lower it, exactly as infinity behaves in the source.

Three points where the code does something other than its own comments or
names suggest. The model follows the code:

- The threshold table labels the green level a percentage (`# >60% stock`,
  simulation.py:22). The trigger, however, compares the resource stock with
  `60 * optimal_stock`, not 60 % of it.
- The starvation branch is commented `# brutal stop` (simulation.py:70), but
  all it does is clear the stop flag. The starved station still runs its own
  transfer and trigger steps, and the stations after it in the same tick are
  still visited. The loop stops only at the next tick boundary.
- The `full` threshold of 100 does not cap every resource stock at all times.
  The code only bounds the successor's stock after a transfer, and starting
  stocks are inputs that may exceed 100. The model therefore proves the cap
  as an invariant: if every finite resource stock starts at or below 100, it
  stays there. An unbounded cutting feed is exempt, as `inf <= 100` is false
  in the source.

## Model

| member | source | states |
|---|---|---|
| `KanbanLine.Index` | simulation.py:13-18 | every station has a position in the station table's key order, and that position maps back to the station |
| `KanbanLine.Successor` | simulation.py:78-79 | labeling and only labeling has no successor; every other station's successor is the next key in line order; nothing feeds cutting |
| `KanbanLine.Produce` | simulation.py:64-75 | step 1 of a visit as a value: the starvation branch or the timed one-unit production; no contract of its own, `ProductionRule` and `ProductionBalance` state what it does |
| `KanbanLine.ProductionRule` | simulation.py:64-75 | the stop flag is lowered exactly when the station is starved; one unit of resource becomes one unit of produced stock exactly when the station is not starved and elapsed ≥ sampled duration, and the timer then resets to `now`; otherwise stocks and timer are unchanged; cards and other stations are untouched; an unbounded cutting feed is not decremented |
| `KanbanLine.ProductionBalance` | simulation.py:72-75 | production adds no unit to the line except from an unbounded cutting feed; it never overfills a finite buffer and never makes a produced stock negative |
| `KanbanLine.Push` | simulation.py:77-86 | step 2 of a visit as a value: the push transfer to the successor; no contract of its own, `TransferRule`, `NoTransfer` and `TransferBalance` state what it does |
| `KanbanLine.TransferRule` | simulation.py:79-86 | with the successor's card set and produced ≥ 0: the sender loses and the successor gains `min(100 − successor resource, produced)`; their sum is unchanged; the card clears iff needed ≤ produced, and the successor then holds exactly 100; on a partial transfer the card stays set and the sender's produced stock is 0; afterwards produced ≥ 0 and successor resource ≤ 100, even when an over-full successor sends units back; no other entry and no timer changes |
| `KanbanLine.NoTransfer` | simulation.py:78-81 | no transfer happens when the successor's card is down, when the sender's produced stock is negative, or from labeling |
| `KanbanLine.TransferBalance` | simulation.py:81-86 | a transfer keeps the total number of units on the line, keeps every finite buffer within capacity and every produced stock non-negative |
| `KanbanLine.Raise` | simulation.py:88-90 | step 3 of a visit as a value: the Kanban trigger; no contract of its own, `TriggerRule` states what it does |
| `KanbanLine.TriggerRule` | simulation.py:89-90 | the station's card is set whenever its resource ≤ 60 × optimal stock, whatever its previous value; otherwise it is unchanged; no other card and no stock changes |
| `KanbanLine.Step` | simulation.py:58-90 | one station visit, production then transfer then trigger; no contract of its own, `StepFlags`, `StepWhenStarved`, `StepFrame` and `StepBalance` state what it does |
| `KanbanLine.StepFlags` | simulation.py:58-90 | after a visit the stop flag is up iff it was up and the station was not starved; a station never lowers its own card; the only card a visit can lower is the successor's |
| `KanbanLine.StepWhenStarved` | simulation.py:68-90 | a starved station lowers the stop flag and keeps its timer, but still pushes `min(needed, produced)` when its successor's card is set, and still raises its own card (for a non-negative optimal stock) |
| `KanbanLine.StepFrame` | simulation.py:58-90 | a visit leaves every station other than `post` and its successor untouched |
| `KanbanLine.StepBalance` | simulation.py:58-90 | a visit conserves the units on the line, except the one unit that an unbounded cutting feed produces; it keeps finite buffers within capacity and produced stocks non-negative |
| `KanbanLine.Tick` | simulation.py:136-137 | the first `k` visits of a tick, in key order, all at the same time; no contract of its own, `TickOutcome` and `TickOrder` state what it does |
| `KanbanLine.TickOutcome` | simulation.py:136-137 | a tick never raises the stop flag again, never lowers cutting's card, keeps the capacity and non-negativity invariants, never loses units, and conserves them when the feed is bounded |
| `KanbanLine.TickOrder` | simulation.py:136-137 | a tick visits cutting, folding, bonding and labeling in that order, each visit seeing the state left by the previous one |
| `KanbanLine.Shift` | simulation.py:135-160 | the shift loop from a given elapsed time and tick count; no contract of its own, `ShiftOutcome` and `StopEndsShift` state what it does |
| `KanbanLine.ShiftOutcome` | simulation.py:135-160 | the loop ends only when elapsed ≥ shift duration, the stop flag is down, or every station is starved; with the flag down no tick starts; the flag never comes back up; the clock only advances and overshoots the shift by less than one step; cutting's card, the capacity cap, non-negative produced stock and (with a bounded feed) the unit total hold over the whole run |
| `KanbanLine.StopEndsShift` | simulation.py:135-137 | a tick in which a station was starved is the last tick of the shift |
| `Simulation.Simulation.constructor` | simulation.py:10-112 | a fresh line has the stop flag up (line 10); nothing produced, no card raised, every timer at the start time and the given starting buffers (lines 28-54); and the optimal stocks given for the shift (lines 111-112) |
| `Simulation.Simulation.ProcessItem` | simulation.py:58-90 | updates the fields in place, so that the new state is `Step` of the old one |
| `Simulation.Simulation.Production` | simulation.py:64-75 | updates the fields in place, so that the new state is `Produce` of the old one |
| `Simulation.Simulation.Transfer` | simulation.py:77-86 | updates the fields in place, so that the new state is `Push` of the old one |
| `Simulation.Simulation.Trigger` | simulation.py:88-90 | updates the fields in place, so that the new state is `Raise` of the old one |
| `Simulation.Simulation.RunTick` | simulation.py:136-137 | the `for` loop over the stations leaves the state at `Tick` of the state before it |
| `Simulation.Simulation.AllExhausted` | simulation.py:158-160 | true exactly when every station's resource stock is at or below zero |
| `Simulation.Simulation.Run` | simulation.py:135-160 | the `while` loop ends in the final state, elapsed time and tick count that `Shift` gives for the starting state |

## Left out

- Processing-time samplers and lead times (simulation.py:13-18, 43-48): random floating-point draws. Each visit takes the sampled duration as a parameter, and `Run` takes a sampler function. A sample is only used when the station is not starved, as in the source, where the sampler is not called in that case.
- Wall clock and pacing (`time.time()`, `time.sleep(1)`): replaced by a virtual integer clock. All visits of one tick see the same time `start + elapsed`, and `elapsed` grows by a fixed positive step per tick. Times are integers, not floats.
- CSV export (`write_to_csv` and the header file), the live matplotlib chart with its `stock_data`/`time_data` series, and the console output: presentation and file I/O, with no effect on stocks, cards or the flag.
- The stock-sizing heuristic `calculate_stock_levels` in main.py and the starting-stock setup there: the optimal stocks and starting buffers are constructor inputs.
- The unused constants `processing_timers`, `safety_factor` and the yellow/red thresholds: nothing in the engine reads them.
- The global `optimal_stock` assignment at the top of `simulate_shift` is folded into the constructor. Every station always has an entry, so the source's `KeyError` on a missing station cannot arise.
- State between shifts: `produced_stock`, `resource_stock`, `kanban_cards`, `last_processed_time` and the stop flag are module-level globals (simulation.py:10, 28-53), so a second `simulate_shift` in the same process inherits the stocks, cards and timers the first one left, and a lowered flag when the first ended by starvation. The model starts every shift from a fresh `Simulation` object, built by its constructor.
- Kanban cards are booleans. The source stores only 0 and 1 and tests `!= 0`.
