/** The simulation engine as the source runs it: one object holds the per-station
    dictionaries and the stop flag, `ProcessItem` updates them in place for one
    station visit, and `Run` drives the shift loop. Each method is proved to
    follow the value-level rules of `KanbanLine`. */
module Simulation {
  import opened KanbanLine

  class Simulation {
    var produced: PerPost<int>
    var resource: PerPost<int>
    var cards: PerPost<bool>
    var lastTime: PerPost<int>
    /** The stop flag: true while no station has been found starved. */
    var running: bool
    /** Optimal stock per station, fixed for the shift. */
    const optimal: PerPost<int>
    /** Whether cutting draws on an unbounded raw-material feed. */
    const unbounded: bool

    /** The current state as a value. */
    function State(): LineState
      reads this
    {
      LineState(produced, resource, cards, lastTime, running)
    }

    function Settings(): Config
    {
      KanbanLine.Config(optimal, unbounded)
    }

    /** A fresh line at time `t0`: nothing produced, no card raised, the stop flag
        up, every station's timer at `t0`, and the given starting buffers. When
        `unboundedFeed` is set, `initialResource.cutting` only stands in for the
        source's `float('inf')`: it is never read as a stock level and never
        changes. */
    constructor (optimalStock: PerPost<int>, initialResource: PerPost<int>, unboundedFeed: bool, t0: int)
      ensures Settings() == KanbanLine.Config(optimalStock, unboundedFeed)
      ensures State() == LineState(PerPost(0, 0, 0, 0), initialResource,
                                   PerPost(false, false, false, false), PerPost(t0, t0, t0, t0), true)
    {
      optimal := optimalStock;
      unbounded := unboundedFeed;
      produced := PerPost(0, 0, 0, 0);
      resource := initialResource;
      cards := PerPost(false, false, false, false);
      lastTime := PerPost(t0, t0, t0, t0);
      running := true;
    }

    /** One visit of station `p` at wall-clock time `now`; `duration` is the
        processing time sampled for this visit. Production, push transfer and
        Kanban trigger run in this order, whether or not the station is starved. */
    method ProcessItem(p: Post, now: int, duration: int)
      modifies this
      ensures State() == Step(old(State()), Settings(), p, now, duration)
    {
      Production(p, now, duration);
      Transfer(p);
      Trigger(p);
    }

    /** Production: a starved station clears the stop flag; otherwise, once
        `duration` has elapsed since its last event, it turns one unit of
        resource into one unit of produced stock. */
    method Production(p: Post, now: int, duration: int)
      modifies this
      ensures State() == Produce(old(State()), Settings(), p, now, duration)
    {
      var elapsed := now - lastTime.At(p);
      if !(unbounded && p == Cutting) && resource.At(p) <= 0 {
        running := false;
      } else if elapsed >= duration {
        lastTime := lastTime.Set(p, now);
        if !(unbounded && p == Cutting) {
          resource := resource.Set(p, resource.At(p) - 1);
        }
        produced := produced.Set(p, produced.At(p) + 1);
      }
    }

    /** Push transfer to the successor, if its card is set. */
    method Transfer(p: Post)
      modifies this
      ensures State() == Push(old(State()), p)
    {
      var successor := Successor(p);
      if successor.Some? {
        var next := successor.value;
        var needed := Full - resource.At(next);
        if cards.At(next) && produced.At(p) >= 0 {
          var toSend := if needed <= produced.At(p) then needed else produced.At(p);
          if needed <= produced.At(p) {
            cards := cards.Set(next, false);
          }
          produced := produced.Set(p, produced.At(p) - toSend);
          resource := resource.Set(next, resource.At(next) + toSend);
        }
      }
    }

    /** Kanban trigger: raise the station's own card at or below its trigger level. */
    method Trigger(p: Post)
      modifies this
      ensures State() == Raise(old(State()), Settings(), p)
    {
      if !(unbounded && p == Cutting) && resource.At(p) <= Green * optimal.At(p) {
        cards := cards.Set(p, true);
      }
    }

    /** One tick: every station once, in line order, all at time `now`; the
        duration for a station is `sample(tick, station)`. */
    method RunTick(now: int, sample: (nat, Post) -> int, tick: nat)
      modifies this
      ensures State() == Tick(old(State()), Settings(), now, sample, tick, |Posts|)
    {
      for i := 0 to |Posts|
        invariant State() == Tick(old(State()), Settings(), now, sample, tick, i)
      {
        ProcessItem(Posts[i], now, sample(tick, Posts[i]));
      }
    }

    /** Whether every station is out of resource stock. */
    method AllExhausted() returns (exhausted: bool)
      ensures exhausted <==> AllStarved(State(), Settings())
    {
      exhausted := forall p <- Posts :: !(unbounded && p == Cutting) && resource.At(p) <= 0;
      if exhausted {
        forall p: Post ensures Starved(State(), Settings(), p) {
          assert p == Posts[Index(p)];
        }
      } else {
        var p :| p in Posts && !(!(unbounded && p == Cutting) && resource.At(p) <= 0);
        assert !Starved(State(), Settings(), p);
      }
    }

    /** The shift loop, with a virtual clock: every station of a tick is visited
        at time `start + elapsed`, each with the duration `sample(tick, post)`,
        and the clock then advances by `step`. Returns the elapsed time and the
        number of ticks run. */
    method Run(start: int, step: int, sample: (nat, Post) -> int) returns (elapsed: int, ticks: nat)
      requires step > 0
      modifies this
      ensures Final(State(), elapsed, ticks) == Shift(old(State()), Settings(), start, step, sample, 0, 0)
    {
      elapsed, ticks := 0, 0;
      while elapsed < ShiftDuration && running
        invariant Shift(State(), Settings(), start, step, sample, elapsed, ticks)
               == Shift(old(State()), Settings(), start, step, sample, 0, 0)
        decreases ShiftDuration - elapsed
      {
        ghost var before, elapsedBefore, ticksBefore := State(), elapsed, ticks;
        RunTick(start + elapsed, sample, ticks);
        elapsed, ticks := elapsed + step, ticks + 1;
        var exhausted := AllExhausted();
        ShiftUnfold(before, Settings(), start, step, sample, elapsedBefore, ticksBefore);
        if exhausted {
          break;
        }
      }
    }
  }
}
