/** The Kanban pull line as values: the four stations, their stocks, cards and
    timers, and the rules that advance them. One station visit (`Step`) is
    production, then a push transfer to the successor, then the Kanban trigger;
    one tick (`Tick`) visits the stations in line order; a shift (`Shift`) repeats
    ticks until the shift duration is reached, the stop flag is cleared, or every
    resource stock is exhausted. */
module KanbanLine {

  /** The stations, in line order. */
  datatype Post = Cutting | Folding | Bonding | Labeling

  /** The order in which a tick visits the stations (the key order of the
      processing-time table). */
  const Posts: seq<Post> := [Cutting, Folding, Bonding, Labeling]

  /** Capacity of a resource buffer: a transfer tops the successor up to this. */
  const Full: int := 100

  /** Factor applied to a station's optimal stock to get its Kanban trigger level.
      The threshold table labels it a percentage (">60% stock"), but the trigger
      multiplies the optimal stock by 60 itself, not by 0.6. */
  const Green: int := 60

  /** Length of a shift: 8 hours in seconds. */
  const ShiftDuration: int := 8 * 60 * 60

  datatype Option<T> = None | Some(value: T)

  /** Position of a station in the line. */
  function Index(p: Post): (i: nat)
    ensures i < |Posts| && Posts[i] == p
  {
    match p
    case Cutting => 0
    case Folding => 1
    case Bonding => 2
    case Labeling => 3
  }

  /** The station a post pushes its produced stock to: the next one in line,
      and none for labeling. Nothing feeds cutting. */
  function Successor(p: Post): (n: Option<Post>)
    ensures n.None? <==> p == Labeling
    ensures n.Some? ==> Index(n.value) == Index(p) + 1
    ensures n != Some(Cutting)
  {
    match p
    case Cutting => Some(Folding)
    case Folding => Some(Bonding)
    case Bonding => Some(Labeling)
    case Labeling => None
  }

  /** A dictionary keyed by the four stations, with an entry for each. */
  datatype PerPost<T> = PerPost(cutting: T, folding: T, bonding: T, labeling: T)
  {
    function At(p: Post): T
    {
      match p
      case Cutting => cutting
      case Folding => folding
      case Bonding => bonding
      case Labeling => labeling
    }

    /** The table with the entry of `p` replaced by `v`. */
    function Set(p: Post, v: T): (r: PerPost<T>)
      ensures r.At(p) == v
      ensures forall q: Post :: q != p ==> r.At(q) == At(q)
    {
      match p
      case Cutting => this.(cutting := v)
      case Folding => this.(folding := v)
      case Bonding => this.(bonding := v)
      case Labeling => this.(labeling := v)
    }
  }

  /** Run-time configuration: the optimal stock of every station, and whether
      cutting draws on an unbounded raw-material feed (its resource stock is
      `float('inf')` in the source unless the caller overrides it). */
  datatype Config = Config(optimal: PerPost<int>, unbounded: bool)

  /** The mutable state of the line: per-station produced stock, resource stock,
      Kanban card and time of the last production event, plus the stop flag
      (`running` is false once any station has been found starved). */
  datatype LineState = LineState(
    produced: PerPost<int>,
    resource: PerPost<int>,
    cards: PerPost<bool>,
    lastTime: PerPost<int>,
    running: bool)

  /** `resource_stock[p] <= bound`, where an unbounded cutting feed is never at or
      below any bound (as `float('inf') <= x` is false). */
  predicate AtOrBelow(s: LineState, c: Config, p: Post, bound: int)
  {
    !(c.unbounded && p == Cutting) && s.resource.At(p) <= bound
  }

  /** A station with no resource stock left. */
  predicate Starved(s: LineState, c: Config, p: Post)
  {
    AtOrBelow(s, c, p, 0)
  }

  /** Every station starved at once: the line's second termination condition. */
  predicate AllStarved(s: LineState, c: Config)
  {
    forall p: Post :: Starved(s, c, p)
  }

  /** A production event happens: the station is not starved and at least the
      sampled duration has passed since its last event. */
  predicate Fires(s: LineState, c: Config, p: Post, now: int, duration: int)
  {
    !Starved(s, c, p) && now - s.lastTime.At(p) >= duration
  }

  /** The successor's card is set and the sender's produced stock is not
      negative, so the push transfer runs. */
  predicate Pushes(s: LineState, p: Post)
  {
    Successor(p).Some? && s.cards.At(Successor(p).value) && s.produced.At(p) >= 0
  }

  /** No station holds more resource than the buffer capacity. An unbounded
      cutting feed is exempt: its entry only stands in for `float('inf')`. */
  predicate WithinCapacity(s: LineState, c: Config)
  {
    forall p: Post :: !(c.unbounded && p == Cutting) ==> s.resource.At(p) <= Full
  }

  /** No station owes produced stock. */
  predicate ProducedNonNegative(s: LineState)
  {
    forall p: Post :: s.produced.At(p) >= 0
  }

  /** The total of a per-station count. */
  function Sum(m: PerPost<int>): int
  {
    m.cutting + m.folding + m.bonding + m.labeling
  }

  /** Changing one station's count changes the total by the difference. */
  lemma SumSet(m: PerPost<int>, p: Post, v: int)
    ensures Sum(m.Set(p, v)) == Sum(m) - m.At(p) + v
  {
  }

  /** All units on the line, produced and awaiting transfer or in a buffer. */
  function Units(s: LineState): int
  {
    Sum(s.produced) + Sum(s.resource)
  }

  function Min(a: int, b: int): int
  {
    if a <= b then a else b
  }

  /** Step 1 of a station visit: production. A starved station clears the stop
      flag and produces nothing; otherwise, once the sampled duration has
      elapsed, one unit of resource becomes one unit of produced stock and the
      station's timer restarts at `now`. */
  function Produce(s: LineState, c: Config, p: Post, now: int, duration: int): LineState
  {
    if Starved(s, c, p) then
      s.(running := false)
    else if now - s.lastTime.At(p) >= duration then
      s.(lastTime := s.lastTime.Set(p, now),
         resource := if c.unbounded && p == Cutting then s.resource else s.resource.Set(p, s.resource.At(p) - 1),
         produced := s.produced.Set(p, s.produced.At(p) + 1))
    else
      s
  }

  /** Production is gated on stock and elapsed time, turns exactly one unit of
      resource into one unit of produced stock, restarts the timer, and touches
      nothing but the station itself and the stop flag. */
  lemma ProductionRule(s: LineState, c: Config, p: Post, now: int, duration: int)
    ensures var t := Produce(s, c, p, now, duration);
      && (t.running <==> s.running && !Starved(s, c, p))
      && t.cards == s.cards
      && t.produced.At(p) == s.produced.At(p) + (if Fires(s, c, p, now, duration) then 1 else 0)
      && (!(c.unbounded && p == Cutting) ==>
            t.produced.At(p) + t.resource.At(p) == s.produced.At(p) + s.resource.At(p))
      && (c.unbounded && p == Cutting ==> t.resource.At(p) == s.resource.At(p))
      && t.lastTime.At(p) == (if Fires(s, c, p, now, duration) then now else s.lastTime.At(p))
      && (forall q: Post :: q != p ==>
            t.produced.At(q) == s.produced.At(q) && t.resource.At(q) == s.resource.At(q)
            && t.lastTime.At(q) == s.lastTime.At(q))
  {
  }

  /** Production keeps the bounds, and adds a unit to the line only when an
      unbounded cutting feed produces. */
  lemma ProductionBalance(s: LineState, c: Config, p: Post, now: int, duration: int)
    ensures var t := Produce(s, c, p, now, duration);
      && Units(t) == Units(s) + (if c.unbounded && p == Cutting && Fires(s, c, p, now, duration) then 1 else 0)
      && (WithinCapacity(s, c) ==> WithinCapacity(t, c))
      && (ProducedNonNegative(s) ==> ProducedNonNegative(t))
  {
    SumSet(s.produced, p, s.produced.At(p) + 1);
    SumSet(s.resource, p, s.resource.At(p) - 1);
  }

  /** Step 2 of a station visit: the push transfer. When the successor's card is
      set, the sender moves `min(needed, produced)` units, where `needed` is what
      tops the successor up to `Full` (negative when the successor is over-full,
      so units then flow back). The card is cleared only when the request is met
      in full. */
  function Push(s: LineState, p: Post): LineState
  {
    if Pushes(s, p) then
      var n := Successor(p).value;
      var needed := Full - s.resource.At(n);
      var toSend := if needed <= s.produced.At(p) then needed else s.produced.At(p);
      s.(cards := if needed <= s.produced.At(p) then s.cards.Set(n, false) else s.cards,
         produced := s.produced.Set(p, s.produced.At(p) - toSend),
         resource := s.resource.Set(n, s.resource.At(n) + toSend))
    else
      s
  }

  /** What a transfer does: units move between sender and successor and are
      conserved; the card clears exactly when the request is met, leaving the
      buffer full; a partial transfer empties the sender and leaves the card
      set; the buffer never overshoots and the sender never goes negative, even
      when an over-full successor sends units back; nothing else moves. */
  lemma TransferRule(s: LineState, p: Post)
    requires Pushes(s, p)
    ensures var t := Push(s, p); var n := Successor(p).value; var needed := Full - s.resource.At(n);
      && t.produced.At(p) + t.resource.At(n) == s.produced.At(p) + s.resource.At(n)
      && t.produced.At(p) == s.produced.At(p) - Min(needed, s.produced.At(p))
      && (!t.cards.At(n) <==> needed <= s.produced.At(p))
      && (!t.cards.At(n) ==> t.resource.At(n) == Full)
      && (t.cards.At(n) ==> t.produced.At(p) == 0 && t.resource.At(n) < Full)
      && t.produced.At(p) >= 0 && t.resource.At(n) <= Full
      && t.running == s.running && t.lastTime == s.lastTime
      && (forall q: Post :: q != p ==> t.produced.At(q) == s.produced.At(q))
      && (forall q: Post :: q != n ==> t.resource.At(q) == s.resource.At(q) && t.cards.At(q) == s.cards.At(q))
  {
  }

  /** No transfer happens when the successor's card is down, when the sender
      owes stock, or from labeling, which has no successor. */
  lemma NoTransfer(s: LineState, p: Post)
    requires !Pushes(s, p)
    ensures Push(s, p) == s
  {
  }

  /** A transfer conserves the units on the line and keeps the bounds. */
  lemma TransferBalance(s: LineState, c: Config, p: Post)
    ensures var t := Push(s, p);
      && Units(t) == Units(s)
      && (WithinCapacity(s, c) ==> WithinCapacity(t, c))
      && (ProducedNonNegative(s) ==> ProducedNonNegative(t))
  {
    if Pushes(s, p) {
      var n := Successor(p).value;
      var needed := Full - s.resource.At(n);
      var toSend := if needed <= s.produced.At(p) then needed else s.produced.At(p);
      SumSet(s.produced, p, s.produced.At(p) - toSend);
      SumSet(s.resource, n, s.resource.At(n) + toSend);
      TransferRule(s, p);
    }
  }

  /** Step 3 of a station visit: the Kanban trigger. The station raises its own
      card when its resource stock is at or below `Green` times its optimal
      stock; it never lowers it. */
  function Raise(s: LineState, c: Config, p: Post): LineState
  {
    if AtOrBelow(s, c, p, Green * c.optimal.At(p)) then s.(cards := s.cards.Set(p, true)) else s
  }

  /** The trigger raises the station's card exactly at or below its trigger
      level, whatever the card was before, never lowers it, and changes no
      other card and no stock. */
  lemma TriggerRule(s: LineState, c: Config, p: Post)
    ensures var t := Raise(s, c, p);
      && (AtOrBelow(s, c, p, Green * c.optimal.At(p)) ==> t.cards.At(p))
      && (!AtOrBelow(s, c, p, Green * c.optimal.At(p)) ==> t.cards.At(p) == s.cards.At(p))
      && (forall q: Post :: q != p ==> t.cards.At(q) == s.cards.At(q))
      && t == s.(cards := t.cards)
  {
  }

  /** One visit of station `p` at time `now`, with `duration` the processing time
      sampled for it (`process_item`). */
  function Step(s: LineState, c: Config, p: Post, now: int, duration: int): LineState
  {
    Raise(Push(Produce(s, c, p, now, duration), p), c, p)
  }

  /** The stop flag is cleared by a starved station and never set again; a
      station never lowers its own card, and the only card a visit can lower is
      the successor's. */
  lemma StepFlags(s: LineState, c: Config, p: Post, now: int, duration: int)
    ensures var t := Step(s, c, p, now, duration);
      && (t.running <==> s.running && !Starved(s, c, p))
      && (s.cards.At(p) ==> t.cards.At(p))
      && (forall q: Post :: s.cards.At(q) && !t.cards.At(q) ==> Successor(p) == Some(q))
  {
    var s1 := Produce(s, c, p, now, duration);
    ProductionRule(s, c, p, now, duration);
    if Pushes(s1, p) { TransferRule(s1, p); } else { NoTransfer(s1, p); }
    TriggerRule(Push(s1, p), c, p);
  }

  /** Starvation does not end a visit: the starved station produces nothing and
      keeps its timer, but still pushes to its successor and still raises its
      own card. */
  lemma StepWhenStarved(s: LineState, c: Config, p: Post, now: int, duration: int)
    requires Starved(s, c, p)
    ensures var t := Step(s, c, p, now, duration);
      && !t.running
      && t.lastTime == s.lastTime
      && (Pushes(s, p) ==>
            t.produced.At(p) == s.produced.At(p) - Min(Full - s.resource.At(Successor(p).value), s.produced.At(p)))
      && (!Pushes(s, p) ==> t.produced.At(p) == s.produced.At(p))
      && (c.optimal.At(p) >= 0 ==> t.cards.At(p))
  {
    var s1 := Produce(s, c, p, now, duration);
    assert s1 == s.(running := false);
    if Pushes(s1, p) { TransferRule(s1, p); } else { NoTransfer(s1, p); }
    TriggerRule(Push(s1, p), c, p);
  }

  /** A visit changes only the station itself and its successor. */
  lemma StepFrame(s: LineState, c: Config, p: Post, now: int, duration: int, q: Post)
    requires q != p && Successor(p) != Some(q)
    ensures var t := Step(s, c, p, now, duration);
      && t.produced.At(q) == s.produced.At(q) && t.resource.At(q) == s.resource.At(q)
      && t.cards.At(q) == s.cards.At(q) && t.lastTime.At(q) == s.lastTime.At(q)
  {
    var s1 := Produce(s, c, p, now, duration);
    ProductionRule(s, c, p, now, duration);
    if Pushes(s1, p) { TransferRule(s1, p); } else { NoTransfer(s1, p); }
    TriggerRule(Push(s1, p), c, p);
  }

  /** No visit overfills a buffer or leaves a station owing produced stock, and
      a visit neither creates nor loses units, except the one an unbounded
      cutting feed adds on a production event. */
  lemma StepBalance(s: LineState, c: Config, p: Post, now: int, duration: int)
    ensures var t := Step(s, c, p, now, duration);
      && Units(t) == Units(s) + (if c.unbounded && p == Cutting && Fires(s, c, p, now, duration) then 1 else 0)
      && (WithinCapacity(s, c) ==> WithinCapacity(t, c))
      && (ProducedNonNegative(s) ==> ProducedNonNegative(t))
  {
    var s1 := Produce(s, c, p, now, duration);
    ProductionBalance(s, c, p, now, duration);
    TransferBalance(s1, c, p);
    TriggerRule(Push(s1, p), c, p);
  }

  /** The first `k` station visits of a tick at time `now`, in line order; the
      duration for each station is `sample(tick, station)`. */
  function Tick(s: LineState, c: Config, now: int, sample: (nat, Post) -> int, tick: nat, k: nat): LineState
    requires k <= |Posts|
  {
    if k == 0 then s
    else
      var p := Posts[k - 1];
      Step(Tick(s, c, now, sample, tick, k - 1), c, p, now, sample(tick, p))
  }

  /** What a tick guarantees: it never raises the stop flag again, never lowers
      cutting's card, keeps the bounds, and creates no units except from an
      unbounded cutting feed. */
  lemma {:induction false} TickOutcome(s: LineState, c: Config, now: int, sample: (nat, Post) -> int, tick: nat, k: nat)
    requires k <= |Posts|
    ensures var t := Tick(s, c, now, sample, tick, k);
      && (t.running ==> s.running)
      && (s.cards.At(Cutting) ==> t.cards.At(Cutting))
      && (WithinCapacity(s, c) ==> WithinCapacity(t, c))
      && (ProducedNonNegative(s) ==> ProducedNonNegative(t))
      && Units(t) >= Units(s)
      && (!c.unbounded ==> Units(t) == Units(s))
  {
    if k > 0 {
      var p := Posts[k - 1];
      var prev := Tick(s, c, now, sample, tick, k - 1);
      TickOutcome(s, c, now, sample, tick, k - 1);
      StepFlags(prev, c, p, now, sample(tick, p));
      StepBalance(prev, c, p, now, sample(tick, p));
    }
  }

  /** A whole tick visits cutting, folding, bonding and labeling, in that
      order, each seeing what the previous visits left. */
  lemma TickOrder(s: LineState, c: Config, now: int, sample: (nat, Post) -> int, tick: nat)
    ensures Tick(s, c, now, sample, tick, |Posts|)
      == Step(Step(Step(Step(s, c, Cutting, now, sample(tick, Cutting)),
                             c, Folding, now, sample(tick, Folding)),
                        c, Bonding, now, sample(tick, Bonding)),
              c, Labeling, now, sample(tick, Labeling))
  {
    assert Tick(s, c, now, sample, tick, 0) == s;
    var s1 := Tick(s, c, now, sample, tick, 1);
    var s2 := Tick(s, c, now, sample, tick, 2);
    var s3 := Tick(s, c, now, sample, tick, 3);
    assert s1 == Step(s, c, Cutting, now, sample(tick, Cutting));
    assert s2 == Step(s1, c, Folding, now, sample(tick, Folding));
    assert s3 == Step(s2, c, Bonding, now, sample(tick, Bonding));
  }

  /** The end of a shift: the final state, the elapsed time and how many ticks ran. */
  datatype Final = Final(line: LineState, elapsed: int, ticks: nat)

  /** The shift loop from `elapsed` on, `tick` ticks having run already: while
      time remains and the stop flag is up, run a whole tick at virtual time
      `start + elapsed`, advance the clock by `step`, and stop early if every
      station is then starved. */
  function Shift(s: LineState, c: Config, start: int, step: int, sample: (nat, Post) -> int,
                 elapsed: int, tick: nat): Final
    requires step > 0
    decreases ShiftDuration - elapsed
  {
    if elapsed < ShiftDuration && s.running then
      var t := Tick(s, c, start + elapsed, sample, tick, |Posts|);
      if AllStarved(t, c) then Final(t, elapsed + step, tick + 1)
      else Shift(t, c, start, step, sample, elapsed + step, tick + 1)
    else
      Final(s, elapsed, tick)
  }

  /** What a shift guarantees: the loop ends only for one of its three reasons;
      once the stop flag is down no tick starts and it never comes back up; the
      clock only moves forward and overshoots the shift by less than a step;
      cutting's card, the capacity cap, non-negative produced stock and, with a
      bounded feed, the unit total hold over the whole run. */
  lemma {:induction false} ShiftOutcome(s: LineState, c: Config, start: int, step: int, sample: (nat, Post) -> int,
                                        elapsed: int, tick: nat)
    requires step > 0
    decreases ShiftDuration - elapsed
    ensures var r := Shift(s, c, start, step, sample, elapsed, tick);
      && (r.elapsed >= ShiftDuration || !r.line.running || AllStarved(r.line, c))
      && (!s.running ==> r == Final(s, elapsed, tick))
      && (r.line.running ==> s.running)
      && r.elapsed >= elapsed && r.ticks >= tick
      && (elapsed < ShiftDuration ==> r.elapsed < ShiftDuration + step)
      && (s.cards.At(Cutting) ==> r.line.cards.At(Cutting))
      && (WithinCapacity(s, c) ==> WithinCapacity(r.line, c))
      && (ProducedNonNegative(s) ==> ProducedNonNegative(r.line))
      && (!c.unbounded ==> Units(r.line) == Units(s))
  {
    if elapsed < ShiftDuration && s.running {
      var t := Tick(s, c, start + elapsed, sample, tick, |Posts|);
      TickOutcome(s, c, start + elapsed, sample, tick, |Posts|);
      if !AllStarved(t, c) {
        ShiftOutcome(t, c, start, step, sample, elapsed + step, tick + 1);
      }
    }
  }

  /** One turn of the shift loop: with time left and the stop flag up, a shift
      is a tick followed by either the early stop or the rest of the shift. */
  lemma ShiftUnfold(s: LineState, c: Config, start: int, step: int, sample: (nat, Post) -> int,
                    elapsed: int, tick: nat)
    requires step > 0 && elapsed < ShiftDuration && s.running
    ensures var t := Tick(s, c, start + elapsed, sample, tick, |Posts|);
      Shift(s, c, start, step, sample, elapsed, tick)
        == if AllStarved(t, c) then Final(t, elapsed + step, tick + 1)
           else Shift(t, c, start, step, sample, elapsed + step, tick + 1)
  {
  }

  /** A tick in which some station was starved is the last tick of the shift:
      the stations after it in that tick are still visited, but no further tick
      starts. */
  lemma StopEndsShift(s: LineState, c: Config, start: int, step: int, sample: (nat, Post) -> int,
                      elapsed: int, tick: nat)
    requires step > 0 && elapsed < ShiftDuration && s.running
    requires !Tick(s, c, start + elapsed, sample, tick, |Posts|).running
    ensures Shift(s, c, start, step, sample, elapsed, tick)
      == Final(Tick(s, c, start + elapsed, sample, tick, |Posts|), elapsed + step, tick + 1)
  {
    ShiftUnfold(s, c, start, step, sample, elapsed, tick);
  }
}
