/** Pacing page input (src/app/panel-input.ts, createInputPacer). Times are milliseconds from a
    clock that never goes back; payloads other than wheel deltas are opaque. */
module InputPacer {
  import opened Wrappers

  const INTERVAL := 25.0
  const WINDOW := 1000.0

  datatype Wheel = Wheel(x: real, y: real, deltaX: real, deltaY: real, modifiers: int)

  datatype Payload = MoveTo(position: int) | Scroll(wheel: Wheel) | Direct(input: int)

  /** `sentAt` is what the pacer remembers; `sent` is all it ever sent and `shifted` how many times
      of it have been forgotten. `timer` is when the pending timer fires. */
  datatype Pacer = Pacer(limit: nat, sentAt: seq<real>, move: Option<int>, wheel: Option<Wheel>,
                         last: Option<real>, timer: Option<real>,
                         sent: seq<(Payload, real)>, shifted: nat)

  function Fresh(limit: nat): Pacer {
    Pacer(limit, [], None, None, None, None, [], 0)
  }

  function Emit(p: Pacer, payload: Payload, at: real): Pacer {
    p.(sentAt := p.sentAt + [at], sent := p.sent + [(payload, at)])
  }

  function Pending(p: Pacer): nat {
    (if p.move.Some? then 1 else 0) + (if p.wheel.Some? then 1 else 0)
  }

  function SendMove(p: Pacer, at: real): Pacer {
    if p.move.Some? then Emit(p, MoveTo(p.move.value), at) else p
  }

  function SendScroll(p: Pacer, at: real): Pacer {
    if p.wheel.Some? then Emit(p, Scroll(p.wheel.value), at) else p
  }

  function FlushPending(p: Pacer, at: real): (r: Pacer)
    ensures r.limit == p.limit
  {
    if Pending(p) == 0 then p
    else SendScroll(SendMove(p, at), at).(move := None, wheel := None, last := Some(at))
  }

  /** The first send from there on that has not left the window. */
  function Expired(sentAt: seq<real>, at: real, from: nat): (n: nat)
    requires from <= |sentAt|
    ensures from <= n <= |sentAt|
    ensures forall i | from <= i < n :: at - sentAt[i] >= WINDOW
    ensures n < |sentAt| ==> at - sentAt[n] < WINDOW
    decreases |sentAt| - from
  {
    if from == |sentAt| || at - sentAt[from] < WINDOW then from else Expired(sentAt, at, from + 1)
  }

  function Prune(p: Pacer, at: real): (r: Pacer)
    ensures r == p.(sentAt := r.sentAt, shifted := r.shifted)
  {
    var n := Expired(p.sentAt, at, 0);
    p.(sentAt := p.sentAt[n..], shifted := p.shifted + n)
  }

  function Max(a: real, b: real): real {
    if a < b then b else a
  }

  /** delayUntilRoom, after forgetting what has left the window. */
  function Delay(p: Pacer, at: real): (delay: real)
    requires Pending(p) <= p.limit
    ensures delay >= 0.0
  {
    var paced := if p.last.Some? then p.last.value + INTERVAL - at else 0.0;
    var over := |p.sentAt| + Pending(p) - p.limit;
    var capped := if over <= 0 then 0.0 else p.sentAt[over - 1] + WINDOW - at;
    Max(0.0, Max(paced, capped))
  }

  /** With more pending than the limit the send to wait for does not exist; the delay is not a
      number, and the timer is set without one. */
  function Schedule(p: Pacer, at: real): (r: Pacer)
    ensures r.limit == p.limit
  {
    if p.timer.Some? then p
    else if Pending(p) > p.limit then Prune(p, at).(timer := Some(at))
    else
      var pruned := Prune(p, at);
      var delay := Delay(pruned, at);
      if delay == 0.0 then FlushPending(pruned, at) else pruned.(timer := Some(at + delay))
  }

  // ---- events ----

  datatype Event =
    | Move(position: int, at: real)
    | WheelBy(delta: Wheel, at: real, later: real)  // the clock is read again after a forced flush
    | Button(input: int, at: real)
    | KeyPress(input: int, at: real)
    | Fires(at: real)
    | Dispose(at: real)

  function Merge(pending: Option<Wheel>, w: Wheel): Wheel {
    if pending.None? then w
    else w.(deltaX := pending.value.deltaX + w.deltaX, deltaY := pending.value.deltaY + w.deltaY)
  }

  predicate Enabled(p: Pacer, clock: real, e: Event) {
    && clock <= e.at
    && (e.WheelBy? ==> e.at <= e.later)
    && (e.Fires? ==> p.timer.Some? && p.timer.value <= e.at)
  }

  function Next(p: Pacer, e: Event): (r: Pacer)
    ensures r.limit == p.limit
  {
    match e
    case Move(position, at) => Schedule(p.(move := Some(position)), at)
    case WheelBy(w, at, later) =>
      var split := p.wheel.Some? && p.wheel.value.modifiers != w.modifiers;
      var ready := if split then FlushPending(p.(timer := None), at) else p;
      Schedule(ready.(wheel := Some(Merge(ready.wheel, w))), later)
    case Button(input, at) => Emit(FlushPending(p.(timer := None), at), Direct(input), at)
    case KeyPress(input, at) => Emit(p, Direct(input), at)
    case Fires(at) => Schedule(p.(timer := None), at)
    case Dispose(at) => FlushPending(p.(timer := None), at)
  }

  function ClockAfter(e: Event): real {
    if e.WheelBy? then e.later else e.at
  }

  // ---- the window ----

  function Times(sent: seq<(Payload, real)>): seq<real> {
    seq(|sent|, i requires 0 <= i < |sent| => sent[i].1)
  }

  /** How many sends fall in the second that ends at `at`. */
  function InWindow(times: seq<real>, at: real): nat {
    if times == [] then 0
    else InWindow(times[..|times| - 1], at) + if at - times[|times| - 1] < WINDOW then 1 else 0
  }

  ghost predicate Increasing(times: seq<real>) {
    forall i, j | 0 <= i < j < |times| :: times[i] <= times[j]
  }

  lemma {:induction false} WindowAdds(a: seq<real>, b: seq<real>, at: real)
    ensures InWindow(a + b, at) == InWindow(a, at) + InWindow(b, at)
  {
    if b == [] {
      assert a + b == a;
    } else {
      WindowAdds(a, b[..|b| - 1], at);
      assert (a + b)[..|a + b| - 1] == a + b[..|b| - 1];
    }
  }

  lemma {:induction false} AllInside(times: seq<real>, at: real)
    requires forall i | 0 <= i < |times| :: at - times[i] < WINDOW
    ensures InWindow(times, at) == |times|
  {
    if times != [] { AllInside(times[..|times| - 1], at); }
  }

  lemma {:induction false} AllOutside(times: seq<real>, at: real)
    requires forall i | 0 <= i < |times| :: at - times[i] >= WINDOW
    ensures InWindow(times, at) == 0
  {
    if times != [] { AllOutside(times[..|times| - 1], at); }
  }

  lemma {:induction false} WindowShrinks(times: seq<real>, at: real, later: real)
    requires at <= later
    ensures InWindow(times, later) <= InWindow(times, at) <= |times|
  {
    if times != [] { WindowShrinks(times[..|times| - 1], at, later); }
  }

  /** In increasing times the window holds a suffix, so an entry inside bounds the count below and
      one outside bounds it above. */
  lemma WindowFrom(times: seq<real>, n: nat, at: real)
    requires Increasing(times) && n < |times|
    ensures at - times[n] < WINDOW ==> InWindow(times, at) >= |times| - n
    ensures at - times[n] >= WINDOW ==> InWindow(times, at) <= |times| - n - 1
  {
    if at - times[n] < WINDOW { WindowAtLeast(times, n, at); } else { WindowAtMost(times, n + 1, at); }
  }

  lemma WindowAtLeast(times: seq<real>, n: nat, at: real)
    requires Increasing(times) && n < |times| && at - times[n] < WINDOW
    ensures InWindow(times, at) >= |times| - n
  {
    var a, b := times[..n], times[n..];
    assert times == a + b;
    WindowAdds(a, b, at);
    AllInside(b, at);
  }

  lemma WindowAtMost(times: seq<real>, n: nat, at: real)
    requires Increasing(times) && 0 < n <= |times| && at - times[n - 1] >= WINDOW
    ensures InWindow(times, at) <= |times| - n
  {
    var a, b := times[..n], times[n..];
    assert times == a + b;
    WindowAdds(a, b, at);
    AllOutside(a, at);
    WindowShrinks(b, at, at);
  }

  // ---- the invariant ----

  ghost predicate Remembers(p: Pacer, clock: real) {
    && p.shifted <= |p.sent| && p.sentAt == Times(p.sent)[p.shifted..]
    && Increasing(Times(p.sent))
    && (forall i | 0 <= i < |p.sent| :: p.sent[i].1 <= clock)
    && (forall i | 0 <= i < p.shifted :: clock - p.sent[i].1 >= WINDOW)
    && (p.last.Some? ==> p.last.value <= clock)
  }

  /** What was forgotten is outside the window, so the memory counts like the whole history. */
  lemma MemoryIsEnough(p: Pacer, clock: real, at: real)
    requires Remembers(p, clock) && clock <= at
    ensures InWindow(Times(p.sent), at) == InWindow(p.sentAt, at)
  {
    var times := Times(p.sent);
    assert times == times[..p.shifted] + times[p.shifted..];
    WindowAdds(times[..p.shifted], times[p.shifted..], at);
    AllOutside(times[..p.shifted], at);
  }

  lemma EmitRemembers(p: Pacer, payload: Payload, clock: real, at: real)
    requires Remembers(p, clock) && clock <= at
    ensures Remembers(Emit(p, payload, at), at)
    ensures Times(Emit(p, payload, at).sent) == Times(p.sent) + [at]
  {
    var u := Emit(p, payload, at);
    assert Times(u.sent) == Times(p.sent) + [at];
  }

  lemma PruneRemembers(p: Pacer, clock: real, at: real)
    requires Remembers(p, clock) && clock <= at
    ensures Remembers(Prune(p, at), at)
  {
    var n, times := Expired(p.sentAt, at, 0), Times(p.sent);
    ForgetRemembers(p, n, clock, at);
  }

  lemma ForgetRemembers(p: Pacer, n: nat, clock: real, at: real)
    requires Remembers(p, clock) && clock <= at && n <= |p.sentAt|
    requires forall i | 0 <= i < n :: at - p.sentAt[i] >= WINDOW
    ensures Remembers(p.(sentAt := p.sentAt[n..], shifted := p.shifted + n), at)
  {
    var times := Times(p.sent);
    assert times[p.shifted..][n..] == times[p.shifted + n..];
    forall i | p.shifted <= i < p.shifted + n ensures at - p.sent[i].1 >= WINDOW {
      assert p.sentAt[i - p.shifted] == times[i];
    }
  }

  lemma PrunedIsInside(p: Pacer, clock: real, at: real)
    requires Remembers(p, clock)
    ensures forall i | 0 <= i < |Prune(p, at).sentAt| :: at - Prune(p, at).sentAt[i] < WINDOW
  {
    var n := Expired(p.sentAt, at, 0);
    RememberedIncreasing(p, clock);
    forall i | n <= i < |p.sentAt| ensures at - p.sentAt[i] < WINDOW {
      assert p.sentAt[n] <= p.sentAt[i];
    }
  }

  lemma EmitCounts(p: Pacer, payload: Payload, clock: real, at: real)
    requires Remembers(p, clock) && clock <= at
    ensures InWindow(Times(Emit(p, payload, at).sent), at) == InWindow(Times(p.sent), at) + 1
  {
    EmitRemembers(p, payload, clock, at);
    WindowAdds(Times(p.sent), [at], at);
    AllInside([at], at);
  }

  lemma SendMoveRemembers(p: Pacer, clock: real, at: real)
    requires Remembers(p, clock) && clock <= at
    ensures Remembers(SendMove(p, at), at)
    ensures InWindow(Times(SendMove(p, at).sent), at)
            == InWindow(Times(p.sent), at) + if p.move.Some? then 1 else 0
  {
    if p.move.Some? {
      EmitRemembers(p, MoveTo(p.move.value), clock, at);
      EmitCounts(p, MoveTo(p.move.value), clock, at);
    }
  }

  lemma SendScrollRemembers(p: Pacer, clock: real, at: real)
    requires Remembers(p, clock) && clock <= at
    ensures Remembers(SendScroll(p, at), at)
    ensures InWindow(Times(SendScroll(p, at).sent), at)
            == InWindow(Times(p.sent), at) + if p.wheel.Some? then 1 else 0
  {
    if p.wheel.Some? {
      EmitRemembers(p, Scroll(p.wheel.value), clock, at);
      EmitCounts(p, Scroll(p.wheel.value), clock, at);
    }
  }

  lemma FlushRemembers(p: Pacer, clock: real, at: real)
    requires Remembers(p, clock) && clock <= at
    ensures Remembers(FlushPending(p, at), at)
    ensures InWindow(Times(FlushPending(p, at).sent), at) == InWindow(Times(p.sent), at) + Pending(p)
  {
    SendMoveRemembers(p, clock, at);
    SendScrollRemembers(SendMove(p, at), at, at);
  }

  // ---- the delay ----

  /** Sending the pending input at that time keeps the spacing and the one-second cap. */
  ghost predicate Fits(p: Pacer, time: real) {
    && (p.last.Some? ==> p.last.value + INTERVAL <= time)
    && InWindow(Times(p.sent), time) + Pending(p) <= p.limit
  }

  /** When sends are remembered only while they are in the window, the entry that must leave first
      says when there is room. */
  lemma RoomFor(p: Pacer, times: seq<real>, at: real, time: real)
    requires Increasing(times) && at <= time && Pending(p) <= p.limit
    requires forall i | 0 <= i < |times| :: at - times[i] < WINDOW
    ensures InWindow(times, time) + Pending(p) <= p.limit <==> Roomy(p, times, time)
  {
    var over := |times| + Pending(p) - p.limit;
    if over > 0 { WindowFrom(times, over - 1, time); } else { WindowShrinks(times, time, time); }
  }

  /** The delay is the least after which the pending input fits. */
  lemma DelayIsLeast(p: Pacer, clock: real, at: real, delay: real)
    requires Remembers(p, clock) && clock <= at && Pending(p) <= p.limit && delay >= 0.0
    ensures Fits(p, at + delay) <==> delay >= Delay(Prune(p, at), at)
  {
    var u, time := Prune(p, at), at + delay;
    assert Fits(p, time) <==> Ready(u, time) by { FitsAfterPruning(p, clock, at, time); }
    DelayMeans(u, at, delay);
  }

  lemma FitsAfterPruning(p: Pacer, clock: real, at: real, time: real)
    requires Remembers(p, clock) && clock <= at <= time && Pending(p) <= p.limit
    ensures Fits(p, time) <==> Ready(Prune(p, at), time)
  {
    RoomAfterPruning(p, clock, at, time);
    PruneKeepsPending(p, at, time);
  }

  ghost predicate Ready(p: Pacer, time: real) {
    (p.last.Some? ==> p.last.value + INTERVAL <= time) && Roomy(p, p.sentAt, time)
  }

  lemma PruneKeepsPending(p: Pacer, at: real, time: real)
    ensures var u := Prune(p, at);
            u.last == p.last && Pending(u) == Pending(p) && u.limit == p.limit
            && (Roomy(u, u.sentAt, time) <==> Roomy(p, u.sentAt, time))
  {}

  ghost predicate Roomy(p: Pacer, times: seq<real>, time: real) {
    var over := |times| + Pending(p) - p.limit;
    over <= 0 || (over <= |times| && times[over - 1] + WINDOW <= time)
  }

  lemma RoomAfterPruning(p: Pacer, clock: real, at: real, time: real)
    requires Remembers(p, clock) && clock <= at <= time && Pending(p) <= p.limit
    ensures InWindow(Times(p.sent), time) + Pending(p) <= p.limit <==> Roomy(p, Prune(p, at).sentAt, time)
  {
    var u := Prune(p, at);
    PruneRemembers(p, clock, at);
    PrunedIsInside(p, clock, at);
    MemoryIsEnough(u, at, time);
    RememberedIncreasing(u, at);
    RoomFor(p, u.sentAt, at, time);
  }

  lemma DelayMeans(p: Pacer, at: real, delay: real)
    requires Pending(p) <= p.limit && delay >= 0.0
    ensures delay >= Delay(p, at) <==> Ready(p, at + delay)
  {}

  lemma RememberedIncreasing(p: Pacer, clock: real)
    requires Remembers(p, clock)
    ensures Increasing(p.sentAt)
  {
    assert forall i | 0 <= i < |p.sentAt| :: p.sentAt[i] == Times(p.sent)[p.shifted + i];
  }

  /** A paced flush happens only when it fits, and leaves at most the cap in the window then and
      until something else is sent. */
  lemma PacedFlushFits(p: Pacer, clock: real, at: real, later: real)
    requires Remembers(p, clock) && clock <= at <= later && p.timer.None?
    requires |Schedule(p, at).sent| > |p.sent|
    ensures Fits(p, at) && InWindow(Times(Schedule(p, at).sent), later) <= p.limit
  {
    FlushesWithoutDelay(p, at);
    assert Fits(p, at + 0.0) by { DelayIsLeast(p, clock, at, 0.0); }
    FlushFits(p, clock, at, later);
  }

  lemma FlushesWithoutDelay(p: Pacer, at: real)
    requires p.timer.None? && |Schedule(p, at).sent| > |p.sent|
    ensures Pending(p) <= p.limit && Delay(Prune(p, at), at) <= 0.0
    ensures Schedule(p, at) == FlushPending(Prune(p, at), at)
  {}

  lemma FlushFits(p: Pacer, clock: real, at: real, later: real)
    requires Remembers(p, clock) && clock <= at <= later && Fits(p, at)
    ensures InWindow(Times(FlushPending(Prune(p, at), at).sent), later) <= p.limit
  {
    PruneRemembers(p, clock, at);
    FlushRemembers(Prune(p, at), at, at);
    WindowShrinks(Times(FlushPending(Prune(p, at), at).sent), at, later);
  }

  // ---- conservation ----

  function SentX(sent: seq<(Payload, real)>): real {
    if sent == [] then 0.0
    else
      var last := sent[|sent| - 1].0;
      SentX(sent[..|sent| - 1]) + if last.Scroll? then last.wheel.deltaX else 0.0
  }

  function SentY(sent: seq<(Payload, real)>): real {
    if sent == [] then 0.0
    else
      var last := sent[|sent| - 1].0;
      SentY(sent[..|sent| - 1]) + if last.Scroll? then last.wheel.deltaY else 0.0
  }

  function TotalX(p: Pacer): real {
    SentX(p.sent) + if p.wheel.Some? then p.wheel.value.deltaX else 0.0
  }

  function TotalY(p: Pacer): real {
    SentY(p.sent) + if p.wheel.Some? then p.wheel.value.deltaY else 0.0
  }

  lemma EmitAdds(p: Pacer, payload: Payload, at: real)
    ensures var u := Emit(p, payload, at);
            && SentX(u.sent) == SentX(p.sent) + (if payload.Scroll? then payload.wheel.deltaX else 0.0)
            && SentY(u.sent) == SentY(p.sent) + (if payload.Scroll? then payload.wheel.deltaY else 0.0)
  {
    assert (p.sent + [(payload, at)])[..|p.sent|] == p.sent;
  }

  lemma FlushConserves(p: Pacer, at: real)
    ensures TotalX(FlushPending(p, at)) == TotalX(p) && TotalY(FlushPending(p, at)) == TotalY(p)
    ensures Pending(FlushPending(p, at)) == 0
  {
    if p.move.Some? { EmitAdds(p, MoveTo(p.move.value), at); }
    if p.wheel.Some? { EmitAdds(SendMove(p, at), Scroll(p.wheel.value), at); }
  }

  lemma ScheduleConserves(p: Pacer, at: real)
    ensures TotalX(Schedule(p, at)) == TotalX(p) && TotalY(Schedule(p, at)) == TotalY(p)
  {
    FlushConserves(Prune(p, at), at);
    ScheduleShape(p, Prune(p, at), at);
  }

  /** Scheduling flushes, or touches nothing but the timer and the remembered times. */
  lemma ScheduleShape(p: Pacer, pruned: Pacer, at: real)
    requires pruned == Prune(p, at)
    ensures var r := Schedule(p, at);
            || r == FlushPending(pruned, at)
            || (r.sent == p.sent && r.wheel == p.wheel && r.move == p.move)
    ensures pruned.sent == p.sent && pruned.wheel == p.wheel && pruned.move == p.move
  {}

  /** Scrolled distance is neither lost nor made up: what an event adds to sent plus pending is
      exactly what it carried. */
  lemma WheelIsConserved(p: Pacer, e: Event)
    ensures TotalX(Next(p, e)) == TotalX(p) + (if e.WheelBy? then e.delta.deltaX else 0.0)
    ensures TotalY(Next(p, e)) == TotalY(p) + (if e.WheelBy? then e.delta.deltaY else 0.0)
  {
    match e
    case Move(position, at) => ScheduleConserves(p.(move := Some(position)), at);
    case WheelBy(w, at, later) =>
      var split := p.wheel.Some? && p.wheel.value.modifiers != w.modifiers;
      FlushConserves(p.(timer := None), at);
      var ready := if split then FlushPending(p.(timer := None), at) else p;
      ScheduleConserves(ready.(wheel := Some(Merge(ready.wheel, w))), later);
    case Button(input, at) =>
      FlushConserves(p.(timer := None), at);
      EmitAdds(FlushPending(p.(timer := None), at), Direct(input), at);
    case KeyPress(input, at) => EmitAdds(p, Direct(input), at);
    case Fires(at) => ScheduleConserves(p.(timer := None), at);
    case Dispose(at) => FlushConserves(p.(timer := None), at);
  }

  // ---- whole runs ----

  /** A timer is set exactly when input is pending, and fires no earlier than it was set. */
  ghost predicate Good(p: Pacer, clock: real) {
    && Remembers(p, clock)
    && (p.timer.Some? <==> Pending(p) > 0)
  }

  lemma LaterIsFine(p: Pacer, clock: real, at: real)
    requires Remembers(p, clock) && clock <= at
    ensures Remembers(p, at)
  {}

  lemma ScheduleKeeps(p: Pacer, clock: real, at: real)
    requires Remembers(p, clock) && clock <= at && Pending(p) > 0
    ensures Good(Schedule(p, at), at)
  {
    if p.timer.None? {
      PruneRemembers(p, clock, at);
      var due := ScheduleIsPruned(p, at);
      PrunedIsGood(Prune(p, at), at, due);
    }
  }

  lemma ScheduleIsPruned(p: Pacer, at: real) returns (due: real)
    requires p.timer.None?
    ensures var u := Prune(p, at); Schedule(p, at) == FlushPending(u, at) || Schedule(p, at) == u.(timer := Some(due))
  {
    due := at + if Pending(p) > p.limit then 0.0 else Delay(Prune(p, at), at);
  }

  lemma PrunedIsGood(u: Pacer, at: real, due: real)
    requires Remembers(u, at) && Pending(u) > 0 && u.timer.None?
    ensures Good(FlushPending(u, at), at) && Good(u.(timer := Some(due)), at)
  {
    FlushRemembers(u, at, at);
    FlushClears(u, at);
  }

  lemma FlushClears(p: Pacer, at: real)
    ensures Pending(FlushPending(p, at)) == 0 && FlushPending(p, at).timer == p.timer
  {}

  lemma StepKeeps(p: Pacer, clock: real, e: Event)
    requires Good(p, clock) && Enabled(p, clock, e)
    ensures Good(Next(p, e), ClockAfter(e))
  {
    LaterIsFine(p, clock, ClockAfter(e));
    match e
    case Move(position, at) => ScheduleKeeps(p.(move := Some(position)), clock, at);
    case WheelBy(w, at, later) => WheelKeeps(p, clock, w, at, later);
    case Button(input, at) =>
      FlushedIsGood(p, clock, at);
      EmitIsGood(FlushPending(p.(timer := None), at), at, Direct(input), at);
    case KeyPress(input, at) => EmitIsGood(p, clock, Direct(input), at);
    case Fires(at) => ScheduleKeeps(p.(timer := None), clock, at);
    case Dispose(at) => FlushedIsGood(p, clock, at);
  }

  lemma FlushedIsGood(p: Pacer, clock: real, at: real)
    requires Good(p, clock) && clock <= at
    ensures Good(FlushPending(p.(timer := None), at), at)
  {
    FlushRemembers(p.(timer := None), clock, at);
    FlushClears(p.(timer := None), at);
  }

  lemma EmitIsGood(p: Pacer, clock: real, payload: Payload, at: real)
    requires Good(p, clock) && clock <= at
    ensures Good(Emit(p, payload, at), at)
  {
    EmitRemembers(p, payload, clock, at);
  }

  lemma WheelKeeps(p: Pacer, clock: real, w: Wheel, at: real, later: real)
    requires Good(p, clock) && clock <= at <= later
    ensures Good(Next(p, WheelBy(w, at, later)), later)
  {
    if p.wheel.Some? && p.wheel.value.modifiers != w.modifiers {
      FlushedIsGood(p, clock, at);
      ScheduleKeeps(FlushPending(p.(timer := None), at).(wheel := Some(w)), at, later);
    } else {
      ScheduleKeeps(p.(wheel := Some(Merge(p.wheel, w))), clock, later);
    }
  }

  /** The events of a run, each at a time no earlier than the one before. */
  ghost predicate Run(es: seq<Event>) {
    forall i | 0 <= i < |es| ::
      (es[i].WheelBy? ==> es[i].at <= es[i].later) && (i > 0 ==> ClockAfter(es[i - 1]) <= es[i].at)
  }

  function After(limit: nat, es: seq<Event>): (p: Pacer)
    ensures p.limit == limit
  {
    if es == [] then Fresh(limit) else Next(After(limit, es[..|es| - 1]), es[|es| - 1])
  }

  /** A timer fires only when it is set, and not early. */
  ghost predicate TimersFire(limit: nat, es: seq<Event>)
  {
    forall i | 0 <= i < |es| ::
      es[i].Fires? ==> After(limit, es[..i]).timer.Some? && After(limit, es[..i]).timer.value <= es[i].at
  }

  function ReceivedX(es: seq<Event>): real {
    if es == [] then 0.0
    else ReceivedX(es[..|es| - 1]) + if es[|es| - 1].WheelBy? then es[|es| - 1].delta.deltaX else 0.0
  }

  function ReceivedY(es: seq<Event>): real {
    if es == [] then 0.0
    else ReceivedY(es[..|es| - 1]) + if es[|es| - 1].WheelBy? then es[|es| - 1].delta.deltaY else 0.0
  }

  /** In every run: a timer is set exactly while input is pending, and the deltas sent plus those
      pending are the deltas received. */
  lemma {:induction false} RunsKeep(limit: nat, es: seq<Event>, start: real)
    requires Run(es) && TimersFire(limit, es) && (es != [] ==> start <= es[0].at)
    ensures Good(After(limit, es), if es == [] then start else ClockAfter(es[|es| - 1]))
    ensures TotalX(After(limit, es)) == ReceivedX(es) && TotalY(After(limit, es)) == ReceivedY(es)
  {
    if es != [] {
      var front, e := es[..|es| - 1], es[|es| - 1];
      assert forall i | 0 <= i < |front| :: front[i] == es[i] && front[..i] == es[..i];
      assert es[..|es| - 1] == front;
      RunsKeep(limit, front, start);
      WheelIsConserved(After(limit, front), e);
      StepKeeps(After(limit, front), if front == [] then start else ClockAfter(front[|front| - 1]), e);
    }
  }

  // ---- what never leaves ----

  /** A time by which nothing sent so far counts any more. */
  function Quiet(p: Pacer, clock: real): real
    requires p.timer.Some?
  {
    Max(Max(clock, p.timer.value) + WINDOW, if p.last.Some? then p.last.value + INTERVAL else clock)
  }

  lemma QuietFits(p: Pacer, clock: real)
    requires Remembers(p, clock) && p.timer.Some? && Pending(p) <= p.limit
    ensures Fits(p, Quiet(p, clock))
  {
    AllOutside(Times(p.sent), Quiet(p, clock));
  }

  /** Firing the timer, whenever that is, sends nothing exactly when more is pending than the limit:
      a limit of one never lets a move and a scroll out together. */
  lemma StuckExactlyWhenTooMuchIsPending(p: Pacer, clock: real)
    requires Good(p, clock) && p.timer.Some?
    ensures (forall at | clock <= at && p.timer.value <= at :: Next(p, Fires(at)).sent == p.sent)
            <==> Pending(p) > p.limit
  {
    if Pending(p) <= p.limit { QuietSends(p, clock); }
  }

  lemma QuietSends(p: Pacer, clock: real)
    requires Good(p, clock) && p.timer.Some? && Pending(p) <= p.limit
    ensures clock <= Quiet(p, clock) && p.timer.value <= Quiet(p, clock)
    ensures Next(p, Fires(Quiet(p, clock))).sent != p.sent
  {
    var at, idle := Quiet(p, clock), p.(timer := None);
    QuietFits(p, clock);
    DelayIsLeast(idle, clock, at, 0.0);
    assert at + 0.0 == at;
    FlushSends(Prune(idle, at), at);
  }

  lemma FlushSends(p: Pacer, at: real)
    requires Pending(p) > 0
    ensures |FlushPending(p, at).sent| > |p.sent|
  {}
}
