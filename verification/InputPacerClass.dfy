/** The pacer with its fields changed in place. The clock and the timer are the caller's: each
    method is given the time it reads, and `timer` is when the callback is due. */
module InputPacerClass {
  import opened Wrappers
  import opened InputPacer

  class PanelPacer {
    const limit: nat
    var sentAt: seq<real>
    var pendingMove: Option<int>
    var pendingWheel: Option<Wheel>
    var lastContinuousAt: Option<real>
    var timer: Option<real>
    // history
    var sent: seq<(Payload, real)>
    var shifted: nat

    ghost function Model(): Pacer
      reads this
    {
      Pacer(limit, sentAt, pendingMove, pendingWheel, lastContinuousAt, timer, sent, shifted)
    }

    constructor (limit: nat)
      ensures Model() == Fresh(limit)
    {
      this.limit := limit;
      sentAt, pendingMove, pendingWheel, lastContinuousAt, timer := [], None, None, None, None;
      sent, shifted := [], 0;
    }

    method Emit(payload: Payload, at: real)
      modifies this`sentAt, this`sent
      ensures Model() == InputPacer.Emit(old(Model()), payload, at)
    {
      sentAt := sentAt + [at];
      sent := sent + [(payload, at)];
    }

    method FlushPending(at: real)
      modifies this
      ensures Model() == InputPacer.FlushPending(old(Model()), at)
    {
      if pendingMove.None? && pendingWheel.None? { return; }
      if pendingMove.Some? { Emit(MoveTo(pendingMove.value), at); }
      if pendingWheel.Some? { Emit(Scroll(pendingWheel.value), at); }
      pendingMove, pendingWheel, lastContinuousAt := None, None, Some(at);
    }

    /** Forgets what has left the window. */
    method PruneSent(at: real)
      modifies this`sentAt, this`shifted
      ensures Model() == Prune(old(Model()), at)
    {
      ghost var n := 0;
      while |sentAt| > 0 && at - sentAt[0] >= WINDOW
        invariant n <= |old(sentAt)| && sentAt == old(sentAt)[n..] && shifted == old(shifted) + n
        invariant Expired(old(sentAt), at, 0) == Expired(old(sentAt), at, n)
        decreases |sentAt|
      {
        sentAt := sentAt[1..];
        shifted := shifted + 1;
        n := n + 1;
      }
    }

    /** None when the delay is not a number: more is pending than the limit. */
    method DelayUntilRoom(at: real) returns (delay: Option<real>)
      modifies this`sentAt, this`shifted
      ensures Model() == Prune(old(Model()), at)
      ensures delay.None? <==> Pending(Model()) > limit
      ensures delay.Some? ==> delay.value == Delay(Model(), at)
    {
      PruneSent(at);
      var paced := if lastContinuousAt.Some? then lastContinuousAt.value + INTERVAL - at else 0.0;
      var pending := (if pendingMove.Some? then 1 else 0) + (if pendingWheel.Some? then 1 else 0);
      var over := |sentAt| + pending - limit;
      if over > |sentAt| { return None; }
      var capped := if over <= 0 then 0.0 else sentAt[over - 1] + WINDOW - at;
      return Some(Max(0.0, Max(paced, capped)));
    }

    method Schedule(at: real)
      modifies this
      ensures Model() == InputPacer.Schedule(old(Model()), at)
    {
      if timer.Some? { return; }
      var delay := DelayUntilRoom(at);
      if delay == Some(0.0) {
        FlushPending(at);
      } else {
        timer := Some(if delay.Some? then at + delay.value else at);
      }
    }

    method Move(position: int, at: real)
      modifies this
      ensures Model() == Next(old(Model()), Event.Move(position, at))
    {
      pendingMove := Some(position);
      Schedule(at);
    }

    method WheelBy(w: Wheel, at: real, later: real)
      modifies this
      ensures Model() == Next(old(Model()), Event.WheelBy(w, at, later))
    {
      if pendingWheel.Some? && pendingWheel.value.modifiers != w.modifiers {
        timer := None;
        FlushPending(at);
      }
      pendingWheel := Some(Merge(pendingWheel, w));
      Schedule(later);
    }

    method Button(input: int, at: real)
      modifies this
      ensures Model() == Next(old(Model()), Event.Button(input, at))
    {
      timer := None;
      FlushPending(at);
      Emit(Direct(input), at);
    }

    method KeyPress(input: int, at: real)
      modifies this
      ensures Model() == Next(old(Model()), Event.KeyPress(input, at))
    {
      Emit(Direct(input), at);
    }

    method Fire(at: real)
      modifies this
      ensures Model() == Next(old(Model()), Fires(at))
    {
      timer := None;
      ghost var idle := Model();
      Schedule(at);
      FiresSchedules(old(Model()), idle, Model(), at);
    }

    method Dispose(at: real)
      modifies this
      ensures Model() == Next(old(Model()), Event.Dispose(at))
    {
      timer := None;
      FlushPending(at);
    }
  }

  lemma FiresSchedules(p: Pacer, idle: Pacer, r: Pacer, at: real)
    requires idle == p.(timer := None) && r == InputPacer.Schedule(idle, at)
    ensures r == Next(p, Fires(at))
  {}
}
