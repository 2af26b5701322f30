/**
 The output reconciler (internal/runtimeio/controller.go): one poll at a time, as a function of the controller, the rig, the
 inputs read and the outputs desired.
 */
module Control {
  import opened Domain
  import opened EngineSpec
  import opened RemoteOutputs

  datatype Timing = Timing(pulse: int, timeout: int)

  const MILLISECOND := 1_000_000

  /** The defaults for settings left at zero, in nanoseconds. */
  function WithDefaults(t: Timing): (r: Timing)
    ensures r.pulse > 0 && r.timeout > 0
  {
    Timing(if t.pulse <= 0 then 700 * MILLISECOND else t.pulse, if t.timeout <= 0 then 5000 * MILLISECOND else t.timeout)
  }

  datatype Ctl = Ctl(
    applied: Outputs, lastReady: bool, buzzerUntil: Option<Time>, entrySince: Option<Time>, exitSince: Option<Time>, safe: bool)

  const NEW_CTL := Ctl(ALL_OFF, false, None, None, None, false)

  // ---------- one side or the other ----------

  function GreenOf(o: Outputs, s: Side): bool {
    if s == EntrySide then o.entryGreen else o.exitGreen
  }

  function OpenOf(o: Outputs, s: Side): bool {
    if s == EntrySide then o.entryOpen else o.exitOpen
  }

  /** The outputs with one command carried out. */
  function Applied(o: Outputs, cmd: Command): Outputs {
    match cmd
    case Light(EntrySide, on) => o.(entryGreen := on)
    case Light(ExitSide, on) => o.(exitGreen := on)
    case Barrier(EntrySide, on) => o.(entryOpen := on)
    case Barrier(ExitSide, on) => o.(exitOpen := on)
    case Buzz(on) => o.(buzzer := on)
  }

  function Feedback(p: Position, s: Side): bool {
    if s == EntrySide then p.entryOpen else p.exitOpen
  }

  predicate Contradicts(p: Position, s: Side) {
    if s == EntrySide then p.entryOpen && p.entryClosed else p.exitOpen && p.exitClosed
  }

  function SinceOf(c: Ctl, s: Side): Option<Time> {
    if s == EntrySide then c.entrySince else c.exitSince
  }

  function WithSince(c: Ctl, s: Side, t: Option<Time>): Ctl {
    if s == EntrySide then c.(entrySince := t) else c.(exitSince := t)
  }

  function BarrierOf(s: Side): Device {
    if s == EntrySide then EntryBarrier else ExitBarrier
  }

  // ---------- calls into the workflow ----------

  const INPUTS_LOST := SetFault(Fault(RemoteIO, Disconnected, "remote inputs cannot be read", false, true))
  const UNSAFE := SetFault(Fault(RemoteIO, Faulty, "cannot establish safe output state", false, true))
  const OUTPUT_FAILED := SetFault(Fault(RemoteIO, Faulty, "remote output failed", false, true))

  function ContradictionFault(s: Side): Event {
    SetFault(Fault(BarrierOf(s), Faulty, "contradictory barrier OPEN+CLOSED feedback", false, true))
  }

  function TimeoutFault(s: Side): Event {
    SetFault(Fault(BarrierOf(s), Faulty, "barrier did not confirm OPEN before timeout", false, true))
  }

  function Tell(r: Rig, e: Event): Rig {
    r.(calls := r.calls + [e])
  }

  // ---------- the phases of a poll; each is skipped once one has failed ----------

  datatype Work = Work(ctl: Ctl, rig: Rig, ok: bool)

  function IoFault(w: Work): Work {
    Work(w.ctl.(safe := false), Tell(w.rig, OUTPUT_FAILED), false)
  }

  function Do(hw: Hw, w: Work, cmd: Command): Work {
    if !w.ok then w
    else
      var d := Perform(hw, w.rig, cmd);
      if d.ok then Work(w.ctl.(applied := Applied(w.ctl.applied, cmd)), d.rig, true)
      else IoFault(Work(w.ctl, d.rig, false))
  }

  /** The barrier request of one side; withdrawing it withdraws green first. */
  function Request(hw: Hw, w: Work, s: Side, want: bool, now: Time): Work {
    if !w.ok || want == OpenOf(w.ctl.applied, s) then w
    else
      var w1 := if !want && GreenOf(w.ctl.applied, s) then Do(hw, w, Light(s, false)) else w;
      var w2 := Do(hw, w1, Barrier(s, want));
      if !w2.ok then w2 else w2.(ctl := WithSince(w2.ctl, s, if want then Some(now) else None))
  }

  /** Green needs the open feedback of a barrier that is to be open. */
  function GreenWanted(desired: Outputs, p: Position, s: Side): bool {
    GreenOf(desired, s) && (!OpenOf(desired, s) || Feedback(p, s))
  }

  function Lamp(hw: Hw, w: Work, s: Side, green: bool): Work {
    if !w.ok || green == GreenOf(w.ctl.applied, s) then w else Do(hw, w, Light(s, green))
  }

  /** The buzzer may sound: it is desired, and every barrier requested open, at least one, reports open. */
  predicate BuzzerReady(desired: Outputs, p: Position) {
    && desired.buzzer
    && (desired.entryOpen ==> p.entryOpen) && (desired.exitOpen ==> p.exitOpen)
    && (desired.entryOpen || desired.exitOpen)
  }

  function Pulse(c: Ctl, t: Timing, ready: bool, now: Time): Ctl {
    c.(lastReady := ready,
       buzzerUntil := if !ready then None else if !c.lastReady then Some(now + t.pulse) else c.buzzerUntil)
  }

  function Sound(hw: Hw, w: Work, t: Timing, ready: bool, now: Time): Work {
    if !w.ok then w
    else
      var c := Pulse(w.ctl, t, ready, now);
      var on := c.buzzerUntil.Some? && now < c.buzzerUntil.value;
      var w1 := w.(ctl := c);
      if on == c.applied.buzzer then w1 else Do(hw, w1, Buzz(on))
  }

  /** The barrier must report open in time. */
  function Confirm(w: Work, t: Timing, s: Side, desired: Outputs, p: Position, now: Time): Work {
    if !w.ok || !OpenOf(desired, s) then w
    else if Feedback(p, s) then w.(ctl := WithSince(w.ctl, s, None), rig := Tell(w.rig, ClearFault(BarrierOf(s))))
    else if SinceOf(w.ctl, s).Some? && now - SinceOf(w.ctl, s).value > t.timeout then w.(rig := Tell(w.rig, TimeoutFault(s)))
    else w
  }

  function Requested(hw: Hw, w: Work, desired: Outputs, now: Time): Work {
    Request(hw, Request(hw, w, EntrySide, desired.entryOpen, now), ExitSide, desired.exitOpen, now)
  }

  function Lamps(hw: Hw, w: Work, desired: Outputs, p: Position): Work {
    Lamp(hw, Lamp(hw, w, EntrySide, GreenWanted(desired, p, EntrySide)), ExitSide, GreenWanted(desired, p, ExitSide))
  }

  function Confirmed(w: Work, t: Timing, desired: Outputs, p: Position, now: Time): Work {
    Confirm(Confirm(w, t, EntrySide, desired, p, now), t, ExitSide, desired, p, now)
  }

  function Reconcile(hw: Hw, t: Timing, w: Work, desired: Outputs, p: Position, now: Time): Work {
    Confirmed(Sound(hw, Lamps(hw, Requested(hw, w, desired, now), desired, p), t, BuzzerReady(desired, p), now), t, desired, p, now)
  }

  /** Nothing applied, no timer running. */
  function Rested(c: Ctl): Ctl {
    c.(applied := ALL_OFF, lastReady := false, buzzerUntil := None, entrySince := None, exitSince := None)
  }

  /** A barrier that reports open and closed at once: both sides are reported, and everything goes to safe. */
  function Contradicted(hw: Hw, w: Work, p: Position): Work {
    var r1 := if Contradicts(p, EntrySide) then Tell(w.rig, ContradictionFault(EntrySide)) else w.rig;
    var r2 := if Contradicts(p, ExitSide) then Tell(r1, ContradictionFault(ExitSide)) else r1;
    var d := SafeState(hw, r2);
    if !d.ok then IoFault(Work(w.ctl, d.rig, false)) else Work(Rested(w.ctl), d.rig, true)
  }

  /** A poll up to the point where the workflow has seen the inputs. */
  function Begin(hw: Hw, c: Ctl, r: Rig, inputs: Option<Position>): Work {
    if inputs.None? then Work(c.(safe := false), Tell(r, INPUTS_LOST), false)
    else
      var d := if c.safe then Did(r, true) else SafeState(hw, r);
      if !d.ok then Work(c, Tell(d.rig, UNSAFE), false)
      else Work((if c.safe then c else Rested(c)).(safe := true),
                Tell(Tell(d.rig, ClearFault(RemoteIO)), SeePosition(inputs.value)), true)
  }

  /** The rest of the poll, with the outputs then desired. */
  function Finish(hw: Hw, t: Timing, w: Work, desired: Outputs, p: Position, now: Time): Work {
    if Contradicts(p, EntrySide) || Contradicts(p, ExitSide) then Contradicted(hw, w, p) else Reconcile(hw, t, w, desired, p, now)
  }

  /** What one poll meets: the inputs if they can be read, whether the workflow took the position without an error, the
      outputs desired afterwards, and the time at which they are reconciled. */
  datatype Poll = Poll(inputs: Option<Position>, seen: bool, desired: Outputs, now: Time)

  function PollOnce(hw: Hw, t: Timing, c: Ctl, r: Rig, poll: Poll): Work {
    var b := Begin(hw, c, r, poll.inputs);
    if !b.ok then b
    else if !poll.seen then b.(ok := false)
    else Finish(hw, t, b, poll.desired, poll.inputs.value, poll.now)
  }

  function PollAll(hw: Hw, t: Timing, c: Ctl, r: Rig, polls: seq<Poll>): Work {
    if polls == [] then Work(c, r, true)
    else
      var w := PollAll(hw, t, c, r, polls[..|polls| - 1]);
      PollOnce(hw, t, w.ctl, w.rig, polls[|polls| - 1])
  }
}
