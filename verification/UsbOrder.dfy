/** The network driver's queues are first in, first out, over whole runs: completed buffers are
    taken off the done list in the order their completions put them there, packets the stack put
    by are unpaused in the order it did so, and transmissions put off during suspend are taken up
    in the order they came. */
module UsbOrder {
  import opened Wrappers
  import opened UsbQueues
  import opened UsbOwnership

  /** All buffers ever completed and how many of them were taken up; all packets ever put by, and
      all transmissions ever put off, and how many of those. */
  datatype Lines = Lines(completed: seq<Skb>, taken: nat, parked: seq<Skb>, unparked: nat, deferred: seq<Pending>, woken: nat)

  /** The bottom half offers a good reception to the stack, and the stack puts it by. */
  predicate Parks(s: Sys, o: Processed)
    requires s.dev.q.done != []
  {
    StateOf(s.dev, s.dev.q.done[0]) == RxDone && o == Paused
  }

  function Joins(l: Lines, s: Sys, a: Action): Lines
    requires CanApply(s, a)
  {
    match a
    case RxOff(i) => l.(completed := l.completed + [s.dev.tasks[i].skb])
    case TxOff(i) => l.(completed := l.completed + [s.dev.tasks[i].skb])
    case Bottom(o) => l.(taken := l.taken + 1, parked := if Parks(s, o) then l.parked + [s.dev.q.done[0]] else l.parked)
    case Unpause(_) => l.(unparked := l.unparked + 1)
    case Xmit(k, u, _, o) => if o == Asleep then l.(deferred := l.deferred + [Pending(u, k)]) else l
    case Wake(_) => l.(woken := l.woken + 1)
    case _ => l
  }

  function JoinsAll(l: Lines, s: Sys, actions: seq<Action>): Lines
    requires CanRun(s, actions)
    decreases |actions|
  {
    if actions == [] then l else JoinsAll(Joins(l, s, actions[0]), Apply(s, actions[0]), actions[1..])
  }

  predicate InLine(q: Queues, l: Lines) {
    && l.taken <= |l.completed| && q.done == l.completed[l.taken..]
    && l.unparked <= |l.parked| && q.paused == l.parked[l.unparked..]
    && l.woken <= |l.deferred| && q.anchor == l.deferred[l.woken..]
  }

  lemma LinesStay(s: Sys, a: Action)
    requires CanApply(s, a) && !a.Bottom? && !a.Unpause? && !a.Wake? && !a.RxOff? && !a.TxOff?
    ensures Apply(s, a).dev.q.done == s.dev.q.done && Apply(s, a).dev.q.paused == s.dev.q.paused
    ensures
      Apply(s, a).dev.q.anchor == if a.Xmit? && a.o == Asleep then s.dev.q.anchor + [Pending(a.u, a.k)] else s.dev.q.anchor
  {
  }

  lemma JoinsDone(s: Sys, a: Action)
    requires CanApply(s, a) && (a.RxOff? || a.TxOff?)
    ensures Apply(s, a).dev.q.done == s.dev.q.done + [s.dev.tasks[a.i].skb]
    ensures Apply(s, a).dev.q.anchor == s.dev.q.anchor && Apply(s, a).dev.q.paused == s.dev.q.paused
  {
  }

  lemma LeavesDone(s: Sys, o: Processed)
    requires s.dev.q.done != []
    ensures
      var q := AfterBottom(s, o).dev.q;
      && q.done == s.dev.q.done[1..] && q.anchor == s.dev.q.anchor
      && q.paused == if Parks(s, o) then s.dev.q.paused + [s.dev.q.done[0]] else s.dev.q.paused
  {
  }

  lemma LeavesLine(s: Sys, a: Action)
    requires CanApply(s, a) && (a.Unpause? || a.Wake?)
    ensures Apply(s, a).dev.q.done == s.dev.q.done
    ensures Apply(s, a).dev.q.paused == if a.Unpause? then s.dev.q.paused[1..] else s.dev.q.paused
    ensures Apply(s, a).dev.q.anchor == if a.Wake? then s.dev.q.anchor[1..] else s.dev.q.anchor
  {
  }

  lemma StepKeepsLine(s: Sys, l: Lines, a: Action)
    requires CanApply(s, a) && InLine(s.dev.q, l)
    ensures InLine(Apply(s, a).dev.q, Joins(l, s, a))
  {
    if a.RxOff? || a.TxOff? { JoinsDone(s, a); }
    else if a.Bottom? { LeavesDone(s, a.processed); }
    else if a.Unpause? || a.Wake? { LeavesLine(s, a); }
    else { LinesStay(s, a); }
  }

  lemma {:induction false} RunKeepsLine(s: Sys, l: Lines, actions: seq<Action>)
    requires CanRun(s, actions) && InLine(s.dev.q, l)
    ensures InLine(Run(s, actions).dev.q, JoinsAll(l, s, actions))
    decreases |actions|
  {
    if actions != [] {
      StepKeepsLine(s, l, actions[0]);
      RunKeepsLine(Apply(s, actions[0]), Joins(l, s, actions[0]), actions[1..]);
    }
  }

  /** Over every run the buffer the bottom half takes next is the one that has waited longest,
      and so are the packet unpaused next and the transmission taken up next at resume. */
  lemma FirstInFirstOut(actions: seq<Action>)
    requires CanRun(START, actions)
    ensures
      var q, l := Run(START, actions).dev.q, JoinsAll(Lines([], 0, [], 0, [], 0), START, actions);
      && l.taken <= |l.completed| && |q.done| == |l.completed| - l.taken && l.woken <= |l.deferred|
      && (q.done != [] ==> q.done[0] == l.completed[l.taken])
      && (q.paused != [] ==> l.unparked < |l.parked| && q.paused[0] == l.parked[l.unparked])
      && (q.anchor != [] ==> l.woken < |l.deferred| && q.anchor[0] == l.deferred[l.woken])
  {
    RunKeepsLine(START, Lines([], 0, [], 0, [], 0), actions);
  }
}
