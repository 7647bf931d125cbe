/** Cancelling transfer descriptors on an endpoint: the lists a TD can be on, how
    far its cancellation has come, which commands are outstanding, and the handlers
    that run when those commands complete, as functions of the endpoint's state. */
module Cancellation {
  import opened Wrappers

  /** A TD, by what identifies it: its number, its URB and the URB's stream. */
  datatype Td = Td(id: nat, urb: nat, stream: nat)

  datatype Status = Dirty | Halted | ClearingCache | Deferred | Cleared

  /** One write of the doorbell register: for which stream, and what the cancelled list looked
      like at that moment. */
  datatype Bell = Bell(stream: nat, cancelled: seq<Status>)

  /** `tds` is what the TD lists of the endpoint's rings hold, `streams` the numbers of
      those rings (just 0 without streams). `numTds` and `done` count per URB. */
  datatype Ep = Ep(
    stop: bool, setDeq: bool, halted: bool, clearingTt: bool,
    streams: seq<nat>,
    tds: seq<Td>, cancelled: seq<Td>, status: map<Td, Status>,
    numTds: map<nat, nat>, done: map<nat, nat>, givenBack: seq<nat>,
    doorbells: seq<Bell>)

  function Without(s: seq<Td>, td: Td): (r: seq<Td>)
    ensures forall x :: x in r <==> x in s && x != td
    ensures |r| <= |s| && (td in s ==> |r| < |s|)
  {
    if s == [] then []
    else (if s[0] == td then [] else [s[0]]) + Without(s[1..], td)
  }

  function WithoutAll(s: seq<Td>, gone: seq<Td>): (r: seq<Td>)
    ensures forall x :: x in r <==> x in s && x !in gone
    decreases |gone|
  {
    if gone == [] then s else WithoutAll(Without(s, gone[0]), gone[1..])
  }

  predicate Distinct(s: seq<Td>) {
    forall i, j :: 0 <= i < j < |s| ==> s[i] != s[j]
  }

  /** The cancellation status of a TD; one never cancelled counts as dirty. */
  function StatusOf(e: Ep, td: Td): Status {
    if td in e.status then e.status[td] else Dirty
  }

  function Statuses(e: Ep): (s: seq<Status>)
    ensures |s| == |e.cancelled|
  {
    seq(|e.cancelled|, i requires 0 <= i < |e.cancelled| => StatusOf(e, e.cancelled[i]))
  }

  // ------------------------------------------------------------------ building blocks

  /** A TD leaves the lists; with its last TD the URB goes back (xhci_td_cleanup). */
  function Cleanup(e: Ep, td: Td): Ep {
    var d := Done(e, td.urb) + 1;
    e.(tds := Without(e.tds, td),
       cancelled := Without(e.cancelled, td),
       done := e.done[td.urb := d],
       givenBack := if td.urb in e.numTds && d == e.numTds[td.urb] then e.givenBack + [td.urb] else e.givenBack)
  }

  function Done(e: Ep, urb: nat): nat {
    if urb in e.done then e.done[urb] else 0
  }

  /** xhci_ring_ep_doorbell: written only if nothing is pending on the endpoint. */
  function Doorbell(e: Ep, stream: nat): Ep {
    if e.stop || e.setDeq || e.halted || e.clearingTt then e
    else e.(doorbells := e.doorbells + [Bell(stream, Statuses(e))])
  }

  predicate Active(e: Ep, stream: nat) {
    exists td :: td in e.tds && td.stream == stream
  }

  /** ring_doorbell_for_active_rings, over the first `k` rings. */
  function ActiveDoorbells(e: Ep, k: nat): Ep
    requires k <= |e.streams|
  {
    if k == 0 then e
    else
      var e' := ActiveDoorbells(e, k - 1);
      if Active(e, e.streams[k - 1]) then Doorbell(e', e.streams[k - 1]) else e'
  }

  function RestartRings(e: Ep): Ep {
    ActiveDoorbells(e, |e.streams|)
  }

  /** Giving back those of `todo` that are cleared (xhci_giveback_invalidated_tds). */
  function GivebackFrom(e: Ep, todo: seq<Td>): Ep
    decreases |todo|
  {
    if todo == [] then e
    else GivebackFrom(if StatusOf(e, todo[0]) == Cleared then Cleanup(e, todo[0]) else e, todo[1..])
  }

  function Giveback(e: Ep): Ep {
    GivebackFrom(e, e.cancelled)
  }

  /** What the pass over the cancelled list has decided: statuses, and the TD whose
      ring the controller must be moved on. */
  datatype Pass = Pass(status: map<Td, Status>, cached: Option<Td>)

  /** One TD of that pass; `hit` says whether the controller stopped inside it. */
  function PassOne(p: Pass, td: Td, s: Status, hit: bool): Pass {
    if s == Halted || hit then
      if s == Cleared || s == ClearingCache then p
      else if p.cached.Some? && p.cached.value.stream != td.stream then
        p.(status := p.status[td := Deferred])
      else
        var status := if p.cached.Some? then p.status[p.cached.value := Cleared] else p.status;
        Pass(status[td := ClearingCache], Some(td))
    else
      p.(status := p.status[td := Cleared])
  }

  function PassAll(p: Pass, todo: seq<Td>, hits: set<Td>): Pass
    decreases |todo|
  {
    if todo == [] then p
    else
      var td := todo[0];
      PassAll(PassOne(p, td, if td in p.status then p.status[td] else Dirty, td in hits), todo[1..], hits)
  }

  /** All that waited for a dequeue move is marked cleared, for want of one. */
  function GiveUp(status: map<Td, Status>, todo: seq<Td>): map<Td, Status>
    decreases |todo|
  {
    if todo == [] then status
    else
      var td := todo[0];
      var waiting := td in status && (status[td] == ClearingCache || status[td] == Deferred);
      GiveUp(if waiting then status[td := Cleared] else status, todo[1..])
  }

  /** xhci_invalidate_cancelled_tds. `moved` says whether queueing the command that
      moves the controller's dequeue succeeded. */
  function Invalidate(e: Ep, hits: set<Td>, moved: bool): Ep {
    if e.setDeq then e
    else
      var p := PassAll(Pass(e.status, None), e.cancelled, hits);
      var e1 := e.(tds := WithoutAll(e.tds, e.cancelled), status := p.status);
      if p.cached.None? then e1
      else if moved then e1.(setDeq := true)
      else e1.(status := GiveUp(p.status, e.cancelled))
  }

  /** xhci_handle_halted_endpoint; the second result tells whether it failed. */
  function HandleHalted(e: Ep, td: Option<Td>, hard: bool, portError: bool, canQueue: bool): (Ep, bool) {
    if portError then (e, true)
    else
      var e1 := if hard && td.Some? && td.value !in e.cancelled
                then e.(cancelled := e.cancelled + [td.value], status := e.status[td.value := Halted])
                else e;
      if e.halted then (e1, false)
      else if !canQueue then (e1, true)
      else (e1.(halted := true), false)
  }

  /** xhci_clear_hub_tt_buffer: for a full- or low-speed device behind a hub the hub is asked to
      clear its buffer, unless it was asked already. `accepted` says whether it could be asked. */
  function ClearTt(e: Ep, behindHub: bool, accepted: bool): Ep {
    if behindHub && !e.clearingTt && accepted then e.(clearingTt := true) else e
  }

  /** A TD that stopped its endpoint with an error (finish_td). On the default control endpoint
      a stall does not ask for the hub's buffer to be cleared. */
  function FinishHalted(e: Ep, td: Td, controlStall: bool, behindHub: bool, accepted: bool, portError: bool, canQueue: bool): Ep {
    HandleHalted(if controlStall then e else ClearTt(e, behindHub, accepted), Some(td), true, portError, canQueue).0
  }

  // ---------------------------------------------------------------- the handlers

  /** What a Stop Endpoint completion reports: success, or a context state error with
      the state the endpoint is found in. */
  datatype StopReport =
    | Stopped
    | FoundHalted(td: Option<Td>, hard: bool, portError: bool)
    | FoundStopped(timedOut: bool)
    | FoundRunning

  function FinishStop(e: Ep, hits: set<Td>, moved: bool): Ep {
    RestartRings(Giveback(Invalidate(e, hits, moved).(stop := false)))
  }

  function RetryStop(e: Ep, canQueue: bool): Ep {
    if canQueue then e else e.(stop := false)
  }

  function HandleStop(e: Ep, report: StopReport, hits: set<Td>, moved: bool, canQueue: bool): Ep {
    match report
    case Stopped => FinishStop(e, hits, moved)
    case FoundHalted(td, hard, portError) =>
      if e.halted then e.(stop := false)
      else
        var (e1, failed) := HandleHalted(e, td, hard, portError, canQueue);
        if failed then FinishStop(e1, hits, moved) else e1.(stop := false)
    case FoundStopped(timedOut) =>
      if e.halted || timedOut then FinishStop(e, hits, moved) else RetryStop(e, canQueue)
    case FoundRunning => RetryStop(e, canQueue)
  }

  /** The TDs flushed from the controller's cache are done (first loop of
      xhci_handle_cmd_set_deq). */
  function GivebackFlushed(e: Ep, todo: seq<Td>): Ep
    decreases |todo|
  {
    if todo == [] then e
    else
      var td := todo[0];
      var e1 := if StatusOf(e, td) == ClearingCache then Cleanup(e.(status := e.status[td := Cleared]), td) else e;
      GivebackFlushed(e1, todo[1..])
  }

  function HandleSetDeq(e: Ep, hits: set<Td>, moved: bool): Ep {
    var e1 := GivebackFlushed(e, e.cancelled).(setDeq := false);
    if e1.cancelled != [] then
      Giveback(RestartRings(Invalidate(e1, hits, moved)))
    else
      RestartRings(e1)
  }

  function HandleReset(e: Ep, hits: set<Td>, moved: bool, soft: bool): Ep {
    var e1 := Giveback(Invalidate(e, hits, moved).(halted := false));
    if soft then RestartRings(e1) else e1
  }

  // ------------------------------------------------------------- the other events

  /** An URB for a stream is queued and the doorbell rung. */
  function Enqueue(e: Ep, tds: seq<Td>, urb: nat, stream: nat): Ep {
    Doorbell(e.(tds := e.tds + tds, numTds := e.numTds[urb := |tds|], done := e.done[urb := 0]), stream)
  }

  /** Those TDs of `todo` that are not being cancelled yet become dirty entries. */
  function MarkDirty(e: Ep, todo: seq<Td>): Ep
    decreases |todo|
  {
    if todo == [] then e
    else
      var td := todo[0];
      MarkDirty(if td in e.cancelled then e
                else e.(cancelled := e.cancelled + [td], status := e.status[td := Dirty]), todo[1..])
  }

  /** URB dequeue: entries are added, and a stop command is queued unless a command
      that will sort them out is pending already. */
  function Cancel(e: Ep, todo: seq<Td>): Ep {
    var e1 := MarkDirty(e, todo);
    if e.stop || e.setDeq || e.halted then e1 else e1.(stop := true)
  }

  /** The hub has cleared its buffer; queued transfers may go on. */
  function TtCleared(e: Ep): Ep {
    RestartRings(e.(clearingTt := false))
  }

  function CleanupAll(e: Ep, todo: seq<Td>): Ep
    decreases |todo|
  {
    if todo == [] then e else CleanupAll(Cleanup(e, todo[0]), todo[1..])
  }

  /** Host death: everything on the lists goes back (xhci_kill_endpoint_urbs). */
  function Kill(e: Ep): Ep {
    var e1 := CleanupAll(e, e.tds);
    CleanupAll(e1, e1.cancelled)
  }
}
