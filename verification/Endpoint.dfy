/** The endpoint as the driver keeps it: lists and flags updated in place by the
    completion handlers. Each method is tied to the function that says what it does. */
module Endpoint {
  import opened Wrappers
  import opened Cancellation

  class VirtEndpoint {
    const streams: seq<nat>
    var stop: bool
    var setDeq: bool
    var halted: bool
    var clearingTt: bool
    var tds: seq<Td>
    var cancelled: seq<Td>
    var status: map<Td, Status>
    var numTds: map<nat, nat>
    var done: map<nat, nat>
    var givenBack: seq<nat>
    var doorbells: seq<Bell>

    constructor (streams: seq<nat>)
      ensures this.streams == streams
      ensures Abs() == Ep(false, false, false, false, streams, [], [], map[], map[], map[], [], [])
    {
      this.streams := streams;
      stop, setDeq, halted, clearingTt := false, false, false, false;
      tds, cancelled, status := [], [], map[];
      numTds, done, givenBack, doorbells := map[], map[], [], [];
    }

    function Abs(): Ep
      reads this
    {
      Ep(stop, setDeq, halted, clearingTt, streams, tds, cancelled, status, numTds, done, givenBack, doorbells)
    }

    /** xhci_td_cleanup, as far as lists and counts go. */
    method TdCleanup(td: Td)
      modifies this
      ensures Abs() == Cleanup(old(Abs()), td)
    {
      tds := Without(tds, td);
      cancelled := Without(cancelled, td);
      var d := (if td.urb in done then done[td.urb] else 0) + 1;
      done := done[td.urb := d];
      if td.urb in numTds && d == numTds[td.urb] {
        givenBack := givenBack + [td.urb];
      }
    }

    /** xhci_ring_ep_doorbell. */
    method RingDoorbell(stream: nat)
      modifies this`doorbells
      ensures Abs() == Doorbell(old(Abs()), stream)
    {
      if stop || setDeq || halted || clearingTt {
        return;
      }
      doorbells := doorbells + [Bell(stream, Statuses(Abs()))];
    }

    /** ring_doorbell_for_active_rings. */
    method RingDoorbellForActiveRings()
      modifies this`doorbells
      ensures Abs() == RestartRings(old(Abs()))
    {
      for k := 0 to |streams|
        invariant Abs() == ActiveDoorbells(old(Abs()), k)
        invariant tds == old(tds)
      {
        if exists td :: td in tds && td.stream == streams[k] {
          RingDoorbell(streams[k]);
        }
      }
    }

    /** xhci_giveback_invalidated_tds. */
    method GivebackInvalidatedTds()
      modifies this
      ensures Abs() == Giveback(old(Abs()))
    {
      var todo := cancelled;
      for i := 0 to |todo|
        invariant GivebackFrom(Abs(), todo[i..]) == GivebackFrom(old(Abs()), todo)
      {
        if StatusOf(Abs(), todo[i]) == Cleared {
          TdCleanup(todo[i]);
        }
      }
    }

    /** xhci_invalidate_cancelled_tds: `hits` are the TDs the controller stopped in,
        `moved` whether the command to move its dequeue could be queued. */
    method InvalidateCancelledTds(hits: set<Td>, moved: bool)
      modifies this
      ensures Abs() == Invalidate(old(Abs()), hits, moved)
    {
      if setDeq {
        return;
      }
      var cached: Option<Td> := None;
      for i := 0 to |cancelled|
        invariant Abs() == old(Abs()).(tds := tds, status := status)
        invariant WithoutAll(tds, cancelled[i..]) == WithoutAll(old(tds), cancelled)
        invariant PassAll(Pass(status, cached), cancelled[i..], hits) == PassAll(Pass(old(status), None), cancelled, hits)
      {
        tds := Without(tds, cancelled[i]);
        cached := TakeCancelled(cancelled[i], hits, cached);
      }
      if cached.None? {
        return;
      }
      if moved {
        setDeq := true;
      } else {
        SetCachedToNoop();
      }
    }

    /** What the pass decides about one TD; `cached` is the one the dequeue is to move past so far. */
    method TakeCancelled(td: Td, hits: set<Td>, cached: Option<Td>) returns (next: Option<Td>)
      modifies this`status
      ensures Pass(status, next) == PassOne(Pass(old(status), cached), td, StatusOf(old(Abs()), td), td in hits)
    {
      next := cached;
      var s := StatusOf(Abs(), td);
      if s == Halted || td in hits {
        match s {
          case Cleared =>
          case ClearingCache =>
          case _ =>
            if cached.Some? && cached.value.stream != td.stream {
              status := status[td := Deferred];
            } else {
              if cached.Some? {
                status := status[cached.value := Cleared];
              }
              status := status[td := ClearingCache];
              next := Some(td);
            }
        }
      } else {
        status := status[td := Cleared];
      }
    }

    /** The move failed: what waited for it is marked cleared. */
    method SetCachedToNoop()
      modifies this`status
      ensures Abs() == old(Abs()).(status := GiveUp(old(status), cancelled))
    {
      for i := 0 to |cancelled|
        invariant GiveUp(status, cancelled[i..]) == GiveUp(old(status), cancelled)
      {
        var td := cancelled[i];
        if td in status && (status[td] == ClearingCache || status[td] == Deferred) {
          status := status[td := Cleared];
        }
      }
    }

    /** xhci_handle_halted_endpoint. */
    method HandleHaltedEndpoint(td: Option<Td>, hard: bool, portError: bool, canQueue: bool) returns (failed: bool)
      modifies this
      ensures (Abs(), failed) == HandleHalted(old(Abs()), td, hard, portError, canQueue)
    {
      if portError {
        return true;
      }
      if hard && td.Some? && td.value !in cancelled {
        cancelled := cancelled + [td.value];
        status := status[td.value := Halted];
      }
      if halted {
        return false;
      }
      if !canQueue {
        return true;
      }
      halted := true;
      return false;
    }

    /** xhci_clear_hub_tt_buffer: the flag is up while the hub is asked, and taken back if it
        cannot be. */
    method ClearHubTtBuffer(behindHub: bool, accepted: bool)
      modifies this`clearingTt
      ensures Abs() == ClearTt(old(Abs()), behindHub, accepted)
    {
      if behindHub && !clearingTt {
        clearingTt := true;
        if !accepted {
          clearingTt := false;
        }
      }
    }

    /** finish_td for a TD that halted its endpoint. */
    method FinishHaltedTd(td: Td, controlStall: bool, behindHub: bool, accepted: bool, portError: bool, canQueue: bool)
      modifies this
      ensures Abs() == FinishHalted(old(Abs()), td, controlStall, behindHub, accepted, portError, canQueue)
    {
      if !controlStall {
        ClearHubTtBuffer(behindHub, accepted);
      }
      var failed := HandleHaltedEndpoint(Some(td), true, portError, canQueue);
    }

    method FinishStopEp(hits: set<Td>, moved: bool)
      modifies this
      ensures Abs() == FinishStop(old(Abs()), hits, moved)
    {
      InvalidateCancelledTds(hits, moved);
      stop := false;
      GivebackInvalidatedTds();
      RingDoorbellForActiveRings();
    }

    /** xhci_handle_cmd_stop_ep. */
    method HandleCmdStopEp(report: StopReport, hits: set<Td>, moved: bool, canQueue: bool)
      modifies this
      ensures Abs() == HandleStop(old(Abs()), report, hits, moved, canQueue)
    {
      match report {
        case Stopped =>
        case FoundHalted(td, hard, portError) =>
          var failed := false;
          if !halted {
            failed := HandleHaltedEndpoint(td, hard, portError, canQueue);
          }
          if !failed {
            stop := false;
            return;
          }
        case FoundStopped(timedOut) =>
          if !(halted || timedOut) {
            if !canQueue { stop := false; }
            return;
          }
        case FoundRunning =>
          if !canQueue { stop := false; }
          return;
      }
      FinishStopEp(hits, moved);
    }

    /** xhci_handle_cmd_set_deq. */
    method HandleCmdSetDeq(hits: set<Td>, moved: bool)
      modifies this
      ensures Abs() == HandleSetDeq(old(Abs()), hits, moved)
    {
      var todo := cancelled;
      for i := 0 to |todo|
        invariant GivebackFlushed(Abs(), todo[i..]) == GivebackFlushed(old(Abs()), todo)
      {
        if StatusOf(Abs(), todo[i]) == ClearingCache {
          status := status[todo[i] := Cleared];
          TdCleanup(todo[i]);
        }
      }
      setDeq := false;
      if cancelled != [] {
        InvalidateCancelledTds(hits, moved);
        RingDoorbellForActiveRings();
        GivebackInvalidatedTds();
      } else {
        RingDoorbellForActiveRings();
      }
    }

    /** xhci_handle_cmd_reset_ep. */
    method HandleCmdResetEp(hits: set<Td>, moved: bool, soft: bool)
      modifies this
      ensures Abs() == HandleReset(old(Abs()), hits, moved, soft)
    {
      InvalidateCancelledTds(hits, moved);
      halted := false;
      GivebackInvalidatedTds();
      if soft {
        RingDoorbellForActiveRings();
      }
    }

    /** xhci_kill_endpoint_urbs. */
    method KillUrbs()
      modifies this
      ensures Abs() == Kill(old(Abs()))
    {
      CleanupEach(tds);
      CleanupEach(cancelled);
    }

    method CleanupEach(todo: seq<Td>)
      modifies this
      ensures Abs() == CleanupAll(old(Abs()), todo)
    {
      for i := 0 to |todo|
        invariant CleanupAll(Abs(), todo[i..]) == CleanupAll(old(Abs()), todo)
      {
        TdCleanup(todo[i]);
      }
    }
  }
}
