/** The network device as the driver updates it in place: its lists and URBs are fields that
    the functions reassign. Each method is tied to the function that says what it does. */
module UsbNet {
  import opened Wrappers
  import opened UsbQueues

  /** One answer per buffer that is on the done list. */
  function Drained(d: Dev, answers: seq<Processed>): Dev
    decreases |answers|
  {
    if d.q.done == [] || answers == [] then d else Drained(BhOne(d, answers[0]), answers[1..])
  }

  function Resumed(d: Dev, answers: seq<bool>): Dev
    decreases |answers|
  {
    if d.q.anchor == [] || answers == [] then d else Resumed(ResumeOne(d, answers[0]), answers[1..])
  }

  /** A URB allocation that may fail, and what becomes of the posting otherwise. */
  datatype Round = NoRoom | Try(urb: Urb, skb: Skb, posting: Posting)

  /** rx_alloc_submit: rounds until the list is long enough or one fails. */
  function Refilled(d: Dev, rounds: seq<Round>, qlen: nat): Dev
    decreases |rounds|
  {
    if rounds == [] || |d.q.rxq| >= qlen || rounds[0].NoRoom? then d
    else
      var next := RxAlloc(d, rounds[0].urb, rounds[0].skb, rounds[0].posting);
      if rounds[0].posting == Posted then Refilled(next, rounds[1..], qlen) else next
  }

  /** How many rounds go well before the first that does not. */
  function Leading(rounds: seq<Round>): nat {
    if rounds == [] || rounds[0].NoRoom? || rounds[0].posting != Posted then 0 else 1 + Leading(rounds[1..])
  }

  /** The list is filled up to its length as far as the rounds go well one after another; it is
      never made longer, and nothing is tried after a round that failed. */
  lemma {:induction false} RefillsUpTo(d: Dev, rounds: seq<Round>, qlen: nat)
    ensures
      var n, more := |d.q.rxq|, |Refilled(d, rounds, qlen).q.rxq|;
      more == if qlen <= n then n else if n + Leading(rounds) <= qlen then n + Leading(rounds) else qlen
    ensures d.q.rxq <= Refilled(d, rounds, qlen).q.rxq
    decreases |rounds|
  {
    if rounds != [] && |d.q.rxq| < qlen && rounds[0].Try? && rounds[0].posting == Posted {
      RefillsUpTo(RxAlloc(d, rounds[0].urb, rounds[0].skb, Posted), rounds[1..], qlen);
    }
  }

  /** One round of unlink_urbs with no completion in between: the buffer is marked, its URB
      referenced for the call and let go again. */
  function UnlinkOne(d: Dev, k: Skb): Dev {
    var urbs := if k in d.entry && d.entry[k].urb.Some? then Put(Get(d.urbs, d.entry[k].urb.value), d.entry[k].urb.value) else d.urbs;
    d.(entry := WithState(d.entry, k, UnlinkStart), urbs := urbs)
  }

  /** How many buffers of a list are not marked yet. */
  function Unmarked(entry: map<Skb, Entry>, q: seq<Skb>): nat {
    if q == [] then 0
    else (if q[0] in entry && entry[q[0]].state == UnlinkStart then 0 else 1) + Unmarked(entry, q[1..])
  }

  lemma {:induction false} MarkingCounts(entry: map<Skb, Entry>, q: seq<Skb>, k: Skb)
    requires k in entry && entry[k].state != UnlinkStart
    ensures Unmarked(WithState(entry, k, UnlinkStart), q) <= Unmarked(entry, q)
    ensures k in q ==> Unmarked(WithState(entry, k, UnlinkStart), q) < Unmarked(entry, q)
  {
    if q != [] { MarkingCounts(entry, q[1..], k); }
  }

  predicate Known(d: Dev, q: seq<Skb>) {
    forall k :: k in q ==> k in d.entry
  }

  lemma {:induction false} FirstIsUnmarked(d: Dev, q: seq<Skb>)
    requires Known(d, q) && FirstLinked(d, q).Some?
    ensures FirstLinked(d, q).value in q && StateOf(d, FirstLinked(d, q).value) != UnlinkStart
  {
    if StateOf(d, q[0]) == UnlinkStart { FirstIsUnmarked(d, q[1..]); }
  }

  /** unlink_urbs: from the head again each time, until every buffer is marked. */
  function Unlinked(d: Dev, q: seq<Skb>): Dev
    requires Known(d, q)
    decreases Unmarked(d.entry, q)
  {
    var k := FirstLinked(d, q);
    if k.None? then d
    else
      FirstIsUnmarked(d, q);
      MarkingCounts(d.entry, q, k.value);
      Unlinked(UnlinkOne(d, k.value), q)
  }

  /** The buffers of a list an unlink is to pick and whose URB can be unlinked when it does. */
  function Pickable(d: Dev, q: seq<Skb>, accepted: Skb -> bool): set<Skb> {
    set k | k in q && StateOf(d, k) != UnlinkStart && accepted(k)
  }

  lemma PickedOnce(d: Dev, q: seq<Skb>, accepted: Skb -> bool, k: Skb)
    requires k in q && k in d.entry && StateOf(d, k) != UnlinkStart
    ensures |Pickable(UnlinkOne(d, k), q, accepted)| + (if accepted(k) then 1 else 0) == |Pickable(d, q, accepted)|
  {
    var e := UnlinkOne(d, k);
    assert forall x :: StateOf(e, x) == if x == k then UnlinkStart else StateOf(d, x);
    assert Pickable(e, q, accepted) == Pickable(d, q, accepted) - {k};
  }

  lemma {:induction false} NoneLeft(d: Dev, q: seq<Skb>)
    requires FirstLinked(d, q).None?
    ensures forall k :: k in q ==> StateOf(d, k) == UnlinkStart
  {
    if q != [] { NoneLeft(d, q[1..]); }
  }

  /** Afterwards every buffer on the list is marked, and nothing else about any buffer or list
      has changed; as long as each URB on the list is alive, no count has either. */
  lemma {:induction false} UnlinkedMarksAll(d: Dev, q: seq<Skb>)
    requires Known(d, q)
    ensures
      var e := Unlinked(d, q);
      && e.q == d.q && e.tasks == d.tasks && (forall k :: k in e.entry <==> k in d.entry)
      && (forall k :: k in q ==> StateOf(e, k) == UnlinkStart)
      && (forall k :: k in d.entry ==> e.entry[k].urb == d.entry[k].urb && (k !in q ==> e.entry[k] == d.entry[k]))
    decreases Unmarked(d.entry, q)
  {
    var k := FirstLinked(d, q);
    if k.None? {
      NoneLeft(d, q);
    } else {
      FirstIsUnmarked(d, q);
      MarkingCounts(d.entry, q, k.value);
      UnlinkedMarksAll(UnlinkOne(d, k.value), q);
    }
  }

  predicate Alive(d: Dev) {
    forall k :: k in d.entry && d.entry[k].urb.Some? ==> Refs(d.urbs, d.entry[k].urb.value) >= 1
  }

  lemma {:induction false} UnlinkedKeepsCounts(d: Dev, q: seq<Skb>)
    requires Known(d, q) && Alive(d)
    ensures Unlinked(d, q).urbs == d.urbs
    decreases Unmarked(d.entry, q)
  {
    var k := FirstLinked(d, q);
    if k.Some? {
      FirstIsUnmarked(d, q);
      MarkingCounts(d.entry, q, k.value);
      GetThenPut(d, k.value);
      UnlinkedKeepsCounts(UnlinkOne(d, k.value), q);
    }
  }

  lemma GetThenPut(d: Dev, k: Skb)
    requires k in d.entry && Alive(d)
    ensures UnlinkOne(d, k).urbs == d.urbs
  {
    if d.entry[k].urb.Some? {
      var u := d.entry[k].urb.value;
      assert Put(Get(d.urbs, u), u).refs == d.urbs.refs;
    }
  }

  /** rx_complete from beginning to end, its three pieces with nothing in between. */
  function RxWhole(d: Dev, u: Urb, k: Skb, status: Status, running: bool, next: Skb, o: Posting): Dev {
    var i := |d.tasks|;
    var sorted := RxSort(d.(tasks := d.tasks + [RxBack(u, k)]), i, status);
    var off := RxDefer(sorted, i);
    (if off.tasks[i].RxTail? then RxEnd(off, i, running, next, o) else off).(tasks := d.tasks)
  }

  function StateAfter(status: Status): SkbState {
    if status == Good then RxDone else RxCleanup
  }

  /** The same without the running callback in between. */
  function RxInOne(d: Dev, u: Urb, k: Skb, status: Status, running: bool, next: Skb, o: Posting): Dev {
    var e := d.(entry := d.entry[k := Entry(StateOf(d, k), if status == Blocked then Some(u) else None)]);
    RxAfterSort(e, u, k, status, running, next, o)
  }

  function RxAfterSort(e: Dev, u: Urb, k: Skb, status: Status, running: bool, next: Skb, o: Posting): Dev {
    var f := DeferBh(e, false, k, StateAfter(status));
    if status == Blocked then f
    else if running && StateOf(e, k) != UnlinkStart then RxSubmit(f, u, next, o)
    else f.(urbs := Put(f.urbs, u))
  }

  /** The three pieces that other processors may come between add up to the whole function. */
  lemma PiecesAddUp(d: Dev, u: Urb, k: Skb, status: Status, running: bool, next: Skb, o: Posting)
    ensures RxWhole(d, u, k, status, running, next, o) == RxInOne(d, u, k, status, running, next, o)
  {
  }

  class Device {
    var entry: map<Skb, Entry>
    var rxq: seq<Skb>
    var txq: seq<Skb>
    var done: seq<Skb>
    var paused: seq<Skb>
    var anchor: seq<Pending>
    var released: seq<Skb>
    var up: seq<Skb>
    var bogus: seq<Skb>
    var context: map<Urb, Context>
    var flight: set<Urb>
    var refs: map<Urb, nat>
    var freed: multiset<Urb>
    const tasks: seq<Task>

    constructor (tasks: seq<Task>)
      ensures Abs() == EMPTY.(tasks := tasks)
    {
      this.tasks := tasks;
      entry, rxq, txq, done, paused, anchor, released, up, bogus := map[], [], [], [], [], [], [], [], [];
      context, flight, refs, freed := map[], {}, map[], multiset{};
    }

    function Abs(): Dev
      reads this
    {
      Dev(entry, Queues(rxq, txq, done, paused, anchor, released, up, bogus), Urbs(context, flight, refs, freed), tasks)
    }

    method GetUrb(u: Urb)
      modifies this`refs
      ensures Abs() == old(Abs()).(urbs := Get(old(Abs()).urbs, u))
    {
      refs := refs[u := (if u in refs then refs[u] else 0) + 1];
    }

    /** usb_put_urb, usb_free_urb. */
    method PutUrb(u: Urb)
      modifies this`refs, this`freed
      ensures Abs() == old(Abs()).(urbs := Put(old(Abs()).urbs, u))
    {
      var n := if u in refs then refs[u] else 0;
      if n <= 1 {
        refs := refs[u := 0];
        freed := freed + multiset{u};
      } else {
        refs := refs[u := n - 1];
      }
    }

    method SubmitUrb(u: Urb)
      modifies this`refs, this`flight
      ensures Abs() == old(Abs()).(urbs := Submit(old(Abs()).urbs, u))
    {
      GetUrb(u);
      flight := flight + {u};
    }

    method QueueSkb(tx: bool, k: Skb, state: SkbState)
      modifies this`entry, this`rxq, this`txq
      ensures Abs() == old(Abs()).(entry := WithState(old(entry), k, state), q := Enqueued(old(Abs()).q, tx, k))
    {
      if tx { txq := txq + [k]; } else { rxq := rxq + [k]; }
      if k in entry { entry := entry[k := entry[k].(state := state)]; }
    }

    method DeferBottomHalf(tx: bool, k: Skb, state: SkbState) returns (was: SkbState)
      modifies this`entry, this`rxq, this`txq, this`done
      ensures Abs() == DeferBh(old(Abs()), tx, k, state) && was == StateOf(old(Abs()), k)
    {
      was := StateOf(Abs(), k);
      if k in entry { entry := entry[k := entry[k].(state := state)]; }
      if tx { txq := Without(txq, k); } else { rxq := Without(rxq, k); }
      done := done + [k];
    }

    method RxSubmitUrb(u: Urb, k: Skb, o: Posting) returns (ok: bool)
      modifies this`refs, this`freed, this`entry, this`released, this`context, this`flight, this`rxq, this`txq
      ensures Abs() == RxSubmit(old(Abs()), u, k, o) && ok == (o == Posted)
    {
      ok := o == Posted;
      if o == Killed || o == NoSkb {
        PutUrb(u);
        return;
      }
      entry := entry[k := Entry(Illegal, Some(u))];
      if o == Posted {
        context := context[u := Context(k, false)];
        SubmitUrb(u);
        QueueSkb(false, k, RxStart);
      } else {
        released := released + [k];
        PutUrb(u);
      }
    }

    /** rx_complete: the status decides whether the buffer keeps the URB; the buffer goes to
        the done list; a URB kept back is posted again or released. */
    method RxComplete(u: Urb, k: Skb, status: Status, running: bool, next: Skb, o: Posting)
      modifies this`refs, this`freed, this`entry, this`released, this`context, this`flight, this`rxq, this`txq, this`done
      ensures Abs() == RxInOne(old(Abs()), u, k, status, running, next, o)
    {
      var state := if k in entry then entry[k].state else Illegal;
      entry := entry[k := Entry(state, if status == Blocked then Some(u) else None)];
      RxCompleteTail(u, k, status, running, next, o);
    }

    /** From defer_bh on. */
    method RxCompleteTail(u: Urb, k: Skb, status: Status, running: bool, next: Skb, o: Posting)
      modifies this`refs, this`freed, this`entry, this`released, this`context, this`flight, this`rxq, this`txq, this`done
      ensures Abs() == RxAfterSort(old(Abs()), u, k, status, running, next, o)
    {
      var was := DeferBottomHalf(false, k, if status == Good then RxDone else RxCleanup);
      if status != Blocked {
        if running && was != UnlinkStart {
          var _ := RxSubmitUrb(u, next, o);
        } else {
          PutUrb(u);
        }
      }
    }

    /** rx_alloc_submit, at most ten rounds. */
    method RxAllocSubmit(rounds: seq<Round>, qlen: nat)
      requires |rounds| == 10
      modifies this`refs, this`freed, this`entry, this`released, this`context, this`flight, this`rxq, this`txq
      ensures Abs() == Refilled(old(Abs()), rounds, qlen)
    {
      var i: nat := 0;
      assert rounds[0..] == rounds;
      while i < 10 && |rxq| < qlen
        invariant i <= 10 && Refilled(Abs(), rounds[i..], qlen) == Refilled(old(Abs()), rounds, qlen)
      {
        var round := rounds[i];
        assert rounds[i..][0] == round && rounds[i..][1..] == rounds[i + 1..];
        if round.NoRoom? { return; }
        GetUrb(round.urb);
        var ok := RxSubmitUrb(round.urb, round.skb, round.posting);
        if !ok { return; }
        i := i + 1;
      }
    }

    method Xmit(k: Skb, u: Urb, stale: SkbState, o: Sending)
      modifies this`refs, this`freed, this`entry, this`released, this`context, this`flight, this`rxq, this`txq, this`anchor
      ensures Abs() == StartXmit(old(Abs()), k, u, stale, o)
    {
      if o == NoUrb {
        entry := entry[k := Entry(stale, None)];
        released := released + [k];
        return;
      }
      GetUrb(u);
      entry := entry[k := Entry(stale, Some(u))];
      context := context[u := Context(k, true)];
      SendFilled(k, u, o);
    }

    /** The part of usbnet_start_xmit under the transmit lock, for a filled URB. */
    method SendFilled(k: Skb, u: Urb, o: Sending)
      requires o != NoUrb
      modifies this`refs, this`freed, this`entry, this`released, this`flight, this`rxq, this`txq, this`anchor
      ensures
        var d := old(Abs());
        Abs() == match o
          case Asleep => d.(q := d.q.(anchor := d.q.anchor + [Pending(u, k)]), urbs := Put(Get(d.urbs, u), u))
          case Sent => d.(entry := WithState(d.entry, k, TxStart), q := Enqueued(d.q, true, k), urbs := Submit(d.urbs, u))
          case _ => d.(q := Released(d.q, k), urbs := Put(d.urbs, u))
    {
      if o == Asleep {
        GetUrb(u);
        anchor := anchor + [Pending(u, k)];
        PutUrb(u);
      } else if o == Sent {
        SubmitUrb(u);
        QueueSkb(true, k, TxStart);
      } else {
        released := released + [k];
        PutUrb(u);
      }
    }

    method FreeSkb(k: Skb)
      modifies this`refs, this`freed, this`released
      ensures Abs() == old(Abs()).(q := Released(old(Abs()).q, k), urbs := PutEntryUrb(old(Abs()), k))
    {
      if k in entry && entry[k].urb.Some? { PutUrb(entry[k].urb.value); }
      released := released + [k];
    }

    method HandUp(k: Skb)
      modifies this`released, this`up
      ensures Abs() == old(Abs()).(q := HandedUp(old(Abs()).q, k))
    {
      released, up := released + [k], up + [k];
    }

    /** One buffer taken off the done list by usbnet_bh. */
    method BottomHalfOne(o: Processed)
      requires done != []
      modifies this`refs, this`freed, this`released, this`up, this`done, this`paused, this`bogus
      ensures Abs() == BhOne(old(Abs()), o)
    {
      var k := done[0];
      done := done[1..];
      var state := if k in entry then entry[k].state else Illegal;
      if state == RxDone && o != Rejected {
        if o == Paused { paused := paused + [k]; } else { HandUp(k); }
      } else if state == RxDone || state == TxDone || state == RxCleanup {
        FreeSkb(k);
      } else {
        bogus := bogus + [k];
      }
    }

    /** The loop of usbnet_bh: until the done list is empty. */
    method BottomHalf(answers: seq<Processed>)
      requires |answers| >= |done|
      modifies this`refs, this`freed, this`released, this`up, this`done, this`paused, this`bogus
      ensures Abs() == Drained(old(Abs()), answers) && done == []
    {
      var i: nat := 0;
      assert answers[0..] == answers;
      while done != []
        invariant i + |done| <= |answers| && Drained(Abs(), answers[i..]) == Drained(old(Abs()), answers)
        decreases |done|
      {
        assert answers[i..][0] == answers[i] && answers[i..][1..] == answers[i + 1..];
        BottomHalfOne(answers[i]);
        i := i + 1;
      }
    }

    /** The loop of usbnet_resume: every deferred transmission is submitted or dropped. */
    method Resume(answers: seq<bool>)
      requires |answers| >= |anchor|
      modifies this`refs, this`freed, this`released, this`flight, this`txq, this`anchor
      ensures Abs() == Resumed(old(Abs()), answers) && anchor == []
    {
      var i: nat := 0;
      assert answers[0..] == answers;
      while anchor != []
        invariant i + |anchor| <= |answers| && Resumed(Abs(), answers[i..]) == Resumed(old(Abs()), answers)
        decreases |anchor|
      {
        assert answers[i..][0] == answers[i] && answers[i..][1..] == answers[i + 1..];
        ResumeFirst(answers[i]);
        i := i + 1;
      }
    }

    method ResumeFirst(ok: bool)
      requires anchor != []
      modifies this`refs, this`freed, this`released, this`flight, this`txq, this`anchor
      ensures Abs() == ResumeOne(old(Abs()), ok)
    {
      var p := anchor[0];
      anchor := anchor[1..];
      if ok {
        SubmitUrb(p.urb);
        txq := txq + [p.skb];
      } else {
        released := released + [p.skb];
        PutUrb(p.urb);
      }
    }

    /** unlink_urbs with no completion in between: the list is walked from its head each time.
        `accepted` says whose URB can be unlinked; those are counted. */
    method UnlinkUrbs(tx: bool, accepted: Skb -> bool) returns (count: nat)
      requires Known(Abs(), Queue(Abs().q, tx))
      modifies this`entry, this`refs, this`freed
      ensures Abs() == Unlinked(old(Abs()), Queue(old(Abs()).q, tx))
      ensures count == |Pickable(old(Abs()), Queue(old(Abs()).q, tx), accepted)|
    {
      count := 0;
      ghost var q := Queue(Abs().q, tx);
      var found := FirstLinkedOn(tx);
      while found.Some?
        invariant Abs().q == old(Abs()).q && Known(Abs(), q) && found == FirstLinked(Abs(), q)
        invariant Unlinked(Abs(), q) == Unlinked(old(Abs()), q)
        invariant count + |Pickable(Abs(), q, accepted)| == |Pickable(old(Abs()), q, accepted)|
        decreases Unmarked(entry, q)
      {
        FirstIsUnmarked(Abs(), q);
        MarkingCounts(entry, q, found.value);
        PickedOnce(Abs(), q, accepted, found.value);
        UnlinkFirst(found.value);
        if accepted(found.value) {
          count := count + 1;
        }
        found := FirstLinkedOn(tx);
      }
      NoneLeft(Abs(), q);
    }

    method UnlinkFirst(k: Skb)
      requires k in entry
      modifies this`entry, this`refs, this`freed
      ensures Abs() == UnlinkOne(old(Abs()), k)
    {
      var urb := entry[k].urb;
      entry := entry[k := entry[k].(state := UnlinkStart)];
      if urb.Some? {
        GetUrb(urb.value);
        PutUrb(urb.value);
      }
    }

    /** The walk for a buffer that is not marked. */
    method FirstLinkedOn(tx: bool) returns (found: Option<Skb>)
      ensures found == FirstLinked(Abs(), Queue(Abs().q, tx))
    {
      var q := if tx then txq else rxq;
      var i := 0;
      assert q[0..] == q;
      while i < |q|
        invariant 0 <= i <= |q| && FirstLinked(Abs(), q[i..]) == FirstLinked(Abs(), q)
      {
        if !(q[i] in entry && entry[q[i]].state == UnlinkStart) { return Some(q[i]); }
        assert q[i..][1..] == q[i + 1..];
        i := i + 1;
      }
      found := None;
    }
  }
}
