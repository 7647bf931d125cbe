/** The lists, buffers and transfer requests (URBs) of a USB network device, and what each
    piece of the driver that runs under one lock does to them. */
module UsbQueues {
  import opened Wrappers

  type Skb = nat
  type Urb = nat

  datatype SkbState = Illegal | TxStart | TxDone | RxStart | RxDone | RxCleanup | UnlinkStart

  /** The driver's own part of a buffer: its state and the URB it holds a reference to. */
  datatype Entry = Entry(state: SkbState, urb: Option<Urb>)

  /** What a URB was filled with: its buffer, and which completion function. */
  datatype Context = Context(skb: Skb, tx: bool)

  datatype Pending = Pending(urb: Urb, skb: Skb)

  /** A running completion callback or an unlink in progress, with the locals it still needs. */
  datatype Task =
    | Idle
    | RxBack(urb: Urb, skb: Skb)
    | RxSorted(urb: Urb, skb: Skb, next: SkbState, mine: bool)
    | RxTail(urb: Urb, again: bool)
    | TxBack(urb: Urb, skb: Skb)
    | Returning(urb: Urb)
    | Unlinking(urb: Urb)

  /** Everything released, freed or handed up, is in `released`; what was handed to the network
      stack is in `up` as well. */
  datatype Queues = Queues(
    rxq: seq<Skb>, txq: seq<Skb>, done: seq<Skb>, paused: seq<Skb>, anchor: seq<Pending>, released: seq<Skb>,
    up: seq<Skb>, bogus: seq<Skb>)

  /** The URBs: what each was filled with, which the host controller has, how many references
      each has, and how often each was freed. */
  datatype Urbs = Urbs(context: map<Urb, Context>, flight: set<Urb>, refs: map<Urb, nat>, freed: multiset<Urb>)

  datatype Dev = Dev(entry: map<Skb, Entry>, q: Queues, urbs: Urbs, tasks: seq<Task>)

  const EMPTY: Dev := Dev(map[], Queues([], [], [], [], [], [], [], []), Urbs(map[], {}, map[], multiset{}), [])

  function Without(q: seq<Skb>, k: Skb): seq<Skb> {
    if q == [] then [] else if q[0] == k then q[1..] else [q[0]] + Without(q[1..], k)
  }

  function SkbsOf(anchor: seq<Pending>): seq<Skb> {
    if anchor == [] then [] else [anchor[0].skb] + SkbsOf(anchor[1..])
  }

  /* References to URBs. */

  function Refs(h: Urbs, u: Urb): nat {
    if u in h.refs then h.refs[u] else 0
  }

  function Get(h: Urbs, u: Urb): Urbs {
    h.(refs := h.refs[u := Refs(h, u) + 1])
  }

  /** usb_put_urb, usb_free_urb: the URB goes with its last reference. */
  function Put(h: Urbs, u: Urb): Urbs {
    if Refs(h, u) <= 1 then h.(refs := h.refs[u := 0], freed := h.freed + multiset{u})
    else h.(refs := h.refs[u := Refs(h, u) - 1])
  }

  function Fill(h: Urbs, u: Urb, c: Context): Urbs {
    h.(context := h.context[u := c])
  }

  /** A successful usb_submit_urb: the host controller takes a reference of its own. */
  function Submit(h: Urbs, u: Urb): Urbs {
    Get(h, u).(flight := h.flight + {u})
  }

  function PutEntryUrb(d: Dev, k: Skb): Urbs {
    if k in d.entry && d.entry[k].urb.Some? then Put(d.urbs, d.entry[k].urb.value) else d.urbs
  }

  function StateOf(d: Dev, k: Skb): SkbState {
    if k in d.entry then d.entry[k].state else Illegal
  }

  function WithState(entry: map<Skb, Entry>, k: Skb, state: SkbState): map<Skb, Entry> {
    if k in entry then entry[k := entry[k].(state := state)] else entry
  }

  /* Lists. */

  /** A buffer freed, or handed to the network stack for good. */
  function Released(q: Queues, k: Skb): Queues {
    q.(released := q.released + [k])
  }

  function HandedUp(q: Queues, k: Skb): Queues {
    Released(q, k).(up := q.up + [k])
  }

  function Queue(q: Queues, tx: bool): seq<Skb> {
    if tx then q.txq else q.rxq
  }

  function Enqueued(q: Queues, tx: bool, k: Skb): Queues {
    if tx then q.(txq := q.txq + [k]) else q.(rxq := q.rxq + [k])
  }

  /** Off a list and onto the done list. */
  function Finished(q: Queues, tx: bool, k: Skb): Queues {
    if tx then q.(txq := Without(q.txq, k), done := q.done + [k])
    else q.(rxq := Without(q.rxq, k), done := q.done + [k])
  }

  /** defer_bh: the buffer moves to the done list with its new state. */
  function DeferBh(d: Dev, tx: bool, k: Skb, state: SkbState): Dev {
    d.(entry := WithState(d.entry, k, state), q := Finished(d.q, tx, k))
  }

  /* Transmitting. */

  datatype Sending = NoUrb | Dropped | Asleep | Sent

  /** usbnet_start_xmit, for a fresh URB; `stale` is what the network stack left in the
      buffer's control block. Dropped stands for a failed scatter list, power reference or
      submission, and for a stopped queue. */
  function StartXmit(d: Dev, k: Skb, u: Urb, stale: SkbState, o: Sending): Dev {
    var filled := Fill(Get(d.urbs, u), u, Context(k, true));
    match o
    case NoUrb =>
      d.(entry := d.entry[k := Entry(stale, None)], q := Released(d.q, k))
    case Dropped =>
      d.(entry := d.entry[k := Entry(stale, Some(u))], q := Released(d.q, k), urbs := Put(filled, u))
    case Asleep =>
      d.(entry := d.entry[k := Entry(stale, Some(u))], q := d.q.(anchor := d.q.anchor + [Pending(u, k)]), urbs := Put(Get(filled, u), u))
    case Sent =>
      d.(entry := d.entry[k := Entry(TxStart, Some(u))], q := Enqueued(d.q, true, k), urbs := Submit(filled, u))
  }

  /* Receiving. */

  datatype Posting = Killed | NoSkb | Refused | Posted

  /** rx_submit of a URB the caller holds the only driver reference to; k is the buffer it allocates. */
  function RxSubmit(d: Dev, u: Urb, k: Skb, o: Posting): Dev {
    match o
    case Killed => d.(urbs := Put(d.urbs, u))
    case NoSkb => d.(urbs := Put(d.urbs, u))
    case Refused =>
      d.(entry := d.entry[k := Entry(Illegal, Some(u))], q := Released(d.q, k), urbs := Put(d.urbs, u))
    case Posted =>
      d.(entry := d.entry[k := Entry(RxStart, Some(u))], q := Enqueued(d.q, false, k),
         urbs := Submit(Fill(d.urbs, u, Context(k, false)), u))
  }

  /** One round of rx_alloc_submit. */
  function RxAlloc(d: Dev, u: Urb, k: Skb, o: Posting): Dev {
    RxSubmit(d.(urbs := Get(d.urbs, u)), u, k, o)
  }

  /** The host controller gives a URB back and calls its completion function. */
  function Complete(d: Dev, u: Urb): Dev
    requires u in d.urbs.context
  {
    var c := d.urbs.context[u];
    d.(urbs := d.urbs.(flight := d.urbs.flight - {u}),
       tasks := d.tasks + [if c.tx then TxBack(u, c.skb) else RxBack(u, c.skb)])
  }

  /** How rx_complete reads the URB's status: a success; a shutdown, stall or bus error,
      which keeps the URB with the buffer; anything else. */
  datatype Status = Good | Blocked | Bad

  function RxSort(d: Dev, i: nat, status: Status): Dev
    requires i < |d.tasks| && d.tasks[i].RxBack?
  {
    var t := d.tasks[i];
    var kept := status == Blocked;
    d.(entry := d.entry[t.skb := Entry(StateOf(d, t.skb), if kept then Some(t.urb) else None)],
       tasks := d.tasks[i := RxSorted(t.urb, t.skb, if status == Good then RxDone else RxCleanup, !kept)])
  }

  function RxDefer(d: Dev, i: nat): Dev
    requires i < |d.tasks| && d.tasks[i].RxSorted?
  {
    var t := d.tasks[i];
    DeferBh(d, false, t.skb, t.next).(
      tasks := d.tasks[i := if t.mine then RxTail(t.urb, StateOf(d, t.skb) != UnlinkStart) else Returning(t.urb)])
  }

  /** The end of rx_complete: the URB goes round again unless it was being unlinked or the
      device is halted or down. */
  function RxEnd(d: Dev, i: nat, running: bool, k: Skb, o: Posting): Dev
    requires i < |d.tasks| && d.tasks[i].RxTail?
  {
    var t := d.tasks[i];
    (if running && t.again then RxSubmit(d, t.urb, k, o) else d.(urbs := Put(d.urbs, t.urb))).(
      tasks := d.tasks[i := Returning(t.urb)])
  }

  function TxDefer(d: Dev, i: nat): Dev
    requires i < |d.tasks| && d.tasks[i].TxBack?
  {
    DeferBh(d, true, d.tasks[i].skb, TxDone).(tasks := d.tasks[i := Returning(d.tasks[i].urb)])
  }

  /** The callback is over, or the unlink call: its reference is dropped. */
  function Finish(d: Dev, i: nat): Dev
    requires i < |d.tasks| && (d.tasks[i].Returning? || d.tasks[i].Unlinking?)
  {
    d.(urbs := Put(d.urbs, d.tasks[i].urb), tasks := d.tasks[i := Idle])
  }

  /* Unlinking. */

  /** The first buffer on a list that is not yet being unlinked. */
  function FirstLinked(d: Dev, q: seq<Skb>): Option<Skb> {
    if q == [] then None
    else if StateOf(d, q[0]) != UnlinkStart then Some(q[0])
    else FirstLinked(d, q[1..])
  }

  /** One round of unlink_urbs, up to where it lets go of the lock. A buffer whose completion
      has already begun may have no URB any more. */
  function MarkUnlink(d: Dev, k: Skb): Dev {
    var m := d.(entry := WithState(d.entry, k, UnlinkStart));
    if k in d.entry && d.entry[k].urb.Some? then
      var u := d.entry[k].urb.value;
      m.(urbs := Get(d.urbs, u), tasks := d.tasks + [Unlinking(u)])
    else m
  }

  /* The bottom half. */

  datatype Processed = Rejected | Paused | Taken

  /** One buffer off the done list. */
  function BhOne(d: Dev, o: Processed): Dev
    requires d.q.done != []
  {
    var k := d.q.done[0];
    var r := d.q.(done := d.q.done[1..]);
    match StateOf(d, k)
    case RxDone =>
      (match o
       case Rejected => d.(q := Released(r, k), urbs := PutEntryUrb(d, k))
       case Paused => d.(q := r.(paused := r.paused + [k]))
       case Taken => d.(q := HandedUp(r, k)))
    case TxDone => d.(q := Released(r, k), urbs := PutEntryUrb(d, k))
    case RxCleanup => d.(q := Released(r, k), urbs := PutEntryUrb(d, k))
    case _ => d.(q := r.(bogus := r.bogus + [k]))
  }

  /** One buffer off the pause list: handed up or purged. */
  function UnpauseOne(d: Dev, up: bool): Dev
    requires d.q.paused != []
  {
    var r := d.q.(paused := d.q.paused[1..]);
    d.(q := if up then HandedUp(r, d.q.paused[0]) else Released(r, d.q.paused[0]))
  }

  /** One round of usbnet_resume, or with a failed submission of the clean-up at disconnect.
      The buffer's state is left as it is. */
  function ResumeOne(d: Dev, ok: bool): Dev
    requires d.q.anchor != []
  {
    var p := d.q.anchor[0];
    var r := d.q.(anchor := d.q.anchor[1..]);
    if ok then d.(q := Enqueued(r, true, p.skb), urbs := Submit(d.urbs, p.urb))
    else d.(q := Released(r, p.skb), urbs := Put(d.urbs, p.urb))
  }
}
