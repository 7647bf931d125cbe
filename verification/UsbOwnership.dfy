/** Who holds each buffer and each URB reference, over every interleaving of submission,
    completion, unlinking, the bottom half and resume. */
module UsbOwnership {
  import opened Wrappers
  import opened UsbQueues

  datatype Place = InFlight(tx: bool) | InTask(tx: bool, task: nat) | OnDone | OnPaused | OnAnchor | Gone

  /** The list a place belongs to. */
  datatype List = RxList | TxList | DoneList | PauseList | AnchorList | ReleasedList

  function ListOf(p: Place): List {
    match p
    case InFlight(tx) => if tx then TxList else RxList
    case InTask(tx, _) => if tx then TxList else RxList
    case OnDone => DoneList
    case OnPaused => PauseList
    case OnAnchor => AnchorList
    case Gone => ReleasedList
  }

  /** Where the driver's own reference to a URB is kept: by a buffer, in a callback's local, or given up. */
  datatype Owner = InEntry(skb: Skb) | Local(task: nat) | Nobody

  /** The device, with a record of what happened: the place of each buffer, the keeper of each
      URB, and the URBs an unlink has picked. */
  datatype Sys = Sys(dev: Dev, place: map<Skb, Place>, owner: map<Urb, Owner>, doomed: set<Urb>)

  datatype Action =
    | Xmit(k: Skb, u: Urb, stale: SkbState, o: Sending)
    | Alloc(u: Urb, k: Skb, posting: Posting)
    | GiveBack(u: Urb)
    | Sort(i: nat, status: Status)
    | RxOff(i: nat)
    | End(i: nat, running: bool, k: Skb, posting: Posting)
    | TxOff(i: nat)
    | Drop(i: nat)
    | Mark(tx: bool)
    | Bottom(processed: Processed)
    | Unpause(up: bool)
    | Wake(ok: bool)

  const START: Sys := Sys(EMPTY, map[], map[], {})

  /** New buffers and URBs are ones not seen before; the rest says which task or list a step is about. */
  predicate CanApply(s: Sys, a: Action) {
    var d := s.dev;
    match a
    case Xmit(k, u, _, _) => k !in d.entry && u !in d.urbs.refs
    case Alloc(u, k, _) => k !in d.entry && u !in d.urbs.refs
    case GiveBack(u) => u in d.urbs.flight && u in d.urbs.context
    case Sort(i, _) => i < |d.tasks| && d.tasks[i].RxBack?
    case RxOff(i) => i < |d.tasks| && d.tasks[i].RxSorted?
    case End(i, _, k, _) => i < |d.tasks| && d.tasks[i].RxTail? && k !in d.entry
    case TxOff(i) => i < |d.tasks| && d.tasks[i].TxBack?
    case Drop(i) => i < |d.tasks| && (d.tasks[i].Returning? || d.tasks[i].Unlinking?)
    case Mark(tx) => FirstLinked(d, Queue(d.q, tx)).Some?
    case Bottom(_) => d.q.done != []
    case Unpause(_) => d.q.paused != []
    case Wake(_) => d.q.anchor != []
  }

  function Placed(s: Sys, k: Skb, p: Place): Sys {
    s.(place := s.place[k := p])
  }

  function Kept(s: Sys, u: Urb, o: Owner): Sys {
    s.(owner := s.owner[u := o])
  }

  /** The URB at work for a buffer on a list: in flight, or in its completion callback. */
  function AtWork(s: Sys, k: Skb): Option<Urb> {
    if k !in s.place || k !in s.dev.entry then None
    else
      match s.place[k]
      case InTask(_, i) =>
        if i < |s.dev.tasks| && !s.dev.tasks[i].Idle? then Some(s.dev.tasks[i].urb) else None
      case _ => s.dev.entry[k].urb
  }

  /* Each step: the device follows the driver, the record keeps up. */

  /** Where the buffer of a transmission ends up, and who keeps its URB. */
  function TargetOf(o: Sending): Place {
    match o
    case NoUrb => Gone
    case Dropped => Gone
    case Asleep => OnAnchor
    case Sent => InFlight(true)
  }

  function KeeperAfter(k: Skb, o: Sending): Owner {
    if o == Dropped then Nobody else InEntry(k)
  }

  function AfterXmit(s: Sys, k: Skb, u: Urb, stale: SkbState, o: Sending): Sys {
    Sys(StartXmit(s.dev, k, u, stale, o), s.place[k := TargetOf(o)],
        if o == NoUrb then s.owner else s.owner[u := KeeperAfter(k, o)], s.doomed)
  }

  predicate TakesBuffer(o: Posting) {
    o == Refused || o == Posted
  }

  function PlacePosted(place: map<Skb, Place>, k: Skb, o: Posting): map<Skb, Place> {
    match o
    case Refused => place[k := Gone]
    case Posted => place[k := InFlight(false)]
    case _ => place
  }

  function KeeperPosted(k: Skb, o: Posting): Owner {
    if o == Posted then InEntry(k) else Nobody
  }

  function AfterAlloc(s: Sys, u: Urb, k: Skb, o: Posting): Sys {
    Sys(RxAlloc(s.dev, u, k, o), PlacePosted(s.place, k, o), s.owner[u := KeeperPosted(k, o)], s.doomed)
  }

  function AfterGiveBack(s: Sys, u: Urb): Sys
    requires u in s.dev.urbs.context
  {
    var c := s.dev.urbs.context[u];
    Placed(s.(dev := Complete(s.dev, u)), c.skb, InTask(c.tx, |s.dev.tasks|))
  }

  function AfterSort(s: Sys, i: nat, status: Status): Sys
    requires i < |s.dev.tasks| && s.dev.tasks[i].RxBack?
  {
    var t := s.(dev := RxSort(s.dev, i, status));
    if status == Blocked then t else Kept(t, s.dev.tasks[i].urb, Local(i))
  }

  function AfterRxOff(s: Sys, i: nat): Sys
    requires i < |s.dev.tasks| && s.dev.tasks[i].RxSorted?
  {
    Placed(s.(dev := RxDefer(s.dev, i)), s.dev.tasks[i].skb, OnDone)
  }

  function AfterEnd(s: Sys, i: nat, running: bool, k: Skb, o: Posting): Sys
    requires i < |s.dev.tasks| && s.dev.tasks[i].RxTail?
  {
    var u := s.dev.tasks[i].urb;
    var again := running && s.dev.tasks[i].again;
    Sys(RxEnd(s.dev, i, running, k, o), if again then PlacePosted(s.place, k, o) else s.place,
        s.owner[u := if again then KeeperPosted(k, o) else Nobody], s.doomed)
  }

  function AfterTxOff(s: Sys, i: nat): Sys
    requires i < |s.dev.tasks| && s.dev.tasks[i].TxBack?
  {
    Placed(s.(dev := TxDefer(s.dev, i)), s.dev.tasks[i].skb, OnDone)
  }

  function AfterDrop(s: Sys, i: nat): Sys
    requires i < |s.dev.tasks| && (s.dev.tasks[i].Returning? || s.dev.tasks[i].Unlinking?)
  {
    s.(dev := Finish(s.dev, i))
  }

  function AfterMark(s: Sys, k: Skb): Sys {
    var u := AtWork(s, k);
    s.(dev := MarkUnlink(s.dev, k), doomed := if u.Some? then s.doomed + {u.value} else s.doomed)
  }

  function AfterBottom(s: Sys, o: Processed): Sys
    requires s.dev.q.done != []
  {
    var k := s.dev.q.done[0];
    var t := s.(dev := BhOne(s.dev, o));
    var state := StateOf(s.dev, k);
    if state == RxDone && o == Taken then Placed(t, k, Gone)
    else if state == RxDone && o == Paused then Placed(t, k, OnPaused)
    else if k in s.dev.entry && s.dev.entry[k].urb.Some? then Placed(Kept(t, s.dev.entry[k].urb.value, Nobody), k, Gone)
    else Placed(t, k, Gone)
  }

  function AfterUnpause(s: Sys, up: bool): Sys
    requires s.dev.q.paused != []
  {
    Placed(s.(dev := UnpauseOne(s.dev, up)), s.dev.q.paused[0], Gone)
  }

  function AfterWake(s: Sys, ok: bool): Sys
    requires s.dev.q.anchor != []
  {
    var p := s.dev.q.anchor[0];
    var t := s.(dev := ResumeOne(s.dev, ok));
    if ok then Placed(t, p.skb, InFlight(true)) else Placed(Kept(t, p.urb, Nobody), p.skb, Gone)
  }

  function Apply(s: Sys, a: Action): Sys
    requires CanApply(s, a)
  {
    match a
    case Xmit(k, u, stale, o) => AfterXmit(s, k, u, stale, o)
    case Alloc(u, k, o) => AfterAlloc(s, u, k, o)
    case GiveBack(u) => AfterGiveBack(s, u)
    case Sort(i, status) => AfterSort(s, i, status)
    case RxOff(i) => AfterRxOff(s, i)
    case End(i, running, k, o) => AfterEnd(s, i, running, k, o)
    case TxOff(i) => AfterTxOff(s, i)
    case Drop(i) => AfterDrop(s, i)
    case Mark(tx) => AfterMark(s, FirstLinked(s.dev, Queue(s.dev.q, tx)).value)
    case Bottom(o) => AfterBottom(s, o)
    case Unpause(up) => AfterUnpause(s, up)
    case Wake(ok) => AfterWake(s, ok)
  }

  predicate CanRun(s: Sys, actions: seq<Action>)
    decreases |actions|
  {
    actions == [] || (CanApply(s, actions[0]) && CanRun(Apply(s, actions[0]), actions[1..]))
  }

  function Run(s: Sys, actions: seq<Action>): Sys
    requires CanRun(s, actions)
    decreases |actions|
  {
    if actions == [] then s else Run(Apply(s, actions[0]), actions[1..])
  }

  /* The invariant. */

  function Named(q: Queues, name: List): seq<Skb> {
    match name
    case RxList => q.rxq
    case TxList => q.txq
    case DoneList => q.done
    case PauseList => q.paused
    case AnchorList => SkbsOf(q.anchor)
    case ReleasedList => q.released
  }

  function Count(q: Queues, name: List, k: Skb): nat {
    multiset(Named(q, name))[k]
  }

  /** Each list holds each buffer placed on it exactly once, and no other. */
  ghost predicate ListsOk(q: Queues, place: map<Skb, Place>) {
    q.bogus == [] &&
    forall name: List, k: Skb :: Count(q, name, k) == if k in place && ListOf(place[k]) == name then 1 else 0
  }

  /** References to a URB held by running callbacks and unlinks. */
  function Holds(tasks: seq<Task>, u: Urb): nat {
    if tasks == [] then 0
    else One(tasks[0], u) + Holds(tasks[1..], u)
  }

  function One(t: Task, u: Urb): nat {
    if !t.Idle? && t.urb == u then 1 else 0
  }

  predicate SkbOk(d: Dev, owner: map<Urb, Owner>, k: Skb, p: Place)
    requires k in d.entry
  {
    var e := d.entry[k];
    match p
    case InFlight(tx) =>
      e.urb.Some? && e.urb.value in d.urbs.flight && e.urb.value in d.urbs.context &&
      d.urbs.context[e.urb.value] == Context(k, tx) && (!tx ==> e.state in {RxStart, UnlinkStart})
    case InTask(tx, i) =>
      i < |d.tasks| && SkbOf(d.tasks[i]) == Some(k) && d.tasks[i].TxBack? == tx && (!tx ==> e.state in {RxStart, UnlinkStart})
    case OnDone =>
      e.state in {RxDone, RxCleanup, TxDone} && (e.state == RxDone ==> e.urb.None?) &&
      (e.urb.Some? ==> e.urb.value in owner && owner[e.urb.value] == InEntry(k))
    case OnAnchor => e.urb.Some? && e.urb.value in owner && owner[e.urb.value] == InEntry(k)
    case _ => true
  }

  function SkbOf(t: Task): Option<Skb> {
    if t.RxBack? || t.RxSorted? || t.TxBack? then Some(t.skb) else None
  }

  predicate Settled(p: Place) {
    p.OnPaused? || p.Gone?
  }

  /** The references counted are exactly the driver's own, the host controller's and those of
      running tasks; a URB is freed once, with its last reference. */
  predicate Counted(h: Urbs, tasks: seq<Task>, u: Urb, o: Owner) {
    Refs(h, u) == (if o.Nobody? then 0 else 1) + (if u in h.flight then 1 else 0) + Holds(tasks, u) &&
    h.freed[u] == (if Refs(h, u) == 0 then 1 else 0)
  }

  predicate Keeps(t: Task, u: Urb) {
    ((t.RxSorted? && t.mine) || t.RxTail?) && t.urb == u
  }

  predicate KeeperOk(entry: map<Skb, Entry>, tasks: seq<Task>, place: map<Skb, Place>, u: Urb, o: Owner) {
    match o
    case InEntry(k) => k in entry && k in place && entry[k].urb == Some(u) && !Settled(place[k])
    case Local(i) => i < |tasks| && Keeps(tasks[i], u)
    case Nobody => true
  }

  predicate FlightOk(h: Urbs, place: map<Skb, Place>, u: Urb, o: Owner) {
    u in h.flight ==>
      u in h.context && o == InEntry(h.context[u].skb) &&
      h.context[u].skb in place && place[h.context[u].skb] == InFlight(h.context[u].tx)
  }

  predicate UrbOk(d: Dev, place: map<Skb, Place>, u: Urb, o: Owner) {
    Counted(d.urbs, d.tasks, u, o) && KeeperOk(d.entry, d.tasks, place, u, o) && FlightOk(d.urbs, place, u, o)
  }

  predicate TaskOk(entry: map<Skb, Entry>, place: map<Skb, Place>, owner: map<Urb, Owner>, i: nat, t: Task) {
    match t
    case Idle => true
    case RxBack(u, k) => k in place && place[k] == InTask(false, i) && u in owner && owner[u] == InEntry(k)
    case RxSorted(u, k, next, mine) =>
      k in place && k in entry && place[k] == InTask(false, i) && u in owner && next in {RxDone, RxCleanup} &&
      (if mine then owner[u] == Local(i) && entry[k].urb.None? else owner[u] == InEntry(k) && next == RxCleanup)
    case RxTail(u, _) => u in owner && owner[u] == Local(i)
    case TxBack(u, k) => k in place && place[k] == InTask(true, i) && u in owner && owner[u] == InEntry(k)
    case Returning(u) => u in owner
    case Unlinking(u) => u in owner
  }

  predicate PendingOk(d: Dev, place: map<Skb, Place>, p: Pending) {
    p.skb in place && place[p.skb] == OnAnchor && p.skb in d.entry && d.entry[p.skb].urb == Some(p.urb) &&
    p.urb in d.urbs.context && d.urbs.context[p.urb] == Context(p.skb, true)
  }

  /** What becomes of a URB an unlink has picked: it is only ever on its way out. */
  predicate OnItsWayOut(d: Dev, place: map<Skb, Place>, o: Owner) {
    match o
    case Nobody => true
    case InEntry(k) =>
      k in d.entry && k in place &&
      (place[k].OnDone? || ((place[k].InFlight? || place[k].InTask?) && d.entry[k].state == UnlinkStart))
    case Local(i) =>
      i < |d.tasks| &&
      match d.tasks[i]
      case RxTail(_, again) => !again
      case RxSorted(_, k, _, _) => k in d.entry && d.entry[k].state == UnlinkStart
      case _ => false
  }

  ghost predicate KeysOk(s: Sys) {
    && (forall k :: k in s.dev.entry <==> k in s.place)
    && (forall u :: u in s.dev.urbs.refs <==> u in s.owner)
    && (forall u :: u in s.doomed || u in s.dev.urbs.flight || u in s.dev.urbs.freed ==> u in s.owner)
  }

  ghost predicate SkbsOk(s: Sys)
    requires KeysOk(s)
  {
    forall k :: k in s.place ==> SkbOk(s.dev, s.owner, k, s.place[k])
  }

  ghost predicate UrbsOk(s: Sys) {
    forall u :: u in s.owner ==> UrbOk(s.dev, s.place, u, s.owner[u])
  }

  ghost predicate TasksOk(s: Sys) {
    forall i: nat :: i < |s.dev.tasks| ==> TaskOk(s.dev.entry, s.place, s.owner, i, s.dev.tasks[i])
  }

  ghost predicate PendingsOk(s: Sys) {
    forall p :: p in s.dev.q.anchor ==> PendingOk(s.dev, s.place, p)
  }

  ghost predicate DoomedOk(s: Sys) {
    forall u :: u in s.doomed ==> u in s.owner && OnItsWayOut(s.dev, s.place, s.owner[u])
  }

  ghost predicate Inv(s: Sys) {
    KeysOk(s) && ListsOk(s.dev.q, s.place) && SkbsOk(s) && UrbsOk(s) && TasksOk(s) && PendingsOk(s) && DoomedOk(s)
  }

  lemma StartInv()
    ensures Inv(START)
  {
  }

  /* Lists. */

  function Gain(b: bool): nat {
    if b then 1 else 0
  }

  predicate OnList(place: map<Skb, Place>, k: Skb, name: List) {
    k in place && ListOf(place[k]) == name
  }

  /** One buffer off the list it was on, if any, and onto another. */
  ghost predicate Moves(q: Queues, r: Queues, place: map<Skb, Place>, k: Skb, to: List) {
    r.bogus == q.bogus &&
    forall name: List, x: Skb ::
      Count(r, name, x) == Count(q, name, x) - Gain(x == k && OnList(place, k, name)) + Gain(x == k && name == to)
  }

  lemma MovedLists(q: Queues, r: Queues, place: map<Skb, Place>, k: Skb, p: Place)
    requires ListsOk(q, place) && Moves(q, r, place, k, ListOf(p))
    ensures ListsOk(r, place[k := p])
  {
  }

  lemma {:induction false} WithoutCounts(q: seq<Skb>, k: Skb)
    ensures multiset(Without(q, k)) == multiset(q) - multiset{k}
  {
    if q != [] {
      assert q == [q[0]] + q[1..];
      WithoutCounts(q[1..], k);
    }
  }

  lemma HeadCounts(q: seq<Skb>)
    requires q != []
    ensures multiset(q) == multiset{q[0]} + multiset(q[1..])
  {
    assert q == [q[0]] + q[1..];
  }

  lemma {:induction false} SkbsOfAppended(a: seq<Pending>, p: Pending)
    ensures SkbsOf(a + [p]) == SkbsOf(a) + [p.skb]
  {
    if a != [] {
      assert (a + [p])[1..] == a[1..] + [p];
      SkbsOfAppended(a[1..], p);
    }
  }

  /** One list gains a buffer, the others stay. */
  lemma ListGains(q: Queues, r: Queues, place: map<Skb, Place>, k: Skb, to: List)
    requires k !in place && r.bogus == q.bogus
    requires multiset(Named(r, to)) == multiset(Named(q, to)) + multiset{k}
    requires forall name: List :: name != to ==> Named(r, name) == Named(q, name)
    ensures Moves(q, r, place, k, to)
  {
    forall name: List, x: Skb
      ensures Count(r, name, x) == Count(q, name, x) - Gain(x == k && OnList(place, k, name)) + Gain(x == k && name == to)
    {
      if name != to { assert Named(r, name) == Named(q, name); }
    }
  }

  /** One list loses a buffer to another. */
  lemma ListsTrade(q: Queues, r: Queues, place: map<Skb, Place>, k: Skb, from: List, to: List)
    requires ListsOk(q, place) && OnList(place, k, from) && r.bogus == q.bogus && from != to
    requires multiset(Named(r, from)) == multiset(Named(q, from)) - multiset{k}
    requires multiset(Named(r, to)) == multiset(Named(q, to)) + multiset{k}
    requires forall name: List :: name != from && name != to ==> Named(r, name) == Named(q, name)
    ensures Moves(q, r, place, k, to)
  {
    assert Count(q, from, k) == 1;
    forall name: List, x: Skb
      ensures Count(r, name, x) == Count(q, name, x) - Gain(x == k && OnList(place, k, name)) + Gain(x == k && name == to)
    {
      if name != from && name != to { assert Named(r, name) == Named(q, name); }
    }
  }

  lemma HeadListed(q: Queues, place: map<Skb, Place>, name: List)
    requires ListsOk(q, place) && Named(q, name) != []
    ensures OnList(place, Named(q, name)[0], name)
  {
    assert Count(q, name, Named(q, name)[0]) > 0;
  }

  /* Tasks' references. */

  lemma {:induction false} HoldsAppended(tasks: seq<Task>, t: Task, u: Urb)
    ensures Holds(tasks + [t], u) == Holds(tasks, u) + One(t, u)
  {
    if tasks == [] {
      assert tasks + [t] == [t];
    } else {
      assert (tasks + [t])[1..] == tasks[1..] + [t];
      HoldsAppended(tasks[1..], t, u);
    }
  }

  lemma {:induction false} HoldsUpdated(tasks: seq<Task>, i: nat, t: Task, u: Urb)
    requires i < |tasks|
    ensures Holds(tasks[i := t], u) == Holds(tasks, u) - One(tasks[i], u) + One(t, u)
    ensures Holds(tasks, u) >= One(tasks[i], u)
  {
    if i > 0 {
      assert tasks[i := t][1..] == tasks[1..][i - 1 := t];
      HoldsUpdated(tasks[1..], i - 1, t, u);
    } else {
      assert tasks[i := t][1..] == tasks[1..];
    }
  }

  /* A step touches at most one buffer, one URB and one task; what is left alone stays right. */

  ghost predicate EntriesAgree(d: map<Skb, Entry>, e: map<Skb, Entry>, ks: set<Skb>) {
    forall k: Skb :: k !in ks ==> (k in d <==> k in e) && (k in d ==> e[k] == d[k])
  }

  ghost predicate UrbsAgree(d: Urbs, e: Urbs, us: set<Urb>) {
    forall u: Urb :: u !in us ==>
      (u in d.refs <==> u in e.refs) && Refs(e, u) == Refs(d, u) && e.freed[u] == d.freed[u] && (u in d.flight <==> u in e.flight) &&
      (u in d.context <==> u in e.context) && (u in d.context ==> e.context[u] == d.context[u])
  }

  ghost predicate TasksAgree(d: seq<Task>, e: seq<Task>, us: set<Urb>, ts: set<nat>) {
    |d| <= |e| &&
    (forall i: nat :: i < |e| && i !in ts ==> i < |d| && e[i] == d[i]) &&
    (forall u: Urb :: u !in us ==> Holds(e, u) == Holds(d, u))
  }

  /** The device and the record change only in these places. */
  ghost predicate Agree(s: Sys, t: Sys, ks: set<Skb>, us: set<Urb>, ts: set<nat>) {
    && EntriesAgree(s.dev.entry, t.dev.entry, ks) && UrbsAgree(s.dev.urbs, t.dev.urbs, us) && TasksAgree(s.dev.tasks, t.dev.tasks, us, ts)
    && (forall k: Skb :: k !in ks ==> (k in s.place <==> k in t.place) && (k in s.place ==> t.place[k] == s.place[k]))
    && (forall u: Urb :: u !in us ==> (u in s.owner <==> u in t.owner) && (u in s.owner ==> t.owner[u] == s.owner[u]))
    && (forall u: Urb :: u in s.owner ==> u in t.owner) && (forall u :: u in t.doomed ==> u in s.doomed || u in us)
  }

  /** What a touched thing points at is touched, and what points at it. */
  ghost predicate Coupled(s: Sys, ks: set<Skb>, us: set<Urb>, ts: set<nat>) {
    && (forall u :: u in s.owner && s.owner[u].InEntry? ==> (u in us <==> s.owner[u].skb in ks))
    && (forall k :: k in s.place && s.place[k].InTask? ==> (k in ks <==> s.place[k].task in ts))
    && (forall u :: u in s.owner && s.owner[u].Local? ==> (u in us <==> s.owner[u].task in ts))
  }

  lemma SkbsStay(s: Sys, t: Sys, ks: set<Skb>, us: set<Urb>, ts: set<nat>)
    requires Inv(s) && KeysOk(t) && Agree(s, t, ks, us, ts) && Coupled(s, ks, us, ts)
    requires forall k :: k in ks && k in t.place ==> SkbOk(t.dev, t.owner, k, t.place[k])
    ensures SkbsOk(t)
  {
    forall k | k in t.place && k !in ks ensures SkbOk(t.dev, t.owner, k, t.place[k]) {
      assert SkbOk(s.dev, s.owner, k, s.place[k]);
      if s.place[k].InFlight? {
        var u := s.dev.entry[k].urb.value;
        assert UrbOk(s.dev, s.place, u, s.owner[u]);
      }
    }
  }

  lemma UrbsStay(s: Sys, t: Sys, ks: set<Skb>, us: set<Urb>, ts: set<nat>)
    requires Inv(s) && KeysOk(t) && Agree(s, t, ks, us, ts) && Coupled(s, ks, us, ts)
    requires forall u :: u in us && u in t.owner ==> UrbOk(t.dev, t.place, u, t.owner[u])
    ensures UrbsOk(t)
  {
    forall u | u in t.owner && u !in us ensures UrbOk(t.dev, t.place, u, t.owner[u]) {
      assert UrbOk(s.dev, s.place, u, s.owner[u]);
    }
  }

  lemma TasksStay(s: Sys, t: Sys, ks: set<Skb>, us: set<Urb>, ts: set<nat>)
    requires Inv(s) && KeysOk(t) && Agree(s, t, ks, us, ts) && Coupled(s, ks, us, ts)
    requires forall i :: i in ts && i < |t.dev.tasks| ==> TaskOk(t.dev.entry, t.place, t.owner, i, t.dev.tasks[i])
    ensures TasksOk(t)
  {
    forall i: nat | i < |t.dev.tasks| && i !in ts ensures TaskOk(t.dev.entry, t.place, t.owner, i, t.dev.tasks[i]) {
      assert TaskOk(s.dev.entry, s.place, s.owner, i, s.dev.tasks[i]);
    }
  }

  lemma DoomedStay(s: Sys, t: Sys, ks: set<Skb>, us: set<Urb>, ts: set<nat>)
    requires Inv(s) && KeysOk(t) && Agree(s, t, ks, us, ts) && Coupled(s, ks, us, ts)
    requires forall u :: u in us && u in t.doomed && u in t.owner ==> OnItsWayOut(t.dev, t.place, t.owner[u])
    ensures DoomedOk(t)
  {
    forall u | u in t.doomed && u !in us ensures OnItsWayOut(t.dev, t.place, t.owner[u]) {
      assert u in s.doomed && OnItsWayOut(s.dev, s.place, s.owner[u]);
      assert UrbOk(s.dev, s.place, u, s.owner[u]);
      if s.owner[u].Local? {
        assert TaskOk(s.dev.entry, s.place, s.owner, s.owner[u].task, s.dev.tasks[s.owner[u].task]);
      }
    }
  }

  /** The parts a step did touch. */
  ghost predicate TouchedKeysOk(t: Sys, ks: set<Skb>, us: set<Urb>) {
    && (forall k :: k in ks ==> (k in t.dev.entry <==> k in t.place))
    && (forall u :: u in us ==> u in t.dev.urbs.refs && u in t.owner)
  }

  ghost predicate TouchedOk(t: Sys, ks: set<Skb>, us: set<Urb>, ts: set<nat>) {
    && TouchedKeysOk(t, ks, us)
    && (forall k :: k in ks && k in t.place ==> SkbOk(t.dev, t.owner, k, t.place[k]))
    && (forall u :: u in us && u in t.owner ==> UrbOk(t.dev, t.place, u, t.owner[u]))
    && (forall i :: i in ts && i < |t.dev.tasks| ==> TaskOk(t.dev.entry, t.place, t.owner, i, t.dev.tasks[i]))
    && (forall u :: u in us && u in t.doomed && u in t.owner ==> OnItsWayOut(t.dev, t.place, t.owner[u]))
  }

  lemma KeysStay(s: Sys, t: Sys, ks: set<Skb>, us: set<Urb>, ts: set<nat>)
    requires KeysOk(s) && Agree(s, t, ks, us, ts) && TouchedKeysOk(t, ks, us)
    ensures KeysOk(t)
  {
    forall u | u in t.dev.urbs.freed && u !in us ensures u in t.owner {
      assert s.dev.urbs.freed[u] == t.dev.urbs.freed[u] > 0;
    }
  }

  lemma PendingsStay(s: Sys, t: Sys, ks: set<Skb>, us: set<Urb>, ts: set<nat>)
    requires Inv(s) && Agree(s, t, ks, us, ts) && Coupled(s, ks, us, ts)
    requires forall p :: p in t.dev.q.anchor ==> (p in s.dev.q.anchor && p.skb !in ks) || PendingOk(t.dev, t.place, p)
    ensures PendingsOk(t)
  {
    forall p | p in t.dev.q.anchor && p in s.dev.q.anchor && p.skb !in ks ensures PendingOk(t.dev, t.place, p) {
      assert PendingOk(s.dev, s.place, p) && SkbOk(s.dev, s.owner, p.skb, s.place[p.skb]);
      assert p.urb !in us;
    }
  }

  ghost predicate AnchorOk(s: Sys, t: Sys, ks: set<Skb>) {
    forall p :: p in t.dev.q.anchor ==> (p in s.dev.q.anchor && p.skb !in ks) || PendingOk(t.dev, t.place, p)
  }

  /** What a step has to show of the places it touches. */
  ghost predicate StepOk(s: Sys, t: Sys, ks: set<Skb>, us: set<Urb>, ts: set<nat>) {
    Agree(s, t, ks, us, ts) && Coupled(s, ks, us, ts) && TouchedOk(t, ks, us, ts) && ListsOk(t.dev.q, t.place) && AnchorOk(s, t, ks)
  }

  lemma TouchedIsEnough(s: Sys, t: Sys, ks: set<Skb>, us: set<Urb>, ts: set<nat>)
    requires Inv(s) && StepOk(s, t, ks, us, ts)
    ensures Inv(t)
  {
    KeysStay(s, t, ks, us, ts);
    SkbsStay(s, t, ks, us, ts);
    UrbsStay(s, t, ks, us, ts);
    TasksStay(s, t, ks, us, ts);
    DoomedStay(s, t, ks, us, ts);
    PendingsStay(s, t, ks, us, ts);
  }

  /** A step that writes one buffer's entry and place. */
  lemma BufferAgrees(s: Sys, t: Sys, k: Skb, e: Entry, p: Place)
    requires t.dev.entry == s.dev.entry[k := e] && t.place == s.place[k := p] && t.dev.tasks == s.dev.tasks
    requires t.owner == s.owner && t.doomed == s.doomed && t.dev.urbs == s.dev.urbs
    ensures Agree(s, t, {k}, {}, {})
  {
  }

  /** A step that writes one buffer's entry and place and one URB's keeper and counts. */
  lemma BothAgree(s: Sys, t: Sys, k: Skb, e: Entry, p: Place, u: Urb, o: Owner)
    requires t.dev.entry == s.dev.entry[k := e] && t.place == s.place[k := p] && t.dev.tasks == s.dev.tasks
    requires t.owner == s.owner[u := o] && t.doomed == s.doomed && UrbsAgree(s.dev.urbs, t.dev.urbs, {u})
    ensures Agree(s, t, {k}, {u}, {})
  {
  }

  lemma NewUrb(s: Sys, u: Urb)
    requires Inv(s) && u !in s.owner
    ensures s.dev.urbs.freed[u] == 0 && Holds(s.dev.tasks, u) == 0 && u !in s.doomed
  {
    NoHolds(s.owner, s.dev.tasks, u);
  }

  lemma {:induction false} NoHolds(owner: map<Urb, Owner>, tasks: seq<Task>, u: Urb)
    requires u !in owner && forall t :: t in tasks && !t.Idle? ==> t.urb in owner
    ensures Holds(tasks, u) == 0
  {
    if tasks != [] { NoHolds(owner, tasks[1..], u); }
  }

  lemma NewIsUncoupled(s: Sys, k: Skb, us: set<Urb>)
    requires Inv(s) && k !in s.place && forall u :: u in us ==> u !in s.owner
    ensures Coupled(s, {k}, us, {})
  {
    forall u | u in s.owner && s.owner[u].InEntry? ensures s.owner[u].skb != k {
      assert UrbOk(s.dev, s.place, u, s.owner[u]);
    }
  }

  /** A pending transmission's buffer is on no other list. */
  lemma PendingElsewhere(s: Sys, k: Skb)
    requires Inv(s) && (k in s.place ==> !s.place[k].OnAnchor?)
    ensures forall p :: p in s.dev.q.anchor ==> p.skb != k
  {
    forall p | p in s.dev.q.anchor ensures p.skb != k {
      assert PendingOk(s.dev, s.place, p);
    }
  }

  lemma SameAnchor(s: Sys, t: Sys, ks: set<Skb>)
    requires Inv(s) && t.dev.q.anchor == s.dev.q.anchor && forall k :: k in ks && k in s.place ==> !s.place[k].OnAnchor?
    ensures AnchorOk(s, t, ks)
  {
    forall p | p in s.dev.q.anchor ensures p.skb !in ks {
      assert PendingOk(s.dev, s.place, p);
    }
  }

  /* Transmitting. */

  lemma NewlyReleased(q: Queues, place: map<Skb, Place>, k: Skb)
    requires ListsOk(q, place) && k !in place
    ensures ListsOk(Released(q, k), place[k := Gone])
  {
    ListGains(q, Released(q, k), place, k, ReleasedList);
    MovedLists(q, Released(q, k), place, k, Gone);
  }

  lemma NewlyAnchored(q: Queues, place: map<Skb, Place>, k: Skb, u: Urb)
    requires ListsOk(q, place) && k !in place
    ensures ListsOk(q.(anchor := q.anchor + [Pending(u, k)]), place[k := OnAnchor])
  {
    var r := q.(anchor := q.anchor + [Pending(u, k)]);
    SkbsOfAppended(q.anchor, Pending(u, k));
    ListGains(q, r, place, k, AnchorList);
    MovedLists(q, r, place, k, OnAnchor);
  }

  lemma NewlyQueued(q: Queues, place: map<Skb, Place>, k: Skb, tx: bool)
    requires ListsOk(q, place) && k !in place
    ensures ListsOk(Enqueued(q, tx, k), place[k := InFlight(tx)])
  {
    ListGains(q, Enqueued(q, tx, k), place, k, if tx then TxList else RxList);
    MovedLists(q, Enqueued(q, tx, k), place, k, InFlight(tx));
  }

  lemma XmitLists(d: Dev, place: map<Skb, Place>, k: Skb, u: Urb, stale: SkbState, o: Sending)
    requires ListsOk(d.q, place) && k !in place
    ensures ListsOk(StartXmit(d, k, u, stale, o).q, place[k := TargetOf(o)])
  {
    match o
    case NoUrb => NewlyReleased(d.q, place, k);
    case Dropped => NewlyReleased(d.q, place, k);
    case Asleep => NewlyAnchored(d.q, place, k, u);
    case Sent => NewlyQueued(d.q, place, k, true);
  }

  /** The URB of a transmission afterwards. */
  lemma XmitUrb(d: Dev, k: Skb, u: Urb, stale: SkbState, o: Sending)
    requires o != NoUrb && u !in d.urbs.refs && u !in d.urbs.flight
    ensures
      var h := StartXmit(d, k, u, stale, o).urbs;
      && UrbsAgree(d.urbs, h, {u}) && u in h.refs
      && Refs(h, u) == (match o case Sent => 2 case Asleep => 1 case _ => 0)
      && h.freed[u] == d.urbs.freed[u] + Gain(o == Dropped)
      && (u in h.flight <==> o == Sent) && u in h.context && h.context[u] == Context(k, true)
  {
  }

  lemma XmitTouchesBuffer(s: Sys, k: Skb, u: Urb, stale: SkbState)
    ensures
      var t := AfterXmit(s, k, u, stale, NoUrb);
      Agree(s, t, {k}, {}, {}) && TouchedOk(t, {k}, {}, {})
  {
    BufferAgrees(s, AfterXmit(s, k, u, stale, NoUrb), k, Entry(stale, None), Gone);
  }

  lemma XmitTouchesBoth(s: Sys, k: Skb, u: Urb, stale: SkbState, o: Sending)
    requires KeysOk(s) && k !in s.place && u !in s.owner && o != NoUrb
    requires s.dev.urbs.freed[u] == 0 && Holds(s.dev.tasks, u) == 0
    ensures
      var t := AfterXmit(s, k, u, stale, o);
      Agree(s, t, {k}, {u}, {}) && TouchedOk(t, {k}, {u}, {})
  {
    var t := AfterXmit(s, k, u, stale, o);
    XmitUrb(s.dev, k, u, stale, o);
    BothAgree(s, t, k, Entry(if o == Sent then TxStart else stale, Some(u)), TargetOf(o), u, KeeperAfter(k, o));
    XmitTouched(s, t, k, u, o);
  }

  lemma XmitTouched(s: Sys, t: Sys, k: Skb, u: Urb, o: Sending)
    requires KeysOk(s) && u !in s.owner && o != NoUrb && t.doomed == s.doomed
    requires k in t.dev.entry && t.dev.entry[k].urb == Some(u) && k in t.place && t.place[k] == TargetOf(o)
    requires u in t.owner && t.owner[u] == KeeperAfter(k, o) && Holds(t.dev.tasks, u) == 0
    requires var h := t.dev.urbs;
      && u in h.refs && Refs(h, u) == (match o case Sent => 2 case Asleep => 1 case _ => 0)
      && h.freed[u] == Gain(o == Dropped) && (u in h.flight <==> o == Sent)
      && u in h.context && h.context[u] == Context(k, true)
    ensures TouchedOk(t, {k}, {u}, {})
  {
  }

  lemma XmitPendings(s: Sys, k: Skb, u: Urb, stale: SkbState, o: Sending)
    requires o == NoUrb || (u !in s.dev.urbs.refs && u !in s.dev.urbs.flight)
    ensures
      var t := AfterXmit(s, k, u, stale, o);
      forall p :: p in t.dev.q.anchor ==> p in s.dev.q.anchor || PendingOk(t.dev, t.place, p)
  {
    if o == Asleep { XmitUrb(s.dev, k, u, stale, o); }
  }

  lemma XmitKeepsInv(s: Sys, k: Skb, u: Urb, stale: SkbState, o: Sending)
    requires Inv(s) && k !in s.place && u !in s.owner
    ensures Inv(AfterXmit(s, k, u, stale, o))
  {
    var us := if o == NoUrb then {} else {u};
    NewUrb(s, u);
    NewIsUncoupled(s, k, us);
    PendingElsewhere(s, k);
    XmitLists(s.dev, s.place, k, u, stale, o);
    XmitPendings(s, k, u, stale, o);
    if o == NoUrb { XmitTouchesBuffer(s, k, u, stale); } else { XmitTouchesBoth(s, k, u, stale, o); }
    TouchedIsEnough(s, AfterXmit(s, k, u, stale, o), {k}, us, {});
  }

  /* Receiving: a URB posted with a new buffer, or given up. */

  lemma PostLists(d: Dev, place: map<Skb, Place>, u: Urb, k: Skb, o: Posting)
    requires ListsOk(d.q, place) && k !in place
    ensures ListsOk(RxSubmit(d, u, k, o).q, PlacePosted(place, k, o))
  {
    if o == Posted { NewlyQueued(d.q, place, k, false); } else if o == Refused { NewlyReleased(d.q, place, k); }
  }

  lemma PostUrb(d: Dev, u: Urb, k: Skb, o: Posting)
    requires Refs(d.urbs, u) >= 1 && u !in d.urbs.flight
    ensures
      var h := RxSubmit(d, u, k, o).urbs;
      && UrbsAgree(d.urbs, h, {u}) && u in h.refs
      && Refs(h, u) == (if o == Posted then Refs(d.urbs, u) + 1 else Refs(d.urbs, u) - 1)
      && h.freed[u] == d.urbs.freed[u] + Gain(o != Posted && Refs(d.urbs, u) == 1)
      && (u in h.flight <==> o == Posted)
      && (o == Posted ==> u in h.context && h.context[u] == Context(k, false))
  {
  }

  /** A URB at its first reference, or at the driver's own once its callback has deferred its buffer. */
  lemma PostTouched(t: Sys, u: Urb, k: Skb, o: Posting, n: nat)
    requires u in t.owner && t.owner[u] == KeeperPosted(k, o) && u !in t.doomed && Holds(t.dev.tasks, u) == n
    requires
      var h := t.dev.urbs;
      && u in h.refs && Refs(h, u) == n + (if o == Posted then 2 else 0) && h.freed[u] == Gain(o != Posted && n == 0)
      && (u in h.flight <==> o == Posted)
      && (o == Posted ==> u in h.context && h.context[u] == Context(k, false))
    requires TakesBuffer(o) ==> k in t.dev.entry && k in t.place && t.dev.entry[k].urb == Some(u)
    requires TakesBuffer(o) ==> t.place[k] == if o == Posted then InFlight(false) else Gone
    requires o == Posted ==> t.dev.entry[k].state == RxStart
    ensures TouchedOk(t, if TakesBuffer(o) then {k} else {}, {u}, {})
  {
  }

  lemma AllocUrb(s: Sys, u: Urb, k: Skb, o: Posting)
    requires u !in s.dev.urbs.refs && u !in s.dev.urbs.flight
    ensures
      var h := RxAlloc(s.dev, u, k, o).urbs;
      && UrbsAgree(s.dev.urbs, h, {u}) && u in h.refs
      && Refs(h, u) == (if o == Posted then 2 else 0)
      && h.freed[u] == s.dev.urbs.freed[u] + Gain(o != Posted)
      && (u in h.flight <==> o == Posted)
      && (o == Posted ==> u in h.context && h.context[u] == Context(k, false))
  {
    PostUrb(s.dev.(urbs := Get(s.dev.urbs, u)), u, k, o);
  }

  lemma AllocTouches(s: Sys, u: Urb, k: Skb, o: Posting)
    requires KeysOk(s) && k !in s.place && u !in s.owner
    requires s.dev.urbs.freed[u] == 0 && Holds(s.dev.tasks, u) == 0
    ensures
      var t := AfterAlloc(s, u, k, o);
      var ks := if TakesBuffer(o) then {k} else {};
      Agree(s, t, ks, {u}, {}) && TouchedOk(t, ks, {u}, {})
  {
    AllocUrb(s, u, k, o);
    PostTouched(AfterAlloc(s, u, k, o), u, k, o, 0);
  }

  lemma UrbIsUncoupled(s: Sys, ks: set<Skb>, u: Urb)
    requires Inv(s) && u !in s.owner && forall k :: k in ks ==> k !in s.place
    ensures Coupled(s, ks, {u}, {})
  {
    forall v | v in s.owner && s.owner[v].InEntry? ensures s.owner[v].skb !in ks {
      assert UrbOk(s.dev, s.place, v, s.owner[v]);
    }
  }

  lemma AllocKeepsInv(s: Sys, u: Urb, k: Skb, o: Posting)
    requires Inv(s) && k !in s.place && u !in s.owner
    ensures Inv(AfterAlloc(s, u, k, o))
  {
    var ks := if TakesBuffer(o) then {k} else {};
    NewUrb(s, u);
    UrbIsUncoupled(s, ks, u);
    PendingElsewhere(s, k);
    PostLists(s.dev.(urbs := Get(s.dev.urbs, u)), s.place, u, k, o);
    AllocTouches(s, u, k, o);
    TouchedIsEnough(s, AfterAlloc(s, u, k, o), ks, {u}, {});
  }

  predicate MayEnd(s: Sys, i: nat)
    requires i < |s.dev.tasks| && s.dev.tasks[i].RxTail?
  {
    var u := s.dev.tasks[i].urb;
    u in s.owner && u !in s.dev.urbs.flight && Holds(s.dev.tasks, u) >= 1 &&
    (s.dev.tasks[i].again ==> u !in s.doomed) &&
    Refs(s.dev.urbs, u) == 1 + Holds(s.dev.tasks, u) && s.dev.urbs.freed[u] == 0
  }

  lemma EndPostsAgrees(s: Sys, i: nat, k: Skb, o: Posting)
    requires i < |s.dev.tasks| && s.dev.tasks[i].RxTail? && s.dev.tasks[i].again && MayEnd(s, i)
    ensures Agree(s, AfterEnd(s, i, true, k, o), if TakesBuffer(o) then {k} else {}, {s.dev.tasks[i].urb}, {i})
  {
    var u := s.dev.tasks[i].urb;
    PostUrb(s.dev, u, k, o);
    TaskUpdated(s.dev.tasks, i, Returning(u), {u});
    EndAgrees(s, AfterEnd(s, i, true, k, o), i, u, k, o);
  }

  lemma EndPosts(s: Sys, i: nat, k: Skb, o: Posting)
    requires i < |s.dev.tasks| && s.dev.tasks[i].RxTail? && s.dev.tasks[i].again && MayEnd(s, i)
    ensures TouchedOk(AfterEnd(s, i, true, k, o), if TakesBuffer(o) then {k} else {}, {s.dev.tasks[i].urb}, {i})
  {
    var u := s.dev.tasks[i].urb;
    PostUrb(s.dev, u, k, o);
    HoldsUpdated(s.dev.tasks, i, Returning(u), u);
    PostTouched(AfterEnd(s, i, true, k, o), u, k, o, Holds(s.dev.tasks, u));
  }

  /** The URB is given up: its buffer list and keeper apart, only the counts change. */
  lemma PutFacts(h: Urbs, u: Urb)
    requires Refs(h, u) >= 1
    ensures UrbsAgree(h, Put(h, u), {u}) && u in Put(h, u).refs && Refs(Put(h, u), u) == Refs(h, u) - 1
    ensures Put(h, u).freed[u] == h.freed[u] + Gain(Refs(h, u) == 1) && Put(h, u).flight == h.flight && Put(h, u).context == h.context
  {
  }

  /** The callback that lets its URB go. */
  function LetGo(s: Sys, i: nat): Sys
    requires i < |s.dev.tasks| && s.dev.tasks[i].RxTail?
  {
    var u := s.dev.tasks[i].urb;
    s.(dev := s.dev.(urbs := Put(s.dev.urbs, u), tasks := s.dev.tasks[i := Returning(u)]), owner := s.owner[u := Nobody])
  }

  lemma LetGoAgrees(s: Sys, i: nat)
    requires i < |s.dev.tasks| && s.dev.tasks[i].RxTail? && MayEnd(s, i)
    ensures Agree(s, LetGo(s, i), {}, {s.dev.tasks[i].urb}, {i})
  {
    var u := s.dev.tasks[i].urb;
    PutFacts(s.dev.urbs, u);
    TaskUpdated(s.dev.tasks, i, Returning(u), {u});
  }

  lemma LetGoTouches(s: Sys, i: nat)
    requires i < |s.dev.tasks| && s.dev.tasks[i].RxTail? && MayEnd(s, i)
    ensures TouchedOk(LetGo(s, i), {}, {s.dev.tasks[i].urb}, {i})
  {
    var u := s.dev.tasks[i].urb;
    PutFacts(s.dev.urbs, u);
    HoldsUpdated(s.dev.tasks, i, Returning(u), u);
  }

  lemma EndGivesUp(s: Sys, i: nat, running: bool, k: Skb, o: Posting)
    requires i < |s.dev.tasks| && s.dev.tasks[i].RxTail? && !(running && s.dev.tasks[i].again)
    requires MayEnd(s, i)
    ensures
      var t := AfterEnd(s, i, running, k, o);
      var u := s.dev.tasks[i].urb;
      Agree(s, t, {}, {u}, {i}) && TouchedOk(t, {}, {u}, {i})
  {
    assert AfterEnd(s, i, running, k, o) == LetGo(s, i);
    LetGoAgrees(s, i);
    LetGoTouches(s, i);
  }

  lemma EndIsCoupled(s: Sys, i: nat, ks: set<Skb>)
    requires Inv(s) && i < |s.dev.tasks| && s.dev.tasks[i].RxTail? && forall k :: k in ks ==> k !in s.place
    ensures Coupled(s, ks, {s.dev.tasks[i].urb}, {i})
  {
    EndFacts(s, i);
    forall v | v in s.owner ensures
      (s.owner[v].InEntry? ==> s.owner[v].skb !in ks && v != s.dev.tasks[i].urb) &&
      (s.owner[v].Local? && s.owner[v].task == i ==> v == s.dev.tasks[i].urb)
    {
      assert UrbOk(s.dev, s.place, v, s.owner[v]);
    }
    forall k | k in s.place && s.place[k].InTask? ensures s.place[k].task != i && k !in ks {
      assert SkbOk(s.dev, s.owner, k, s.place[k]);
    }
  }

  lemma EndKeepsInv(s: Sys, i: nat, running: bool, k: Skb, o: Posting)
    requires Inv(s) && i < |s.dev.tasks| && s.dev.tasks[i].RxTail? && k !in s.place
    ensures Inv(AfterEnd(s, i, running, k, o))
  {
    var again := running && s.dev.tasks[i].again;
    var ks := if again && TakesBuffer(o) then {k} else {};
    EndFacts(s, i);
    EndIsCoupled(s, i, ks);
    PendingElsewhere(s, k);
    if again {
      PostLists(s.dev, s.place, s.dev.tasks[i].urb, k, o);
      EndPostsAgrees(s, i, k, o);
      EndPosts(s, i, k, o);
    } else {
      EndGivesUp(s, i, running, k, o);
    }
    TouchedIsEnough(s, AfterEnd(s, i, running, k, o), ks, {s.dev.tasks[i].urb}, {i});
  }

  lemma EndAgrees(s: Sys, t: Sys, i: nat, u: Urb, k: Skb, o: Posting)
    requires UrbsAgree(s.dev.urbs, t.dev.urbs, {u}) && TasksAgree(s.dev.tasks, t.dev.tasks, {u}, {i})
    requires t.place == PlacePosted(s.place, k, o) && u in s.owner && t.owner == s.owner[u := KeeperPosted(k, o)]
    requires EntriesAgree(s.dev.entry, t.dev.entry, if TakesBuffer(o) then {k} else {}) && t.doomed == s.doomed
    ensures Agree(s, t, if TakesBuffer(o) then {k} else {}, {u}, {i})
  {
  }

  /** A callback past defer_bh holds the driver's own reference and the host controller's. */
  lemma EndFacts(s: Sys, i: nat)
    requires Inv(s) && i < |s.dev.tasks| && s.dev.tasks[i].RxTail?
    ensures MayEnd(s, i) && s.owner[s.dev.tasks[i].urb] == Local(i)
  {
    var u := s.dev.tasks[i].urb;
    assert TaskOk(s.dev.entry, s.place, s.owner, i, s.dev.tasks[i]);
    assert UrbOk(s.dev, s.place, u, s.owner[u]);
    HoldsUpdated(s.dev.tasks, i, Idle, u);
  }

  lemma TaskUpdated(tasks: seq<Task>, i: nat, t: Task, us: set<Urb>)
    requires i < |tasks| && (tasks[i].Idle? || tasks[i].urb in us) && (t.Idle? || t.urb in us)
    ensures TasksAgree(tasks, tasks[i := t], us, {i})
  {
    forall u: Urb | u !in us ensures Holds(tasks[i := t], u) == Holds(tasks, u) {
      HoldsUpdated(tasks, i, t, u);
    }
  }

  lemma TaskAdded(tasks: seq<Task>, t: Task, us: set<Urb>)
    requires t.Idle? || t.urb in us
    ensures TasksAgree(tasks, tasks + [t], us, {|tasks|})
  {
    forall u: Urb | u !in us ensures Holds(tasks + [t], u) == Holds(tasks, u) {
      HoldsAppended(tasks, t, u);
    }
  }

  /* Completion. */

  lemma GiveBackFacts(s: Sys, u: Urb)
    requires Inv(s) && u in s.dev.urbs.flight
    ensures u in s.owner && u in s.dev.urbs.context && UrbOk(s.dev, s.place, u, s.owner[u])
    ensures
      var c := s.dev.urbs.context[u];
      s.owner[u] == InEntry(c.skb) && c.skb in s.place && s.place[c.skb] == InFlight(c.tx) &&
      c.skb in s.dev.entry && s.dev.entry[c.skb].urb == Some(u) && SkbOk(s.dev, s.owner, c.skb, s.place[c.skb])
    ensures Coupled(s, {s.dev.urbs.context[u].skb}, {u}, {|s.dev.tasks|})
    ensures u in s.doomed ==> OnItsWayOut(s.dev, s.place, s.owner[u])
  {
    assert UrbOk(s.dev, s.place, u, s.owner[u]);
    FlightIsCoupled(s, u);
  }

  lemma FlightIsCoupled(s: Sys, u: Urb)
    requires Inv(s) && u in s.owner && s.owner[u].InEntry? && s.owner[u].skb in s.place && !s.place[s.owner[u].skb].InTask?
    ensures Coupled(s, {s.owner[u].skb}, {u}, {|s.dev.tasks|}) && Coupled(s, {s.owner[u].skb}, {u}, {})
  {
    forall v | v in s.owner ensures UrbOk(s.dev, s.place, v, s.owner[v]) {
    }
    assert UrbOk(s.dev, s.place, u, s.owner[u]);
    forall k | k in s.place && s.place[k].InTask? ensures s.place[k].task < |s.dev.tasks| {
      assert SkbOk(s.dev, s.owner, k, s.place[k]);
    }
  }

  /** Moving from flight into a callback keeps the buffer on its list. */
  lemma SameListMoves(q: Queues, place: map<Skb, Place>, k: Skb, p: Place)
    requires ListsOk(q, place) && k in place && ListOf(place[k]) == ListOf(p)
    ensures ListsOk(q, place[k := p])
  {
  }

  lemma GiveBackAgrees(s: Sys, u: Urb)
    requires u in s.dev.urbs.flight && u in s.dev.urbs.context && u in s.owner
    ensures Agree(s, AfterGiveBack(s, u), {s.dev.urbs.context[u].skb}, {u}, {|s.dev.tasks|})
  {
    var c := s.dev.urbs.context[u];
    TaskAdded(s.dev.tasks, if c.tx then TxBack(u, c.skb) else RxBack(u, c.skb), {u});
  }

  lemma GiveBackTouches(s: Sys, t: Sys, u: Urb, c: Context, i: nat)
    requires i == |s.dev.tasks| && u in s.owner && c.skb in s.dev.entry && c.skb in s.place
    requires t.place == s.place[c.skb := InTask(c.tx, i)] && t.owner == s.owner && t.doomed == s.doomed && t.dev.entry == s.dev.entry
    requires t.dev.tasks == s.dev.tasks + [if c.tx then TxBack(u, c.skb) else RxBack(u, c.skb)]
    requires t.dev.urbs == s.dev.urbs.(flight := s.dev.urbs.flight - {u}) && u in s.dev.urbs.refs && u in s.dev.urbs.flight
    requires s.owner[u] == InEntry(c.skb) && s.dev.entry[c.skb].urb == Some(u) && UrbOk(s.dev, s.place, u, s.owner[u])
    requires s.place[c.skb] == InFlight(c.tx) && SkbOk(s.dev, s.owner, c.skb, s.place[c.skb])
    requires s.dev.urbs.context[u] == c && (u in s.doomed ==> OnItsWayOut(s.dev, s.place, s.owner[u]))
    ensures TouchedOk(t, {c.skb}, {u}, {i})
  {
    HoldsAppended(s.dev.tasks, t.dev.tasks[i], u);
  }

  lemma GiveBackParts(s: Sys, u: Urb)
    requires Inv(s) && u in s.dev.urbs.flight && u in s.dev.urbs.context
    ensures
      var c, t, i := s.dev.urbs.context[u], AfterGiveBack(s, u), |s.dev.tasks|;
      Agree(s, t, {c.skb}, {u}, {i}) && TouchedOk(t, {c.skb}, {u}, {i}) && ListsOk(t.dev.q, t.place)
  {
    var c := s.dev.urbs.context[u];
    GiveBackFacts(s, u);
    SameListMoves(s.dev.q, s.place, c.skb, InTask(c.tx, |s.dev.tasks|));
    GiveBackAgrees(s, u);
    GiveBackTouches(s, AfterGiveBack(s, u), u, c, |s.dev.tasks|);
  }

  lemma GiveBackKeepsInv(s: Sys, u: Urb)
    requires Inv(s) && u in s.dev.urbs.flight && u in s.dev.urbs.context
    ensures Inv(AfterGiveBack(s, u))
  {
    var k := s.dev.urbs.context[u].skb;
    GiveBackParts(s, u);
    GiveBackFacts(s, u);
    SameAnchor(s, AfterGiveBack(s, u), {k});
    TouchedIsEnough(s, AfterGiveBack(s, u), {k}, {u}, {|s.dev.tasks|});
  }

  /** A callback that still has its buffer on a list. */
  lemma WorkFacts(s: Sys, i: nat)
    requires Inv(s) && i < |s.dev.tasks| && SkbOf(s.dev.tasks[i]).Some?
    ensures
      var u, k := s.dev.tasks[i].urb, s.dev.tasks[i].skb;
      && u in s.owner && k in s.place && k in s.dev.entry && s.place[k] == InTask(s.dev.tasks[i].TxBack?, i)
      && UrbOk(s.dev, s.place, u, s.owner[u]) && SkbOk(s.dev, s.owner, k, s.place[k])
      && TaskOk(s.dev.entry, s.place, s.owner, i, s.dev.tasks[i]) && u in s.dev.urbs.refs
      && (u in s.doomed ==> OnItsWayOut(s.dev, s.place, s.owner[u]))
  {
    assert TaskOk(s.dev.entry, s.place, s.owner, i, s.dev.tasks[i]);
  }

  lemma WorkIsCoupled(s: Sys, i: nat)
    requires Inv(s) && i < |s.dev.tasks| && SkbOf(s.dev.tasks[i]).Some?
    ensures Coupled(s, {s.dev.tasks[i].skb}, {s.dev.tasks[i].urb}, {i})
  {
    WorkFacts(s, i);
    forall v | v in s.owner ensures UrbOk(s.dev, s.place, v, s.owner[v]) {
    }
    forall k | k in s.place && s.place[k].InTask? ensures SkbOk(s.dev, s.owner, k, s.place[k]) {
    }
  }

  lemma SortAgrees(s: Sys, i: nat, status: Status)
    requires i < |s.dev.tasks| && s.dev.tasks[i].RxBack? && s.dev.tasks[i].skb in s.place && s.dev.tasks[i].urb in s.owner
    ensures Agree(s, AfterSort(s, i, status), {s.dev.tasks[i].skb}, {s.dev.tasks[i].urb}, {i})
  {
    var t := AfterSort(s, i, status);
    TaskUpdated(s.dev.tasks, i, t.dev.tasks[i], {s.dev.tasks[i].urb});
  }

  lemma SortTouches(s: Sys, i: nat, status: Status)
    requires i < |s.dev.tasks| && s.dev.tasks[i].RxBack?
    requires
      var u, k := s.dev.tasks[i].urb, s.dev.tasks[i].skb;
      && u in s.owner && k in s.place && k in s.dev.entry && s.place[k] == InTask(false, i)
      && UrbOk(s.dev, s.place, u, s.owner[u]) && SkbOk(s.dev, s.owner, k, s.place[k]) && u in s.dev.urbs.refs
      && s.owner[u] == InEntry(k) && (u in s.doomed ==> OnItsWayOut(s.dev, s.place, s.owner[u]))
    ensures TouchedOk(AfterSort(s, i, status), {s.dev.tasks[i].skb}, {s.dev.tasks[i].urb}, {i})
  {
    HoldsUpdated(s.dev.tasks, i, AfterSort(s, i, status).dev.tasks[i], s.dev.tasks[i].urb);
  }

  lemma SortStep(s: Sys, i: nat, status: Status)
    requires Inv(s) && i < |s.dev.tasks| && s.dev.tasks[i].RxBack?
    ensures StepOk(s, AfterSort(s, i, status), {s.dev.tasks[i].skb}, {s.dev.tasks[i].urb}, {i})
  {
    WorkFacts(s, i);
    WorkIsCoupled(s, i);
    SortAgrees(s, i, status);
    SortTouches(s, i, status);
    SameAnchor(s, AfterSort(s, i, status), {s.dev.tasks[i].skb});
  }

  lemma SortKeepsInv(s: Sys, i: nat, status: Status)
    requires Inv(s) && i < |s.dev.tasks| && s.dev.tasks[i].RxBack?
    ensures Inv(AfterSort(s, i, status))
  {
    SortStep(s, i, status);
    TouchedIsEnough(s, AfterSort(s, i, status), {s.dev.tasks[i].skb}, {s.dev.tasks[i].urb}, {i});
  }

  /* The buffer goes to the done list. */

  lemma OffLists(s: Sys, i: nat, k: Skb, tx: bool)
    requires ListsOk(s.dev.q, s.place) && k in s.place && s.place[k] == InTask(tx, i)
    ensures ListsOk(Finished(s.dev.q, tx, k), s.place[k := OnDone])
  {
    var q := s.dev.q;
    var from := if tx then TxList else RxList;
    WithoutCounts(Queue(q, tx), k);
    ListsTrade(q, Finished(q, tx, k), s.place, k, from, DoneList);
    MovedLists(q, Finished(q, tx, k), s.place, k, OnDone);
  }

  lemma RxOffAgrees(s: Sys, i: nat)
    requires i < |s.dev.tasks| && s.dev.tasks[i].RxSorted?
    ensures Agree(s, AfterRxOff(s, i), {s.dev.tasks[i].skb}, {s.dev.tasks[i].urb}, {i})
  {
    TaskUpdated(s.dev.tasks, i, AfterRxOff(s, i).dev.tasks[i], {s.dev.tasks[i].urb});
  }

  lemma RxOffTouches(s: Sys, i: nat)
    requires i < |s.dev.tasks| && s.dev.tasks[i].RxSorted?
    requires
      var u, k := s.dev.tasks[i].urb, s.dev.tasks[i].skb;
      && u in s.owner && k in s.place && k in s.dev.entry && s.place[k] == InTask(false, i)
      && UrbOk(s.dev, s.place, u, s.owner[u]) && SkbOk(s.dev, s.owner, k, s.place[k]) && u in s.dev.urbs.refs
      && TaskOk(s.dev.entry, s.place, s.owner, i, s.dev.tasks[i])
      && (u in s.doomed ==> OnItsWayOut(s.dev, s.place, s.owner[u]))
    ensures TouchedOk(AfterRxOff(s, i), {s.dev.tasks[i].skb}, {s.dev.tasks[i].urb}, {i})
  {
    HoldsUpdated(s.dev.tasks, i, AfterRxOff(s, i).dev.tasks[i], s.dev.tasks[i].urb);
  }

  lemma RxOffStep(s: Sys, i: nat)
    requires Inv(s) && i < |s.dev.tasks| && s.dev.tasks[i].RxSorted?
    ensures StepOk(s, AfterRxOff(s, i), {s.dev.tasks[i].skb}, {s.dev.tasks[i].urb}, {i})
  {
    WorkFacts(s, i);
    WorkIsCoupled(s, i);
    OffLists(s, i, s.dev.tasks[i].skb, false);
    RxOffAgrees(s, i);
    RxOffTouches(s, i);
    SameAnchor(s, AfterRxOff(s, i), {s.dev.tasks[i].skb});
  }

  lemma RxOffKeepsInv(s: Sys, i: nat)
    requires Inv(s) && i < |s.dev.tasks| && s.dev.tasks[i].RxSorted?
    ensures Inv(AfterRxOff(s, i))
  {
    RxOffStep(s, i);
    TouchedIsEnough(s, AfterRxOff(s, i), {s.dev.tasks[i].skb}, {s.dev.tasks[i].urb}, {i});
  }

  lemma TxOffAgrees(s: Sys, i: nat)
    requires i < |s.dev.tasks| && s.dev.tasks[i].TxBack?
    ensures Agree(s, AfterTxOff(s, i), {s.dev.tasks[i].skb}, {s.dev.tasks[i].urb}, {i})
  {
    TaskUpdated(s.dev.tasks, i, AfterTxOff(s, i).dev.tasks[i], {s.dev.tasks[i].urb});
  }

  lemma TxOffTouches(s: Sys, i: nat)
    requires i < |s.dev.tasks| && s.dev.tasks[i].TxBack?
    requires
      var u, k := s.dev.tasks[i].urb, s.dev.tasks[i].skb;
      && u in s.owner && k in s.place && k in s.dev.entry && s.place[k] == InTask(true, i)
      && UrbOk(s.dev, s.place, u, s.owner[u]) && u in s.dev.urbs.refs
      && TaskOk(s.dev.entry, s.place, s.owner, i, s.dev.tasks[i])
      && (u in s.doomed ==> OnItsWayOut(s.dev, s.place, s.owner[u]))
    ensures TouchedOk(AfterTxOff(s, i), {s.dev.tasks[i].skb}, {s.dev.tasks[i].urb}, {i})
  {
    HoldsUpdated(s.dev.tasks, i, AfterTxOff(s, i).dev.tasks[i], s.dev.tasks[i].urb);
  }

  lemma TxOffStep(s: Sys, i: nat)
    requires Inv(s) && i < |s.dev.tasks| && s.dev.tasks[i].TxBack?
    ensures StepOk(s, AfterTxOff(s, i), {s.dev.tasks[i].skb}, {s.dev.tasks[i].urb}, {i})
  {
    WorkFacts(s, i);
    WorkIsCoupled(s, i);
    OffLists(s, i, s.dev.tasks[i].skb, true);
    TxOffAgrees(s, i);
    TxOffTouches(s, i);
    SameAnchor(s, AfterTxOff(s, i), {s.dev.tasks[i].skb});
  }

  lemma TxOffKeepsInv(s: Sys, i: nat)
    requires Inv(s) && i < |s.dev.tasks| && s.dev.tasks[i].TxBack?
    ensures Inv(AfterTxOff(s, i))
  {
    TxOffStep(s, i);
    TouchedIsEnough(s, AfterTxOff(s, i), {s.dev.tasks[i].skb}, {s.dev.tasks[i].urb}, {i});
  }

  /* Dropping a reference. */

  predicate Plain(t: Task) {
    t.Idle? || t.Returning? || t.Unlinking?
  }

  lemma DropUrb(s: Sys, i: nat, v: Urb)
    requires Inv(s) && i < |s.dev.tasks| && Plain(s.dev.tasks[i]) && !s.dev.tasks[i].Idle? && v in s.owner
    ensures var t := AfterDrop(s, i); UrbOk(t.dev, t.place, v, t.owner[v])
  {
    assert UrbOk(s.dev, s.place, v, s.owner[v]);
    HoldsUpdated(s.dev.tasks, i, Idle, v);
  }

  lemma DropKeepsInv(s: Sys, i: nat)
    requires Inv(s) && i < |s.dev.tasks| && Plain(s.dev.tasks[i]) && !s.dev.tasks[i].Idle?
    ensures Inv(AfterDrop(s, i))
  {
    var t := AfterDrop(s, i);
    assert TaskOk(s.dev.entry, s.place, s.owner, i, s.dev.tasks[i]);
    forall v | v in t.owner ensures UrbOk(t.dev, t.place, v, t.owner[v]) { DropUrb(s, i, v); }
    DropSkbs(s, i);
    DropRest(s, i);
  }

  lemma DropSkbs(s: Sys, i: nat)
    requires Inv(s) && i < |s.dev.tasks| && Plain(s.dev.tasks[i]) && !s.dev.tasks[i].Idle?
    ensures KeysOk(AfterDrop(s, i)) && SkbsOk(AfterDrop(s, i))
  {
    var t := AfterDrop(s, i);
    assert TaskOk(s.dev.entry, s.place, s.owner, i, s.dev.tasks[i]);
    assert KeysOk(t);
    forall k | k in t.place ensures SkbOk(t.dev, t.owner, k, t.place[k]) {
      assert SkbOk(s.dev, s.owner, k, s.place[k]);
    }
  }

  lemma DropRest(s: Sys, i: nat)
    requires Inv(s) && i < |s.dev.tasks| && Plain(s.dev.tasks[i]) && !s.dev.tasks[i].Idle?
    ensures TasksOk(AfterDrop(s, i)) && PendingsOk(AfterDrop(s, i)) && DoomedOk(AfterDrop(s, i))
  {
    var t := AfterDrop(s, i);
    forall j: nat | j < |t.dev.tasks| ensures TaskOk(t.dev.entry, t.place, t.owner, j, t.dev.tasks[j]) {
      assert TaskOk(s.dev.entry, s.place, s.owner, j, s.dev.tasks[j]);
    }
    forall p | p in t.dev.q.anchor ensures PendingOk(t.dev, t.place, p) {
      assert PendingOk(s.dev, s.place, p);
    }
    forall u | u in t.doomed ensures u in t.owner && OnItsWayOut(t.dev, t.place, t.owner[u]) {
      assert OnItsWayOut(s.dev, s.place, s.owner[u]) && UrbOk(s.dev, s.place, u, s.owner[u]);
    }
  }

  /* Unlinking. */

  lemma {:induction false} FirstLinkedIsOn(d: Dev, q: seq<Skb>)
    ensures FirstLinked(d, q).Some? ==> FirstLinked(d, q).value in q && StateOf(d, FirstLinked(d, q).value) != UnlinkStart
    ensures FirstLinked(d, q).None? ==> forall k :: k in q ==> StateOf(d, k) == UnlinkStart
  {
    if q != [] { FirstLinkedIsOn(d, q[1..]); }
  }

  lemma OnQueueFacts(s: Sys, tx: bool, k: Skb)
    requires Inv(s) && k in Queue(s.dev.q, tx)
    ensures k in s.place && k in s.dev.entry && SkbOk(s.dev, s.owner, k, s.place[k])
    ensures s.place[k] == InFlight(tx) || (s.place[k].InTask? && s.place[k].tx == tx)
  {
    var name := if tx then TxList else RxList;
    assert Count(s.dev.q, name, k) > 0;
  }

  /** A buffer at work, and its URB. */
  lemma AtWorkFacts(s: Sys, k: Skb)
    requires Inv(s) && k in s.place && (s.place[k].InFlight? || s.place[k].InTask?)
    ensures k in s.dev.entry && SkbOk(s.dev, s.owner, k, s.place[k]) && AtWork(s, k).Some?
    ensures
      var u := AtWork(s, k).value;
      && u in s.owner && u in s.dev.urbs.refs && UrbOk(s.dev, s.place, u, s.owner[u]) && s.dev.urbs.freed[u] == 0 && Refs(s.dev.urbs, u) >= 1
      && (s.dev.entry[k].urb == Some(u) || s.dev.entry[k].urb == None)
      && (s.place[k].InTask? ==> TaskOk(s.dev.entry, s.place, s.owner, s.place[k].task, s.dev.tasks[s.place[k].task]))
      && (s.owner[u] == InEntry(k) || (s.place[k].InTask? && s.owner[u] == Local(s.place[k].task)))
  {
    assert SkbOk(s.dev, s.owner, k, s.place[k]);
    var u := AtWork(s, k).value;
    if s.place[k].InTask? {
      assert TaskOk(s.dev.entry, s.place, s.owner, s.place[k].task, s.dev.tasks[s.place[k].task]);
    }
    assert UrbOk(s.dev, s.place, u, s.owner[u]);
  }

  function TaskSet(s: Sys, k: Skb): set<nat>
    requires k in s.place
  {
    {|s.dev.tasks|} + if s.place[k].InTask? then {s.place[k].task} else {}
  }

  lemma MarkIsCoupled(s: Sys, k: Skb)
    requires Inv(s) && k in s.place && (s.place[k].InFlight? || s.place[k].InTask?) && AtWork(s, k).Some?
    ensures Coupled(s, {k}, {AtWork(s, k).value}, TaskSet(s, k))
  {
    AtWorkFacts(s, k);
    forall v | v in s.owner ensures UrbOk(s.dev, s.place, v, s.owner[v]) {
    }
    forall x | x in s.place && s.place[x].InTask? ensures SkbOk(s.dev, s.owner, x, s.place[x]) {
    }
  }

  lemma MarkAgrees(s: Sys, k: Skb)
    requires k in s.dev.entry && AtWork(s, k).Some? && (s.dev.entry[k].urb == AtWork(s, k) || s.dev.entry[k].urb == None)
    requires k in s.place
    ensures Agree(s, AfterMark(s, k), {k}, {AtWork(s, k).value}, TaskSet(s, k))
  {
    var u := AtWork(s, k).value;
    TaskAdded(s.dev.tasks, Unlinking(u), {u});
  }

  lemma MarkTouches(s: Sys, k: Skb, u: Urb)
    requires k in s.place && k in s.dev.entry && (s.place[k].InFlight? || s.place[k].InTask?) && SkbOk(s.dev, s.owner, k, s.place[k])
    requires AtWork(s, k) == Some(u) && u in s.owner && u in s.dev.urbs.refs && UrbOk(s.dev, s.place, u, s.owner[u]) && Refs(s.dev.urbs, u) >= 1
    requires s.dev.entry[k].urb == Some(u) || s.dev.entry[k].urb == None
    requires s.place[k].InTask? ==> TaskOk(s.dev.entry, s.place, s.owner, s.place[k].task, s.dev.tasks[s.place[k].task])
    requires s.owner[u] == InEntry(k) || (s.place[k].InTask? && s.owner[u] == Local(s.place[k].task))
    ensures TouchedOk(AfterMark(s, k), {k}, {u}, TaskSet(s, k))
  {
    HoldsAppended(s.dev.tasks, Unlinking(u), u);
  }

  lemma MarkKeepsInv(s: Sys, tx: bool)
    requires Inv(s) && FirstLinked(s.dev, Queue(s.dev.q, tx)).Some?
    ensures Inv(AfterMark(s, FirstLinked(s.dev, Queue(s.dev.q, tx)).value))
  {
    var k := FirstLinked(s.dev, Queue(s.dev.q, tx)).value;
    FirstLinkedIsOn(s.dev, Queue(s.dev.q, tx));
    OnQueueFacts(s, tx, k);
    MarkOneKeepsInv(s, k);
  }

  lemma MarkParts(s: Sys, k: Skb)
    requires Inv(s) && k in s.place && (s.place[k].InFlight? || s.place[k].InTask?) && AtWork(s, k).Some?
    ensures Agree(s, AfterMark(s, k), {k}, {AtWork(s, k).value}, TaskSet(s, k))
    ensures TouchedOk(AfterMark(s, k), {k}, {AtWork(s, k).value}, TaskSet(s, k))
  {
    AtWorkFacts(s, k);
    MarkAgrees(s, k);
    MarkTouches(s, k, AtWork(s, k).value);
  }

  /** A step that leaves every list and place as it is. */
  lemma InPlaceKeepsInv(s: Sys, t: Sys, k: Skb, us: set<Urb>, ts: set<nat>)
    requires Inv(s) && Agree(s, t, {k}, us, ts) && TouchedOk(t, {k}, us, ts) && Coupled(s, {k}, us, ts)
    requires t.dev.q == s.dev.q && t.place == s.place && k in s.place && !s.place[k].OnAnchor?
    ensures Inv(t)
  {
    SameAnchor(s, t, {k});
    TouchedIsEnough(s, t, {k}, us, ts);
  }

  lemma MarkOneKeepsInv(s: Sys, k: Skb)
    requires Inv(s) && k in s.place && (s.place[k].InFlight? || s.place[k].InTask?)
    ensures Inv(AfterMark(s, k))
  {
    AtWorkFacts(s, k);
    MarkParts(s, k);
    MarkIsCoupled(s, k);
    InPlaceKeepsInv(s, AfterMark(s, k), k, {AtWork(s, k).value}, TaskSet(s, k));
  }

  /* The bottom half. */

  /** The head of one list goes to the end of another. */
  lemma HeadTrades(q: Queues, r: Queues, place: map<Skb, Place>, from: List, k: Skb, p: Place)
    requires ListsOk(q, place) && Named(q, from) != [] && k == Named(q, from)[0] && r.bogus == q.bogus && from != ListOf(p)
    requires Named(r, from) == Named(q, from)[1..] && Named(r, ListOf(p)) == Named(q, ListOf(p)) + [k]
    requires forall name: List :: name != from && name != ListOf(p) ==> Named(r, name) == Named(q, name)
    ensures k in place && ListOf(place[k]) == from && ListsOk(r, place[k := p])
  {
    HeadListed(q, place, from);
    HeadCounts(Named(q, from));
    ListsTrade(q, r, place, k, from, ListOf(p));
    MovedLists(q, r, place, k, p);
  }

  lemma DoneReleased(q: Queues, place: map<Skb, Place>)
    requires ListsOk(q, place) && q.done != []
    ensures ListsOk(Released(q.(done := q.done[1..]), q.done[0]), place[q.done[0] := Gone])
  {
    HeadTrades(q, Released(q.(done := q.done[1..]), q.done[0]), place, DoneList, q.done[0], Gone);
  }

  /** What was handed up is released too, and only counted there. */
  lemma HandingUpLists(q: Queues, place: map<Skb, Place>, k: Skb)
    requires ListsOk(Released(q, k), place)
    ensures ListsOk(HandedUp(q, k), place)
  {
    forall name: List, x: Skb ensures Count(HandedUp(q, k), name, x) == if x in place && ListOf(place[x]) == name then 1 else 0 {
      assert Named(HandedUp(q, k), name) == Named(Released(q, k), name);
      assert Count(Released(q, k), name, x) == if x in place && ListOf(place[x]) == name then 1 else 0;
    }
  }

  lemma DonePaused(q: Queues, place: map<Skb, Place>)
    requires ListsOk(q, place) && q.done != []
    ensures ListsOk(q.(done := q.done[1..], paused := q.paused + [q.done[0]]), place[q.done[0] := OnPaused])
  {
    HeadTrades(q, q.(done := q.done[1..], paused := q.paused + [q.done[0]]), place, DoneList, q.done[0], OnPaused);
  }

  lemma PausedReleased(q: Queues, place: map<Skb, Place>)
    requires ListsOk(q, place) && q.paused != []
    ensures ListsOk(Released(q.(paused := q.paused[1..]), q.paused[0]), place[q.paused[0] := Gone])
    ensures ListsOk(HandedUp(q.(paused := q.paused[1..]), q.paused[0]), place[q.paused[0] := Gone])
  {
    HeadTrades(q, Released(q.(paused := q.paused[1..]), q.paused[0]), place, PauseList, q.paused[0], Gone);
    HandingUpLists(q.(paused := q.paused[1..]), place[q.paused[0] := Gone], q.paused[0]);
  }

  lemma AnchorReleased(q: Queues, place: map<Skb, Place>)
    requires ListsOk(q, place) && q.anchor != []
    ensures ListsOk(Released(q.(anchor := q.anchor[1..]), q.anchor[0].skb), place[q.anchor[0].skb := Gone])
  {
    var r := Released(q.(anchor := q.anchor[1..]), q.anchor[0].skb);
    assert SkbsOf(q.anchor)[1..] == SkbsOf(r.anchor);
    HeadTrades(q, r, place, AnchorList, q.anchor[0].skb, Gone);
  }

  lemma AnchorQueued(q: Queues, place: map<Skb, Place>)
    requires ListsOk(q, place) && q.anchor != []
    ensures ListsOk(Enqueued(q.(anchor := q.anchor[1..]), true, q.anchor[0].skb), place[q.anchor[0].skb := InFlight(true)])
  {
    var r := Enqueued(q.(anchor := q.anchor[1..]), true, q.anchor[0].skb);
    assert SkbsOf(q.anchor)[1..] == SkbsOf(r.anchor);
    HeadTrades(q, r, place, AnchorList, q.anchor[0].skb, InFlight(true));
  }

  lemma BottomLists(s: Sys, o: Processed)
    requires ListsOk(s.dev.q, s.place) && s.dev.q.done != [] && StateOf(s.dev, s.dev.q.done[0]) in {RxDone, TxDone, RxCleanup}
    ensures ListsOk(AfterBottom(s, o).dev.q, AfterBottom(s, o).place)
  {
    var q := s.dev.q;
    if StateOf(s.dev, q.done[0]) == RxDone && o == Paused {
      DonePaused(q, s.place);
    } else {
      DoneReleased(q, s.place);
      HandingUpLists(q.(done := q.done[1..]), AfterBottom(s, o).place, q.done[0]);
    }
  }

  /** The URB a buffer on the done list still holds. */
  function DoneUrb(s: Sys): set<Urb>
    requires s.dev.q.done != [] && s.dev.q.done[0] in s.dev.entry
  {
    var e := s.dev.entry[s.dev.q.done[0]];
    if e.urb.Some? then {e.urb.value} else {}
  }

  lemma BottomFacts(s: Sys)
    requires Inv(s) && s.dev.q.done != []
    ensures
      var k := s.dev.q.done[0];
      && k in s.place && k in s.dev.entry && s.place[k] == OnDone && SkbOk(s.dev, s.owner, k, OnDone)
      && (forall u :: u in DoneUrb(s) ==>
            u in s.owner && s.owner[u] == InEntry(k) && u in s.dev.urbs.refs && UrbOk(s.dev, s.place, u, s.owner[u]))
      && Coupled(s, {k}, DoneUrb(s), {})
  {
    var k := s.dev.q.done[0];
    HeadListed(s.dev.q, s.place, DoneList);
    assert SkbOk(s.dev, s.owner, k, s.place[k]);
    forall v | v in s.owner ensures UrbOk(s.dev, s.place, v, s.owner[v]) {
    }
  }

  lemma BottomKeeps(s: Sys, o: Processed)
    requires s.dev.q.done != [] && s.dev.q.done[0] in s.dev.entry && s.dev.q.done[0] in s.place
    requires s.dev.entry[s.dev.q.done[0]].urb.None? && StateOf(s.dev, s.dev.q.done[0]) in {RxDone, TxDone, RxCleanup}
    ensures Agree(s, AfterBottom(s, o), {s.dev.q.done[0]}, {}, {}) && TouchedOk(AfterBottom(s, o), {s.dev.q.done[0]}, {}, {})
  {
    var k, t := s.dev.q.done[0], AfterBottom(s, o);
    BufferAgrees(s, t, k, s.dev.entry[k], t.place[k]);
  }

  /** A buffer released, and its URB with it. */
  lemma GivenUp(s: Sys, t: Sys, k: Skb, u: Urb)
    requires k in s.dev.entry && k in s.place && u in s.owner && s.owner[u] == InEntry(k) && u !in s.dev.urbs.flight
    requires UrbOk(s.dev, s.place, u, s.owner[u]) && t.dev.entry == s.dev.entry && t.dev.tasks == s.dev.tasks
    requires t.dev.urbs == Put(s.dev.urbs, u) && t.place == s.place[k := Gone] && t.owner == s.owner[u := Nobody] && t.doomed == s.doomed
    ensures Agree(s, t, {k}, {u}, {}) && TouchedOk(t, {k}, {u}, {})
  {
    PutFacts(s.dev.urbs, u);
    BothAgree(s, t, k, s.dev.entry[k], Gone, u, Nobody);
    GivenUpTouched(s, t, k, u);
  }

  lemma GivenUpTouched(s: Sys, t: Sys, k: Skb, u: Urb)
    requires k in t.dev.entry && k in t.place && t.place[k] == Gone && u in t.owner && t.owner[u] == Nobody
    requires Counted(s.dev.urbs, s.dev.tasks, u, InEntry(k)) && u !in s.dev.urbs.flight
    requires t.dev.tasks == s.dev.tasks && t.dev.urbs == Put(s.dev.urbs, u)
    ensures TouchedOk(t, {k}, {u}, {})
  {
    PutFacts(s.dev.urbs, u);
  }

  lemma BottomPuts(s: Sys, o: Processed, u: Urb)
    requires s.dev.q.done != [] && s.dev.q.done[0] in s.dev.entry && s.dev.q.done[0] in s.place
    requires s.dev.entry[s.dev.q.done[0]].urb == Some(u) && StateOf(s.dev, s.dev.q.done[0]) in {TxDone, RxCleanup}
    requires u in s.owner && s.owner[u] == InEntry(s.dev.q.done[0]) && s.place[s.dev.q.done[0]] == OnDone && UrbOk(s.dev, s.place, u, s.owner[u])
    ensures Agree(s, AfterBottom(s, o), {s.dev.q.done[0]}, {u}, {}) && TouchedOk(AfterBottom(s, o), {s.dev.q.done[0]}, {u}, {})
  {
    GivenUp(s, AfterBottom(s, o), s.dev.q.done[0], u);
  }

  lemma BottomStep(s: Sys, o: Processed)
    requires Inv(s) && s.dev.q.done != []
    ensures s.dev.q.done[0] in s.dev.entry && StepOk(s, AfterBottom(s, o), {s.dev.q.done[0]}, DoneUrb(s), {})
  {
    BottomFacts(s);
    BottomLists(s, o);
    SameAnchor(s, AfterBottom(s, o), {s.dev.q.done[0]});
    var e := s.dev.entry[s.dev.q.done[0]];
    if e.urb.Some? { BottomPuts(s, o, e.urb.value); } else { BottomKeeps(s, o); }
  }

  lemma BottomKeepsInv(s: Sys, o: Processed)
    requires Inv(s) && s.dev.q.done != []
    ensures Inv(AfterBottom(s, o))
  {
    BottomStep(s, o);
    TouchedIsEnough(s, AfterBottom(s, o), {s.dev.q.done[0]}, DoneUrb(s), {});
  }

  lemma SettledIsUncoupled(s: Sys, k: Skb)
    requires Inv(s) && k in s.place && Settled(s.place[k])
    ensures Coupled(s, {k}, {}, {})
  {
    forall v | v in s.owner ensures UrbOk(s.dev, s.place, v, s.owner[v]) {
    }
  }

  lemma UnpauseTouches(s: Sys, up: bool)
    requires s.dev.q.paused != [] && s.dev.q.paused[0] in s.dev.entry && s.dev.q.paused[0] in s.place
    ensures
      var k, t := s.dev.q.paused[0], AfterUnpause(s, up);
      Agree(s, t, {k}, {}, {}) && TouchedOk(t, {k}, {}, {})
  {
    BufferAgrees(s, AfterUnpause(s, up), s.dev.q.paused[0], s.dev.entry[s.dev.q.paused[0]], Gone);
  }

  lemma UnpauseLists(s: Sys, up: bool)
    requires ListsOk(s.dev.q, s.place) && s.dev.q.paused != []
    ensures ListsOk(AfterUnpause(s, up).dev.q, AfterUnpause(s, up).place)
  {
    PausedReleased(s.dev.q, s.place);
  }

  lemma UnpauseStep(s: Sys, up: bool)
    requires Inv(s) && s.dev.q.paused != []
    ensures StepOk(s, AfterUnpause(s, up), {s.dev.q.paused[0]}, {}, {})
  {
    var k := s.dev.q.paused[0];
    HeadListed(s.dev.q, s.place, PauseList);
    UnpauseLists(s, up);
    SettledIsUncoupled(s, k);
    UnpauseTouches(s, up);
    SameAnchor(s, AfterUnpause(s, up), {k});
  }

  lemma UnpauseKeepsInv(s: Sys, up: bool)
    requires Inv(s) && s.dev.q.paused != []
    ensures Inv(AfterUnpause(s, up))
  {
    UnpauseStep(s, up);
    TouchedIsEnough(s, AfterUnpause(s, up), {s.dev.q.paused[0]}, {}, {});
  }

  /* Resuming. */

  lemma WakeLists(s: Sys, ok: bool)
    requires ListsOk(s.dev.q, s.place) && s.dev.q.anchor != []
    ensures ListsOk(AfterWake(s, ok).dev.q, AfterWake(s, ok).place)
  {
    if ok { AnchorQueued(s.dev.q, s.place); } else { AnchorReleased(s.dev.q, s.place); }
  }

  lemma WakeFacts(s: Sys)
    requires Inv(s) && s.dev.q.anchor != []
    ensures
      var p := s.dev.q.anchor[0];
      && PendingOk(s.dev, s.place, p) && p.urb in s.owner && s.owner[p.urb] == InEntry(p.skb) && p.urb in s.dev.urbs.refs
      && p.urb !in s.dev.urbs.flight && p.urb !in s.doomed && UrbOk(s.dev, s.place, p.urb, s.owner[p.urb])
      && Coupled(s, {p.skb}, {p.urb}, {})
  {
    var p := s.dev.q.anchor[0];
    assert PendingOk(s.dev, s.place, p);
    assert SkbOk(s.dev, s.owner, p.skb, s.place[p.skb]);
    assert UrbOk(s.dev, s.place, p.urb, s.owner[p.urb]);
    FlightIsCoupled(s, p.urb);
  }

  lemma SubmitFacts(h: Urbs, u: Urb)
    ensures UrbsAgree(h, Submit(h, u), {u}) && u in Submit(h, u).refs && Refs(Submit(h, u), u) == Refs(h, u) + 1
    ensures Submit(h, u).freed == h.freed && u in Submit(h, u).flight && Submit(h, u).context == h.context
  {
  }

  /** A pending transmission submitted. */
  lemma Resubmitted(s: Sys, t: Sys, p: Pending)
    requires PendingOk(s.dev, s.place, p) && p.urb in s.owner && s.owner[p.urb] == InEntry(p.skb)
    requires p.urb !in s.dev.urbs.flight && p.urb !in s.doomed && UrbOk(s.dev, s.place, p.urb, s.owner[p.urb])
    requires t.dev.entry == s.dev.entry && t.dev.tasks == s.dev.tasks && t.owner == s.owner && t.doomed == s.doomed
    requires t.dev.urbs == Submit(s.dev.urbs, p.urb) && t.place == s.place[p.skb := InFlight(true)]
    ensures Agree(s, t, {p.skb}, {p.urb}, {}) && TouchedOk(t, {p.skb}, {p.urb}, {})
  {
    SubmitFacts(s.dev.urbs, p.urb);
    BothAgree(s, t, p.skb, s.dev.entry[p.skb], InFlight(true), p.urb, s.owner[p.urb]);
  }

  lemma WakeTouches(s: Sys, ok: bool)
    requires s.dev.q.anchor != []
    requires
      var p := s.dev.q.anchor[0];
      && PendingOk(s.dev, s.place, p) && p.urb in s.owner && s.owner[p.urb] == InEntry(p.skb)
      && p.urb !in s.dev.urbs.flight && p.urb !in s.doomed && UrbOk(s.dev, s.place, p.urb, s.owner[p.urb])
    ensures
      var p := s.dev.q.anchor[0];
      Agree(s, AfterWake(s, ok), {p.skb}, {p.urb}, {}) && TouchedOk(AfterWake(s, ok), {p.skb}, {p.urb}, {})
  {
    var p, t := s.dev.q.anchor[0], AfterWake(s, ok);
    if ok { Resubmitted(s, t, p); } else { GivenUp(s, t, p.skb, p.urb); }
  }

  lemma {:induction false} AnchoredIsListed(a: seq<Pending>, p: Pending)
    requires p in a
    ensures p.skb in SkbsOf(a)
  {
    if a[0] != p { AnchoredIsListed(a[1..], p); }
  }

  lemma NotAnchored(q: Queues, place: map<Skb, Place>, k: Skb, p: Pending)
    requires ListsOk(q, place) && p in q.anchor && !OnList(place, k, AnchorList)
    ensures p.skb != k
  {
    AnchoredIsListed(q.anchor, p);
    assert Count(q, AnchorList, p.skb) > 0;
  }

  lemma WakeAnchor(s: Sys, ok: bool)
    requires s.dev.q.anchor != [] && ListsOk(AfterWake(s, ok).dev.q, AfterWake(s, ok).place)
    ensures AnchorOk(s, AfterWake(s, ok), {s.dev.q.anchor[0].skb})
  {
    var t, k := AfterWake(s, ok), s.dev.q.anchor[0].skb;
    forall p | p in t.dev.q.anchor ensures p in s.dev.q.anchor && p.skb != k {
      NotAnchored(t.dev.q, t.place, k, p);
    }
  }

  lemma WakeStep(s: Sys, ok: bool)
    requires Inv(s) && s.dev.q.anchor != []
    ensures StepOk(s, AfterWake(s, ok), {s.dev.q.anchor[0].skb}, {s.dev.q.anchor[0].urb}, {})
  {
    WakeFacts(s);
    WakeLists(s, ok);
    WakeTouches(s, ok);
    WakeAnchor(s, ok);
  }

  lemma WakeKeepsInv(s: Sys, ok: bool)
    requires Inv(s) && s.dev.q.anchor != []
    ensures Inv(AfterWake(s, ok))
  {
    WakeStep(s, ok);
    TouchedIsEnough(s, AfterWake(s, ok), {s.dev.q.anchor[0].skb}, {s.dev.q.anchor[0].urb}, {});
  }
}
