/** What the updater was told about each job's image, over whole runs: the permission to keep
    settings is the image test's own answer, and a job is offered only for a file found right. */
module UpdaterAnswers {
  import opened Wrappers
  import opened UpdaterStore
  import opened UpdaterJobs
  import opened UpdaterProof
  import opened UpdaterRuns

  /** By job: the bytes downloaded, the file last read to be rehashed, what the firmware service
      last answered about keeping settings, to the preparing worker and to the flashing one, and
      the confirmation last drawn for it. */
  datatype Heard = Heard(
    received: map<string, Bytes>, found: map<string, Option<Bytes>>, tested: map<string, bool>, rechecked: map<string, bool>,
    drawn: map<string, string>)

  function ImageOf(d: Disk, id: string): Option<Bytes> {
    if id in d.images then Some(d.images[id]) else None
  }

  /** What is downloaded for a job once this much has come for it. */
  function Receives(h: Heard, id: string, copying: Copying): Heard {
    if copying.Chunk? && id in h.received then h.(received := h.received[id := h.received[id] + copying.bytes]) else h
  }

  function Hears(h: Heard, s: Sys, a: Action): Heard {
    if !a.Work? || a.pid !in s.procs then h
    else if s.procs[a.pid].PrepareCopy? then Receives(h, s.procs[a.pid].id, a.env.copying)
    else if s.procs[a.pid].PrepareReady? then h.(drawn := h.drawn[s.procs[a.pid].id := a.env.tok])
    else if !a.env.ok then h
    else
      match s.procs[a.pid]
      case PrepareCreate(id, _, _) => h.(received := h.received[id := []])
      case PrepareHash(id, _, _) => h.(found := h.found[id := ImageOf(s.disk, id)])
      case PrepareTest(id, _, _) => h.(tested := h.tested[id := a.env.allow])
      case FlashTest(id, _, _) => h.(rechecked := h.rechecked[id := a.env.allow])
      case _ => h
  }

  function HearsAll(h: Heard, s: Sys, actions: seq<Action>): Heard
    requires CanRun(s, actions)
    decreases |actions|
  {
    if actions == [] then h else HearsAll(Hears(h, s, actions[0]), Apply(s, actions[0]), actions[1..])
  }

  const Nothing: Heard := Heard(map[], map[], map[], map[], map[])

  predicate ReceivedRight(h: Heard, hash: Bytes -> string, id: string, size: nat, sha: string) {
    id in h.received && |h.received[id]| == size && hash(h.received[id]) == sha
  }

  /** The file read for this job had the size and the digest. */
  predicate FoundRight(h: Heard, hash: Bytes -> string, id: string, size: nat, sha: string) {
    && id in h.found && h.found[id].Some? && |h.found[id].value| == size && hash(h.found[id].value) == sha
    && IsSha(sha) && 0 < size <= MAX_IMAGE
  }

  predicate Told(answers: map<string, bool>, id: string, answer: bool) {
    id in answers && answers[id] == answer
  }

  /** What a worker carries along is what it was told. */
  predicate Faithful(h: Heard, hash: Bytes -> string, p: Proc) {
    match p
    case PrepareCopy(id, size, _, got) => id in h.received && h.received[id] == got && |got| <= size
    case PrepareCopied(id, size, sha) => ReceivedRight(h, hash, id, size, sha)
    case PrepareHash(id, size, sha) => ReceivedRight(h, hash, id, size, sha)
    case PrepareTest(id, size, sha) => ReceivedRight(h, hash, id, size, sha) && FoundRight(h, hash, id, size, sha)
    case PrepareReady(id, size, sha, allow) =>
      ReceivedRight(h, hash, id, size, sha) && FoundRight(h, hash, id, size, sha) && Told(h.tested, id, allow)
    case FlashAllowed(id, _, _, allow) => Told(h.rechecked, id, allow)
    case FlashLaunch(id, _, _, allow) => Told(h.rechecked, id, allow)
    case _ => true
  }

  /** The size a preparing worker goes by, once it is recorded. */
  function SizeOf(p: Proc): Option<nat> {
    match p
    case PrepareCreate(_, size, _) => Some(size)
    case PrepareCopy(_, size, _, _) => Some(size)
    case PrepareCopied(_, size, _) => Some(size)
    case PrepareHash(_, size, _) => Some(size)
    case PrepareTest(_, size, _) => Some(size)
    case PrepareReady(_, size, _, _) => Some(size)
    case _ => None
  }

  predicate SizeFits(s: Sys, p: Proc) {
    SizeOf(p).Some? && s.disk.current.Some? && s.disk.current.value.id == p.id ==> s.disk.current.value.total == SizeOf(p).value
  }

  /** A job that was ready, whatever became of it. */
  predicate Offered(st: State) {
    st.phase in {Ready, Flashing} || st.flashStarted
  }

  /** A job whose image has come. */
  predicate Downloaded(st: State) {
    st.phase == Validating || Offered(st)
  }

  predicate JobFaithful(h: Heard, hash: Bytes -> string, st: State) {
    && (Downloaded(st) ==> ReceivedRight(h, hash, st.id, st.total, st.sha256))
    && (Offered(st) ==> FoundRight(h, hash, st.id, st.total, st.sha256) && Told(h.tested, st.id, st.allowBackup))
    && (st.phase == Ready ==> st.id in h.drawn && h.drawn[st.id] == st.confirmation)
  }

  predicate LaunchFaithful(h: Heard, l: Launch) {
    Told(h.tested, l.id, l.recorded) && Told(h.rechecked, l.id, l.rechecked)
  }

  predicate ProcFaithful(s: Sys, h: Heard, p: Proc) {
    Faithful(h, s.hash, p) && SizeFits(s, p)
  }

  predicate AllFaithful(s: Sys, h: Heard) {
    && (s.disk.current.Some? ==> JobFaithful(h, s.hash, s.disk.current.value))
    && (forall l :: l in s.launches ==> LaunchFaithful(h, l))
    && (forall pid :: pid in s.procs ==> ProcFaithful(s, h, s.procs[pid]))
  }

  /* What one step leaves to those who do not take it. */

  /** What is heard about a job while it is prepared. */
  predicate SamePrepared(h: Heard, k: Heard, id: string) {
    && (id in h.received <==> id in k.received) && (id in h.received ==> k.received[id] == h.received[id])
    && (id in h.found <==> id in k.found) && (id in h.found ==> k.found[id] == h.found[id])
    && (id in h.tested <==> id in k.tested) && (id in h.tested ==> k.tested[id] == h.tested[id])
    && (id in h.drawn <==> id in k.drawn) && (id in h.drawn ==> k.drawn[id] == h.drawn[id])
  }

  predicate SameRechecked(h: Heard, k: Heard, id: string) {
    (id in h.rechecked <==> id in k.rechecked) && (id in h.rechecked ==> k.rechecked[id] == h.rechecked[id])
  }

  lemma HeardForOneJob(s: Sys, h: Heard, q: nat, env: Env, id: string)
    requires q in s.procs && s.procs[q].id != id
    ensures SamePrepared(h, Hears(h, s, Work(q, env)), id) && SameRechecked(h, Hears(h, s, Work(q, env)), id)
  {
  }

  lemma FlashersHearNoPreparation(s: Sys, h: Heard, q: nat, env: Env, id: string)
    requires q in s.procs && (Launching(s.procs[q]) || GivingUp(s.procs[q]) || !Engaged(s.procs[q]))
    ensures SamePrepared(h, Hears(h, s, Work(q, env)), id)
  {
  }

  lemma RecheckedByFlashTest(s: Sys, h: Heard, q: nat, env: Env, id: string)
    requires q in s.procs && !s.procs[q].FlashTest?
    ensures SameRechecked(h, Hears(h, s, Work(q, env)), id)
  {
  }

  lemma HeardByItsWorker(s: Sys, h: Heard, q: nat, env: Env, id: string)
    requires q in s.procs
    ensures s.procs[q].id != id || Launching(s.procs[q]) || GivingUp(s.procs[q]) || !Engaged(s.procs[q]) ==> SamePrepared(h, Hears(h, s, Work(q, env)), id)
    ensures s.procs[q].id != id || !s.procs[q].FlashTest? ==> SameRechecked(h, Hears(h, s, Work(q, env)), id)
  {
    if s.procs[q].id != id {
      HeardForOneJob(s, h, q, env, id);
    } else {
      if Launching(s.procs[q]) || GivingUp(s.procs[q]) || !Engaged(s.procs[q]) { FlashersHearNoPreparation(s, h, q, env, id); }
      if !s.procs[q].FlashTest? { RecheckedByFlashTest(s, h, q, env, id); }
    }
  }

  /** Only the worker that holds the job's lock hears anything about its image. */
  lemma OthersHearNothing(s: Sys, h: Heard, q: nat, env: Env, pid: nat)
    requires Inv(s) && q in s.procs && pid in s.procs && pid != q && Faithful(h, s.hash, s.procs[pid])
    ensures Faithful(Hears(h, s, Work(q, env)), s.hash, s.procs[pid])
  {
    assert ProcOk(s, pid, s.procs[pid]);
    assert ProcOk(s, q, s.procs[q]);
    HeardByItsWorker(s, h, q, env, s.procs[pid].id);
  }

  /** The recorded size only changes under the job's lock, and a new job is nobody's yet. */
  lemma OthersKeepSize(s: Sys, a: Action, pid: nat)
    requires Inv(s) && CanApply(s, a) && pid in s.procs && SizeFits(s, s.procs[pid])
    requires a.Work? ==> a.pid != pid
    ensures SizeFits(Apply(s, a), s.procs[pid])
  {
    assert ProcOk(s, pid, s.procs[pid]);
    if a.Work? { WorkKeepsSize(s, a.pid, a.env, pid); }
  }

  lemma WorkKeepsSize(s: Sys, q: nat, env: Env, pid: nat)
    requires Inv(s) && q in s.procs && pid in s.procs && q != pid && SizeFits(s, s.procs[pid])
    ensures SizeFits(WorkStep(s, q, env), s.procs[pid])
  {
    assert ProcOk(s, pid, s.procs[pid]);
    assert ProcOk(s, q, s.procs[q]);
    if LeavesJob(s.procs[q]) { JobIsLeft(s, q, env); }
    else if s.procs[q].PrepareMeta? {}
    else { SizeIsLeft(s, q, env); }
  }

  predicate SameSize(s: Sys, t: Sys) {
    && (t.disk.current.Some? <==> s.disk.current.Some?)
    && (t.disk.current.Some? ==> t.disk.current.value.id == s.disk.current.value.id && t.disk.current.value.total == s.disk.current.value.total)
  }

  lemma ChangeLeavesSize(s: Sys, t: Sys, id: string, io: Io, edit: State -> Option<State>)
    requires forall st :: edit(st).Some? ==> edit(st).value.id == st.id && edit(st).value.total == st.total
    requires t.disk == Change(s.disk, id, io, edit).0
    ensures SameSize(s, t)
  {
  }

  lemma CopyLeavesSize(s: Sys, pid: nat, env: Env)
    requires pid in s.procs && s.procs[pid].PrepareCopy?
    ensures SameSize(s, CopyStep(s, pid, env))
  {
    var p := s.procs[pid];
    if env.copying.Tick? {
      ChangeLeavesSize(s, CopyStep(s, pid, env), p.id, env.io, (st: State) => SetBytes(st, |p.got|, env.copying.space));
    }
  }

  lemma SizeIsLeft(s: Sys, q: nat, env: Env)
    requires q in s.procs && !LeavesJob(s.procs[q]) && !s.procs[q].PrepareMeta?
    ensures SameSize(s, WorkStep(s, q, env))
  {
    var p := s.procs[q];
    match p
    case PrepareCopy(_, _, _, _) => CopyLeavesSize(s, q, env);
    case PrepareCopied(_, _, _) => ChangeLeavesSize(s, CopiedStep(s, q, env.io), p.id, env.io, (st: State) => SetValidating(st, p.size));
    case PrepareReady(_, _, _, _) => ChangeLeavesSize(s, ReadyStep(s, q, env.io, env.tok), p.id, env.io, (st: State) => SetReady(st, p.allow, env.tok));
    case FlashAllowed(_, _, _, _) => ChangeLeavesSize(s, CommitStep(s, q, env.io), p.id, env.io, SetFlashStarted);
    case Failing(_, _, _, _) => FailingLeavesSize(s, q, env.io);
  }

  lemma FailingLeavesSize(s: Sys, q: nat, io: Io)
    requires q in s.procs && s.procs[q].Failing?
    ensures SameSize(s, FailingStep(s, q, io))
  {
  }

  /* The worker that takes the step. */

  /** Its place afterwards, if it has one, is right. */
  predicate ActorFaithful(s: Sys, h: Heard, q: nat) {
    q in s.procs ==> ProcFaithful(s, h, s.procs[q])
  }

  lemma ChangeIsFaithful(s: Sys, h: Heard, q: nat, lock: Lock, io: Io, edit: State -> Option<State>, p: Proc)
    requires q in s.procs && !Launching(p)
    requires forall st :: edit(st).Some? ==> edit(st).value.id == st.id && (SizeOf(p).Some? ==> edit(st).value.total == SizeOf(p).value)
    requires Faithful(h, s.hash, p)
    ensures ActorFaithful(ChangeThen(s, q, lock, Change(s.disk, s.procs[q].id, io, edit), p), h, q)
  {
  }

  lemma CopyIsFaithful(s: Sys, h: Heard, q: nat, env: Env)
    requires q in s.procs && s.procs[q].PrepareCopy? && ProcFaithful(s, h, s.procs[q])
    ensures ActorFaithful(CopyStep(s, q, env), Hears(h, s, Work(q, env)), q)
  {
    var p := s.procs[q];
    if env.copying.Tick? {
      CopyLeavesSize(s, q, env);
      if CopyStep(s, q, env).procs[q] != p { assert CopyStep(s, q, env).procs[q].Failing?; }
    }
  }

  predicate Hearing(p: Proc) {
    p.PrepareCreate? || p.PrepareCopy? || p.PrepareHash? || p.PrepareTest?
  }

  lemma PreparesFaithfully(s: Sys, h: Heard, q: nat, env: Env)
    requires q in s.procs && ProcFaithful(s, h, s.procs[q]) && !Launching(s.procs[q]) && !GivingUp(s.procs[q])
    requires !Hearing(s.procs[q])
    ensures ActorFaithful(WorkStep(s, q, env), h, q)
  {
    var p := s.procs[q];
    match p
    case PrepareMeta(id, release, size, sha, legacy) =>
      ChangeIsFaithful(s, h, q, WorkerLock(id), env.io, (st: State) => SetMetadata(st, release, size, sha, legacy), PrepareCreate(id, size, sha));
    case PrepareCopied(id, size, sha) => CopiedIsFaithful(s, h, q, env.io);
    case _ =>
  }

  lemma CopiedIsFaithful(s: Sys, h: Heard, q: nat, io: Io)
    requires q in s.procs && s.procs[q].PrepareCopied? && ProcFaithful(s, h, s.procs[q])
    ensures ActorFaithful(CopiedStep(s, q, io), h, q)
  {
    var p := s.procs[q];
    ChangeLeavesSize(s, CopiedStep(s, q, io), p.id, io, (st: State) => SetValidating(st, p.size));
  }

  /** Here the preparing worker hears of the bytes, of the file and of the permission. */
  lemma HearsFaithfully(s: Sys, h: Heard, q: nat, env: Env)
    requires q in s.procs && ProcFaithful(s, h, s.procs[q]) && Hearing(s.procs[q])
    ensures ActorFaithful(WorkStep(s, q, env), Hears(h, s, Work(q, env)), q)
  {
    if s.procs[q].PrepareCopy? { CopyIsFaithful(s, h, q, env); }
  }

  lemma FlashTestsFaithfully(s: Sys, h: Heard, q: nat, env: Env)
    requires q in s.procs && s.procs[q].FlashTest?
    ensures ActorFaithful(WorkStep(s, q, env), Hears(h, s, Work(q, env)), q)
  {
  }

  lemma CommitsFaithfully(s: Sys, h: Heard, q: nat, env: Env)
    requires q in s.procs && s.procs[q].FlashAllowed? && ProcFaithful(s, h, s.procs[q])
    ensures ActorFaithful(WorkStep(s, q, env), h, q)
  {
  }

  /** Everywhere else a flashing or failing worker relies on nothing it was told. */
  predicate Careless(s: Sys, q: nat) {
    q in s.procs ==>
      !(s.procs[q].FlashAllowed? || s.procs[q].FlashLaunch? || s.procs[q].PrepareTest? || s.procs[q].PrepareReady?) &&
      SizeOf(s.procs[q]).None?
  }

  lemma FlashesCarelessly(s: Sys, q: nat, env: Env)
    requires q in s.procs && (Launching(s.procs[q]) || GivingUp(s.procs[q]))
    requires !s.procs[q].FlashTest? && !s.procs[q].FlashAllowed?
    ensures Careless(WorkStep(s, q, env), q)
  {
  }

  lemma FlashesFaithfully(s: Sys, h: Heard, q: nat, env: Env)
    requires Inv(s) && AllFaithful(s, h) && q in s.procs && (Launching(s.procs[q]) || GivingUp(s.procs[q]))
    ensures ActorFaithful(WorkStep(s, q, env), Hears(h, s, Work(q, env)), q)
  {
    assert ProcFaithful(s, h, s.procs[q]);
    if s.procs[q].FlashTest? { FlashTestsFaithfully(s, h, q, env); }
    else if s.procs[q].FlashAllowed? { CommitsFaithfully(s, h, q, env); }
    else { FlashesCarelessly(s, q, env); }
  }

  lemma ActsFaithfully(s: Sys, h: Heard, q: nat, env: Env)
    requires Inv(s) && AllFaithful(s, h) && q in s.procs
    ensures ActorFaithful(WorkStep(s, q, env), Hears(h, s, Work(q, env)), q)
  {
    var p := s.procs[q];
    assert ProcFaithful(s, h, p);
    if Launching(p) || GivingUp(p) { FlashesFaithfully(s, h, q, env); }
    else if Hearing(p) { HearsFaithfully(s, h, q, env); }
    else { PreparesFaithfully(s, h, q, env); }
  }

  /* The saved job and what was launched. */

  /** Once a job's image has come no worker receives it again, and once it was offered nothing
      more is heard about it. */
  lemma JobHearsNothing(s: Sys, h: Heard, q: nat, env: Env, st: State)
    requires Inv(s) && q in s.procs && s.disk.current == Some(st) && JobFaithful(h, s.hash, st)
    ensures JobFaithful(Hears(h, s, Work(q, env)), s.hash, st)
  {
    assert ProcOk(s, q, s.procs[q]);
  }

  lemma LaunchHearsNothing(s: Sys, h: Heard, q: nat, env: Env, l: Launch)
    requires Inv(s) && q in s.procs && l in s.launches && LaunchFaithful(h, l)
    ensures LaunchFaithful(Hears(h, s, Work(q, env)), l)
  {
    assert ProcOk(s, q, s.procs[q]);
  }

  /** What is recorded is what the worker carries along. */
  lemma ReadyIsRecorded(st: State, h: Heard, hash: Bytes -> string, p: Proc, tok: string)
    requires p.PrepareReady? && st.id == p.id && st.phase == Validating && st.total == p.size && st.sha256 == p.sha
    requires !st.flashStarted && Faithful(h, hash, p)
    ensures JobFaithful(h.(drawn := h.drawn[p.id := tok]), hash, SetReady(st, p.allow, tok).value)
  {
  }

  lemma ReadyIsFaithful(s: Sys, h: Heard, q: nat, io: Io, tok: string)
    requires Inv(s) && AllFaithful(s, h) && q in s.procs && s.procs[q].PrepareReady?
    ensures
      var d := ReadyStep(s, q, io, tok).disk;
      d.current.Some? ==> JobFaithful(h.(drawn := h.drawn[s.procs[q].id := tok]), s.hash, d.current.value)
  {
    var p := s.procs[q];
    assert ProcFaithful(s, h, p);
    assert ProcOk(s, q, p);
    if Change(s.disk, p.id, io, (st: State) => SetReady(st, p.allow, tok)).1 {
      ReadyIsRecorded(s.disk.current.value, h, s.hash, p, tok);
    } else if s.disk.current.Some? {
      DrawnElsewhere(h, s.hash, s.disk.current.value, p.id, tok);
    }
  }

  lemma DrawnElsewhere(h: Heard, hash: Bytes -> string, st: State, id: string, tok: string)
    requires JobFaithful(h, hash, st) && (st.phase == Ready ==> st.id != id)
    ensures JobFaithful(h.(drawn := h.drawn[id := tok]), hash, st)
  {
  }

  lemma CopiedIsRecorded(s: Sys, h: Heard, q: nat, io: Io)
    requires Inv(s) && AllFaithful(s, h) && q in s.procs && s.procs[q].PrepareCopied?
    ensures
      var d := CopiedStep(s, q, io).disk;
      d.current.Some? ==> JobFaithful(h, s.hash, d.current.value)
  {
    assert ProcFaithful(s, h, s.procs[q]);
    assert ProcOk(s, q, s.procs[q]);
  }

  /** An edit that neither takes an image in nor offers a job, and leaves what was recorded of an offered one. */
  predicate Keeps(st: State, next: State) {
    && (Offered(next) ==> Offered(st) && next.allowBackup == st.allowBackup)
    && (next.phase == Ready ==> st.phase == Ready && next.confirmation == st.confirmation)
    && (Downloaded(next) ==> Downloaded(st) && next.id == st.id && next.total == st.total && next.sha256 == st.sha256)
  }

  ghost predicate KeepsJob(s: Sys, t: Sys) {
    t.disk.current.Some? && Downloaded(t.disk.current.value) ==> s.disk.current.Some? && Keeps(s.disk.current.value, t.disk.current.value)
  }

  lemma ChangeKeepsJob(s: Sys, t: Sys, id: string, io: Io, edit: State -> Option<State>)
    requires t.disk == Change(s.disk, id, io, edit).0
    requires Change(s.disk, id, io, edit).1 ==> Keeps(s.disk.current.value, edit(s.disk.current.value).value)
    ensures KeepsJob(s, t)
  {
  }

  lemma CopyKeepsJob(s: Sys, q: nat, env: Env)
    requires q in s.procs && s.procs[q].PrepareCopy?
    ensures KeepsJob(s, CopyStep(s, q, env))
  {
    var p := s.procs[q];
    if env.copying.Tick? {
      ChangeKeepsJob(s, CopyStep(s, q, env), p.id, env.io, (st: State) => SetBytes(st, |p.got|, env.copying.space));
    }
  }

  /** A worker about to record metadata finds a job that was never offered. */
  lemma MetaKeepsJob(s: Sys, q: nat, io: Io)
    requires Inv(s) && q in s.procs && s.procs[q].PrepareMeta?
    ensures KeepsJob(s, MetaStep(s, q, io))
  {
    var p := s.procs[q];
    assert ProcOk(s, q, p);
    ChangeKeepsJob(s, MetaStep(s, q, io), p.id, io, (st: State) => SetMetadata(st, p.release, p.size, p.sha, p.legacy));
  }

  lemma FailingKeepsJob(s: Sys, q: nat, io: Io)
    requires q in s.procs && s.procs[q].Failing?
    ensures KeepsJob(s, FailingStep(s, q, io))
  {
  }

  lemma WorkKeepsJob(s: Sys, q: nat, env: Env)
    requires Inv(s) && q in s.procs && !s.procs[q].PrepareCopied? && !s.procs[q].PrepareReady?
    ensures KeepsJob(s, WorkStep(s, q, env))
  {
    match s.procs[q]
    case PrepareMeta(_, _, _, _, _) => MetaKeepsJob(s, q, env.io);
    case PrepareCopy(_, _, _, _) => CopyKeepsJob(s, q, env);
    case FlashAllowed(_, _, _, _) => ChangeKeepsJob(s, CommitStep(s, q, env.io), s.procs[q].id, env.io, SetFlashStarted);
    case Failing(_, _, _, _) => FailingKeepsJob(s, q, env.io);
    case _ => JobIsLeft(s, q, env);
  }

  lemma JobStaysFaithful(s: Sys, h: Heard, q: nat, env: Env)
    requires Inv(s) && AllFaithful(s, h) && q in s.procs
    ensures
      var t := WorkStep(s, q, env);
      t.disk.current.Some? ==> JobFaithful(Hears(h, s, Work(q, env)), s.hash, t.disk.current.value)
  {
    if s.procs[q].PrepareCopied? {
      CopiedIsRecorded(s, h, q, env.io);
    } else if s.procs[q].PrepareReady? {
      ReadyIsFaithful(s, h, q, env.io, env.tok);
    } else {
      WorkKeepsJob(s, q, env);
      if s.disk.current.Some? { JobHearsNothing(s, h, q, env, s.disk.current.value); }
    }
  }

  /** A launch reports what the job recorded and what the flashing worker was told. */
  lemma LaunchIsFaithful(s: Sys, h: Heard, q: nat)
    requires Inv(s) && AllFaithful(s, h) && q in s.procs && s.procs[q].FlashLaunch?
    ensures forall l :: l in LaunchStep(s, q).launches ==> LaunchFaithful(h, l)
  {
    assert ProcOk(s, q, s.procs[q]);
    assert ProcFaithful(s, h, s.procs[q]);
  }

  lemma LaunchesAreLeft(s: Sys, q: nat, env: Env)
    requires q in s.procs && !s.procs[q].FlashLaunch?
    ensures WorkStep(s, q, env).launches == s.launches
  {
  }

  lemma LaunchesStayFaithful(s: Sys, h: Heard, q: nat, env: Env)
    requires Inv(s) && AllFaithful(s, h) && q in s.procs
    ensures forall l :: l in WorkStep(s, q, env).launches ==> LaunchFaithful(Hears(h, s, Work(q, env)), l)
  {
    if s.procs[q].FlashLaunch? {
      LaunchIsFaithful(s, h, q);
    } else {
      LaunchesAreLeft(s, q, env);
      forall l | l in s.launches ensures LaunchFaithful(Hears(h, s, Work(q, env)), l) { LaunchHearsNothing(s, h, q, env, l); }
    }
  }

  lemma WorkersComeFrom(s: Sys, q: nat, env: Env)
    requires q in s.procs
    ensures WorkStep(s, q, env).procs.Keys <= s.procs.Keys
  {
  }

  lemma WorkStaysFaithful(s: Sys, h: Heard, q: nat, env: Env)
    requires Inv(s) && AllFaithful(s, h) && q in s.procs && IsId(env.tok)
    ensures AllFaithful(WorkStep(s, q, env), Hears(h, s, Work(q, env)))
  {
    var t, k := WorkStep(s, q, env), Hears(h, s, Work(q, env));
    HashIsKept(s, Work(q, env));
    JobStaysFaithful(s, h, q, env);
    LaunchesStayFaithful(s, h, q, env);
    WorkersComeFrom(s, q, env);
    forall pid | pid in t.procs ensures ProcFaithful(t, k, t.procs[pid]) {
      if pid == q {
        ActsFaithfully(s, h, q, env);
      } else {
        assert ProcFaithful(s, h, s.procs[pid]);
        WorkKeepsOthers(s, q, env, pid);
        OthersHearNothing(s, h, q, env, pid);
        WorkKeepsSize(s, q, env, pid);
      }
    }
  }

  /* The calls, which hear nothing. */

  lemma PrepareKeepsJob(s: Sys, a: Action)
    requires CanApply(s, a) && a.RpcPrepare?
    ensures KeepsJob(s, Apply(s, a))
  {
  }

  lemma FlashKeepsJob(s: Sys, a: Action)
    requires CanApply(s, a) && a.RpcFlash?
    ensures KeepsJob(s, Apply(s, a))
  {
  }

  lemma CallKeepsJob(s: Sys, a: Action)
    requires CanApply(s, a) && !a.Work?
    ensures KeepsJob(s, Apply(s, a))
  {
    if a.RpcPrepare? { PrepareKeepsJob(s, a); }
    if a.RpcFlash? { FlashKeepsJob(s, a); }
  }

  lemma CallLeavesLaunches(s: Sys, a: Action)
    requires CanApply(s, a) && !a.Work?
    ensures Apply(s, a).launches == s.launches
  {
  }

  /** A new worker starts without anything to rely on. */
  lemma NewcomersRelyOnNothing(s: Sys, a: Action, pid: nat)
    requires CanApply(s, a) && !a.Work? && pid in Apply(s, a).procs
    ensures
      var p := Apply(s, a).procs[pid];
      if pid in s.procs then p == s.procs[pid] else p.PrepareStart? || p.FlashStart?
  {
  }

  lemma CallStaysFaithful(s: Sys, h: Heard, a: Action)
    requires Inv(s) && AllFaithful(s, h) && CanApply(s, a) && !a.Work?
    ensures AllFaithful(Apply(s, a), h)
  {
    var t := Apply(s, a);
    HashIsKept(s, a);
    CallKeepsJob(s, a);
    CallLeavesLaunches(s, a);
    forall pid | pid in t.procs ensures ProcFaithful(t, h, t.procs[pid]) {
      NewcomersRelyOnNothing(s, a, pid);
      if pid in s.procs {
        assert ProcFaithful(s, h, s.procs[pid]);
        OthersKeepSize(s, a, pid);
      }
    }
  }

  lemma StepStaysFaithful(s: Sys, h: Heard, a: Action)
    requires Inv(s) && AllFaithful(s, h) && CanApply(s, a)
    ensures AllFaithful(Apply(s, a), Hears(h, s, a))
  {
    if a.Work? { WorkStaysFaithful(s, h, a.pid, a.env); } else { CallStaysFaithful(s, h, a); }
  }

  lemma {:induction false} RunStaysFaithful(s: Sys, h: Heard, actions: seq<Action>)
    requires Inv(s) && AllFaithful(s, h) && CanRun(s, actions)
    ensures Inv(Run(s, actions)) && AllFaithful(Run(s, actions), HearsAll(h, s, actions))
    decreases |actions|
  {
    if actions != [] {
      ApplyKeepsInv(s, actions[0]);
      StepStaysFaithful(s, h, actions[0]);
      RunStaysFaithful(Apply(s, actions[0]), Hears(h, s, actions[0]), actions[1..]);
    }
  }

  /* Over every run from an empty store. */

  /** A job is being validated only once the bytes downloaded for it have the size and digest it
      records. It stands ready, or is being flashed, only when the file then read back had them
      too, and its permission to keep settings is what the image test last answered. */
  lemma PermissionIsTheAnswer(hash: Bytes -> string, actions: seq<Action>)
    requires CanRun(Initial(hash), actions)
    ensures
      var s, h := Run(Initial(hash), actions), HearsAll(Nothing, Initial(hash), actions);
      s.disk.current.Some? ==>
        var st := s.disk.current.value;
        && (st.phase in {Validating, Ready, Flashing} || st.flashStarted ==>
              st.id in h.received && |h.received[st.id]| == st.total && hash(h.received[st.id]) == st.sha256)
        && (st.phase in {Ready, Flashing} || st.flashStarted ==>
              && st.id in h.tested && (st.allowBackup <==> h.tested[st.id])
              && st.id in h.found && h.found[st.id].Some?
              && |h.found[st.id].value| == st.total && hash(h.found[st.id].value) == st.sha256
              && |st.sha256| == 64 && 0 < st.total <= MAX_IMAGE)
  {
    InitialInv(hash);
    RunStaysFaithful(Initial(hash), Nothing, actions);
    RunKeepsHash(Initial(hash), actions);
  }

  /** A request to flash that keeps settings is accepted only after the image test answered yes;
      after a no it changes nothing, and the confirmation is still good for one that does not keep them. */
  lemma KeepingNeedsYes(hash: Bytes -> string, actions: seq<Action>, id: string, confirmation: string, io: Io, spawned: bool, again: Io)
    requires CanRun(Initial(hash), actions)
    ensures
      var s, h := Run(Initial(hash), actions), HearsAll(Nothing, Initial(hash), actions);
      MayFlash(s.disk, id, confirmation, false, io) ==>
        && id in h.tested
        && (MayFlash(s.disk, id, confirmation, true, io) <==> h.tested[id])
        && (!h.tested[id] ==> Flash(s.disk, id, confirmation, true, io, spawned, again) == (s.disk, false))
  {
    PermissionIsTheAnswer(hash, actions);
  }

  /** A request to flash is accepted only with the confirmation drawn for the job when it became
      ready. */
  lemma OnlyTheConfirmationDrawn(hash: Bytes -> string, actions: seq<Action>, id: string, confirmation: string, keep: bool, io: Io)
    requires CanRun(Initial(hash), actions)
    ensures
      var s, h := Run(Initial(hash), actions), HearsAll(Nothing, Initial(hash), actions);
      MayFlash(s.disk, id, confirmation, keep, io) ==> id in h.drawn && confirmation == h.drawn[id]
  {
    InitialInv(hash);
    RunStaysFaithful(Initial(hash), Nothing, actions);
  }

  /** sysupgrade keeps the settings only if both tests of the image answered yes. */
  lemma KeepsOnlyIfToldTwice(hash: Bytes -> string, actions: seq<Action>)
    requires CanRun(Initial(hash), actions)
    ensures
      var s, h := Run(Initial(hash), actions), HearsAll(Nothing, Initial(hash), actions);
      forall l :: l in s.launches && l.keep ==> Told(h.tested, l.id, true) && Told(h.rechecked, l.id, true)
  {
    InitialInv(hash);
    RunStaysFaithful(Initial(hash), Nothing, actions);
    var s, h := Run(Initial(hash), actions), HearsAll(Nothing, Initial(hash), actions);
    forall l | l in s.launches && l.keep ensures Told(h.tested, l.id, true) && Told(h.rechecked, l.id, true) {
      assert LaunchFaithful(h, l) && LaunchOk(s.hash, s.obtained, l);
    }
  }

  predicate ReleaseFits(s: Sys) {
    s.disk.current.Some? ==> 0 < s.disk.current.value.release <= MAX_RELEASE
  }

  lemma PreparersIssueNothing(s: Sys, q: nat, env: Env)
    requires q in s.procs && !Launching(s.procs[q]) && !GivingUp(s.procs[q])
    ensures WorkStep(s, q, env).issued == s.issued
  {
  }

  lemma FlashersIssueNothing(s: Sys, q: nat, env: Env)
    requires q in s.procs && (Launching(s.procs[q]) || GivingUp(s.procs[q]))
    ensures WorkStep(s, q, env).issued == s.issued
  {
  }

  lemma WorkIssuesNothing(s: Sys, q: nat, env: Env)
    requires q in s.procs
    ensures WorkStep(s, q, env).issued == s.issued
    ensures WorkStep(s, q, env).disk.current.Some? ==> s.disk.current.Some?
  {
    var p := s.procs[q];
    if Launching(p) || GivingUp(p) { FlashersIssueNothing(s, q, env); } else { PreparersIssueNothing(s, q, env); }
    if LeavesJob(p) { JobIsLeft(s, q, env); } else if !p.PrepareMeta? { SizeIsLeft(s, q, env); }
  }

  lemma IssuedByPrepare(s: Sys, a: Action)
    requires CanApply(s, a) && !a.RpcPrepare?
    ensures Apply(s, a).issued == s.issued
    ensures Apply(s, a).disk.current.Some? ==> s.disk.current.Some?
  {
    if a.Work? { WorkIssuesNothing(s, a.pid, a.env); }
  }

  lemma StepKeepsRelease(s: Sys, a: Action)
    requires Inv(s) && ReleaseFits(s) && CanApply(s, a)
    ensures ReleaseFits(Apply(s, a))
  {
    if !a.RpcPrepare? {
      IssuedByPrepare(s, a);
      ApplyKeepsInv(s, a);
      ApplyIsOnward(s, a);
    }
  }

  /** Over every run the current job is for a release number the call accepts. */
  lemma {:induction false} ReleaseIsInRange(s: Sys, actions: seq<Action>)
    requires Inv(s) && ReleaseFits(s) && CanRun(s, actions)
    ensures ReleaseFits(Run(s, actions))
    decreases |actions|
  {
    if actions != [] {
      StepKeepsRelease(s, actions[0]);
      ApplyKeepsInv(s, actions[0]);
      ReleaseIsInRange(Apply(s, actions[0]), actions[1..]);
    }
  }
}
