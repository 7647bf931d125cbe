/** The updater's guarantees over whole runs, from an empty store. */
module UpdaterRuns {
  import opened Wrappers
  import opened UpdaterStore
  import opened UpdaterJobs
  import opened UpdaterProof

  /* The RPC calls, each one locked section. */

  /** When no job is being worked on or flashed, the current job and its image are free to go. */
  lemma IdleJobIsFree(s: Sys, t: Sys, child: nat)
    requires Inv(s) && OthersKept(s, t, child) && child !in s.procs && t.held == s.held
    requires t.launches == s.launches == [] && t.hash == s.hash && t.obtained == s.obtained && s.issued <= t.issued
    requires s.disk.current.Some? ==> !Active(s.disk.current.value.phase) && !s.disk.current.value.flashStarted
    requires t.disk.current.Some? ==>
      JobOk(t.issued, t.obtained, t.disk.current.value) &&
      (s.disk.current == t.disk.current || t.disk.current.value.id !in s.issued)
    requires child in t.procs ==> !Engaged(t.procs[child]) && Holds(t.procs[child]).None?
    ensures Inv(t)
  {
    forall pid | pid in t.procs ensures ProcOk(t, pid, t.procs[pid]) {
      if pid != child { assert ProcOk(s, pid, s.procs[pid]); }
    }
  }

  lemma PrepareIsRefused(s: Sys, release: nat, job: string, io: Io, stuck: bool, spawned: bool, again: Io, child: nat)
    requires Inv(s) && child !in s.procs && !MayPrepare(s.disk, io) && 0 < release <= MAX_RELEASE
    ensures Inv(PrepareCall(s, release, job, io, stuck, spawned, again, child))
  {
    var t := s.(issued := s.issued + {job});
    assert PrepareCall(s, release, job, io, stuck, spawned, again, child) == t;
    QuietStep(s, t, child);
  }

  lemma PrepareIsDone(s: Sys, release: nat, job: string, io: Io, stuck: bool, spawned: bool, again: Io, child: nat)
    requires Inv(s) && child !in s.procs && MayPrepare(s.disk, io) && job !in s.issued && IsId(job) && 0 < release <= MAX_RELEASE
    ensures Inv(PrepareCall(s, release, job, io, stuck, spawned, again, child))
  {
    IdleJobIsFree(s, PrepareCall(s, release, job, io, stuck, spawned, again, child), child);
  }

  lemma PrepareKeepsInv(s: Sys, release: nat, job: string, io: Io, stuck: bool, spawned: bool, again: Io, child: nat)
    requires Inv(s) && child !in s.procs && job !in s.issued && IsId(job)
    ensures Inv(PrepareCall(s, release, job, io, stuck, spawned, again, child))
  {
    if 0 < release <= MAX_RELEASE {
      if MayPrepare(s.disk, io) { PrepareIsDone(s, release, job, io, stuck, spawned, again, child); }
      else { PrepareIsRefused(s, release, job, io, stuck, spawned, again, child); }
    }
  }

  lemma DiscardKeepsInv(s: Sys, job: string, io: Io, stuck: bool)
    requires Inv(s)
    ensures Inv(DiscardCall(s, job, io, stuck))
  {
    var t := DiscardCall(s, job, io, stuck);
    forall pid | pid in t.procs ensures ProcOk(t, pid, t.procs[pid]) {
      assert ProcOk(s, pid, s.procs[pid]);
    }
  }

  lemma FlashIsDone(s: Sys, job: string, confirmation: string, keep: bool, io: Io, spawned: bool, again: Io, child: nat)
    requires Inv(s) && child !in s.procs && MayFlash(s.disk, job, confirmation, keep, io) && io != Unsaved
    ensures Inv(FlashCall(s, job, confirmation, keep, io, spawned, again, child))
  {
    var t := FlashCall(s, job, confirmation, keep, io, spawned, again, child);
    forall pid | pid in t.procs ensures ProcOk(t, pid, t.procs[pid]) {
      if pid != child { assert ProcOk(s, pid, s.procs[pid]); }
    }
  }

  lemma FlashKeepsInv(s: Sys, job: string, confirmation: string, keep: bool, io: Io, spawned: bool, again: Io, child: nat)
    requires Inv(s) && child !in s.procs
    ensures Inv(FlashCall(s, job, confirmation, keep, io, spawned, again, child))
  {
    if MayFlash(s.disk, job, confirmation, keep, io) && io != Unsaved {
      FlashIsDone(s, job, confirmation, keep, io, spawned, again, child);
    } else {
      QuietStep(s, FlashCall(s, job, confirmation, keep, io, spawned, again, child), child);
    }
  }

  lemma ApplyKeepsInv(s: Sys, a: Action)
    requires Inv(s) && CanApply(s, a)
    ensures Inv(Apply(s, a))
  {
    match a
    case RpcPrepare(release, job, io, stuck, spawned, again, child) => PrepareKeepsInv(s, release, job, io, stuck, spawned, again, child);
    case RpcDiscard(job, io, stuck) => DiscardKeepsInv(s, job, io, stuck);
    case RpcFlash(job, confirmation, keep, io, spawned, again, child) =>
      FlashKeepsInv(s, job, confirmation, keep, io, spawned, again, child);
    case Invoke(child, _, _) => QuietStep(s, Apply(s, a), child);
    case Crash(pid) => ExitKeepsInv(Apply(s, a), s, pid);
    case Work(pid, env) => WorkKeepsInv(s, pid, env);
  }

  lemma {:induction false} RunKeepsInv(s: Sys, actions: seq<Action>)
    requires Inv(s) && CanRun(s, actions)
    ensures Inv(Run(s, actions))
    decreases |actions|
  {
    if actions != [] {
      ApplyKeepsInv(s, actions[0]);
      RunKeepsInv(Apply(s, actions[0]), actions[1..]);
    }
  }

  /** Whatever RPC calls, duplicate workers, crashes and failed operations come together:
      sysupgrade starts at most once, and with the file that was just rehashed to the digest
      obtained for the job's release; a confirmation exists exactly in phase ready. */
  lemma LaunchedAtMostOnce(hash: Bytes -> string, actions: seq<Action>)
    requires CanRun(Initial(hash), actions)
    ensures
      var s := Run(Initial(hash), actions);
      && |s.launches| <= 1
      && (forall l :: l in s.launches ==> LaunchOk(hash, s.obtained, l))
      && (s.launches != [] ==> s.disk.current.Some? && s.disk.current.value.flashStarted && s.disk.current.value.id == s.launches[0].id)
      && (s.disk.current.Some? ==> (s.disk.current.value.phase == Ready <==> s.disk.current.value.confirmation != ""))
  {
    InitialInv(hash);
    RunKeepsInv(Initial(hash), actions);
    RunKeepsHash(Initial(hash), actions);
  }

  lemma {:induction false} RunKeepsHash(s: Sys, actions: seq<Action>)
    requires CanRun(s, actions)
    ensures Run(s, actions).hash == s.hash
    decreases |actions|
  {
    if actions != [] {
      HashIsKept(s, actions[0]);
      RunKeepsHash(Apply(s, actions[0]), actions[1..]);
    }
  }

  /* The job only ever moves forward. */

  function Rank(phase: Phase): nat {
    match phase
    case Downloading => 0
    case Validating => 1
    case Ready => 2
    case Flashing => 3
    case Failed => 4
    case Discarded => 5
  }

  /** How the saved job may look later: the same job no earlier in its life, or a job that
      did not exist before, and the latter only if nothing was flashed. */
  predicate Onward(s: Sys, t: Sys) {
    s.issued <= t.issued && s.launches <= t.launches &&
    (s.disk.current.Some? ==>
      t.disk.current.Some? &&
      var st, now := s.disk.current.value, t.disk.current.value;
      if now.id == st.id then
        Rank(st.phase) <= Rank(now.phase) && st.release == now.release &&
        (st.phase != Downloading ==> now.sha256 == st.sha256 && now.total == st.total) &&
        (st.flashStarted ==> now.flashStarted)
      else
        now.id !in s.issued && !st.flashStarted)
  }

  lemma OnwardTransitive(s: Sys, t: Sys, u: Sys)
    requires Inv(s) && Inv(t) && Onward(s, t) && Onward(t, u)
    ensures Onward(s, u)
  {
  }

  lemma OnwardSame(s: Sys, t: Sys)
    requires t.disk.current == s.disk.current && s.issued <= t.issued && s.launches <= t.launches
    ensures Onward(s, t)
  {
  }

  /** An edit of the current job. */
  lemma OnwardEdit(s: Sys, t: Sys, st: State, next: State)
    requires s.disk.current == Some(st) && t.disk.current == Some(next) && s.issued <= t.issued && s.launches <= t.launches
    requires next.id == st.id && next.release == st.release && Rank(st.phase) <= Rank(next.phase)
    requires st.phase != Downloading ==> next.sha256 == st.sha256 && next.total == st.total
    requires st.flashStarted ==> next.flashStarted
    ensures Onward(s, t)
  {
  }

  lemma ChangeIsOnward(s: Sys, t: Sys, id: string, io: Io, edit: State -> Option<State>)
    requires s.issued <= t.issued && s.launches <= t.launches
    requires t.disk == Change(s.disk, id, io, edit).0
    requires Change(s.disk, id, io, edit).1 ==>
      var st := s.disk.current.value;
      var next := edit(st).value;
      && next.id == st.id && next.release == st.release && Rank(st.phase) <= Rank(next.phase)
      && (st.phase != Downloading ==> next.sha256 == st.sha256 && next.total == st.total)
      && (st.flashStarted ==> next.flashStarted)
    ensures Onward(s, t)
  {
    if Change(s.disk, id, io, edit).1 {
      OnwardEdit(s, t, s.disk.current.value, edit(s.disk.current.value).value);
    } else {
      OnwardSame(s, t);
    }
  }

  lemma MetaIsOnward(s: Sys, pid: nat, io: Io)
    requires Inv(s) && pid in s.procs && s.procs[pid].PrepareMeta?
    ensures Onward(s, MetaStep(s, pid, io))
  {
    var p := s.procs[pid];
    assert ProcOk(s, pid, p);
    ChangeIsOnward(s, MetaStep(s, pid, io), p.id, io, (st: State) => SetMetadata(st, p.release, p.size, p.sha, p.legacy));
  }

  lemma TickIsOnward(s: Sys, pid: nat, env: Env, space: bool)
    requires Inv(s) && pid in s.procs && s.procs[pid].PrepareCopy? && env.copying == Tick(space)
    ensures Onward(s, CopyStep(s, pid, env))
  {
    var p := s.procs[pid];
    assert ProcOk(s, pid, p);
    ChangeIsOnward(s, CopyStep(s, pid, env), p.id, env.io, (st: State) => SetBytes(st, |p.got|, space));
  }

  lemma CopyIsOnward(s: Sys, pid: nat, env: Env)
    requires Inv(s) && pid in s.procs && s.procs[pid].PrepareCopy?
    ensures Onward(s, CopyStep(s, pid, env))
  {
    if env.copying.Tick? { TickIsOnward(s, pid, env, env.copying.space); } else { OnwardSame(s, CopyStep(s, pid, env)); }
  }

  lemma CopiedIsOnward(s: Sys, pid: nat, io: Io)
    requires Inv(s) && pid in s.procs && s.procs[pid].PrepareCopied?
    ensures Onward(s, CopiedStep(s, pid, io))
  {
    var p := s.procs[pid];
    assert ProcOk(s, pid, p);
    ChangeIsOnward(s, CopiedStep(s, pid, io), p.id, io, (st: State) => SetValidating(st, p.size));
  }

  lemma ReadyIsOnward(s: Sys, pid: nat, io: Io, tok: string)
    requires Inv(s) && pid in s.procs && s.procs[pid].PrepareReady?
    ensures Onward(s, ReadyStep(s, pid, io, tok))
  {
    var p := s.procs[pid];
    assert ProcOk(s, pid, p);
    ChangeIsOnward(s, ReadyStep(s, pid, io, tok), p.id, io, (st: State) => SetReady(st, p.allow, tok));
  }

  lemma CommitIsOnward(s: Sys, pid: nat, io: Io)
    requires Inv(s) && pid in s.procs && s.procs[pid].FlashAllowed?
    ensures Onward(s, CommitStep(s, pid, io))
  {
    ChangeIsOnward(s, CommitStep(s, pid, io), s.procs[pid].id, io, SetFlashStarted);
  }

  lemma FailingIsOnward(s: Sys, pid: nat, io: Io)
    requires Inv(s) && pid in s.procs && s.procs[pid].Failing?
    ensures Onward(s, FailingStep(s, pid, io))
  {
    var t := FailingStep(s, pid, io);
    if t.disk.current == s.disk.current {
      OnwardSame(s, t);
    } else {
      OnwardEdit(s, t, s.disk.current.value, t.disk.current.value);
    }
  }

  /** The steps that leave the saved job alone. */
  predicate LeavesJob(p: Proc) {
    !(p.PrepareMeta? || p.PrepareCopy? || p.PrepareCopied? || p.PrepareReady? || p.FlashAllowed? || p.Failing?)
  }

  ghost predicate SameJob(s: Sys, t: Sys) {
    t.disk.current == s.disk.current && s.issued <= t.issued && s.launches <= t.launches && t.hash == s.hash
  }

  lemma FlashLeavesJob(s: Sys, pid: nat, env: Env)
    requires pid in s.procs && LeavesJob(s.procs[pid]) && (Launching(s.procs[pid]) || GivingUp(s.procs[pid]))
    ensures SameJob(s, WorkStep(s, pid, env))
  {
  }

  lemma PrepareLeavesJob(s: Sys, pid: nat, env: Env)
    requires pid in s.procs && LeavesJob(s.procs[pid]) && !Launching(s.procs[pid]) && !GivingUp(s.procs[pid])
    ensures SameJob(s, WorkStep(s, pid, env))
  {
  }

  lemma JobIsLeft(s: Sys, pid: nat, env: Env)
    requires pid in s.procs && LeavesJob(s.procs[pid])
    ensures SameJob(s, WorkStep(s, pid, env))
  {
    if Launching(s.procs[pid]) || GivingUp(s.procs[pid]) { FlashLeavesJob(s, pid, env); } else { PrepareLeavesJob(s, pid, env); }
  }

  lemma WorkIsOnward(s: Sys, pid: nat, env: Env)
    requires Inv(s) && pid in s.procs
    ensures Onward(s, WorkStep(s, pid, env))
  {
    match s.procs[pid]
    case PrepareMeta(_, _, _, _, _) => MetaIsOnward(s, pid, env.io);
    case PrepareCopy(_, _, _, _) => CopyIsOnward(s, pid, env);
    case PrepareCopied(_, _, _) => CopiedIsOnward(s, pid, env.io);
    case PrepareReady(_, _, _, _) => ReadyIsOnward(s, pid, env.io, env.tok);
    case FlashAllowed(_, _, _, _) => CommitIsOnward(s, pid, env.io);
    case Failing(_, _, _, _) => FailingIsOnward(s, pid, env.io);
    case _ =>
      JobIsLeft(s, pid, env);
      OnwardSame(s, WorkStep(s, pid, env));
  }

  lemma PrepareIsOnward(s: Sys, a: Action)
    requires Inv(s) && a.RpcPrepare? && CanApply(s, a)
    ensures Onward(s, Apply(s, a))
  {
  }

  lemma DiscardIsOnward(s: Sys, job: string, io: Io, stuck: bool)
    requires Inv(s)
    ensures Onward(s, DiscardCall(s, job, io, stuck))
  {
  }

  lemma FlashIsOnward(s: Sys, a: Action)
    requires Inv(s) && a.RpcFlash? && CanApply(s, a)
    ensures Onward(s, Apply(s, a))
  {
  }

  lemma ApplyIsOnward(s: Sys, a: Action)
    requires Inv(s) && CanApply(s, a)
    ensures Onward(s, Apply(s, a))
  {
    match a
    case RpcPrepare(_, _, _, _, _, _, _) => PrepareIsOnward(s, a);
    case RpcDiscard(job, io, stuck) => DiscardIsOnward(s, job, io, stuck);
    case RpcFlash(_, _, _, _, _, _, _) => FlashIsOnward(s, a);
    case Invoke(_, _, _) => OnwardSame(s, Apply(s, a));
    case Crash(_) => OnwardSame(s, Apply(s, a));
    case Work(pid, env) => WorkIsOnward(s, pid, env);
  }

  /** Once FlashStarted is set it stays set and the job is never replaced; no job returns to
      an earlier phase; and what has been validated keeps its digest. */
  lemma {:induction false} RunIsOnward(s: Sys, actions: seq<Action>)
    requires Inv(s) && CanRun(s, actions)
    ensures Inv(Run(s, actions)) && Onward(s, Run(s, actions))
    decreases |actions|
  {
    if actions != [] {
      var t := Apply(s, actions[0]);
      ApplyKeepsInv(s, actions[0]);
      ApplyIsOnward(s, actions[0]);
      RunIsOnward(t, actions[1..]);
      OnwardTransitive(s, t, Run(t, actions[1..]));
    }
  }

  /** A confirmation that was accepted is never accepted again, nor any other for that job. */
  lemma ConfirmationIsSingleUse(s: Sys, a: Action, actions: seq<Action>, confirmation: string, keep: bool, io: Io)
    requires Inv(s) && a.RpcFlash? && CanApply(s, a) && CanRun(Apply(s, a), actions)
    requires MayFlash(s.disk, a.job, a.confirmation, a.keep, a.io) && a.io != Unsaved
    ensures !MayFlash(Run(Apply(s, a), actions).disk, a.job, confirmation, keep, io)
  {
    ApplyKeepsInv(s, a);
    RunIsOnward(Apply(s, a), actions);
  }

  /** After the flash was started, neither discard nor prepare is accepted again. */
  lemma NothingAfterFlash(s: Sys, actions: seq<Action>, job: string, io: Io, stuck: bool)
    requires Inv(s) && s.disk.current.Some? && s.disk.current.value.flashStarted && CanRun(s, actions)
    ensures
      var d := Run(s, actions).disk;
      !MayPrepare(d, io) && Discard(d, job, io, stuck) == (d, false)
  {
    RunIsOnward(s, actions);
  }

  /** The image this worker has rehashed and the job it has read. */
  predicate Holding(p: Proc) {
    p.FlashTest? || p.FlashAllowed? || p.FlashLaunch?
  }

  /** Between that check and the launch no step of anyone else touches the image, the job's
      record of it, or this worker's place. */
  lemma CheckedImageStays(s: Sys, a: Action, pid: nat)
    requires Inv(s) && CanApply(s, a) && pid in s.procs && Holding(s.procs[pid])
    requires !(a.Work? && a.pid == pid) && !(a.Crash? && a.pid == pid)
    ensures
      var t := Apply(s, a);
      var p := s.procs[pid];
      && pid in t.procs && t.procs[pid] == p && t.disk.current == s.disk.current
      && p.id in t.disk.images && t.disk.images[p.id] == p.image == s.disk.images[p.id]
      && s.hash(p.image) == p.job.sha256
  {
    assert ProcOk(s, pid, s.procs[pid]);
    ApplyKeepsInv(s, a);
    PlaceIsKept(s, a, pid);
    RestIsQuiet(s, a, pid);
    HashIsKept(s, a);
    assert ProcOk(Apply(s, a), pid, s.procs[pid]);
  }

  lemma HashIsKept(s: Sys, a: Action)
    requires CanApply(s, a)
    ensures Apply(s, a).hash == s.hash
  {
  }

  predicate KeepsPlace(s: Sys, t: Sys, pid: nat)
    requires pid in s.procs
  {
    pid in t.procs && t.procs[pid] == s.procs[pid]
  }

  lemma FlashKeepsOthers(s: Sys, q: nat, env: Env, pid: nat)
    requires q in s.procs && pid in s.procs && pid != q && (Launching(s.procs[q]) || GivingUp(s.procs[q]))
    ensures KeepsPlace(s, WorkStep(s, q, env), pid)
  {
  }

  lemma PrepareKeepsOthers(s: Sys, q: nat, env: Env, pid: nat)
    requires q in s.procs && pid in s.procs && pid != q && !Launching(s.procs[q]) && !GivingUp(s.procs[q])
    ensures KeepsPlace(s, WorkStep(s, q, env), pid)
  {
  }

  lemma WorkKeepsOthers(s: Sys, q: nat, env: Env, pid: nat)
    requires q in s.procs && pid in s.procs && pid != q
    ensures KeepsPlace(s, WorkStep(s, q, env), pid)
  {
    if Launching(s.procs[q]) || GivingUp(s.procs[q]) { FlashKeepsOthers(s, q, env, pid); }
    else { PrepareKeepsOthers(s, q, env, pid); }
  }

  lemma PlaceIsKept(s: Sys, a: Action, pid: nat)
    requires CanApply(s, a) && pid in s.procs
    requires !(a.Work? && a.pid == pid) && !(a.Crash? && a.pid == pid)
    ensures pid in Apply(s, a).procs && Apply(s, a).procs[pid] == s.procs[pid]
  {
    if a.Work? { WorkKeepsOthers(s, a.pid, a.env, pid); }
  }

  /** With a flashing worker past its check, no other worker edits the job. */
  lemma RestIsQuiet(s: Sys, a: Action, pid: nat)
    requires Inv(s) && CanApply(s, a) && pid in s.procs && Holding(s.procs[pid])
    requires !(a.Work? && a.pid == pid) && !(a.Crash? && a.pid == pid)
    ensures Apply(s, a).disk.current == s.disk.current
  {
    assert ProcOk(s, pid, s.procs[pid]);
    if a.Work? { OthersAreQuiet(s, a.pid, a.env, pid); }
  }

  lemma OthersAreQuiet(s: Sys, q: nat, env: Env, pid: nat)
    requires Inv(s) && q in s.procs && pid in s.procs && q != pid && Holding(s.procs[pid])
    ensures WorkStep(s, q, env).disk.current == s.disk.current
  {
    assert ProcOk(s, pid, s.procs[pid]);
    assert ProcOk(s, q, s.procs[q]);
    if LeavesJob(s.procs[q]) { JobIsLeft(s, q, env); }
    else { assert s.disk.current.value.id != s.procs[q].id; WorkElsewhere(s, q, env); }
  }

  /** A worker for another job than the current one changes nothing. */
  lemma WorkElsewhere(s: Sys, q: nat, env: Env)
    requires q in s.procs && !LeavesJob(s.procs[q]) && s.disk.current.Some? && s.disk.current.value.id != s.procs[q].id
    ensures WorkStep(s, q, env).disk.current == s.disk.current
  {
  }
}
