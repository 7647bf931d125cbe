/** What every interleaving keeps: one launch at most, of an image just rehashed. */
module UpdaterProof {
  import opened Wrappers
  import opened UpdaterStore
  import opened UpdaterJobs

  /** The lock a process at this point holds. */
  function Holds(p: Proc): Option<Lock> {
    match p
    case PrepareStart(_) => None
    case PrepareQueued(_) => None
    case FlashStart(_) => None
    case FlashQueued(_) => None
    case FlashLocked(_) => Some(FlashLock)
    case FlashHash(_, _) => Some(FlashLock)
    case FlashTest(_, _, _) => Some(FlashLock)
    case FlashAllowed(_, _, _, _) => Some(FlashLock)
    case FlashLaunch(_, _, _, _) => Some(FlashLock)
    case FlashRunning(_) => Some(FlashLock)
    case Failing(_, lock, _, _) => Some(lock)
    case Removing(_, lock) => Some(lock)
    case _ => Some(WorkerLock(p.id))
  }

  /** The phases a job may be in while a worker for it stands here. */
  predicate Fits(p: Proc, st: State) {
    match p
    case PrepareChecked(_, _) => st.phase in {Downloading, Discarded}
    case PrepareMeta(_, _, _, _, _) => st.phase in {Downloading, Discarded}
    case PrepareCreate(_, _, _) => st.phase in {Downloading, Discarded}
    case PrepareCopy(_, _, _, _) => st.phase in {Downloading, Discarded}
    case PrepareCopied(_, _, _) => st.phase in {Downloading, Discarded}
    case PrepareHash(_, _, _) => st.phase in {Validating, Discarded}
    case PrepareTest(_, _, _) => st.phase in {Validating, Discarded}
    case PrepareReady(_, _, _, _) => st.phase in {Validating, Discarded}
    case Failing(_, WorkerLock(_), _, _) => st.phase in {Downloading, Validating, Failed, Discarded}
    case Removing(_, WorkerLock(_)) => st.phase in {Downloading, Validating, Failed, Discarded}
    case Failing(_, FlashLock, _, remove) => st.phase in {Flashing, Failed, Discarded} && (remove ==> !st.flashStarted)
    case Removing(_, FlashLock) => st.phase in {Flashing, Failed, Discarded} && !st.flashStarted
    case _ => true
  }

  /** The metadata a preparing worker fetched is what the job records. */
  predicate Recorded(obtained: set<(nat, string)>, p: Proc, st: State) {
    match p
    case PrepareChecked(_, release) => st.release == release
    case PrepareMeta(_, release, _, sha, _) => st.release == release && (release, sha) in obtained
    case PrepareCreate(_, _, sha) => st.sha256 == sha && (st.release, sha) in obtained
    case PrepareCopy(_, _, sha, _) => st.sha256 == sha && (st.release, sha) in obtained
    case PrepareCopied(_, _, sha) => st.sha256 == sha && (st.release, sha) in obtained
    case PrepareHash(_, _, sha) => st.sha256 == sha && (st.release, sha) in obtained
    case PrepareTest(_, _, sha) => st.sha256 == sha && (st.release, sha) in obtained
    case PrepareReady(_, _, sha, _) => st.sha256 == sha && (st.release, sha) in obtained
    case _ => true
  }

  /** Past its second look at the job. */
  predicate Engaged(p: Proc) {
    !(p.PrepareStart? || p.PrepareQueued? || p.PrepareLocked? || p.FlashStart? || p.FlashQueued? || p.FlashLocked?)
  }

  predicate Rehashed(s: Sys, job: State, image: Bytes) {
    job.id in s.disk.images && s.disk.images[job.id] == image && |image| == job.total && s.hash(image) == job.sha256
  }

  predicate Untouched(s: Sys, id: string, job: State) {
    s.disk.current == Some(job) && job.id == id && job.phase == Flashing && !job.flashStarted
  }

  /** What a flashing worker relies on. */
  predicate Relies(s: Sys, p: Proc) {
    match p
    case FlashHash(id, job) => Untouched(s, id, job)
    case FlashTest(id, job, image) => Untouched(s, id, job) && Rehashed(s, job, image)
    case FlashAllowed(id, job, image, allow) =>
      Untouched(s, id, job) && Rehashed(s, job, image) && (job.keepSettings ==> allow)
    case FlashLaunch(id, job, image, allow) =>
      s.disk.current == Some(job.(flashStarted := true)) && job.id == id && job.phase == Flashing && s.launches == [] &&
      Rehashed(s, job, image) && (job.keepSettings ==> allow)
    case FlashRunning(id) =>
      s.disk.current.Some? && s.disk.current.value.id == id && s.disk.current.value.flashStarted
    case _ => true
  }

  predicate LockOk(held: map<Lock, nat>, pid: nat, p: Proc) {
    Holds(p).Some? ==> Holds(p).value in held && held[Holds(p).value] == pid
  }

  /** A preparing worker only ever fails under its own job's lock. */
  predicate LockFits(p: Proc) {
    match p
    case Failing(id, WorkerLock(job), _, _) => job == id
    case Removing(id, WorkerLock(job)) => job == id
    case _ => true
  }

  predicate JobFits(s: Sys, p: Proc) {
    Engaged(p) ==>
      p.id in s.issued &&
      (s.disk.current.Some? && s.disk.current.value.id == p.id ==>
        Fits(p, s.disk.current.value) && Recorded(s.obtained, p, s.disk.current.value))
  }

  predicate ProcOk(s: Sys, pid: nat, p: Proc) {
    LockOk(s.held, pid, p) && LockFits(p) && JobFits(s, p) && Relies(s, p)
  }

  /** What the saved job itself keeps. */
  predicate JobOk(issued: set<string>, obtained: set<(nat, string)>, st: State) {
    && IsId(st.id) && st.id in issued
    && (st.phase == Ready <==> st.confirmation != "")
    && (st.keepSettings ==> st.allowBackup && st.phase in {Flashing, Failed, Discarded})
    && (st.flashStarted ==> st.phase in {Flashing, Failed})
    && (st.phase in {Validating, Ready, Flashing} || st.flashStarted ==> (st.release, st.sha256) in obtained)
  }

  /** The file at the image path when sysupgrade starts has the digest obtained for the
      job's release; settings are kept only with both permissions. */
  predicate LaunchOk(hash: Bytes -> string, obtained: set<(nat, string)>, l: Launch) {
    && l.file.Some? && hash(l.file.value) == l.sha && |l.file.value| == l.size
    && (l.release, l.sha) in obtained
    && (l.keep ==> l.recorded && l.rechecked)
  }

  predicate LaunchesOk(s: Sys) {
    && |s.launches| <= 1
    && (s.launches != [] ==>
          s.disk.current.Some? && s.disk.current.value.flashStarted && s.launches[0].id == s.disk.current.value.id)
    && (forall l :: l in s.launches ==> LaunchOk(s.hash, s.obtained, l))
  }

  predicate Inv(s: Sys) {
    && (s.disk.current.Some? ==> JobOk(s.issued, s.obtained, s.disk.current.value))
    && LaunchesOk(s)
    && (forall pid :: pid in s.procs ==> ProcOk(s, pid, s.procs[pid]))
  }

  lemma InitialInv(hash: Bytes -> string)
    ensures Inv(Initial(hash))
  {
  }

  /* Each kind of change to the shared state, seen by a process that did not make it. */

  ghost predicate SameShared(s: Sys, t: Sys) {
    t.disk == s.disk && t.launches == s.launches && t.hash == s.hash && s.obtained <= t.obtained && s.issued <= t.issued
  }

  /** Another process may take a free lock and give up its own. */
  predicate LocksKept(s: Sys, t: Sys, q: nat) {
    forall l :: l in s.held && s.held[l] != q ==> l in t.held && t.held[l] == s.held[l]
  }

  predicate OthersKept(s: Sys, t: Sys, q: nat) {
    forall pid :: pid in t.procs && pid != q ==> pid in s.procs && t.procs[pid] == s.procs[pid]
  }

  /** The saved job as it may change under a process that holds `lock` on it. */
  lemma SharedKept(s: Sys, t: Sys, pid: nat, q: nat)
    requires pid != q && pid in s.procs && ProcOk(s, pid, s.procs[pid])
    requires SameShared(s, t) && LocksKept(s, t, q)
    ensures ProcOk(t, pid, s.procs[pid])
  {
  }

  lemma StillJobOk(s: Sys, t: Sys)
    requires SameShared(s, t) && Inv(s)
    ensures LaunchesOk(t)
    ensures t.disk.current.Some? ==> JobOk(t.issued, t.obtained, t.disk.current.value)
  {
    forall l | l in t.launches ensures LaunchOk(t.hash, t.obtained, l) {
      assert LaunchOk(s.hash, s.obtained, l);
    }
  }

  /** A step of q that leaves the shared state alone needs only q itself to be right. */
  lemma QuietStep(s: Sys, t: Sys, q: nat)
    requires Inv(s) && SameShared(s, t) && LocksKept(s, t, q) && OthersKept(s, t, q)
    requires q in t.procs ==> ProcOk(t, q, t.procs[q])
    ensures Inv(t)
  {
    StillJobOk(s, t);
    forall pid | pid in t.procs ensures ProcOk(t, pid, t.procs[pid]) {
      if pid != q { SharedKept(s, t, pid, q); }
    }
  }

  /** A step of q that changes the saved job from `st` to `next` while no other process can
      be relying on it: either q holds the job's worker lock and the job is being prepared,
      or q holds the flash lock and the job is being flashed. */
  predicate Guarded(s: Sys, q: nat, st: State) {
    q in s.procs && Holds(s.procs[q]).Some? && s.disk.current == Some(st) &&
    match Holds(s.procs[q]).value
    case WorkerLock(id) => id == st.id && st.phase in {Downloading, Validating} && !st.flashStarted
    case FlashLock => st.phase == Flashing
  }

  /** Only a job whose ID is this process's, and only one that is being prepared or flashed, is of interest to it. */
  lemma OnlyOneEngaged(s: Sys, pid: nat, q: nat, st: State)
    requires Inv(s) && pid in s.procs && pid != q && Guarded(s, q, st)
    ensures Engaged(s.procs[pid]) ==> s.procs[pid].id != st.id
    ensures Launching(s.procs[pid]) ==> !Engaged(s.procs[pid])
  {
    var p := s.procs[pid];
    assert ProcOk(s, pid, p);
    assert ProcOk(s, q, s.procs[q]);
    if Engaged(p) {
      assert Holds(p) != Holds(s.procs[q]);
    }
  }

  /** q, holding the lock, edits the job in place. */
  lemma GuardedEdit(s: Sys, t: Sys, q: nat, st: State, next: State)
    requires Inv(s) && Guarded(s, q, st) && next.id == st.id
    requires t.disk == s.disk.(current := Some(next)) && t.launches == s.launches && t.hash == s.hash
    requires t.obtained == s.obtained && t.issued == s.issued
    requires LocksKept(s, t, q) && OthersKept(s, t, q)
    requires JobOk(t.issued, t.obtained, next) && (st.flashStarted ==> next.flashStarted)
    requires q in t.procs ==> ProcOk(t, q, t.procs[q])
    ensures Inv(t)
  {
    forall pid | pid in t.procs ensures ProcOk(t, pid, t.procs[pid]) {
      if pid != q {
        OnlyOneEngaged(s, pid, q, st);
        assert ProcOk(s, pid, s.procs[pid]);
      }
    }
  }

  /** No other worker has checked this job's image and is about to launch it. */
  predicate ImageFree(s: Sys, q: nat, id: string) {
    forall pid :: pid in s.procs && pid != q ==>
      !((s.procs[pid].FlashTest? || s.procs[pid].FlashAllowed? || s.procs[pid].FlashLaunch?) && s.procs[pid].id == id)
  }

  ghost predicate SameButImage(s: Sys, t: Sys, id: string) {
    && t.disk.current == s.disk.current && t.launches == s.launches && t.hash == s.hash
    && t.obtained == s.obtained && t.issued == s.issued
    && (forall k :: k != id && k in s.disk.images ==> k in t.disk.images && t.disk.images[k] == s.disk.images[k])
  }

  lemma ImageEdit(s: Sys, t: Sys, q: nat, id: string)
    requires Inv(s) && ImageFree(s, q, id) && SameButImage(s, t, id)
    requires LocksKept(s, t, q) && OthersKept(s, t, q)
    requires q in t.procs ==> ProcOk(t, q, t.procs[q])
    ensures Inv(t)
  {
    forall pid | pid in t.procs ensures ProcOk(t, pid, t.procs[pid]) {
      if pid != q { assert ProcOk(s, pid, s.procs[pid]); }
    }
  }

  /** A preparing worker, or one about to remove the image, is the only one interested in it. */
  lemma OwnImageIsFree(s: Sys, q: nat)
    requires Inv(s) && q in s.procs && Holds(s.procs[q]).Some?
    requires Holds(s.procs[q]).value == WorkerLock(s.procs[q].id) || Holds(s.procs[q]).value == FlashLock
    requires Engaged(s.procs[q]) && !Launching(s.procs[q])
    ensures ImageFree(s, q, s.procs[q].id)
  {
    var p := s.procs[q];
    assert ProcOk(s, q, p);
    forall pid | pid in s.procs && pid != q
      ensures !((s.procs[pid].FlashTest? || s.procs[pid].FlashAllowed? || s.procs[pid].FlashLaunch?) && s.procs[pid].id == p.id)
    {
      assert ProcOk(s, pid, s.procs[pid]);
    }
  }

  lemma ExitKeepsInv(s: Sys, t: Sys, q: nat)
    requires Inv(t) && s == Exit(t, q)
    ensures Inv(s)
  {
    QuietStep(t, s, q);
  }

  lemma GotoFail(s: Sys, pid: nat, lock: Lock)
    requires Inv(s) && pid in s.procs && Holds(s.procs[pid]) == Some(lock) && Engaged(s.procs[pid])
    requires !GivingUp(s.procs[pid]) && !s.procs[pid].FlashLaunch?
    ensures Inv(Fail(s, pid, lock))
  {
    assert ProcOk(s, pid, s.procs[pid]);
    QuietStep(s, Fail(s, pid, lock), pid);
  }

  lemma TryLockKeepsInv(s: Sys, pid: nat, lock: Lock, p: Proc)
    requires Inv(s) && pid in s.procs && Holds(s.procs[pid]).None?
    requires Holds(p) == Some(lock) && !Engaged(p)
    ensures Inv(TryLock(s, pid, lock, p))
  {
    QuietStep(s, TryLock(s, pid, lock, p), pid);
  }

  /** A worker that moves on without changing anything shared but the set of digests obtained. */
  lemma QuietGoto(s: Sys, t: Sys, pid: nat, p: Proc)
    requires Inv(s) && pid in s.procs && SameShared(s, t) && t.held == s.held && t.procs == s.procs[pid := p]
    requires ProcOk(t, pid, p)
    ensures Inv(t)
  {
    QuietStep(s, t, pid);
  }

  /* The preparing worker. */

  lemma PrepareLooks(s: Sys, pid: nat, io: Io)
    requires Inv(s) && pid in s.procs && (s.procs[pid].PrepareStart? || s.procs[pid].PrepareLocked?)
    ensures Inv(LookStep(s, pid, io))
  {
    assert ProcOk(s, pid, s.procs[pid]);
    QuietStep(s, LookStep(s, pid, io), pid);
  }

  lemma PrepareFetches(s: Sys, pid: nat, env: Env)
    requires Inv(s) && pid in s.procs && s.procs[pid].PrepareChecked?
    ensures Inv(FetchStep(s, pid, env))
  {
    var p := s.procs[pid];
    assert ProcOk(s, pid, p);
    if !env.ok {
      GotoFail(s, pid, WorkerLock(p.id));
    } else {
      QuietGoto(s, FetchStep(s, pid, env), pid, PrepareMeta(p.id, p.release, env.size, env.sha, env.legacy));
    }
  }

  /** A worker's edit of its own job, made through Service.change. */
  lemma ChangeKeepsInv(s: Sys, pid: nat, r: (Disk, bool), io: Io, edit: State -> Option<State>, p: Proc)
    requires Inv(s) && pid in s.procs && Engaged(s.procs[pid]) && !GivingUp(s.procs[pid]) && !Launching(s.procs[pid])
    requires r == Change(s.disk, s.procs[pid].id, io, edit)
    requires r.1 ==>
      var st := s.disk.current.value;
      var next := r.0.current.value;
      next.id == st.id && next.flashStarted == st.flashStarted && JobOk(s.issued, s.obtained, next) &&
      p.id == st.id && Engaged(p) && !GivingUp(p) && !Launching(p) && Fits(p, next) && Recorded(s.obtained, p, next)
    ensures Inv(ChangeThen(s, pid, WorkerLock(s.procs[pid].id), r, p))
  {
    assert ProcOk(s, pid, s.procs[pid]);
    if r.1 {
      GuardedEdit(s, Goto(s.(disk := r.0), pid, p), pid, s.disk.current.value, r.0.current.value);
    } else {
      GotoFail(s, pid, WorkerLock(s.procs[pid].id));
    }
  }

  lemma PrepareRecords(s: Sys, pid: nat, io: Io)
    requires Inv(s) && pid in s.procs && s.procs[pid].PrepareMeta?
    ensures Inv(MetaStep(s, pid, io))
  {
    var p := s.procs[pid];
    assert ProcOk(s, pid, p);
    var edit := (st: State) => SetMetadata(st, p.release, p.size, p.sha, p.legacy);
    ChangeKeepsInv(s, pid, Change(s.disk, p.id, io, edit), io, edit, PrepareCreate(p.id, p.size, p.sha));
  }

  lemma PrepareCreates(s: Sys, pid: nat, ok: bool)
    requires Inv(s) && pid in s.procs && s.procs[pid].PrepareCreate?
    ensures Inv(CreateStep(s, pid, ok))
  {
    var p := s.procs[pid];
    assert ProcOk(s, pid, p);
    if !ok || p.id in s.disk.images {
      GotoFail(s, pid, WorkerLock(p.id));
    } else {
      OwnImageIsFree(s, pid);
      ImageEdit(s, CreateStep(s, pid, ok), pid, p.id);
    }
  }

  lemma PrepareWrites(s: Sys, pid: nat, bytes: Bytes, got: Bytes)
    requires Inv(s) && pid in s.procs && s.procs[pid].PrepareCopy?
    ensures Inv(Goto(s.(disk := Append(s.disk, s.procs[pid].id, bytes)), pid, s.procs[pid].(got := got)))
  {
    var p := s.procs[pid];
    assert ProcOk(s, pid, p);
    OwnImageIsFree(s, pid);
    ImageEdit(s, Goto(s.(disk := Append(s.disk, p.id, bytes)), pid, p.(got := got)), pid, p.id);
  }

  lemma PrepareBreaks(s: Sys, pid: nat, bytes: Bytes)
    requires Inv(s) && pid in s.procs && s.procs[pid].PrepareCopy?
    ensures Inv(Fail(s.(disk := Append(s.disk, s.procs[pid].id, bytes)), pid, WorkerLock(s.procs[pid].id)))
  {
    var p := s.procs[pid];
    assert ProcOk(s, pid, p);
    OwnImageIsFree(s, pid);
    ImageEdit(s, Fail(s.(disk := Append(s.disk, p.id, bytes)), pid, WorkerLock(p.id)), pid, p.id);
  }

  lemma PrepareTicks(s: Sys, pid: nat, io: Io, space: bool)
    requires Inv(s) && pid in s.procs && s.procs[pid].PrepareCopy?
    ensures
      var p := s.procs[pid];
      Inv(ChangeThen(s, pid, WorkerLock(p.id), Change(s.disk, p.id, io, (st: State) => SetBytes(st, |p.got|, space)), p))
  {
    var p := s.procs[pid];
    assert ProcOk(s, pid, p);
    var edit := (st: State) => SetBytes(st, |p.got|, space);
    ChangeKeepsInv(s, pid, Change(s.disk, p.id, io, edit), io, edit, p);
  }

  lemma PrepareCopies(s: Sys, pid: nat, env: Env)
    requires Inv(s) && pid in s.procs && s.procs[pid].PrepareCopy?
    ensures Inv(CopyStep(s, pid, env))
  {
    var p := s.procs[pid];
    match env.copying
    case Chunk(bytes) =>
      if |p.got| + |bytes| > p.size { GotoFail(s, pid, WorkerLock(p.id)); } else { PrepareWrites(s, pid, bytes, p.got + bytes); }
    case Broken(bytes) => PrepareBreaks(s, pid, bytes);
    case Tick(space) => PrepareTicks(s, pid, env.io, space);
    case Eof =>
      if |p.got| != p.size || s.hash(p.got) != p.sha { GotoFail(s, pid, WorkerLock(p.id)); } else { PrepareEnds(s, pid, env); }
  }

  lemma PrepareEnds(s: Sys, pid: nat, env: Env)
    requires Inv(s) && pid in s.procs && s.procs[pid].PrepareCopy? && env.copying == Eof
    requires |s.procs[pid].got| == s.procs[pid].size && s.hash(s.procs[pid].got) == s.procs[pid].sha
    ensures Inv(CopyStep(s, pid, env))
  {
    var p := s.procs[pid];
    assert ProcOk(s, pid, p);
    QuietGoto(s, CopyStep(s, pid, env), pid, PrepareCopied(p.id, p.size, p.sha));
  }

  lemma PrepareHashes(s: Sys, pid: nat, ok: bool)
    requires Inv(s) && pid in s.procs && s.procs[pid].PrepareHash?
    ensures Inv(HashStep(s, pid, ok))
  {
    var p := s.procs[pid];
    var t := HashStep(s, pid, ok);
    assert ProcOk(s, pid, p);
    if t.procs[pid].Failing? { GotoFail(s, pid, WorkerLock(p.id)); } else { QuietGoto(s, t, pid, t.procs[pid]); }
  }

  lemma PrepareTests(s: Sys, pid: nat, ok: bool, allow: bool)
    requires Inv(s) && pid in s.procs && s.procs[pid].PrepareTest?
    ensures Inv(TestStep(s, pid, ok, allow))
  {
    var p := s.procs[pid];
    assert ProcOk(s, pid, p);
    if !ok { GotoFail(s, pid, WorkerLock(p.id)); }
    else { QuietGoto(s, TestStep(s, pid, ok, allow), pid, PrepareReady(p.id, p.size, p.sha, allow)); }
  }

  lemma PrepareValidates(s: Sys, pid: nat, io: Io)
    requires Inv(s) && pid in s.procs && s.procs[pid].PrepareCopied?
    ensures Inv(CopiedStep(s, pid, io))
  {
    var p := s.procs[pid];
    assert ProcOk(s, pid, p);
    var edit := (st: State) => SetValidating(st, p.size);
    ChangeKeepsInv(s, pid, Change(s.disk, p.id, io, edit), io, edit, PrepareHash(p.id, p.size, p.sha));
  }

  /** Only here does a job become ready. */
  lemma PrepareFinishes(s: Sys, pid: nat, io: Io, tok: string)
    requires Inv(s) && pid in s.procs && s.procs[pid].PrepareReady? && IsId(tok)
    ensures Inv(ReadyStep(s, pid, io, tok))
  {
    var p := s.procs[pid];
    assert ProcOk(s, pid, p);
    var r := Change(s.disk, p.id, io, (st: State) => SetReady(st, p.allow, tok));
    if r.1 {
      GuardedEdit(s, Exit(s.(disk := r.0), pid), pid, s.disk.current.value, r.0.current.value);
    } else {
      GotoFail(s, pid, WorkerLock(p.id));
    }
  }

  /* The flashing worker. */

  lemma FlashSees(s: Sys, pid: nat, io: Io)
    requires Inv(s) && pid in s.procs && s.procs[pid].FlashLocked?
    ensures Inv(FlashLookStep(s, pid, io))
  {
    assert ProcOk(s, pid, s.procs[pid]);
    var st := Sees(s.disk, s.procs[pid].id, io);
    if st.None? || st.value.phase != Flashing || st.value.flashStarted {
      ExitKeepsInv(Exit(s, pid), s, pid);
    } else {
      FlashGoesOn(s, pid, FlashHash(s.procs[pid].id, st.value), st.value);
    }
  }

  /** The flashing job is the saved one, and the worker that holds the flash lock may rely on it. */
  lemma FlashGoesOn(s: Sys, pid: nat, p: Proc, st: State)
    requires Inv(s) && pid in s.procs && s.procs[pid].FlashLocked? && p == FlashHash(s.procs[pid].id, st)
    requires s.disk.current == Some(st) && st.id == s.procs[pid].id && st.phase == Flashing && !st.flashStarted
    ensures Inv(Goto(s, pid, p))
  {
    assert ProcOk(s, pid, s.procs[pid]);
    QuietGoto(s, Goto(s, pid, p), pid, p);
  }

  lemma FlashLooks(s: Sys, pid: nat, io: Io)
    requires Inv(s) && pid in s.procs && s.procs[pid].FlashStart?
    ensures Inv(FlashLookStep(s, pid, io))
  {
    assert ProcOk(s, pid, s.procs[pid]);
    var st := Sees(s.disk, s.procs[pid].id, io);
    if st.None? || st.value.phase != Flashing || st.value.flashStarted {
      ExitKeepsInv(Exit(s, pid), s, pid);
    } else {
      QuietGoto(s, Goto(s, pid, FlashQueued(s.procs[pid].id)), pid, FlashQueued(s.procs[pid].id));
    }
  }

  lemma FlashHashes(s: Sys, pid: nat, ok: bool)
    requires Inv(s) && pid in s.procs && s.procs[pid].FlashHash?
    ensures Inv(FlashHashStep(s, pid, ok))
  {
    var t := FlashHashStep(s, pid, ok);
    assert ProcOk(s, pid, s.procs[pid]);
    if t.procs[pid].Failing? { GotoFail(s, pid, FlashLock); } else { QuietGoto(s, t, pid, t.procs[pid]); }
  }

  lemma FlashTests(s: Sys, pid: nat, ok: bool, allow: bool)
    requires Inv(s) && pid in s.procs && s.procs[pid].FlashTest?
    ensures Inv(FlashTestStep(s, pid, ok, allow))
  {
    var t := FlashTestStep(s, pid, ok, allow);
    assert ProcOk(s, pid, s.procs[pid]);
    if t.procs[pid].Failing? { GotoFail(s, pid, FlashLock); } else { QuietGoto(s, t, pid, t.procs[pid]); }
  }

  lemma FlashCommits(s: Sys, pid: nat, io: Io)
    requires Inv(s) && pid in s.procs && s.procs[pid].FlashAllowed?
    ensures Inv(CommitStep(s, pid, io))
  {
    if Change(s.disk, s.procs[pid].id, io, SetFlashStarted).1 { FlashStarts(s, pid, io); } else { GotoFail(s, pid, FlashLock); }
  }

  lemma FlashStarts(s: Sys, pid: nat, io: Io)
    requires Inv(s) && pid in s.procs && s.procs[pid].FlashAllowed?
    requires Change(s.disk, s.procs[pid].id, io, SetFlashStarted).1
    ensures Inv(CommitStep(s, pid, io))
  {
    var p := s.procs[pid];
    assert ProcOk(s, pid, p);
    GuardedEdit(s, CommitStep(s, pid, io), pid, p.job, p.job.(flashStarted := true));
  }

  /** Only here is sysupgrade started. */
  lemma FlashLaunches(s: Sys, pid: nat)
    requires Inv(s) && pid in s.procs && s.procs[pid].FlashLaunch?
    ensures Inv(LaunchStep(s, pid))
  {
    var t := LaunchStep(s, pid);
    assert ProcOk(s, pid, s.procs[pid]);
    assert LaunchOk(t.hash, t.obtained, t.launches[0]);
    forall q | q in t.procs ensures ProcOk(t, q, t.procs[q]) {
      if q != pid { assert ProcOk(s, q, s.procs[q]); }
    }
  }

  lemma FlashReturns(s: Sys, pid: nat, ok: bool)
    requires Inv(s) && pid in s.procs && s.procs[pid].FlashRunning?
    ensures Inv(ReturnStep(s, pid, ok))
  {
    assert ProcOk(s, pid, s.procs[pid]);
    if ok { QuietStep(s, Exit(s, pid), pid); } else { GotoFail(s, pid, FlashLock); }
  }

  /* Giving up. */

  lemma FailingAttempts(s: Sys, pid: nat, io: Io)
    requires Inv(s) && pid in s.procs && s.procs[pid].Failing?
    ensures Inv(FailingStep(s, pid, io))
  {
    if FailingStep(s, pid, io).disk == s.disk { FailingQuietly(s, pid, io); } else { FailingWrites(s, pid, io); }
  }

  lemma FailingQuietly(s: Sys, pid: nat, io: Io)
    requires Inv(s) && pid in s.procs && s.procs[pid].Failing? && FailingStep(s, pid, io).disk == s.disk
    ensures Inv(FailingStep(s, pid, io))
  {
    if s.procs[pid].tries >= ATTEMPTS { FailingEnds(s, pid, io); } else { FailingAgain(s, pid, io); }
  }

  lemma FailingEnds(s: Sys, pid: nat, io: Io)
    requires Inv(s) && pid in s.procs && s.procs[pid].Failing? && s.procs[pid].tries >= ATTEMPTS
    ensures Inv(FailingStep(s, pid, io))
  {
    assert ProcOk(s, pid, s.procs[pid]);
    QuietStep(s, FailingStep(s, pid, io), pid);
  }

  lemma FailingAgain(s: Sys, pid: nat, io: Io)
    requires Inv(s) && pid in s.procs && s.procs[pid].Failing? && s.procs[pid].tries < ATTEMPTS
    requires FailingStep(s, pid, io).disk == s.disk
    ensures Inv(FailingStep(s, pid, io))
  {
    var t := FailingStep(s, pid, io);
    assert ProcOk(s, pid, s.procs[pid]);
    QuietGoto(s, t, pid, t.procs[pid]);
  }

  lemma FailingWrites(s: Sys, pid: nat, io: Io)
    requires Inv(s) && pid in s.procs && s.procs[pid].Failing? && FailingStep(s, pid, io).disk != s.disk
    ensures Inv(FailingStep(s, pid, io))
  {
    var p := s.procs[pid];
    assert ProcOk(s, pid, p);
    assert s.disk.current.Some? ==> JobOk(s.issued, s.obtained, s.disk.current.value);
    AttemptWrites(s.disk, p.id, io, p.remove);
    var st := s.disk.current.value;
    RecordsFailure(s, pid, st, Failing(p.id, p.lock, ATTEMPTS, !st.flashStarted));
  }

  /** An attempt that writes anything finds the job neither failed nor discarded, and has done. */
  lemma AttemptWrites(d: Disk, id: string, io: Io, remove: bool)
    requires FailAttempt(d, id, io, remove).0 != d
    requires d.current.Some? && d.current.value.phase == Failed ==> d.current.value.confirmation == ""
    ensures d.current.Some? && d.current.value.id == id && d.current.value.phase != Discarded && d.current.value.phase != Failed
    ensures
      var st := d.current.value;
      FailAttempt(d, id, io, remove) == (d.(current := Some(st.(phase := Failed, confirmation := ""))), true, !st.flashStarted)
  {
  }

  lemma RecordsFailure(s: Sys, pid: nat, st: State, p: Proc)
    requires Inv(s) && pid in s.procs && s.procs[pid].Failing? && ProcOk(s, pid, s.procs[pid])
    requires s.disk.current == Some(st) && st.id == s.procs[pid].id && st.phase != Discarded && st.phase != Failed
    requires p == Failing(st.id, s.procs[pid].lock, ATTEMPTS, !st.flashStarted)
    ensures Inv(Goto(s.(disk := s.disk.(current := Some(st.(phase := Failed, confirmation := "")))), pid, p))
  {
    var next := st.(phase := Failed, confirmation := "");
    GuardedEdit(s, Goto(s.(disk := s.disk.(current := Some(next))), pid, p), pid, st, next);
  }

  lemma RemovingRemoves(s: Sys, pid: nat, ok: bool)
    requires Inv(s) && pid in s.procs && s.procs[pid].Removing?
    ensures Inv(RemovingStep(s, pid, ok))
  {
    assert ProcOk(s, pid, s.procs[pid]);
    OwnImageIsFree(s, pid);
    ImageEdit(s, RemovingStep(s, pid, ok), pid, s.procs[pid].id);
  }

  lemma PrepareWorkKeepsInv(s: Sys, pid: nat, env: Env)
    requires Inv(s) && pid in s.procs && IsId(env.tok) && !Launching(s.procs[pid]) && !GivingUp(s.procs[pid])
    ensures Inv(WorkStep(s, pid, env))
  {
    match s.procs[pid]
    case PrepareStart(_) => PrepareLooks(s, pid, env.io);
    case PrepareQueued(id) => TryLockKeepsInv(s, pid, WorkerLock(id), PrepareLocked(id));
    case PrepareLocked(_) => PrepareLooks(s, pid, env.io);
    case PrepareChecked(_, _) => PrepareFetches(s, pid, env);
    case PrepareMeta(_, _, _, _, _) => PrepareRecords(s, pid, env.io);
    case PrepareCreate(_, _, _) => PrepareCreates(s, pid, env.ok);
    case PrepareCopy(_, _, _, _) => PrepareCopies(s, pid, env);
    case PrepareCopied(_, _, _) => PrepareValidates(s, pid, env.io);
    case PrepareHash(_, _, _) => PrepareHashes(s, pid, env.ok);
    case PrepareTest(_, _, _) => PrepareTests(s, pid, env.ok, env.allow);
    case PrepareReady(_, _, _, _) => PrepareFinishes(s, pid, env.io, env.tok);
  }

  lemma FailWorkKeepsInv(s: Sys, pid: nat, env: Env)
    requires Inv(s) && pid in s.procs && GivingUp(s.procs[pid])
    ensures Inv(WorkStep(s, pid, env))
  {
    if s.procs[pid].Failing? { FailingAttempts(s, pid, env.io); } else { RemovingRemoves(s, pid, env.ok); }
  }

  lemma FlashWorkKeepsInv(s: Sys, pid: nat, env: Env)
    requires Inv(s) && pid in s.procs && Launching(s.procs[pid])
    ensures Inv(WorkStep(s, pid, env))
  {
    var p := s.procs[pid];
    if p.FlashStart? || p.FlashQueued? || p.FlashLocked? || p.FlashHash? { FlashBegins(s, pid, env); } else { FlashEnds(s, pid, env); }
  }

  lemma FlashBegins(s: Sys, pid: nat, env: Env)
    requires Inv(s) && pid in s.procs
    requires var p := s.procs[pid]; p.FlashStart? || p.FlashQueued? || p.FlashLocked? || p.FlashHash?
    ensures Inv(WorkStep(s, pid, env))
  {
    match s.procs[pid]
    case FlashStart(_) => FlashLooks(s, pid, env.io);
    case FlashQueued(id) => TryLockKeepsInv(s, pid, FlashLock, FlashLocked(id));
    case FlashLocked(_) => FlashSees(s, pid, env.io);
    case FlashHash(_, _) => FlashHashes(s, pid, env.ok);
  }

  lemma FlashEnds(s: Sys, pid: nat, env: Env)
    requires Inv(s) && pid in s.procs
    requires var p := s.procs[pid]; p.FlashTest? || p.FlashAllowed? || p.FlashLaunch? || p.FlashRunning?
    ensures Inv(WorkStep(s, pid, env))
  {
    match s.procs[pid]
    case FlashTest(_, _, _) => FlashTests(s, pid, env.ok, env.allow);
    case FlashAllowed(_, _, _, _) => FlashCommits(s, pid, env.io);
    case FlashLaunch(_, _, _, _) => FlashLaunches(s, pid);
    case FlashRunning(_) => FlashReturns(s, pid, env.ok);
  }

  lemma WorkKeepsInv(s: Sys, pid: nat, env: Env)
    requires Inv(s) && pid in s.procs && IsId(env.tok)
    ensures Inv(WorkStep(s, pid, env))
  {
    if GivingUp(s.procs[pid]) { FailWorkKeepsInv(s, pid, env); }
    else if Launching(s.procs[pid]) { FlashWorkKeepsInv(s, pid, env); }
    else { PrepareWorkKeepsInv(s, pid, env); }
  }
}
