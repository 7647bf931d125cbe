/** Every interleaving of the updater's RPC calls and worker processes: each locked
    section, file operation or try-lock is one step of one process. */
module UpdaterJobs {
  import opened Wrappers
  import opened UpdaterStore

  datatype Lock = WorkerLock(job: string) | FlashLock

  /** Where a worker process stands, with the locals it still needs. */
  datatype Proc =
    | PrepareStart(id: string)
    | PrepareQueued(id: string)
    | PrepareLocked(id: string)
    | PrepareChecked(id: string, release: nat)
    | PrepareMeta(id: string, release: nat, size: nat, sha: string, legacy: bool)
    | PrepareCreate(id: string, size: nat, sha: string)
    | PrepareCopy(id: string, size: nat, sha: string, got: Bytes)
    | PrepareCopied(id: string, size: nat, sha: string)
    | PrepareHash(id: string, size: nat, sha: string)
    | PrepareTest(id: string, size: nat, sha: string)
    | PrepareReady(id: string, size: nat, sha: string, allow: bool)
    | FlashStart(id: string)
    | FlashQueued(id: string)
    | FlashLocked(id: string)
    | FlashHash(id: string, job: State)
    | FlashTest(id: string, job: State, image: Bytes)
    | FlashAllowed(id: string, job: State, image: Bytes, allow: bool)
    | FlashLaunch(id: string, job: State, image: Bytes, allow: bool)
    | FlashRunning(id: string)
    | Failing(id: string, lock: Lock, tries: nat, remove: bool)
    | Removing(id: string, lock: Lock)

  /** One start of the final sysupgrade: the file at the image path at that moment, and
      what the worker had established. */
  datatype Launch = Launch(
    id: string, release: nat, sha: string, size: nat, file: Option<Bytes>, keep: bool, recorded: bool, rechecked: bool)

  datatype Sys = Sys(
    hash: Bytes -> string, disk: Disk, held: map<Lock, nat>, procs: map<nat, Proc>,
    issued: set<string>, obtained: set<(nat, string)>, launches: seq<Launch>)

  datatype Copying = Chunk(bytes: Bytes) | Tick(space: bool) | Eof | Broken(bytes: Bytes)

  /** What the world answers to a worker's step: how its locked section goes, whether its
      outside call succeeds, and with what. */
  datatype Env = Env(
    io: Io, ok: bool, size: nat, sha: string, legacy: bool, copying: Copying, allow: bool, tok: string)

  datatype Action =
    | RpcPrepare(release: nat, job: string, io: Io, stuck: bool, spawned: bool, again: Io, child: nat)
    | RpcDiscard(job: string, io: Io, stuck: bool)
    | RpcFlash(job: string, confirmation: string, keep: bool, io: Io, spawned: bool, again: Io, child: nat)
    | Invoke(child: nat, job: string, flash: bool)
    | Crash(pid: nat)
    | Work(pid: nat, env: Env)

  const MAX_RELEASE: nat := 9007199254740991

  function Initial(hash: Bytes -> string): Sys {
    Sys(hash, Disk(None, map[]), map[], map[], {}, {}, [])
  }

  function Goto(s: Sys, pid: nat, p: Proc): Sys {
    s.(procs := s.procs[pid := p])
  }

  /** The process ends, and with it every lock it held. */
  function Exit(s: Sys, pid: nat): Sys {
    s.(procs := s.procs - {pid}, held := map l | l in s.held && s.held[l] != pid :: s.held[l])
  }

  function Fail(s: Sys, pid: nat, lock: Lock): Sys
    requires pid in s.procs
  {
    Goto(s, pid, Failing(s.procs[pid].id, lock, 0, false))
  }

  function TryLock(s: Sys, pid: nat, lock: Lock, p: Proc): Sys {
    if lock in s.held then Exit(s, pid) else Goto(s.(held := s.held[lock := pid]), pid, p)
  }

  /** A step that changes the saved job through Service.change, and where it leads. */
  function ChangeThen(s: Sys, pid: nat, lock: Lock, r: (Disk, bool), p: Proc): Sys
    requires pid in s.procs
  {
    if r.1 then Goto(s.(disk := r.0), pid, p) else Fail(s, pid, lock)
  }

  function Append(d: Disk, id: string, bytes: Bytes): Disk {
    if id in d.images then d.(images := d.images[id := d.images[id] + bytes]) else d
  }

  /* One function for each point a worker can be at. */

  /** A look at the job before, and again after, the worker's lock is taken. */
  function LookStep(s: Sys, pid: nat, io: Io): Sys
    requires pid in s.procs && (s.procs[pid].PrepareStart? || s.procs[pid].PrepareLocked?)
  {
    var p := s.procs[pid];
    var st := Sees(s.disk, p.id, io);
    if st.None? || st.value.phase != Downloading then Exit(s, pid)
    else Goto(s, pid, if p.PrepareStart? then PrepareQueued(p.id) else PrepareChecked(p.id, st.value.release))
  }

  /** Identity, release, verified metadata and space. */
  function FetchStep(s: Sys, pid: nat, env: Env): Sys
    requires pid in s.procs && s.procs[pid].PrepareChecked?
  {
    var p := s.procs[pid];
    if !env.ok then Fail(s, pid, WorkerLock(p.id))
    else Goto(s.(obtained := s.obtained + {(p.release, env.sha)}), pid, PrepareMeta(p.id, p.release, env.size, env.sha, env.legacy))
  }

  function MetaStep(s: Sys, pid: nat, io: Io): Sys
    requires pid in s.procs && s.procs[pid].PrepareMeta?
  {
    var p := s.procs[pid];
    ChangeThen(s, pid, WorkerLock(p.id), Change(s.disk, p.id, io, (st: State) => SetMetadata(st, p.release, p.size, p.sha, p.legacy)),
               PrepareCreate(p.id, p.size, p.sha))
  }

  /** The image file must not exist yet. */
  function CreateStep(s: Sys, pid: nat, ok: bool): Sys
    requires pid in s.procs && s.procs[pid].PrepareCreate?
  {
    var p := s.procs[pid];
    if !ok || p.id in s.disk.images then Fail(s, pid, WorkerLock(p.id))
    else Goto(s.(disk := s.disk.(images := s.disk.images[p.id := []])), pid, PrepareCopy(p.id, p.size, p.sha, []))
  }

  function CopyStep(s: Sys, pid: nat, env: Env): Sys
    requires pid in s.procs && s.procs[pid].PrepareCopy?
  {
    var p := s.procs[pid];
    var lock := WorkerLock(p.id);
    match env.copying
    case Chunk(bytes) =>
      if |p.got| + |bytes| > p.size then Fail(s, pid, lock)
      else Goto(s.(disk := Append(s.disk, p.id, bytes)), pid, p.(got := p.got + bytes))
    case Broken(bytes) =>
      Fail(s.(disk := Append(s.disk, p.id, bytes)), pid, lock)
    case Tick(space) =>
      ChangeThen(s, pid, lock, Change(s.disk, p.id, env.io, (st: State) => SetBytes(st, |p.got|, space)), p)
    case Eof =>
      if |p.got| != p.size || s.hash(p.got) != p.sha then Fail(s, pid, lock)
      else Goto(s, pid, PrepareCopied(p.id, p.size, p.sha))
  }

  function CopiedStep(s: Sys, pid: nat, io: Io): Sys
    requires pid in s.procs && s.procs[pid].PrepareCopied?
  {
    var p := s.procs[pid];
    ChangeThen(s, pid, WorkerLock(p.id), Change(s.disk, p.id, io, (st: State) => SetValidating(st, p.size)), PrepareHash(p.id, p.size, p.sha))
  }

  function HashStep(s: Sys, pid: nat, ok: bool): Sys
    requires pid in s.procs && s.procs[pid].PrepareHash?
  {
    var p := s.procs[pid];
    if !ok || !Rehashes(s.hash, s.disk, p.id, p.sha, p.size) then Fail(s, pid, WorkerLock(p.id))
    else Goto(s, pid, PrepareTest(p.id, p.size, p.sha))
  }

  function TestStep(s: Sys, pid: nat, ok: bool, allow: bool): Sys
    requires pid in s.procs && s.procs[pid].PrepareTest?
  {
    var p := s.procs[pid];
    if !ok then Fail(s, pid, WorkerLock(p.id)) else Goto(s, pid, PrepareReady(p.id, p.size, p.sha, allow))
  }

  function ReadyStep(s: Sys, pid: nat, io: Io, tok: string): Sys
    requires pid in s.procs && s.procs[pid].PrepareReady?
  {
    var p := s.procs[pid];
    var r := Change(s.disk, p.id, io, (st: State) => SetReady(st, p.allow, tok));
    if r.1 then Exit(s.(disk := r.0), pid) else Fail(s, pid, WorkerLock(p.id))
  }

  function FlashLookStep(s: Sys, pid: nat, io: Io): Sys
    requires pid in s.procs && (s.procs[pid].FlashStart? || s.procs[pid].FlashLocked?)
  {
    var p := s.procs[pid];
    var st := Sees(s.disk, p.id, io);
    if st.None? || st.value.phase != Flashing || st.value.flashStarted then Exit(s, pid)
    else Goto(s, pid, if p.FlashStart? then FlashQueued(p.id) else FlashHash(p.id, st.value))
  }

  function FlashHashStep(s: Sys, pid: nat, ok: bool): Sys
    requires pid in s.procs && s.procs[pid].FlashHash?
  {
    var p := s.procs[pid];
    if !ok || !Rehashes(s.hash, s.disk, p.id, p.job.sha256, p.job.total) then Fail(s, pid, FlashLock)
    else Goto(s, pid, FlashTest(p.id, p.job, s.disk.images[p.id]))
  }

  function FlashTestStep(s: Sys, pid: nat, ok: bool, allow: bool): Sys
    requires pid in s.procs && s.procs[pid].FlashTest?
  {
    var p := s.procs[pid];
    if !ok || (p.job.keepSettings && !allow) then Fail(s, pid, FlashLock)
    else Goto(s, pid, FlashAllowed(p.id, p.job, p.image, allow))
  }

  function CommitStep(s: Sys, pid: nat, io: Io): Sys
    requires pid in s.procs && s.procs[pid].FlashAllowed?
  {
    var p := s.procs[pid];
    ChangeThen(s, pid, FlashLock, Change(s.disk, p.id, io, SetFlashStarted), FlashLaunch(p.id, p.job, p.image, p.allow))
  }

  /** The final sysupgrade starts, with whatever file the image path names now. */
  function LaunchStep(s: Sys, pid: nat): Sys
    requires pid in s.procs && s.procs[pid].FlashLaunch?
  {
    var p := s.procs[pid];
    var file := if p.id in s.disk.images then Some(s.disk.images[p.id]) else None;
    var l := Launch(p.id, p.job.release, p.job.sha256, p.job.total, file, p.job.keepSettings, p.job.allowBackup, p.allow);
    Goto(s.(launches := s.launches + [l]), pid, FlashRunning(p.id))
  }

  function ReturnStep(s: Sys, pid: nat, ok: bool): Sys
    requires pid in s.procs && s.procs[pid].FlashRunning?
  {
    if ok then Exit(s, pid) else Fail(s, pid, FlashLock)
  }

  /** Service.fail: up to 25 attempts, then the image goes if the last attempt that saw the job said so. */
  function FailingStep(s: Sys, pid: nat, io: Io): Sys
    requires pid in s.procs && s.procs[pid].Failing?
  {
    var p := s.procs[pid];
    if p.tries >= ATTEMPTS then
      if p.remove then Goto(s, pid, Removing(p.id, p.lock)) else Exit(s, pid)
    else
      var (d, done, away) := FailAttempt(s.disk, p.id, io, p.remove);
      Goto(s.(disk := d), pid, Failing(p.id, p.lock, if done then ATTEMPTS else p.tries + 1, away))
  }

  function RemovingStep(s: Sys, pid: nat, ok: bool): Sys
    requires pid in s.procs && s.procs[pid].Removing?
  {
    Exit(if ok then s.(disk := WithoutImage(s.disk, s.procs[pid].id)) else s, pid)
  }

  predicate Launching(p: Proc) {
    p.FlashStart? || p.FlashQueued? || p.FlashLocked? || p.FlashHash? || p.FlashTest? || p.FlashAllowed? ||
    p.FlashLaunch? || p.FlashRunning?
  }

  predicate GivingUp(p: Proc) {
    p.Failing? || p.Removing?
  }

  function WorkStep(s: Sys, pid: nat, env: Env): Sys
    requires pid in s.procs
  {
    match s.procs[pid]
    case PrepareStart(_) => LookStep(s, pid, env.io)
    case PrepareQueued(id) => TryLock(s, pid, WorkerLock(id), PrepareLocked(id))
    case PrepareLocked(_) => LookStep(s, pid, env.io)
    case PrepareChecked(_, _) => FetchStep(s, pid, env)
    case PrepareMeta(_, _, _, _, _) => MetaStep(s, pid, env.io)
    case PrepareCreate(_, _, _) => CreateStep(s, pid, env.ok)
    case PrepareCopy(_, _, _, _) => CopyStep(s, pid, env)
    case PrepareCopied(_, _, _) => CopiedStep(s, pid, env.io)
    case PrepareHash(_, _, _) => HashStep(s, pid, env.ok)
    case PrepareTest(_, _, _) => TestStep(s, pid, env.ok, env.allow)
    case PrepareReady(_, _, _, _) => ReadyStep(s, pid, env.io, env.tok)
    case FlashStart(_) => FlashLookStep(s, pid, env.io)
    case FlashQueued(id) => TryLock(s, pid, FlashLock, FlashLocked(id))
    case FlashLocked(_) => FlashLookStep(s, pid, env.io)
    case FlashHash(_, _) => FlashHashStep(s, pid, env.ok)
    case FlashTest(_, _, _) => FlashTestStep(s, pid, env.ok, env.allow)
    case FlashAllowed(_, _, _, _) => CommitStep(s, pid, env.io)
    case FlashLaunch(_, _, _, _) => LaunchStep(s, pid)
    case FlashRunning(_) => ReturnStep(s, pid, env.ok)
    case Failing(_, _, _, _) => FailingStep(s, pid, env.io)
    case Removing(_, _) => RemovingStep(s, pid, env.ok)
  }

  /** New job IDs and new process IDs have not been used before, the random confirmation is
      well formed, and a worker is only ever invoked with a well-formed job ID. */
  predicate CanApply(s: Sys, a: Action) {
    match a
    case RpcPrepare(release, job, _, _, _, _, child) => job !in s.issued && IsId(job) && child !in s.procs
    case RpcDiscard(_, _, _) => true
    case RpcFlash(_, _, _, _, _, _, child) => child !in s.procs
    case Invoke(child, job, _) => child !in s.procs && IsId(job)
    case Crash(pid) => pid in s.procs
    case Work(pid, env) => pid in s.procs && IsId(env.tok)
  }

  function PrepareCall(s: Sys, release: nat, job: string, io: Io, stuck: bool, spawned: bool, again: Io, child: nat): Sys {
    if release == 0 || release > MAX_RELEASE then s
    else
      var (d, ok) := Prepare(s.disk, job, release, io, stuck, spawned, again);
      var t := s.(disk := d, issued := s.issued + {job});
      if ok then Goto(t, child, PrepareStart(job)) else t
  }

  function DiscardCall(s: Sys, job: string, io: Io, stuck: bool): Sys {
    if IsId(job) then s.(disk := Discard(s.disk, job, io, stuck).0) else s
  }

  function FlashCall(s: Sys, job: string, confirmation: string, keep: bool, io: Io, spawned: bool, again: Io, child: nat): Sys {
    var (d, ok) := Flash(s.disk, job, confirmation, keep, io, spawned, again);
    var t := s.(disk := d);
    if ok then Goto(t, child, FlashStart(job)) else t
  }

  function Apply(s: Sys, a: Action): Sys
    requires CanApply(s, a)
  {
    match a
    case RpcPrepare(release, job, io, stuck, spawned, again, child) => PrepareCall(s, release, job, io, stuck, spawned, again, child)
    case RpcDiscard(job, io, stuck) => DiscardCall(s, job, io, stuck)
    case RpcFlash(job, confirmation, keep, io, spawned, again, child) => FlashCall(s, job, confirmation, keep, io, spawned, again, child)
    case Invoke(child, job, flash) => Goto(s, child, if flash then FlashStart(job) else PrepareStart(job))
    case Crash(pid) => Exit(s, pid)
    case Work(pid, env) => WorkStep(s, pid, env)
  }

  predicate CanRun(s: Sys, actions: seq<Action>)
    decreases |actions|
  {
    actions == [] || (CanApply(s, actions[0]) && CanRun(Apply(s, actions[0]), actions[1..]))
  }

  function Run(s: Sys, actions: seq<Action>): Sys
    requires CanRun(s, actions)
    decreases |actions|
  {
    if actions == [] then s else Run(Apply(s, actions[0]), actions[1..])
  }
}
