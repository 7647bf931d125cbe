/** The course an update is meant to take: prepared, confirmed and flashed. Every worker
    step is taken once, in order. */
module UpdaterPath {
  import opened Wrappers
  import opened UpdaterStore
  import opened UpdaterJobs

  /** A release whose image passes, its digest well formed and its size within bounds, and
      whether the image test allows its settings to be kept. */
  datatype Plan = Plan(id: string, tok: string, release: nat, image: Bytes, keep: bool, allow: bool)

  predicate Feasible(hash: Bytes -> string, p: Plan) {
    && IsId(p.id) && IsId(p.tok) && 0 < p.release <= MAX_RELEASE
    && 0 < |p.image| <= MAX_IMAGE && IsSha(hash(p.image))
  }

  /** Everything outside answers well, with backup allowed or not. */
  function Well(hash: Bytes -> string, p: Plan, copying: Copying): Env {
    Env(Fine, true, |p.image|, hash(p.image), false, copying, p.allow, p.tok)
  }

  function Steps(pid: nat, env: Env, n: nat): seq<Action> {
    if n == 0 then [] else [Work(pid, env)] + Steps(pid, env, n - 1)
  }

  /** Looking twice around the lock, fetching, recording and creating; the image; the rest. */
  function Preparation(hash: Bytes -> string, p: Plan): seq<Action> {
    [RpcPrepare(p.release, p.id, Fine, false, true, Fine, 0)] +
    (Steps(0, Well(hash, p, Eof), 6) + (Steps(0, Well(hash, p, Chunk(p.image)), 1) + Steps(0, Well(hash, p, Eof), 5)))
  }

  function Installation(hash: Bytes -> string, p: Plan): seq<Action> {
    [RpcFlash(p.id, p.tok, p.keep, Fine, true, Fine, 1)] + Steps(1, Well(hash, p, Eof), 7)
  }

  /* Where each part leads. */

  function JobWith(hash: Bytes -> string, p: Plan, phase: Phase): State {
    NewJob(p.id, p.release).(phase := phase, total := |p.image|, sha256 := hash(p.image))
  }

  function Opened(hash: Bytes -> string, p: Plan): Sys {
    var s := Initial(hash);
    s.(disk := Disk(Some(JobWith(hash, p, Downloading)), map[p.id := []]),
       held := map[WorkerLock(p.id) := 0],
       procs := map[0 := PrepareCopy(p.id, |p.image|, hash(p.image), [])],
       issued := {p.id}, obtained := {(p.release, hash(p.image))})
  }

  function Copied(hash: Bytes -> string, p: Plan): Sys {
    Opened(hash, p).(
      disk := Disk(Some(JobWith(hash, p, Downloading)), map[p.id := p.image]),
      procs := map[0 := PrepareCopy(p.id, |p.image|, hash(p.image), p.image)])
  }

  function Prepared(hash: Bytes -> string, p: Plan): Sys {
    var st := JobWith(hash, p, Ready).(bytes := |p.image|, allowBackup := p.allow, confirmation := p.tok);
    Copied(hash, p).(disk := Disk(Some(st), map[p.id := p.image]), held := map[], procs := map[])
  }

  function Flashed(hash: Bytes -> string, p: Plan): Sys {
    var st := JobWith(hash, p, Flashing).(bytes := |p.image|, allowBackup := p.allow, keepSettings := p.keep, flashStarted := true);
    var l := Launch(p.id, p.release, hash(p.image), |p.image|, Some(p.image), p.keep, p.allow, p.allow);
    Prepared(hash, p).(
      disk := Disk(Some(st), map[p.id := p.image]), held := map[FlashLock := 1], procs := map[1 := FlashRunning(p.id)], launches := [l])
  }

  lemma {:induction false} RunJoins(s: Sys, a: seq<Action>, b: seq<Action>)
    requires CanRun(s, a) && CanRun(Run(s, a), b)
    ensures CanRun(s, a + b) && Run(s, a + b) == Run(Run(s, a), b)
    decreases |a|
  {
    if a == [] {
      assert a + b == b;
    } else {
      assert (a + b)[0] == a[0] && (a + b)[1..] == a[1..] + b;
      RunJoins(Apply(s, a[0]), a[1..], b);
    }
  }

  /** A number of steps of one worker under one environment. */
  lemma OneStep(s: Sys, pid: nat, env: Env, n: nat)
    requires pid in s.procs && IsId(env.tok) && CanRun(WorkStep(s, pid, env), Steps(pid, env, n))
    ensures CanRun(s, Steps(pid, env, n + 1)) && Run(s, Steps(pid, env, n + 1)) == Run(WorkStep(s, pid, env), Steps(pid, env, n))
  {
    assert Steps(pid, env, n + 1)[1..] == Steps(pid, env, n);
  }

  /* Preparing, in three stretches. */

  function Started(hash: Bytes -> string, p: Plan): Sys {
    Initial(hash).(disk := Disk(Some(NewJob(p.id, p.release)), map[]), procs := map[0 := PrepareStart(p.id)], issued := {p.id})
  }

  function Locked(hash: Bytes -> string, p: Plan): Sys {
    Started(hash, p).(held := map[WorkerLock(p.id) := 0], procs := map[0 := PrepareChecked(p.id, p.release)])
  }

  lemma Starts(hash: Bytes -> string, p: Plan)
    requires Feasible(hash, p)
    ensures CanApply(Initial(hash), RpcPrepare(p.release, p.id, Fine, false, true, Fine, 0))
    ensures Apply(Initial(hash), RpcPrepare(p.release, p.id, Fine, false, true, Fine, 0)) == Started(hash, p)
  {
  }

  lemma Locks(hash: Bytes -> string, p: Plan, env: Env)
    requires Feasible(hash, p) && env == Well(hash, p, Eof)
    ensures WorkStep(Started(hash, p), 0, env) == Started(hash, p).(procs := map[0 := PrepareQueued(p.id)])
    ensures
      var q := Started(hash, p).(procs := map[0 := PrepareQueued(p.id)]);
      WorkStep(q, 0, env) == Started(hash, p).(held := map[WorkerLock(p.id) := 0], procs := map[0 := PrepareLocked(p.id)])
    ensures
      var l := Started(hash, p).(held := map[WorkerLock(p.id) := 0], procs := map[0 := PrepareLocked(p.id)]);
      WorkStep(l, 0, env) == Locked(hash, p)
  {
  }

  function Fetched(hash: Bytes -> string, p: Plan): Sys {
    Locked(hash, p).(
      procs := map[0 := PrepareMeta(p.id, p.release, |p.image|, hash(p.image), false)], obtained := {(p.release, hash(p.image))})
  }

  function Recorded(hash: Bytes -> string, p: Plan): Sys {
    Fetched(hash, p).(
      disk := Disk(Some(JobWith(hash, p, Downloading)), map[]), procs := map[0 := PrepareCreate(p.id, |p.image|, hash(p.image))])
  }

  lemma Records(hash: Bytes -> string, p: Plan, env: Env)
    requires Feasible(hash, p) && env == Well(hash, p, Eof)
    ensures WorkStep(Locked(hash, p), 0, env) == Fetched(hash, p)
    ensures WorkStep(Fetched(hash, p), 0, env) == Recorded(hash, p)
    ensures WorkStep(Recorded(hash, p), 0, env) == Opened(hash, p)
  {
  }

  lemma ReachesCopying(hash: Bytes -> string, p: Plan, env: Env)
    requires Feasible(hash, p) && env == Well(hash, p, Eof)
    ensures CanRun(Started(hash, p), Steps(0, env, 6)) && Run(Started(hash, p), Steps(0, env, 6)) == Opened(hash, p)
  {
    Locks(hash, p, env);
    Records(hash, p, env);
    OneStep(Recorded(hash, p), 0, env, 0);
    OneStep(Fetched(hash, p), 0, env, 1);
    OneStep(Locked(hash, p), 0, env, 2);
    OneStep(Started(hash, p).(held := map[WorkerLock(p.id) := 0], procs := map[0 := PrepareLocked(p.id)]), 0, env, 3);
    OneStep(Started(hash, p).(procs := map[0 := PrepareQueued(p.id)]), 0, env, 4);
    OneStep(Started(hash, p), 0, env, 5);
  }

  lemma ReachesCopied(hash: Bytes -> string, p: Plan, env: Env)
    requires Feasible(hash, p) && env == Well(hash, p, Chunk(p.image))
    ensures CanRun(Opened(hash, p), Steps(0, env, 1)) && Run(Opened(hash, p), Steps(0, env, 1)) == Copied(hash, p)
  {
    assert [] + p.image == p.image;
    OneStep(Opened(hash, p), 0, env, 0);
  }

  function ValidatingAt(hash: Bytes -> string, p: Plan, at: Proc): Sys {
    Copied(hash, p).(
      disk := Disk(Some(JobWith(hash, p, Validating).(bytes := |p.image|)), map[p.id := p.image]), procs := map[0 := at])
  }

  lemma Copies(hash: Bytes -> string, p: Plan, env: Env)
    requires Feasible(hash, p) && env == Well(hash, p, Eof)
    ensures
      var copied := Copied(hash, p).(procs := map[0 := PrepareCopied(p.id, |p.image|, hash(p.image))]);
      && WorkStep(Copied(hash, p), 0, env) == copied
      && WorkStep(copied, 0, env) == ValidatingAt(hash, p, PrepareHash(p.id, |p.image|, hash(p.image)))
  {
  }

  lemma Validates(hash: Bytes -> string, p: Plan, env: Env)
    requires Feasible(hash, p) && env == Well(hash, p, Eof)
    ensures
      var sha, n := hash(p.image), |p.image|;
      && WorkStep(ValidatingAt(hash, p, PrepareHash(p.id, n, sha)), 0, env) == ValidatingAt(hash, p, PrepareTest(p.id, n, sha))
      && WorkStep(ValidatingAt(hash, p, PrepareTest(p.id, n, sha)), 0, env) == ValidatingAt(hash, p, PrepareReady(p.id, n, sha, p.allow))
  {
  }

  lemma Readies(hash: Bytes -> string, p: Plan, env: Env)
    requires Feasible(hash, p) && env == Well(hash, p, Eof)
    ensures WorkStep(ValidatingAt(hash, p, PrepareReady(p.id, |p.image|, hash(p.image), p.allow)), 0, env) == Prepared(hash, p)
  {
  }

  lemma ReachesReady(hash: Bytes -> string, p: Plan, env: Env)
    requires Feasible(hash, p) && env == Well(hash, p, Eof)
    ensures CanRun(Copied(hash, p), Steps(0, env, 5)) && Run(Copied(hash, p), Steps(0, env, 5)) == Prepared(hash, p)
  {
    var sha, n := hash(p.image), |p.image|;
    Copies(hash, p, env);
    Validates(hash, p, env);
    Readies(hash, p, env);
    OneStep(ValidatingAt(hash, p, PrepareReady(p.id, n, sha, p.allow)), 0, env, 0);
    OneStep(ValidatingAt(hash, p, PrepareTest(p.id, n, sha)), 0, env, 1);
    OneStep(ValidatingAt(hash, p, PrepareHash(p.id, n, sha)), 0, env, 2);
    OneStep(Copied(hash, p).(procs := map[0 := PrepareCopied(p.id, n, sha)]), 0, env, 3);
    OneStep(Copied(hash, p), 0, env, 4);
  }

  lemma PreparationSucceeds(hash: Bytes -> string, p: Plan)
    requires Feasible(hash, p)
    ensures CanRun(Initial(hash), Preparation(hash, p)) && Run(Initial(hash), Preparation(hash, p)) == Prepared(hash, p)
  {
    var env, chunk := Well(hash, p, Eof), Well(hash, p, Chunk(p.image));
    ReachesReady(hash, p, env);
    ReachesCopied(hash, p, chunk);
    RunJoins(Opened(hash, p), Steps(0, chunk, 1), Steps(0, env, 5));
    ReachesCopying(hash, p, env);
    RunJoins(Started(hash, p), Steps(0, env, 6), Steps(0, chunk, 1) + Steps(0, env, 5));
    Starts(hash, p);
    var rest := Steps(0, env, 6) + (Steps(0, chunk, 1) + Steps(0, env, 5));
    assert Preparation(hash, p)[0] == RpcPrepare(p.release, p.id, Fine, false, true, Fine, 0) && Preparation(hash, p)[1..] == rest;
  }

  /* Flashing. */

  function Accepted(hash: Bytes -> string, p: Plan): State {
    JobWith(hash, p, Flashing).(bytes := |p.image|, allowBackup := p.allow, keepSettings := p.keep)
  }

  function FlashAt(hash: Bytes -> string, p: Plan, locked: bool, at: Proc): Sys {
    Prepared(hash, p).(
      disk := Disk(Some(Accepted(hash, p)), map[p.id := p.image]), held := if locked then map[FlashLock := 1] else map[],
      procs := map[1 := at])
  }

  lemma Accepts(hash: Bytes -> string, p: Plan)
    requires Feasible(hash, p) && (p.keep ==> p.allow)
    ensures CanApply(Prepared(hash, p), RpcFlash(p.id, p.tok, p.keep, Fine, true, Fine, 1))
    ensures Apply(Prepared(hash, p), RpcFlash(p.id, p.tok, p.keep, Fine, true, Fine, 1)) == FlashAt(hash, p, false, FlashStart(p.id))
  {
  }

  lemma Rechecks(hash: Bytes -> string, p: Plan, env: Env)
    requires Feasible(hash, p) && (p.keep ==> p.allow) && env == Well(hash, p, Eof)
    ensures WorkStep(FlashAt(hash, p, false, FlashStart(p.id)), 1, env) == FlashAt(hash, p, false, FlashQueued(p.id))
    ensures WorkStep(FlashAt(hash, p, false, FlashQueued(p.id)), 1, env) == FlashAt(hash, p, true, FlashLocked(p.id))
  {
  }

  lemma Relooks(hash: Bytes -> string, p: Plan, env: Env)
    requires Feasible(hash, p) && (p.keep ==> p.allow) && env == Well(hash, p, Eof)
    ensures WorkStep(FlashAt(hash, p, true, FlashLocked(p.id)), 1, env) == FlashAt(hash, p, true, FlashHash(p.id, Accepted(hash, p)))
  {
  }

  lemma Retests(hash: Bytes -> string, p: Plan, env: Env)
    requires Feasible(hash, p) && (p.keep ==> p.allow) && env == Well(hash, p, Eof)
    ensures
      var job := Accepted(hash, p);
      && WorkStep(FlashAt(hash, p, true, FlashHash(p.id, job)), 1, env) == FlashAt(hash, p, true, FlashTest(p.id, job, p.image))
      && WorkStep(FlashAt(hash, p, true, FlashTest(p.id, job, p.image)), 1, env) == FlashAt(hash, p, true, FlashAllowed(p.id, job, p.image, p.allow))
  {
  }

  function Committed(hash: Bytes -> string, p: Plan): Sys {
    FlashAt(hash, p, true, FlashLaunch(p.id, Accepted(hash, p), p.image, p.allow)).(
      disk := Disk(Some(Accepted(hash, p).(flashStarted := true)), map[p.id := p.image]))
  }

  lemma Commits(hash: Bytes -> string, p: Plan, env: Env)
    requires Feasible(hash, p) && (p.keep ==> p.allow) && env == Well(hash, p, Eof)
    ensures WorkStep(FlashAt(hash, p, true, FlashAllowed(p.id, Accepted(hash, p), p.image, p.allow)), 1, env) == Committed(hash, p)
  {
  }

  lemma Launches(hash: Bytes -> string, p: Plan, env: Env)
    requires Feasible(hash, p) && (p.keep ==> p.allow) && env == Well(hash, p, Eof)
    ensures WorkStep(Committed(hash, p), 1, env) == Flashed(hash, p)
  {
  }

  lemma ReachesLaunch(hash: Bytes -> string, p: Plan, env: Env)
    requires Feasible(hash, p) && (p.keep ==> p.allow) && env == Well(hash, p, Eof)
    ensures
      var s := FlashAt(hash, p, false, FlashStart(p.id));
      CanRun(s, Steps(1, env, 7)) && Run(s, Steps(1, env, 7)) == Flashed(hash, p)
  {
    var job := Accepted(hash, p);
    Rechecks(hash, p, env);
    Relooks(hash, p, env);
    Retests(hash, p, env);
    Commits(hash, p, env);
    Launches(hash, p, env);
    OneStep(Committed(hash, p), 1, env, 0);
    OneStep(FlashAt(hash, p, true, FlashAllowed(p.id, job, p.image, p.allow)), 1, env, 1);
    OneStep(FlashAt(hash, p, true, FlashTest(p.id, job, p.image)), 1, env, 2);
    OneStep(FlashAt(hash, p, true, FlashHash(p.id, job)), 1, env, 3);
    OneStep(FlashAt(hash, p, true, FlashLocked(p.id)), 1, env, 4);
    OneStep(FlashAt(hash, p, false, FlashQueued(p.id)), 1, env, 5);
    OneStep(FlashAt(hash, p, false, FlashStart(p.id)), 1, env, 6);
  }

  lemma InstallationSucceeds(hash: Bytes -> string, p: Plan)
    requires Feasible(hash, p) && (p.keep ==> p.allow)
    ensures CanRun(Prepared(hash, p), Installation(hash, p)) && Run(Prepared(hash, p), Installation(hash, p)) == Flashed(hash, p)
  {
    Accepts(hash, p);
    ReachesLaunch(hash, p, Well(hash, p, Eof));
    assert Installation(hash, p)[0] == RpcFlash(p.id, p.tok, p.keep, Fine, true, Fine, 1);
    assert Installation(hash, p)[1..] == Steps(1, Well(hash, p, Eof), 7);
  }

  /** For every feasible plan there is a run in which the image is prepared, confirmed and
      launched, with or without settings as asked and allowed: the guarantees are not met by
      never flashing. */
  lemma AnUpdateSucceeds(hash: Bytes -> string, p: Plan)
    requires Feasible(hash, p) && (p.keep ==> p.allow)
    ensures
      var actions := Preparation(hash, p) + Installation(hash, p);
      && CanRun(Initial(hash), actions)
      && Run(Initial(hash), actions).launches ==
           [Launch(p.id, p.release, hash(p.image), |p.image|, Some(p.image), p.keep, p.allow, p.allow)]
  {
    PreparationSucceeds(hash, p);
    InstallationSucceeds(hash, p);
    RunJoins(Initial(hash), Preparation(hash, p), Installation(hash, p));
  }

  /** When the image test said no, a request to keep the settings is refused and uses nothing
      up: the same confirmation then starts the flash that does not keep them. */
  lemma KeepingIsRefused(hash: Bytes -> string, p: Plan, io: Io, spawned: bool, again: Io)
    requires Feasible(hash, p) && !p.allow && !p.keep
    ensures CanRun(Initial(hash), Preparation(hash, p))
    ensures CanRun(Initial(hash), Preparation(hash, p) + [RpcFlash(p.id, p.tok, true, io, spawned, again, 1)])
    ensures
      var refused := Preparation(hash, p) + [RpcFlash(p.id, p.tok, true, io, spawned, again, 1)];
      && Run(Initial(hash), refused) == Run(Initial(hash), Preparation(hash, p))
      && CanRun(Run(Initial(hash), refused), Installation(hash, p))
      && Run(Run(Initial(hash), refused), Installation(hash, p)).launches ==
           [Launch(p.id, p.release, hash(p.image), |p.image|, Some(p.image), false, false, false)]
  {
    PreparationSucceeds(hash, p);
    var ask := RpcFlash(p.id, p.tok, true, io, spawned, again, 1);
    assert CanApply(Prepared(hash, p), ask) && Apply(Prepared(hash, p), ask) == Prepared(hash, p);
    RunJoins(Initial(hash), Preparation(hash, p), [ask]);
    InstallationSucceeds(hash, p);
  }
}
