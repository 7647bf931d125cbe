/** The image files over whole runs: an image is only ever written at its end, by the worker that
    prepares its job, and is removed when that worker fails. */
module UpdaterFiles {
  import opened Wrappers
  import opened UpdaterStore
  import opened UpdaterJobs
  import opened UpdaterProof
  import opened UpdaterRuns
  import opened UpdaterAnswers
  import opened UpdaterPath

  /* What steps do to files. */

  /** The file at this path is as before, longer, new or gone. */
  predicate GrewOrWent(s: Sys, t: Sys, id: string) {
    id in s.disk.images && id in t.disk.images ==> s.disk.images[id] <= t.disk.images[id]
  }

  predicate SameFile(s: Sys, t: Sys, id: string) {
    id in t.disk.images ==> id in s.disk.images && t.disk.images[id] == s.disk.images[id]
  }

  predicate Writes(p: Proc) {
    p.PrepareCreate? || p.PrepareCopy?
  }

  lemma ChangeKeepsFiles(d: Disk, id: string, io: Io, edit: State -> Option<State>)
    ensures Change(d, id, io, edit).0.images == d.images
  {
  }

  lemma CopyKeepsOtherFiles(s: Sys, pid: nat, env: Env, id: string)
    requires pid in s.procs && s.procs[pid].PrepareCopy?
    ensures GrewOrWent(s, CopyStep(s, pid, env), id)
    ensures id != s.procs[pid].id ==> SameFile(s, CopyStep(s, pid, env), id)
  {
    var p := s.procs[pid];
    if env.copying.Tick? { ChangeKeepsFiles(s.disk, p.id, env.io, (st: State) => SetBytes(st, |p.got|, env.copying.space)); }
  }

  lemma CreateKeepsOtherFiles(s: Sys, pid: nat, ok: bool, id: string)
    requires pid in s.procs && s.procs[pid].PrepareCreate?
    ensures GrewOrWent(s, CreateStep(s, pid, ok), id)
    ensures id != s.procs[pid].id ==> SameFile(s, CreateStep(s, pid, ok), id)
  {
  }

  lemma EditKeepsFiles(s: Sys, pid: nat, env: Env)
    requires pid in s.procs && (s.procs[pid].PrepareMeta? || s.procs[pid].PrepareCopied? || s.procs[pid].PrepareReady? || s.procs[pid].FlashAllowed?)
    ensures WorkStep(s, pid, env).disk.images == s.disk.images
  {
    var p := s.procs[pid];
    match p
    case PrepareMeta(_, _, _, _, _) =>
      ChangeKeepsFiles(s.disk, p.id, env.io, (st: State) => SetMetadata(st, p.release, p.size, p.sha, p.legacy));
    case PrepareCopied(_, _, _) => ChangeKeepsFiles(s.disk, p.id, env.io, (st: State) => SetValidating(st, p.size));
    case PrepareReady(_, _, _, _) => ChangeKeepsFiles(s.disk, p.id, env.io, (st: State) => SetReady(st, p.allow, env.tok));
    case FlashAllowed(_, _, _, _) => ChangeKeepsFiles(s.disk, p.id, env.io, SetFlashStarted);
  }

  predicate Edits(p: Proc) {
    p.PrepareMeta? || p.PrepareCopied? || p.PrepareReady? || p.FlashAllowed?
  }

  lemma RestKeepsFiles(s: Sys, pid: nat, env: Env, id: string)
    requires pid in s.procs && !Writes(s.procs[pid]) && !Edits(s.procs[pid]) && !s.procs[pid].Removing?
    ensures WorkStep(s, pid, env).disk.images == s.disk.images
  {
  }

  lemma WorkKeepsFiles(s: Sys, pid: nat, env: Env, id: string)
    requires pid in s.procs
    ensures GrewOrWent(s, WorkStep(s, pid, env), id)
    ensures id != s.procs[pid].id || !Writes(s.procs[pid]) ==> SameFile(s, WorkStep(s, pid, env), id)
  {
    var p := s.procs[pid];
    if p.PrepareCopy? { CopyKeepsOtherFiles(s, pid, env, id); }
    else if p.PrepareCreate? { CreateKeepsOtherFiles(s, pid, env.ok, id); }
    else if Edits(p) { EditKeepsFiles(s, pid, env); }
    else if !p.Removing? { RestKeepsFiles(s, pid, env, id); }
  }

  lemma CallKeepsFiles(s: Sys, a: Action, id: string)
    requires CanApply(s, a) && !a.Work?
    ensures SameFile(s, Apply(s, a), id)
  {
  }

  /** No step of anyone rewrites or cuts an image that exists: it can only get longer or go. */
  lemma ImagesOnlyGrow(s: Sys, a: Action, id: string)
    requires CanApply(s, a) && id in s.disk.images && id in Apply(s, a).disk.images
    ensures s.disk.images[id] <= Apply(s, a).disk.images[id]
  {
    if a.Work? { WorkKeepsFiles(s, a.pid, a.env, id); } else { CallKeepsFiles(s, a, id); }
  }

  /* What is in the file. */

  /** A worker past the creation of its image. */
  predicate HasImage(p: Proc) {
    p.PrepareCopy? || p.PrepareCopied? || p.PrepareHash? || p.PrepareTest? || p.PrepareReady?
  }

  predicate FileIs(s: Sys, h: Heard, id: string) {
    id in s.disk.images ==> id in h.received && s.disk.images[id] == h.received[id]
  }

  /** As long as it is there, the file holds what was downloaded. */
  ghost predicate FilesFit(s: Sys, h: Heard) {
    && (forall pid :: pid in s.procs && HasImage(s.procs[pid]) ==> FileIs(s, h, s.procs[pid].id))
    && (s.disk.current.Some? && s.disk.current.value.phase == Ready ==> FileIs(s, h, s.disk.current.value.id))
  }

  /** A step that neither writes this job's image nor receives for it. */
  lemma FileStays(s: Sys, h: Heard, a: Action, id: string)
    requires CanApply(s, a) && FileIs(s, h, id)
    requires a.Work? ==> s.procs[a.pid].id != id || !Writes(s.procs[a.pid])
    ensures FileIs(Apply(s, a), Hears(h, s, a), id)
  {
    if a.Work? {
      WorkKeepsFiles(s, a.pid, a.env, id);
      ReceivesByWriting(s, h, a.pid, a.env, id);
    } else {
      CallKeepsFiles(s, a, id);
    }
  }

  lemma ReceivesByWriting(s: Sys, h: Heard, pid: nat, env: Env, id: string)
    requires pid in s.procs && (s.procs[pid].id != id || !Writes(s.procs[pid]))
    ensures
      var k := Hears(h, s, Work(pid, env));
      (id in h.received ==> id in k.received && k.received[id] == h.received[id])
  {
  }

  /** The file and the record of what came are written together. */
  lemma OwnFileFits(s: Sys, h: Heard, pid: nat, env: Env)
    requires pid in s.procs && Writes(s.procs[pid]) && Faithful(h, s.hash, s.procs[pid])
    requires s.procs[pid].PrepareCopy? ==> FileIs(s, h, s.procs[pid].id)
    ensures
      var t, k, id := WorkStep(s, pid, env), Hears(h, s, Work(pid, env)), s.procs[pid].id;
      pid in t.procs && HasImage(t.procs[pid]) ==> FileIs(t, k, id)
  {
    var p := s.procs[pid];
    if p.PrepareCopy? && env.copying.Tick? {
      ChangeKeepsFiles(s.disk, p.id, env.io, (st: State) => SetBytes(st, |p.got|, env.copying.space));
    }
  }

  /** A worker that comes to hold an image held it before, or has just created it. */
  lemma HoldersComeFrom(s: Sys, pid: nat, env: Env)
    requires pid in s.procs && pid in WorkStep(s, pid, env).procs && HasImage(WorkStep(s, pid, env).procs[pid])
    ensures HasImage(s.procs[pid]) || s.procs[pid].PrepareCreate?
    ensures WorkStep(s, pid, env).procs[pid].id == s.procs[pid].id
  {
    if Launching(s.procs[pid]) || GivingUp(s.procs[pid]) { FlashersHoldNone(s, pid, env); } else { PreparersHold(s, pid, env); }
  }

  lemma FlashersHoldNone(s: Sys, pid: nat, env: Env)
    requires pid in s.procs && (Launching(s.procs[pid]) || GivingUp(s.procs[pid]))
    ensures pid in WorkStep(s, pid, env).procs ==> !HasImage(WorkStep(s, pid, env).procs[pid])
  {
  }

  lemma PreparersHold(s: Sys, pid: nat, env: Env)
    requires pid in s.procs && !Launching(s.procs[pid]) && !GivingUp(s.procs[pid])
    requires pid in WorkStep(s, pid, env).procs && HasImage(WorkStep(s, pid, env).procs[pid])
    ensures HasImage(s.procs[pid]) || s.procs[pid].PrepareCreate?
    ensures WorkStep(s, pid, env).procs[pid].id == s.procs[pid].id
  {
  }

  /** Two workers never write one image. */
  lemma NotBothWrite(s: Sys, q: nat, pid: nat)
    requires Inv(s) && q in s.procs && pid in s.procs && q != pid && HasImage(s.procs[pid]) && Writes(s.procs[q])
    ensures s.procs[q].id != s.procs[pid].id
  {
    assert ProcOk(s, q, s.procs[q]) && ProcOk(s, pid, s.procs[pid]);
  }

  lemma OthersKeepFile(s: Sys, h: Heard, q: nat, env: Env, pid: nat)
    requires Inv(s) && IsId(env.tok) && FilesFit(s, h) && q in s.procs && q != pid
    requires pid in WorkStep(s, q, env).procs && HasImage(WorkStep(s, q, env).procs[pid])
    ensures FileIs(WorkStep(s, q, env), Hears(h, s, Work(q, env)), WorkStep(s, q, env).procs[pid].id)
  {
    WorkersComeFrom(s, q, env);
    WorkKeepsOthers(s, q, env, pid);
    if Writes(s.procs[q]) { NotBothWrite(s, q, pid); }
    FileStays(s, h, Work(q, env), s.procs[pid].id);
  }

  lemma ActorKeepsFile(s: Sys, h: Heard, q: nat, env: Env)
    requires Inv(s) && IsId(env.tok) && FilesFit(s, h) && AllFaithful(s, h) && q in s.procs
    requires q in WorkStep(s, q, env).procs && HasImage(WorkStep(s, q, env).procs[q])
    ensures FileIs(WorkStep(s, q, env), Hears(h, s, Work(q, env)), WorkStep(s, q, env).procs[q].id)
  {
    HoldersComeFrom(s, q, env);
    assert ProcFaithful(s, h, s.procs[q]);
    if Writes(s.procs[q]) { OwnFileFits(s, h, q, env); } else { FileStays(s, h, Work(q, env), s.procs[q].id); }
  }

  lemma ReadyFileStays(s: Sys, h: Heard, q: nat, env: Env)
    requires Inv(s) && IsId(env.tok) && FilesFit(s, h) && q in s.procs
    ensures
      var t := WorkStep(s, q, env);
      t.disk.current.Some? && t.disk.current.value.phase == Ready ==> FileIs(t, Hears(h, s, Work(q, env)), t.disk.current.value.id)
  {
    var t := WorkStep(s, q, env);
    assert ProcOk(s, q, s.procs[q]);
    if t.disk.current.Some? && t.disk.current.value.phase == Ready {
      if s.procs[q].PrepareReady? {
        if t.disk.current != s.disk.current { assert t.disk.current.value.id == s.procs[q].id; }
      } else if !s.procs[q].PrepareCopied? {
        WorkKeepsJob(s, q, env);
      }
      FileStays(s, h, Work(q, env), t.disk.current.value.id);
    }
  }

  lemma CallKeepsFit(s: Sys, h: Heard, a: Action)
    requires FilesFit(s, h) && CanApply(s, a) && !a.Work?
    ensures FilesFit(Apply(s, a), h)
  {
    var t := Apply(s, a);
    CallKeepsJob(s, a);
    forall pid | pid in t.procs && HasImage(t.procs[pid]) ensures FileIs(t, h, t.procs[pid].id) {
      NewcomersRelyOnNothing(s, a, pid);
      CallKeepsFiles(s, a, t.procs[pid].id);
    }
    if t.disk.current.Some? && t.disk.current.value.phase == Ready { CallKeepsFiles(s, a, t.disk.current.value.id); }
  }

  lemma StepKeepsFit(s: Sys, h: Heard, a: Action)
    requires Inv(s) && AllFaithful(s, h) && FilesFit(s, h) && CanApply(s, a)
    ensures FilesFit(Apply(s, a), Hears(h, s, a))
  {
    if a.Work? {
      var t := Apply(s, a);
      forall pid | pid in t.procs && HasImage(t.procs[pid]) ensures FileIs(t, Hears(h, s, a), t.procs[pid].id) {
        if pid == a.pid { ActorKeepsFile(s, h, a.pid, a.env); } else { OthersKeepFile(s, h, a.pid, a.env, pid); }
      }
      ReadyFileStays(s, h, a.pid, a.env);
    } else {
      CallKeepsFit(s, h, a);
    }
  }

  lemma {:induction false} RunKeepsFit(s: Sys, h: Heard, actions: seq<Action>)
    requires Inv(s) && AllFaithful(s, h) && FilesFit(s, h) && CanRun(s, actions)
    ensures FilesFit(Run(s, actions), HearsAll(h, s, actions))
    decreases |actions|
  {
    if actions != [] {
      ApplyKeepsInv(s, actions[0]);
      StepStaysFaithful(s, h, actions[0]);
      StepKeepsFit(s, h, actions[0]);
      RunKeepsFit(Apply(s, actions[0]), Hears(h, s, actions[0]), actions[1..]);
    }
  }

  /** Over every run: the image of a job that is ready, if it is still there, is exactly what was
      downloaded for it, of the size and digest the job records; and the image of a job that is
      being downloaded is what has come so far, never more than its size. */
  lemma ImageIsTheDownload(hash: Bytes -> string, actions: seq<Action>, pid: nat)
    requires CanRun(Initial(hash), actions)
    ensures
      var s, h := Run(Initial(hash), actions), HearsAll(Nothing, Initial(hash), actions);
      && (s.disk.current.Some? && s.disk.current.value.phase == Ready && s.disk.current.value.id in s.disk.images ==>
            var st := s.disk.current.value;
            var image := s.disk.images[st.id];
            st.id in h.received && image == h.received[st.id] && |image| == st.total && hash(image) == st.sha256)
      && (pid in s.procs && s.procs[pid].PrepareCopy? && s.procs[pid].id in s.disk.images ==>
            var image := s.disk.images[s.procs[pid].id];
            s.procs[pid].id in h.received && image == h.received[s.procs[pid].id] && |image| <= s.procs[pid].size)
  {
    InitialInv(hash);
    RunKeepsFit(Initial(hash), Nothing, actions);
    RunStaysFaithful(Initial(hash), Nothing, actions);
    PermissionIsTheAnswer(hash, actions);
    var s, h := Run(Initial(hash), actions), HearsAll(Nothing, Initial(hash), actions);
    assert pid in s.procs ==> ProcFaithful(s, h, s.procs[pid]);
  }

  /* Progress and failure. */

  /** A download that goes on after a tick has told the job how much has come, and found space
      for the rest; otherwise the worker gives up and the record stays. */
  lemma TickTells(s: Sys, pid: nat, env: Env)
    requires pid in s.procs && s.procs[pid].PrepareCopy? && env.copying.Tick?
    ensures
      var p, t := s.procs[pid], CopyStep(s, pid, env);
      pid in t.procs &&
      if t.procs[pid] == p then
        && env.copying.space && s.disk.current.Some? && s.disk.current.value.id == p.id
        && t.disk == s.disk.(current := Some(s.disk.current.value.(bytes := |p.got|)))
      else t.procs[pid].Failing? && t.disk == s.disk
  {
  }

  predicate Current(s: Sys, id: string) {
    s.disk.current.Some? && s.disk.current.value.id == id && IsId(id)
  }

  function FailedJob(st: State): State {
    if st.phase == Discarded then st else st.(phase := Failed, confirmation := "")
  }

  /** A worker that gives up records the failure with the first attempt that goes through and
      then, if the job was not being flashed for good, removes its image. */
  lemma FailureCleansUp(s: Sys, pid: nat, env: Env)
    requires pid in s.procs && s.procs[pid].Failing? && s.procs[pid].tries < ATTEMPTS && Current(s, s.procs[pid].id)
    requires env.io == Fine && env.ok && IsId(env.tok)
    ensures
      var id, st := s.procs[pid].id, s.disk.current.value;
      var n := if st.flashStarted then 2 else 3;
      && CanRun(s, Steps(pid, env, n))
      && var t := Run(s, Steps(pid, env, n));
         && pid !in t.procs && t.disk.current == Some(FailedJob(st))
         && t.disk.images == (if st.flashStarted then s.disk.images else s.disk.images - {id})
  {
    var p, st := s.procs[pid], s.disk.current.value;
    var s1 := WorkStep(s, pid, env);
    assert s1.procs[pid] == Failing(p.id, p.lock, ATTEMPTS, !st.flashStarted) && s1.disk == s.disk.(current := Some(FailedJob(st)));
    var s2 := WorkStep(s1, pid, env);
    if st.flashStarted {
      OneStep(s1, pid, env, 0);
      OneStep(s, pid, env, 1);
    } else {
      assert s2.procs[pid] == Removing(p.id, p.lock);
      OneStep(s2, pid, env, 0);
      OneStep(s1, pid, env, 1);
      OneStep(s, pid, env, 2);
    }
  }

  /** A sysupgrade that returns a failure is recorded, and the image it was given stays. */
  lemma FlashFailureIsRecorded(s: Sys, pid: nat, bad: Env, good: Env)
    requires Inv(s) && pid in s.procs && s.procs[pid].FlashRunning? && !bad.ok && IsId(bad.tok)
    requires good.io == Fine && good.ok && IsId(good.tok)
    ensures
      var actions := [Work(pid, bad)] + Steps(pid, good, 2);
      && s.disk.current.Some? && CanRun(s, actions)
      && Run(s, actions).disk == s.disk.(current := Some(s.disk.current.value.(phase := Failed, confirmation := "")))
  {
    assert ProcOk(s, pid, s.procs[pid]);
    var s1 := WorkStep(s, pid, bad);
    FailureCleansUp(s1, pid, good);
    assert ([Work(pid, bad)] + Steps(pid, good, 2))[1..] == Steps(pid, good, 2);
  }
}
