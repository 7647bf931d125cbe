/** The store as the RPC calls and workers change it in place. Each method is tied to the
    function that says what one locked section does; the retry loops are the source's own. */
module UpdaterService {
  import opened Wrappers
  import opened UpdaterStore

  /** How repeated attempts against one busy lock end: the first answer that is not Busy. */
  function Answer(tries: seq<Io>): Io {
    if tries == [] then Busy else if tries[0] != Busy then tries[0] else Answer(tries[1..])
  }

  lemma {:induction false} BusyPrefix(tries: seq<Io>, n: nat)
    requires n <= |tries| && forall k :: 0 <= k < n ==> tries[k] == Busy
    ensures Answer(tries) == Answer(tries[n..])
  {
    if n > 0 {
      BusyPrefix(tries[1..], n - 1);
      assert tries[1..][n - 1..] == tries[n..];
    } else {
      assert tries[0..] == tries;
    }
  }

  /** Service.fail with no one else acting in between: attempts until one goes through. */
  function FailAttempts(d: Disk, id: string, tries: seq<Io>, remove: bool): (Disk, bool) {
    if tries == [] then (d, remove)
    else
      var (next, done, away) := FailAttempt(d, id, tries[0], remove);
      if done then (next, away) else FailAttempts(next, id, tries[1..], away)
  }

  predicate IsCurrent(d: Disk, id: string) {
    d.current.Some? && d.current.value.id == id && IsId(id)
  }

  /** A failure is recorded if any attempt succeeds, and the image is to go if any attempt saw
      the job before its flash was started; another job, and a discarded one, stay as they are. */
  lemma {:induction false} FailureIsRecorded(d: Disk, id: string, tries: seq<Io>, remove: bool)
    ensures
      var (e, away) := FailAttempts(d, id, tries, remove);
      if !IsCurrent(d, id) then e == d && away == remove
      else
        && e.images == d.images && e.current.Some?
        && (Fine !in tries || d.current.value.phase == Discarded ==> e == d)
        && (Fine in tries && d.current.value.phase != Discarded ==>
              e.current.value == d.current.value.(phase := Failed, confirmation := ""))
        && (away <==> if Fine in tries || Unsaved in tries then !d.current.value.flashStarted else remove)
  {
    if tries != [] {
      assert tries == [tries[0]] + tries[1..];
      var (next, done, away) := FailAttempt(d, id, tries[0], remove);
      if !done { FailureIsRecorded(next, id, tries[1..], away); }
    }
  }

  /** What a discard that was accepted leaves: no image, no flash by any confirmation, and room
      for a new job. One that was refused for the job's sake leaves everything. */
  lemma DiscardedIsGone(d: Disk, id: string, io: Io, stuck: bool)
    ensures
      var (e, ok) := Discard(d, id, io, stuck);
      && e.images.Keys <= d.images.Keys && (forall k :: k in d.images && k != id ==> k in e.images && e.images[k] == d.images[k])
      && (ok ==>
            && IsCurrent(d, id) && d.current.value.phase != Flashing && !d.current.value.flashStarted
            && id !in e.images && e.current == Some(d.current.value.(phase := Discarded, confirmation := ""))
            && MayPrepare(e, Fine) && forall confirmation, keep, later :: !MayFlash(e, id, confirmation, keep, later))
      && (IsCurrent(d, id) && d.current.value.phase != Flashing && !d.current.value.flashStarted && !stuck && io == Fine ==> ok)
      && (IsCurrent(d, id) && (d.current.value.phase == Flashing || d.current.value.flashStarted) ==> e == d)
  {
  }

  /** An accepted request for a new job leaves no image of the one before. */
  lemma PreparedIsClean(d: Disk, id: string, release: nat, io: Io, stuck: bool, spawned: bool, again: Io)
    ensures
      var (e, ok) := Prepare(d, id, release, io, stuck, spawned, again);
      && (ok <==> MayPrepare(d, io) && io == Fine && spawned && !(d.current.Some? && stuck))
      && (ok ==>
            && e.current.Some? && e.current.value.id == id && e.current.value.release == release && e.current.value.phase == Downloading
            && (forall k :: k in e.images <==> k in d.images && !(d.current.Some? && k == d.current.value.id)))
      && (!ok && e.current != d.current ==>
            && e.current.Some? && e.current.value.id == id && !spawned
            && (again != Unsaved ==> !Active(e.current.value.phase)))
  {
  }

  /** A flash is accepted for the current job when ready, with its confirmation, and with its
      permission if the settings are to be kept. It uses the confirmation up, whether or not the
      worker can be started; no other part of the job and no image changes. */
  lemma FlashedOnce(d: Disk, id: string, confirmation: string, keep: bool, io: Io, spawned: bool, again: Io)
    ensures
      var (e, ok) := Flash(d, id, confirmation, keep, io, spawned, again);
      && e.images == d.images
      && (ok <==> io == Fine && spawned && IsCurrent(d, id) && d.current.value.phase == Ready && IsId(confirmation) &&
                  d.current.value.confirmation == confirmation && (keep ==> d.current.value.allowBackup))
      && (ok ==> e.current == Some(d.current.value.(phase := Flashing, confirmation := "", keepSettings := keep)))
      && (e != d ==>
            && e.current.Some? && (forall c, k, later :: !MayFlash(e, id, c, k, later))
            && (!spawned && again != Unsaved ==> !Active(e.current.value.phase)))
  {
  }

  class Store {
    var current: Option<State>
    var images: map<string, Bytes>

    constructor ()
      ensures Contents() == Disk(None, map[])
    {
      current, images := None, map[];
    }

    function Contents(): Disk
      reads this
    {
      Disk(current, images)
    }

    /** Store.lock and Store.read, and the check that the job is still this one. */
    method Open(id: string, io: Io) returns (st: Option<State>)
      ensures st == Sees(Contents(), id, io)
      ensures st.Some? ==> current == st && st.value.id == id
    {
      st := None;
      if io == Busy || io == Unreadable { return; }
      if current.Some? && IsId(current.value.id) && current.value.id == id { st := current; }
    }

    method Save(st: State, io: Io) returns (ok: bool)
      modifies this`current
      ensures ok == (io != Unsaved) && Contents() == Saved(old(Contents()), io, st)
    {
      ok := io != Unsaved;
      if ok { current := Some(st); }
    }

    method RemoveImage(id: string)
      modifies this`images
      ensures Contents() == WithoutImage(old(Contents()), id)
    {
      images := images - {id};
    }

    /** Service.change: up to 25 attempts while the lock is busy. */
    method ChangeJob(id: string, tries: seq<Io>, edit: State -> Option<State>) returns (ok: bool)
      requires |tries| == ATTEMPTS
      modifies this`current
      ensures (Contents(), ok) == Change(old(Contents()), id, Answer(tries), edit)
    {
      var n: nat := 0;
      while n < ATTEMPTS
        invariant n <= ATTEMPTS && Contents() == old(Contents())
        invariant forall k :: 0 <= k < n ==> tries[k] == Busy
      {
        var io := tries[n];
        if io != Busy {
          BusyPrefix(tries, n);
          ok := ChangeOnce(id, io, edit);
          return;
        }
        n := n + 1;
      }
      BusyPrefix(tries, ATTEMPTS);
      ok := false;
    }

    method ChangeOnce(id: string, io: Io, edit: State -> Option<State>) returns (ok: bool)
      modifies this`current
      ensures (Contents(), ok) == Change(old(Contents()), id, io, edit)
    {
      ok := false;
      var st := Open(id, io);
      if st.None? || st.value.phase == Discarded { return; }
      var next := edit(st.value);
      if next.None? { return; }
      ok := Save(next.value, io);
    }

    /** Service.fail: the image goes after the attempts, outside the lock. */
    method FailJob(id: string, tries: seq<Io>)
      requires |tries| == ATTEMPTS
      modifies this
      ensures
        var (d, away) := FailAttempts(old(Contents()), id, tries, false);
        Contents() == if away then WithoutImage(d, id) else d
    {
      var remove := false;
      var n: nat := 0;
      assert tries[0..] == tries;
      while n < ATTEMPTS
        invariant n <= ATTEMPTS
        invariant FailAttempts(Contents(), id, tries[n..], remove) == FailAttempts(old(Contents()), id, tries, false)
      {
        assert tries[n..][0] == tries[n] && tries[n..][1..] == tries[n + 1..];
        var ok;
        ok, remove := FailOnce(id, tries[n], remove);
        if ok {
          if remove { RemoveImage(id); }
          return;
        }
        n := n + 1;
      }
      if remove { RemoveImage(id); }
    }

    method FailOnce(id: string, io: Io, remove: bool) returns (ok: bool, away: bool)
      modifies this`current
      ensures (Contents(), ok, away) == FailAttempt(old(Contents()), id, io, remove)
    {
      ok, away := false, remove;
      var st := Open(id, io);
      if st.None? { return; }
      away := !st.value.flashStarted;
      var next := st.value;
      if next.phase != Discarded {
        next := next.(phase := Failed, confirmation := "");
      }
      ok := Save(next, io);
    }

    method DiscardJob(id: string, io: Io, stuck: bool) returns (ok: bool)
      modifies this
      ensures (Contents(), ok) == Discard(old(Contents()), id, io, stuck)
    {
      ok := false;
      var st := Open(id, io);
      if st.None? || st.value.phase == Flashing || st.value.flashStarted || stuck { return; }
      RemoveImage(id);
      ok := Save(st.value.(phase := Discarded, confirmation := ""), io);
    }

    method PrepareJob(id: string, release: nat, io: Io, stuck: bool, spawned: bool, again: Io) returns (ok: bool)
      modifies this
      ensures (Contents(), ok) == Prepare(old(Contents()), id, release, io, stuck, spawned, again)
    {
      ok := false;
      if io == Busy || io == Unreadable { return; }
      if current.Some? {
        if Active(current.value.phase) || current.value.flashStarted || stuck { return; }
        RemoveImage(current.value.id);
      }
      var st := NewJob(id, release);
      var saved := Save(st, io);
      if !saved { return; }
      if !spawned {
        var _ := Save(st.(phase := Failed), again);
        return;
      }
      ok := true;
    }

    method FlashJob(id: string, confirmation: string, keep: bool, io: Io, spawned: bool, again: Io) returns (ok: bool)
      modifies this
      ensures (Contents(), ok) == Flash(old(Contents()), id, confirmation, keep, io, spawned, again)
    {
      ok := false;
      if !IsId(id) || !IsId(confirmation) { return; }
      var read := Open(id, io);
      if read.None? || read.value.phase != Ready || read.value.confirmation != confirmation { return; }
      if keep && !read.value.allowBackup { return; }
      var st := read.value.(phase := Flashing, confirmation := "", keepSettings := keep);
      var saved := Save(st, io);
      if !saved { return; }
      if !spawned {
        var _ := Save(st.(phase := Failed), again);
        return;
      }
      ok := true;
    }
  }
}
