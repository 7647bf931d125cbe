/** The updater's saved job (current.json), its image files, and what each locked
    read-modify-write does to them. */
module UpdaterStore {
  import opened Wrappers

  const MAX_IMAGE: nat := 128 * 1024 * 1024

  const ATTEMPTS: nat := 25

  datatype Phase = Downloading | Validating | Ready | Flashing | Failed | Discarded

  datatype State = State(
    id: string, phase: Phase, bytes: nat, total: nat, release: nat, sha256: string,
    allowBackup: bool, legacy: bool, confirmation: string, keepSettings: bool, flashStarted: bool)

  datatype Disk = Disk(current: Option<State>, images: map<string, Bytes>)

  /** How one attempt at a locked section goes: the lock is held by someone else, the
      saved state cannot be read, the new state cannot be written, or all goes well. */
  datatype Io = Busy | Unreadable | Unsaved | Fine

  predicate IsHex(s: string) {
    forall k :: 0 <= k < |s| ==> '0' <= s[k] <= '9' || 'a' <= s[k] <= 'f'
  }

  predicate IsId(s: string) {
    |s| == 32 && IsHex(s)
  }

  predicate IsSha(s: string) {
    |s| == 64 && IsHex(s)
  }

  predicate Active(phase: Phase) {
    phase in {Downloading, Validating, Ready, Flashing}
  }

  function NewJob(id: string, release: nat): State {
    State(id, Downloading, 0, 0, release, "", false, false, "", false, false)
  }

  /** What the function given to Store.update is shown, if it is called at all. */
  function Sees(d: Disk, id: string, io: Io): Option<State> {
    if io == Busy || io == Unreadable || d.current.None? || !IsId(d.current.value.id) || d.current.value.id != id
    then None
    else d.current
  }

  function Saved(d: Disk, io: Io, st: State): Disk {
    if io == Unsaved then d else d.(current := Some(st))
  }

  function WithoutImage(d: Disk, id: string): Disk {
    d.(images := d.images - {id})
  }

  /** Service.change: nothing happens to a discarded job, and nothing is saved when the edit refuses. */
  function Change(d: Disk, id: string, io: Io, edit: State -> Option<State>): (Disk, bool) {
    var st := Sees(d, id, io);
    if st.None? || st.value.phase == Discarded then (d, false)
    else
      var next := edit(st.value);
      if next.None? || io == Unsaved then (d, false) else (d.(current := next), true)
  }

  /** One attempt inside Service.fail: the disk, whether the update went through, and
      whether the image is to be removed afterwards. */
  function FailAttempt(d: Disk, id: string, io: Io, remove: bool): (Disk, bool, bool) {
    var st := Sees(d, id, io);
    if st.None? then (d, false, remove)
    else
      var next := if st.value.phase == Discarded then st.value
                  else st.value.(phase := Failed, confirmation := "");
      (Saved(d, io, next), io != Unsaved, !st.value.flashStarted)
  }

  /** Service.discard: the image goes before the new state is saved. */
  function Discard(d: Disk, id: string, io: Io, stuck: bool): (Disk, bool) {
    var st := Sees(d, id, io);
    if st.None? || st.value.phase == Flashing || st.value.flashStarted || stuck then (d, false)
    else (Saved(WithoutImage(d, id), io, st.value.(phase := Discarded, confirmation := "")), io != Unsaved)
  }

  /** What the two spawning calls leave when the worker could not be started. */
  function Spawned(d: Disk, st: State, spawned: bool, io: Io): Disk {
    if spawned then d else Saved(d, io, st.(phase := Failed))
  }

  predicate MayPrepare(d: Disk, io: Io) {
    io != Busy && io != Unreadable &&
    (d.current.Some? ==> !Active(d.current.value.phase) && !d.current.value.flashStarted)
  }

  /** Service.prepare once identity and release number are accepted. `stuck` says that the
      old image could not be removed, `again` how saving the error state goes. */
  function Prepare(d: Disk, id: string, release: nat, io: Io, stuck: bool, spawned: bool, again: Io): (Disk, bool) {
    if !MayPrepare(d, io) || (d.current.Some? && stuck) then (d, false)
    else
      var cleared := if d.current.Some? then WithoutImage(d, d.current.value.id) else d;
      if io == Unsaved then (cleared, false)
      else
        var st := NewJob(id, release);
        (Spawned(Saved(cleared, io, st), st, spawned, again), spawned)
  }

  predicate MayFlash(d: Disk, id: string, confirmation: string, keep: bool, io: Io) {
    IsId(id) && IsId(confirmation) &&
    var st := Sees(d, id, io);
    st.Some? && st.value.phase == Ready && st.value.confirmation == confirmation &&
    (keep ==> st.value.allowBackup)
  }

  /** Service.flash once identity is accepted: the confirmation is consumed before the worker starts. */
  function Flash(d: Disk, id: string, confirmation: string, keep: bool, io: Io, spawned: bool, again: Io): (Disk, bool) {
    if !MayFlash(d, id, confirmation, keep, io) || io == Unsaved then (d, false)
    else
      var st := d.current.value.(phase := Flashing, confirmation := "", keepSettings := keep);
      (Spawned(Saved(d, io, st), st, spawned, again), spawned)
  }

  /* The edits the workers hand to Service.change. */

  function SetMetadata(st: State, release: nat, size: nat, hash: string, legacy: bool): Option<State> {
    Some(st.(release := release, total := size, sha256 := hash, legacy := legacy))
  }

  function SetBytes(st: State, n: nat, space: bool): Option<State> {
    if space then Some(st.(bytes := n)) else None
  }

  function SetValidating(st: State, n: nat): Option<State> {
    Some(st.(phase := Validating, bytes := n))
  }

  function SetReady(st: State, allow: bool, tok: string): Option<State> {
    Some(st.(phase := Ready, allowBackup := allow, confirmation := tok))
  }

  function SetFlashStarted(st: State): Option<State> {
    if st.phase != Flashing || st.flashStarted then None else Some(st.(flashStarted := true))
  }

  /** The part of Service.validate that reads the image: bounds, size and digest. */
  predicate Rehashes(hash: Bytes -> string, d: Disk, id: string, sha: string, size: nat) {
    IsId(id) && IsSha(sha) && 0 < size <= MAX_IMAGE && id in d.images && |d.images[id]| == size && hash(d.images[id]) == sha
  }
}
