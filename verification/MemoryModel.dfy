/** The automatic memory of one user: consent, memory rows and the queue of synchronization
    jobs, with the transactions over them.  app/service/automatic_memory.py,
    app/dao/postgres/automatic_memory.py.  Jobs are listed in the order they were created. */
module MemoryModel {
  import opened Outcomes
  import opened PythonText

  type Time = real
  type Token = int

  datatype Consent = Consent(enabled: bool, generation: nat)

  /** Rows are unique per generation and address. */
  datatype Place = Place(generation: nat, uri: string)

  datatype Presence = Ready | Deleting | Deleted

  datatype Memory = Memory(state: Presence, content: string, version: nat)

  datatype Phase = New | Appending | Appended | Committing | Awaiting

  datatype Receipt = Receipt(phase: Phase, task: Option<int>, removed: bool)

  /** The deduplication key; its form is the kind of the job. */
  datatype Key = Capture(source: int) | Delete(place: Place) | Purge

  datatype JobState = Pending | Running | Parked | Succeeded | Failed | Uncertain | Cancelled

  datatype Job = Job(generation: nat, key: Key, state: JobState, receipt: Receipt,
                     owner: Option<Token>, lease: Option<Time>, availableAt: Time, attempts: nat)

  datatype Store = Store(consent: Option<Consent>, memories: map<Place, Memory>, jobs: seq<Job>)

  const LEASE: Time := 180.0
  const ATTEMPT_LIMIT: nat := 3

  predicate Active(j: Job) { j.state.Pending? || j.state.Running? || j.state.Parked? }

  const UNSTARTED := Receipt(New, None, false)

  // ---------------------------------------------------------------- consent and requests

  /** `settings(create=True)`. */
  function Settled(c: Option<Consent>): Consent { if c.Some? then c.value else Consent(false, 1) }

  /** `enqueue`: nothing when the key is already queued in this generation. */
  function Enqueue(jobs: seq<Job>, generation: nat, key: Key, now: Time): seq<Job>
  {
    if exists i | 0 <= i < |jobs| :: jobs[i].generation == generation && jobs[i].key == key then jobs
    else jobs + [Job(generation, key, Pending, UNSTARTED, None, None, now, 0)]
  }

  function Tombstoned(memories: map<Place, Memory>, generation: nat, state: Presence): map<Place, Memory>
  {
    map p | p in memories :: if p.generation == generation then memories[p].(state := state, content := "") else memories[p]
  }

  /** `_clear`: a new generation, tombstones for the old one, and a job to purge it. */
  function Cleared(s: Store, c: Consent, now: Time): Store
  {
    Store(Some(c.(generation := c.generation + 1)), Tombstoned(s.memories, c.generation, Deleting),
          Enqueue(s.jobs, c.generation, Purge, now))
  }

  function SetEnabled(s: Store, enabled: bool, now: Time): Store
  {
    var c := Settled(s.consent);
    if c.enabled == enabled then s.(consent := Some(c))
    else
      var t := if enabled then s.(consent := Some(c)) else Cleared(s, c, now);
      t.(consent := Some(t.consent.value.(enabled := enabled)))
  }

  function Clear(s: Store, now: Time): Store { Cleared(s, Settled(s.consent), now) }

  function DeleteMemory(s: Store, p: Place, now: Time): Store
  {
    if p !in s.memories || s.consent.None? || p.generation != s.consent.value.generation then s
    else s.(memories := s.memories[p := s.memories[p].(state := Deleting, content := "")],
            jobs := Enqueue(s.jobs, p.generation, Delete(p), now))
  }

  /** `enqueue_capture`; `eligible` are its checks on the message itself. */
  function EnqueueCapture(s: Store, source: int, eligible: bool, now: Time): Store
  {
    if s.consent.None? || !s.consent.value.enabled || !eligible then s
    else s.(jobs := Enqueue(s.jobs, s.consent.value.generation, Capture(source), now))
  }

  // ---------------------------------------------------------------- claims and the fence

  /** Free to be claimed, and no older unfinished job of its generation. */
  predicate Claimable(jobs: seq<Job>, i: nat, now: Time)
    requires i < |jobs|
  {
    && Active(jobs[i]) && jobs[i].availableAt <= now
    && (jobs[i].lease.None? || jobs[i].lease.value < now)
    && forall k | 0 <= k < i && jobs[k].generation == jobs[i].generation :: !Active(jobs[k])
  }

  function Claimed(s: Store, i: nat, token: Token, now: Time): Store
    requires i < |s.jobs|
  {
    s.(jobs := s.jobs[i := s.jobs[i].(owner := Some(token), lease := Some(now + LEASE), state := Running)])
  }

  /** `owned`. */
  predicate Owned(s: Store, i: nat, token: Token, at: Time)
  {
    && i < |s.jobs| && s.jobs[i].owner == Some(token) && s.jobs[i].state.Running?
    && s.jobs[i].lease.Some? && at < s.jobs[i].lease.value
  }

  /** `_save_progress`, past the fence. */
  function Progressed(s: Store, i: nat, receipt: Receipt, state: JobState, now: Time, poll: Time): Store
    requires i < |s.jobs|
  {
    var j := s.jobs[i].(receipt := receipt, state := state);
    s.(jobs := s.jobs[i := if state.Running? then j.(lease := Some(now + LEASE))
                           else j.(lease := None, availableAt := now + poll)])
  }

  /** The error handler of `run_once`, past the fence. */
  function Faulted(s: Store, i: nat, cleanupUncertain: bool, now: Time, delay: Time): Store
    requires i < |s.jobs|
  {
    var j := s.jobs[i].(attempts := s.jobs[i].attempts + 1);
    var uncertain := j.receipt.phase.Appending? || j.receipt.phase.Committing? || cleanupUncertain;
    s.(jobs := s.jobs[i := j.(state := if uncertain then Uncertain else if j.attempts >= ATTEMPT_LIMIT then Failed else Pending,
                              lease := None, availableAt := now + delay)])
  }

  // ---------------------------------------------------------------- publishing

  /** One extracted change; `Put` covers additions and updates.  The address is None when it is
      not one of the user's own in this generation, a body that is no text is empty. */
  datatype Change = Put(uri: Option<string>, content: string) | Drop(uri: Option<string>)

  datatype Operations = Operations(adds: seq<Change>, updates: seq<Change>, deletes: seq<Change>)

  const CHANGE_LIMIT := 200
  const CONTENT_LIMIT := 48000

  predicate ValidContent(content: string)
  {
    |content| <= CONTENT_LIMIT && exists i | 0 <= i < |content| :: !IsSpace(content[i])
  }

  predicate WellSized(o: Operations)
  {
    |o.adds| <= CHANGE_LIMIT && |o.updates| <= CHANGE_LIMIT && |o.deletes| <= CHANGE_LIMIT
  }

  /** One change applied to the rows of a generation; None when it is malformed. */
  function Changed(memories: map<Place, Memory>, generation: nat, c: Change): Option<map<Place, Memory>>
  {
    if c.uri.None? then None
    else ChangedAt(memories, Place(generation, c.uri.value), c)
  }

  function ChangedAt(memories: map<Place, Memory>, p: Place, c: Change): Option<map<Place, Memory>>
  {
    if c.Drop? then
      Some(if p in memories then memories[p := memories[p].(state := Deleted, content := "")] else memories)
    else if p in memories && !memories[p].state.Ready? then Some(memories)
    else if !ValidContent(c.content) then None
    else if p !in memories then Some(memories[p := Memory(Ready, c.content, 1)])
    else if memories[p].content == c.content then Some(memories)
    else Some(memories[p := memories[p].(content := c.content, version := memories[p].version + 1)])
  }

  function AllChanged(memories: map<Place, Memory>, generation: nat, changes: seq<Change>): Option<map<Place, Memory>>
    decreases |changes|
  {
    if changes == [] then Some(memories)
    else
      var next := Changed(memories, generation, changes[0]);
      if next.None? then None else AllChanged(next.value, generation, changes[1..])
  }

  predicate Consenting(s: Store, generation: nat)
  {
    s.consent.Some? && s.consent.value.enabled && s.consent.value.generation == generation
  }

  /** `_publish`, past the fence: None when a change is malformed and all is rolled back. */
  function Published(s: Store, i: nat, o: Operations): Option<Store>
    requires i < |s.jobs|
  {
    if !Consenting(s, s.jobs[i].generation) then Some(Ended(s, i, Cancelled))
    else if !WellSized(o) then None
    else
      var m := AllChanged(s.memories, s.jobs[i].generation, o.adds + o.updates + o.deletes);
      if m.None? then None else Some(Ended(s, i, Succeeded).(memories := m.value))
  }

  function Ended(s: Store, i: nat, state: JobState): Store
    requires i < |s.jobs|
  {
    s.(jobs := s.jobs[i := s.jobs[i].(state := state, lease := None)])
  }

  // ---------------------------------------------------------------- cleaning up

  /** `mark_source_removed`. */
  function MarkedRemoved(s: Store, c: nat): Store
    requires c < |s.jobs|
  {
    s.(jobs := s.jobs[c := s.jobs[c].(receipt := s.jobs[c].receipt.(removed := true))])
  }

  /** The last transaction of `_cleanup`, past the fence. */
  function CleanedUp(s: Store, i: nat): Store
    requires i < |s.jobs| && !s.jobs[i].key.Capture?
  {
    var g := s.jobs[i].generation;
    var gone := map p | p in s.memories ::
      if p.generation == g && (s.jobs[i].key.Purge? || p.uri == s.jobs[i].key.place.uri)
      then s.memories[p].(state := Deleted, content := "") else s.memories[p];
    Ended(s, i, Succeeded).(memories := gone)
  }
}
