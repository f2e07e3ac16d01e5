/** The automatic memory service: its transactions over the rows of one user, and the worker's
    claim.  app/service/automatic_memory.py, app/dao/postgres/automatic_memory.py. */
module MemoryService {
  import opened Outcomes
  import opened MemoryModel

  class MemoryService {
    var consent: Option<Consent>
    var memories: map<Place, Memory>
    var jobs: seq<Job>

    ghost function View(): Store
      reads this
    {
      Store(consent, memories, jobs)
    }

    constructor ()
      ensures View() == Store(None, map[], [])
    {
      consent, memories, jobs := None, map[], [];
    }

    // -------------------------------------------------------------- requests

    /** The tombstone loop shared by clearing and cleaning up, over the rows chosen. */
    method Tombstone(places: set<Place>, state: Presence)
      requires places <= memories.Keys
      modifies this`memories
      ensures memories.Keys == old(memories).Keys
      ensures forall p :: p in memories ==>
                memories[p] == if p in places then old(memories)[p].(state := state, content := "") else old(memories)[p]
    {
      var left := places;
      while left != {}
        invariant left <= places && memories.Keys == old(memories).Keys
        invariant forall p :: p in memories ==>
                    memories[p] == if p in places - left then old(memories)[p].(state := state, content := "") else old(memories)[p]
      {
        var p :| p in left;
        memories := memories[p := memories[p].(state := state, content := "")];
        left := left - {p};
      }
    }

    /** `enqueue`: the key is looked up first. */
    method AddJob(generation: nat, key: Key, now: Time)
      modifies this`jobs
      ensures jobs == Enqueue(old(jobs), generation, key, now)
    {
      var i := 0;
      while i < |jobs|
        invariant i <= |jobs| && jobs == old(jobs)
        invariant forall k :: 0 <= k < i ==> jobs[k].generation != generation || jobs[k].key != key
      {
        if jobs[i].generation == generation && jobs[i].key == key { return; }
        i := i + 1;
      }
      jobs := jobs + [Job(generation, key, Pending, UNSTARTED, None, None, now, 0)];
    }

    method ClearAll(now: Time)
      modifies this
      ensures View() == MemoryModel.Clear(old(View()), now)
    {
      var c := Settled(consent);
      var previous := c.generation;
      consent := Some(c.(generation := previous + 1));
      Tombstone((set p | p in memories && p.generation == previous), Deleting);
      assert memories == Tombstoned(old(memories), previous, Deleting);
      AddJob(previous, Purge, now);
    }

    method SetEnabled(enabled: bool, now: Time)
      modifies this
      ensures View() == MemoryModel.SetEnabled(old(View()), enabled, now)
    {
      if Settled(consent).enabled == enabled {
        consent := Some(Settled(consent));
        return;
      }
      if !enabled { ClearAll(now); }
      consent := Some(Settled(consent).(enabled := enabled));
    }

    method Delete(p: Place, now: Time) returns (found: bool)
      modifies this
      ensures View() == DeleteMemory(old(View()), p, now)
      ensures found <==> p in old(memories) && old(consent).Some? && p.generation == old(consent).value.generation
    {
      if p !in memories || consent.None? || p.generation != consent.value.generation { return false; }
      memories := memories[p := memories[p].(state := Deleting, content := "")];
      AddJob(p.generation, Key.Delete(p), now);
      return true;
    }

    method CaptureMessage(source: int, eligible: bool, now: Time)
      modifies this
      ensures View() == EnqueueCapture(old(View()), source, eligible, now)
    {
      if consent.None? || !consent.value.enabled || !eligible { return; }
      AddJob(consent.value.generation, Capture(source), now);
    }

    // -------------------------------------------------------------- the worker

    /** Whether an older unfinished job of the same generation exists. */
    method Preceded(i: nat) returns (yes: bool)
      requires i < |jobs|
      ensures yes <==> exists k :: 0 <= k < i && jobs[k].generation == jobs[i].generation && Active(jobs[k])
    {
      var k := 0;
      while k < i
        invariant k <= i
        invariant forall n :: 0 <= n < k ==> jobs[n].generation != jobs[i].generation || !Active(jobs[n])
      {
        if jobs[k].generation == jobs[i].generation && Active(jobs[k]) { return true; }
        k := k + 1;
      }
      return false;
    }

    /** `claim`: the oldest claimable job, if any. */
    method Claim(token: Token, now: Time) returns (claimed: Option<nat>)
      modifies this`jobs
      ensures claimed.None? ==> jobs == old(jobs) && forall i :: 0 <= i < |jobs| ==> !Claimable(jobs, i, now)
      ensures claimed.Some? ==>
                && claimed.value < |old(jobs)| && Claimable(old(jobs), claimed.value, now)
                && (forall i :: 0 <= i < claimed.value ==> !Claimable(old(jobs), i, now))
                && View() == Claimed(old(View()), claimed.value, token, now)
    {
      var i := 0;
      while i < |jobs|
        invariant i <= |jobs| && jobs == old(jobs)
        invariant forall k :: 0 <= k < i ==> !Claimable(jobs, k, now)
      {
        if Active(jobs[i]) && jobs[i].availableAt <= now && (jobs[i].lease.None? || jobs[i].lease.value < now) {
          var waits := Preceded(i);
          if !waits {
            jobs := jobs[i := jobs[i].(owner := Some(token), lease := Some(now + LEASE), state := Running)];
            return Some(i);
          }
        }
        i := i + 1;
      }
      return None;
    }

    method SaveProgress(i: nat, token: Token, receipt: Receipt, state: JobState, at: Time, now: Time, poll: Time)
      returns (kept: bool)
      modifies this`jobs
      ensures kept <==> Owned(old(View()), i, token, at)
      ensures View() == if kept then Progressed(old(View()), i, receipt, state, now, poll) else old(View())
    {
      if !Fence(i, token, at) { return false; }
      var current := jobs[i].(receipt := receipt, state := state);
      if state.Running? { current := current.(lease := Some(now + LEASE)); }
      if !state.Running? { current := current.(lease := None, availableAt := now + poll); }
      jobs := jobs[i := current];
      return true;
    }

    predicate Fence(i: nat, token: Token, at: Time)
      reads this`jobs
    {
      && i < |jobs| && jobs[i].owner == Some(token) && jobs[i].state.Running?
      && jobs[i].lease.Some? && at < jobs[i].lease.value
    }

    /** `_publish`: false when the lease is lost or a change is malformed, and nothing is written. */
    method Publish(i: nat, token: Token, o: Operations, at: Time) returns (written: bool)
      modifies this
      ensures written <==> Owned(old(View()), i, token, at) && Published(old(View()), i, o).Some?
      ensures View() == if written then Published(old(View()), i, o).value else old(View())
    {
      if !Fence(i, token, at) { return false; }
      var generation := jobs[i].generation;
      if consent.None? || !consent.value.enabled || consent.value.generation != generation {
        jobs := jobs[i := jobs[i].(state := Cancelled, lease := None)];
        return true;
      }
      if |o.adds| > CHANGE_LIMIT || |o.updates| > CHANGE_LIMIT || |o.deletes| > CHANGE_LIMIT { return false; }
      var changes := o.adds + o.updates + o.deletes;
      var work := memories;
      var k := 0;
      while k < |changes|
        invariant k <= |changes| && View() == old(View())
        invariant AllChanged(memories, generation, changes) == AllChanged(work, generation, changes[k..])
      {
        assert changes[k..][1..] == changes[k + 1..];
        var c := changes[k];
        if c.uri.None? { return false; }
        var p := Place(generation, c.uri.value);
        if c.Drop? {
          if p in work { work := work[p := work[p].(state := Deleted, content := "")]; }
        } else if p in work && !work[p].state.Ready? {
        } else {
          if !ValidContent(c.content) { return false; }
          if p !in work {
            work := work[p := Memory(Ready, c.content, 1)];
          } else if work[p].content != c.content {
            work := work[p := work[p].(content := c.content, version := work[p].version + 1)];
          }
        }
        k := k + 1;
      }
      memories := work;
      jobs := jobs[i := jobs[i].(state := Succeeded, lease := None)];
      return true;
    }

    /** `mark_source_removed` under the cleanup's fence. */
    method MarkSourceRemoved(i: nat, token: Token, capture: nat, at: Time) returns (kept: bool)
      requires capture < |jobs|
      modifies this`jobs
      ensures kept <==> Owned(old(View()), i, token, at)
      ensures View() == if kept then MarkedRemoved(old(View()), capture) else old(View())
    {
      if !Fence(i, token, at) { return false; }
      jobs := jobs[capture := jobs[capture].(receipt := jobs[capture].receipt.(removed := true))];
      return true;
    }

    /** The last transaction of `_cleanup`. */
    method FinishCleanup(i: nat, token: Token, at: Time) returns (kept: bool)
      requires i < |jobs| ==> !jobs[i].key.Capture?
      modifies this
      ensures kept <==> Owned(old(View()), i, token, at)
      ensures View() == if kept then CleanedUp(old(View()), i) else old(View())
    {
      if !Fence(i, token, at) { return false; }
      var job := jobs[i];
      Tombstone((set p | p in memories && p.generation == job.generation && (job.key.Purge? || p.uri == job.key.place.uri)),
                Deleted);
      jobs := jobs[i := job.(state := Succeeded, lease := None)];
      assert memories == CleanedUp(old(View()), i).memories;
      return true;
    }

    /** The error handler of `run_once`. */
    method Fail(i: nat, token: Token, cleanupUncertain: bool, at: Time, now: Time, delay: Time) returns (kept: bool)
      modifies this`jobs
      ensures kept <==> Owned(old(View()), i, token, at)
      ensures View() == if kept then Faulted(old(View()), i, cleanupUncertain, now, delay) else old(View())
    {
      if !Fence(i, token, at) { return false; }
      var current := jobs[i].(attempts := jobs[i].attempts + 1);
      if current.receipt.phase.Appending? || current.receipt.phase.Committing? || cleanupUncertain {
        current := current.(state := Uncertain);
      } else if current.attempts >= ATTEMPT_LIMIT {
        current := current.(state := Failed);
      } else {
        current := current.(state := Pending);
      }
      jobs := jobs[i := current.(lease := None, availableAt := now + delay)];
      return true;
    }
  }
}
