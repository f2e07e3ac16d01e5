/** The Run store: the service's transactions over the table of Runs.  Each method loads
    the row it locked, changes that copy step by step, and commits it with one assignment;
    an error leaves before the commit.  app/service/runs.py. */
module RunStore {
  import opened Outcomes
  import opened CanonicalJson
  import opened RunModel
  import opened RunSteps
  import opened RunRequests
  import opened RunAdmission

  /** The method's effect on the table and its reply are those of one step of one Run; a
      Run that does not exist is reported and nothing is written. */
  predicate Performs(cfg: Settings, before: Table, after: Table, id: RunId, a: Action, t: Tick, reply: Reply)
  {
    if id !in before then after == before && reply == Refused(NotFound)
    else
      var step := Apply(cfg, before[id].run, a, t);
      after == WithRun(before, id, step.run) && reply == step.reply
  }

  class RunStore {
    const cfg: Settings
    const limit: nat
    var rows: Table

    constructor (cfg: Settings, limit: nat)
      ensures this.cfg == cfg && this.limit == limit && rows == map[]
    {
      this.cfg, this.limit, this.rows := cfg, limit, map[];
    }

    method Commit(id: RunId, run: Run)
      requires id in rows
      modifies this`rows
      ensures rows == WithRun(old(rows), id, run)
    {
      rows := rows[id := rows[id].(run := run)];
    }

    // -------------------------------------------------------------- claiming

    /** The sweep loops of `claim_next`, over a working copy of the table. */
    method SweepAll(table: Table, ids: seq<RunId>, a: Action, now: Time) returns (swept: Option<Table>)
      requires forall i | 0 <= i < |ids| :: ids[i] in table
      ensures swept == Sweep(cfg, table, ids, a, Instant(now))
    {
      var work := table;
      for i := 0 to |ids|
        invariant work.Keys == table.Keys
        invariant Sweep(cfg, table, ids, a, Instant(now)) == Sweep(cfg, work, ids[i..], a, Instant(now))
      {
        var step := Apply(cfg, work[ids[i]].run, a, Instant(now));
        if step.reply.Refused? { return None; }
        work := WithRun(work, ids[i], step.run);
      }
      return Some(work);
    }

    method ClaimNext(poll: Poll, now: Time) returns (answer: Answer)
      requires Polled(rows, poll)
      modifies this`rows
      ensures rows == Dispatch(cfg, old(rows), poll, now).table
      ensures answer == Dispatch(cfg, old(rows), poll, now).answer
    {
      SweepKeepsKeys(cfg, rows, poll.expired, DoExpire(poll.bytes), Instant(now));
      var waited := SweepAll(rows, poll.expired, DoExpire(poll.bytes), now);
      if waited.None? { return Rejected(RunEventLimit); }
      SweepKeepsKeys(cfg, waited.value, poll.abandoned, DoSettle(poll.bytes), Instant(now));
      var settled := SweepAll(waited.value, poll.abandoned, DoSettle(poll.bytes), now);
      if settled.None? { return Rejected(RunEventLimit); }
      if poll.next.None? || !Claimable(settled.value[poll.next.value].run, now) {
        rows := settled.value;
        return Nothing;
      }
      var id := poll.next.value;
      var run := settled.value[id].run;
      var remaining := run.remaining;
      if run.activeSince.Some? && run.lease.Some? {
        var end := Min(now, run.lease.value);
        remaining := remaining - Max(0.0, end - run.activeSince.value);
      }
      if remaining <= 0.0 {
        run := run.(state := Failed);
        var failed := Record(run, Error, poll.bytes, true);
        if failed.None? { return Rejected(RunEventLimit); }
        rows := WithRun(settled.value, id, failed.value);
        return Nothing;
      }
      run := run.(state := Running, owner := Some(poll.token), generation := run.generation + 1);
      run := run.(remaining := remaining, activeSince := Some(now));
      run := run.(expiresAt := now + remaining, lease := Some(now + cfg.lease));
      var claim := Claim(poll.token, run.generation);
      var claimed := Record(run, RunClaimed, poll.bytes, false);
      if claimed.None? { return Rejected(RunEventLimit); }
      rows := WithRun(settled.value, id, claimed.value);
      return Issued(id, claim);
    }

    method ReleaseBusy(id: RunId, claim: Claim, t: Tick) returns (reply: Reply)
      modifies this`rows
      ensures Performs(cfg, old(rows), rows, id, DoRelease(claim), t, reply)
    {
      if id !in rows { return Refused(NotFound); }
      var run := rows[id].run;
      var error := Refusal(run, claim, t.checked, false, true);
      if error.Some? { return Refused(error.value); }
      if run.activeSince.Some? {
        run := run.(remaining := run.remaining - Max(0.0, t.now - run.activeSince.value));
      }
      run := run.(state := Queued, owner := None, activeSince := None);
      run := run.(lease := Some(t.now + 1.0));
      Commit(id, run);
      return Quiet;
    }

    method Heartbeat(id: RunId, claim: Claim, t: Tick) returns (reply: Reply)
      modifies this`rows
      ensures Performs(cfg, old(rows), rows, id, DoHeartbeat(claim), t, reply)
    {
      if id !in rows { return Refused(NotFound); }
      var run := rows[id].run;
      var error := Refusal(run, claim, t.checked, false, true);
      if error.Some? { return Refused(error.value); }
      run := run.(lease := Some(t.now + cfg.lease));
      Commit(id, run);
      return Quiet;
    }

    // -------------------------------------------------------------- progress

    method Append(id: RunId, claim: Claim, kind: EventKind, bytes: nat, t: Tick) returns (reply: Reply)
      modifies this`rows
      ensures id in old(rows) ==> Performs(cfg, old(rows), rows, id, DoAppend(claim, kind, bytes), t, reply)
      ensures id !in old(rows) ==> rows == old(rows) && reply.Refused?
    {
      if !Streamed(kind) { return Refused(RunEventInvalid); }
      if id !in rows { return Refused(NotFound); }
      var run := rows[id].run;
      var error := Refusal(run, claim, t.checked, false, true);
      if error.Some? { return Refused(error.value); }
      var told := Record(run, kind, bytes, false);
      if told.None? { return Refused(RunEventLimit); }
      Commit(id, told.value);
      return Quiet;
    }

    method SaveCheckpoint(id: RunId, claim: Claim, payload: Payload, size: nat, t: Tick) returns (reply: Reply)
      modifies this`rows
      ensures Performs(cfg, old(rows), rows, id, DoCheckpoint(claim, payload, size), t, reply)
    {
      if id !in rows { return Refused(NotFound); }
      var run := rows[id].run;
      var error := Refusal(run, claim, t.checked, false, true);
      if error.Some? { return Refused(error.value); }
      if size > PAYLOAD_LIMIT { return Refused(RunCheckpointLimit); }
      var revision := 1;
      if run.checkpoint.Some? { revision := run.checkpoint.value.revision + 1; }
      run := run.(checkpoint := Some(Checkpoint(revision, payload)));
      Commit(id, run);
      return Quiet;
    }

    method Complete(id: RunId, claim: Claim, matches: bool, sizes: Closing, t: Tick) returns (reply: Reply)
      modifies this`rows
      ensures Performs(cfg, old(rows), rows, id, DoComplete(claim, matches, sizes), t, reply)
    {
      if id !in rows { return Refused(NotFound); }
      var run := rows[id].run;
      var error := Refusal(run, claim, t.checked, false, true);
      if error.Some? { return Refused(error.value); }
      if !matches { return Refused(RunCheckpointDiverged); }
      if sizes.context.Some? {
        var context := Record(run, ContextUsage, sizes.context.value, true);
        if context.None? { return Refused(RunEventLimit); }
        run := context.value;
      }
      var usage := Record(run, Usage, sizes.usage, true);
      if usage.None? { return Refused(RunEventLimit); }
      var done := Record(usage.value, Done, sizes.done, true);
      if done.None? { return Refused(RunEventLimit); }
      run := done.value.(state := Succeeded);
      run := run.(owner := None, lease := None, activeSince := None);
      Commit(id, run);
      return Quiet;
    }

    // -------------------------------------------------------------- cancellation and failure

    method RequestCancel(id: RunId, bytes: nat, t: Tick) returns (reply: Reply)
      modifies this`rows
      ensures Performs(cfg, old(rows), rows, id, DoCancel(bytes), t, reply)
    {
      if id !in rows { return Refused(NotFound); }
      var run := rows[id].run;
      if !Terminal(run.state) && !run.state.Cancelling? {
        var queued := run.state.Queued? || run.state.Waiting? || run.owner.None?
                      || (run.lease.Some? && run.lease.value <= t.now);
        run := run.(state := if queued then Cancelled else Cancelling, resumeKey := None);
        var told := Record(run, if queued then RunCancelled else CancelRequested, bytes, queued);
        if told.None? { return Refused(RunEventLimit); }
        run := told.value;
      }
      Commit(id, run);
      return Quiet;
    }

    method FinishFailure(id: RunId, claim: Claim, cleanupFailed: bool, bytes: nat, t: Tick) returns (reply: Reply)
      modifies this`rows
      ensures Performs(cfg, old(rows), rows, id, DoFail(claim, cleanupFailed, bytes), t, reply)
    {
      if id !in rows { return Refused(NotFound); }
      var run := rows[id].run;
      var error := Refusal(run, claim, t.checked, true, false);
      if error.Some? { return Refused(error.value); }
      var kind;
      if run.state.Cancelling? && !cleanupFailed {
        run, kind := run.(state := Cancelled), RunCancelled;
      } else {
        run, kind := run.(state := Failed), Error;
      }
      var told := Record(run, kind, bytes, true);
      if told.None? { return Refused(RunEventLimit); }
      run := told.value.(owner := None, lease := None, activeSince := None);
      Commit(id, run);
      return Quiet;
    }

    // -------------------------------------------------------------- pause and resume

    method Pause(id: RunId, claim: Claim, payload: Payload, size: nat, question: string, key: Token, bytes: nat,
                 t: Tick) returns (reply: Reply)
      modifies this`rows
      ensures id in old(rows) ==>
        Performs(cfg, old(rows), rows, id, DoPause(claim, payload, size, question, key, bytes), t, reply)
      ensures id !in old(rows) ==> rows == old(rows) && reply.Refused?
    {
      if !TextLength(question, 4000) { return Refused(InvalidClarification); }
      if id !in rows { return Refused(NotFound); }
      var run := rows[id].run;
      var error := Refusal(run, claim, t.checked, false, true);
      if error.Some? { return Refused(error.value); }
      if size > PAYLOAD_LIMIT { return Refused(RunCheckpointLimit); }
      run := Saved(run, payload);
      var remaining := run.remaining;
      if run.activeSince.Some? { remaining := remaining - Max(0.0, t.now - run.activeSince.value); }
      if remaining <= 0.0 { return Refused(AgentTimeout); }
      run := run.(state := Waiting, remaining := remaining, resumeKey := Some(key));
      run := run.(expiresAt := t.now + cfg.wait);
      run := run.(owner := None, lease := None, activeSince := None);
      var told := Record(run, RunPaused, bytes, false);
      if told.None? { return Refused(RunEventLimit); }
      Commit(id, told.value);
      return Quiet;
    }

    method Resume(id: RunId, request: Resumption, size: nat, bytes: nat, t: Tick) returns (reply: Reply)
      modifies this`rows
      ensures id in old(rows) ==> Performs(cfg, old(rows), rows, id, DoResume(request, size, bytes), t, reply)
      ensures id !in old(rows) ==> rows == old(rows) && reply.Refused?
    {
      if !TextLength(request.supplement, 4000) { return Refused(InvalidResumeInput); }
      if request.publicQuery.Some? && !TextLength(request.publicQuery.value, 400) { return Refused(InvalidPublicInput); }
      if id !in rows { return Refused(NotFound); }
      var run := rows[id].run;
      var row := run.checkpoint;
      if row.Some? && row.value.payload.receipt.Some? && row.value.payload.receipt.value.key == request.key {
        var receipt := row.value.payload.receipt.value;
        if receipt.supplement != request.supplement || receipt.publicQuery != request.publicQuery
           || receipt.revision != request.revision {
          return Refused(ResumeConflict);
        }
        return Quiet;
      }
      if !run.state.Waiting? || row.None? || row.value.revision != request.revision
         || run.resumeKey != Some(request.key) {
        return Refused(ResumeConflict);
      }
      if !request.authorized { return Refused(CapabilityScopeChanged); }
      if request.publicQuery.Some? && !request.publicAllowed { return Refused(PublicInputNotAllowed); }
      if run.expiresAt <= t.now {
        run := run.(state := Interrupted, resumeKey := None);
        var expired := Record(run, Error, bytes, true);
        if expired.None? { return Refused(RunEventLimit); }
        Commit(id, expired.value);
        return Refused(HitlExpired);
      }
      var payload := row.value.payload;
      if request.publicQuery.Some? || payload.publicInputs.Some? {
        var previous := if payload.publicInputs.Some? then payload.publicInputs.value
                        else NoInputs(|payload.humanInputs|);
        if |previous| != |payload.humanInputs| { return Refused(RunCheckpointDiverged); }
        payload := payload.(publicInputs := Some(previous + [request.publicQuery]));
      }
      payload := payload.(humanInputs := payload.humanInputs + [request.supplement]);
      payload := payload.(receipt := Some(Receipt(request.key, request.supplement, request.publicQuery, request.revision)));
      if size > PAYLOAD_LIMIT { return Refused(RunCheckpointLimit); }
      run := run.(checkpoint := Some(Checkpoint(row.value.revision + 1, payload)));
      run := run.(state := Queued, resumeKey := None);
      var told := Record(run, RunResumed, bytes, false);
      if told.None? { return Refused(RunEventLimit); }
      Commit(id, told.value);
      return Quiet;
    }

    // -------------------------------------------------------------- operation receipts

    /** `begin_operation`: the inputs are canonicalised before the transaction. */
    method BeginOperation(id: RunId, claim: Claim, key: string, inputs: Value, readonly: bool, bytes: nat, t: Tick)
      returns (reply: Reply)
      modifies this`rows
      ensures !ValidKey(key) ==> rows == old(rows) && reply == Refused(ValueError)
      ensures ValidKey(key) && BoundedJson(inputs, VALUE_LIMIT).Raised? ==>
        rows == old(rows) && reply == Refused(BoundedJson(inputs, VALUE_LIMIT).code)
      ensures ValidKey(key) && BoundedJson(inputs, VALUE_LIMIT).Ok? ==>
        Performs(cfg, old(rows), rows, id, DoBegin(claim, key, Digest(inputs), readonly, bytes), t, reply)
    {
      if !ValidKey(key) { return Refused(ValueError); }
      var stored := BoundedJson(inputs, VALUE_LIMIT);
      if stored.Raised? { return Refused(stored.code); }
      reply := BeginRow(id, claim, key, Digest(inputs), readonly, bytes, t);
    }

    method BeginRow(id: RunId, claim: Claim, key: string, digest: Value, readonly: bool, bytes: nat, t: Tick)
      returns (reply: Reply)
      modifies this`rows
      ensures Performs(cfg, old(rows), rows, id, DoBegin(claim, key, digest, readonly, bytes), t, reply)
    {
      if id !in rows { return Refused(NotFound); }
      var run := rows[id].run;
      var error := Refusal(run, claim, t.checked, false, true);
      if error.Some? { return Refused(error.value); }
      var row;
      if key in run.operations {
        row := run.operations[key];
        if row.inputs != digest || row.readonly != readonly { return Refused(RunCheckpointDiverged); }
        if row.state.Recorded? { return Cached(row.result); }
        if row.generation == claim.generation && row.state.Started? { return Refused(OperationAlreadyRunning); }
        if !readonly {
          row := row.(state := Uncertain);
          run := run.(operations := run.operations[key := row]);
          if IsTool(key) {
            var failed := Record(run, ToolFailed, bytes, false);
            if failed.None? { return Refused(RunEventLimit); }
            run := failed.value;
          }
          Commit(id, run);
          return Refused(ToolOutcomeUncertain);
        }
        if row.attempts >= RECOVERY_LIMIT { return Refused(RunRecoveryLimit); }
        row := row.(state := Started, generation := claim.generation, attempts := row.attempts + 1);
      } else {
        if |run.operations| >= OPERATION_LIMIT { return Refused(RunCheckpointLimit); }
        row := Operation(digest, readonly, Started, claim.generation, 1, Null);
      }
      run := run.(operations := run.operations[key := row]);
      if IsTool(key) {
        var told := Record(run, ToolStarted, bytes, false);
        if told.None? { return Refused(RunEventLimit); }
        run := told.value;
      }
      Commit(id, run);
      return Fresh;
    }

    method CompleteOperation(id: RunId, claim: Claim, key: string, result: Value, c: Closure, t: Tick)
      returns (reply: Reply)
      modifies this`rows
      ensures BoundedJson(result, VALUE_LIMIT).Raised? ==>
        rows == old(rows) && reply == Refused(BoundedJson(result, VALUE_LIMIT).code)
      ensures BoundedJson(result, VALUE_LIMIT).Ok? ==>
        Performs(cfg, old(rows), rows, id, DoFinish(claim, key, Canonical(result), c), t, reply)
    {
      var stored := BoundedJson(result, VALUE_LIMIT);
      if stored.Raised? { return Refused(stored.code); }
      reply := FinishRow(id, claim, key, stored.value, c, t);
    }

    method FinishRow(id: RunId, claim: Claim, key: string, stored: Value, c: Closure, t: Tick) returns (reply: Reply)
      modifies this`rows
      ensures Performs(cfg, old(rows), rows, id, DoFinish(claim, key, stored, c), t, reply)
    {
      if id !in rows { return Refused(NotFound); }
      var run := rows[id].run;
      var error := Refusal(run, claim, t.checked, false, true);
      if error.Some? { return Refused(error.value); }
      if key !in run.operations { return Refused(RunCheckpointDiverged); }
      var row := run.operations[key];
      if !row.state.Started? || row.generation != claim.generation { return Refused(RunCheckpointDiverged); }
      row := row.(state := Recorded, result := stored);
      run := run.(operations := run.operations[key := row]);
      if IsTool(key) {
        var told := Record(run, if c.failed then ToolFailed else ToolFinished, c.toolBytes, false);
        if told.None? { return Refused(RunEventLimit); }
        run := told.value;
      }
      if !row.readonly && c.artifactBytes.Some? {
        var listed := Record(run, ArtifactsReady, c.artifactBytes.value, false);
        if listed.None? { return Refused(RunEventLimit); }
        run := listed.value;
      }
      if c.payload.Some? {
        if c.payloadSize > PAYLOAD_LIMIT { return Refused(RunCheckpointLimit); }
        run := Saved(run, c.payload.value);
      }
      Commit(id, run);
      return Quiet;
    }

    // -------------------------------------------------------------- admission

    /** `create`; `id` is the new random identifier. */
    method Create(r: Request, active: bool, id: RunId, now: Time, sizes: Sizes)
      returns (answer: Answer, ghost found: Option<RunId>, ghost busy: Option<RunId>)
      requires id !in rows
      modifies this`rows
      ensures Looked(old(rows), r, found, busy)
      ensures !active ==> rows == old(rows) && answer == Rejected(Forbidden)
      ensures active ==>
        var e := RunAdmission.Create(cfg, limit, old(rows), r, id, found, busy, now, sizes);
        rows == e.table && answer == e.answer
    {
      found, busy := None, None;
      ghost var table := rows;
      if k: RunId :| k in rows && Keyed(rows[k], r) { found := Some(k); }
      if k: RunId :| k in rows && rows[k].session == r.session && Active(rows[k].run.state) { busy := Some(k); }
      if !active { return Rejected(Forbidden), found, busy; }
      if existing: RunId :| existing in rows && Keyed(rows[existing], r) {
        found := Some(existing);
        if rows[existing].session != r.session || rows[existing].input != Normalized(r.input) {
          return Rejected(IdempotencyConflict), found, busy;
        }
        var e := Expire(rows[existing].run, now, sizes.expired);
        if e.reply.Refused? { return Rejected(RunEventLimit), found, busy; }
        Commit(existing, e.run);
        return Existing(existing), found, busy;
      }
      var work := rows;
      if holder: RunId :| holder in rows && rows[holder].session == r.session && Active(rows[holder].run.state) {
        busy := Some(holder);
        var e := Expire(rows[holder].run, now, sizes.expired);
        if e.reply.Refused? { return Rejected(RunEventLimit), found, busy; }
        if Active(e.run.state) { return Rejected(ResourceBusy), found, busy; }
        work := work[holder := work[holder].(run := e.run)];
      }
      if |ActiveOf(work, r.user)| >= limit { return Rejected(RunCapacityExceeded), found, busy; }
      var run := Created(cfg, now, sizes.started, sizes.approval);
      if run.None? { return Rejected(RunEventLimit), found, busy; }
      rows := work[id := Row(r.user, r.session, r.clientKey, Normalized(r.input), run.value)];
      return Admitted(id), found, busy;
    }
  }

  const VALUE_LIMIT: nat := 2_000_000

  /** The stored input hash, taken to be injective: the inputs in canonical form, encoded
      once more with sorted keys. */
  function Digest(inputs: Value): Value { Canonical(Canonical(inputs)) }
}
