/** The journal of public events and the state machine of a Run: what every transaction
    keeps, whoever issues it and in whatever order. */
module RunJournal {
  import opened Outcomes
  import opened CanonicalJson
  import opened RunModel
  import opened RunSteps

  function TotalBytes(events: seq<Event>): nat
  {
    if events == [] then 0 else TotalBytes(events[..|events| - 1]) + events[|events| - 1].bytes
  }

  /** Events are numbered 1..n without a gap, each has its outbox row, and the charged
      bytes are the sum of what is stored. */
  predicate Numbered(j: Journal)
  {
    && j.sequence == |j.events| == |j.outbox|
    && (forall i | 0 <= i < |j.events| :: j.events[i].sequence == i + 1)
    && (forall i | 0 <= i < |j.outbox| :: j.outbox[i] == i + 1)
    && j.bytes == TotalBytes(j.events)
  }

  predicate NothingFinal(events: seq<Event>) { forall i | 0 <= i < |events| :: !Final(events[i].kind) }

  predicate Open(j: Journal)
  {
    Numbered(j) && NothingFinal(j.events) && j.sequence <= EVENT_LIMIT && j.bytes <= BYTE_LIMIT
  }

  /** Exactly one final event, in last place. */
  predicate Closed(j: Journal, ending: EventKind)
  {
    && Numbered(j) && 0 < j.sequence <= FINAL_EVENT_LIMIT && j.bytes <= FINAL_BYTE_LIMIT
    && j.events[j.sequence - 1].kind == ending
    && NothingFinal(j.events[..j.sequence - 1])
  }

  /** The one final event each terminal state ends with. */
  function Ending(s: State): EventKind
    requires Terminal(s)
  {
    if s.Succeeded? then Done else if s.Cancelled? then RunCancelled else Error
  }

  /** An unfinished Run leaves the reserve untouched and holds no final event; a finished
      one holds exactly one, the one of its state, in last place. */
  predicate Sound(run: Run)
  {
    if Active(run.state) then Open(run.journal) else Closed(run.journal, Ending(run.state))
  }

  lemma ExtendedIsNumbered(j: Journal, kind: EventKind, bytes: nat)
    requires Numbered(j)
    ensures Numbered(Extended(j, kind, bytes))
    ensures NothingFinal(j.events) && !Final(kind) ==> NothingFinal(Extended(j, kind, bytes).events)
  {
    assert Extended(j, kind, bytes).events[..|j.events|] == j.events;
  }

  /** An ordinary event keeps an open journal open. */
  lemma OpenStaysOpen(j: Journal, kind: EventKind, bytes: nat)
    requires Open(j) && !Final(kind) && Fits(j, bytes, false)
    ensures Open(Extended(j, kind, bytes))
  {
    ExtendedIsNumbered(j, kind, bytes);
  }

  /** A final event closes it. */
  lemma FinalCloses(j: Journal, kind: EventKind, bytes: nat)
    requires Numbered(j) && NothingFinal(j.events) && Final(kind) && Fits(j, bytes, true)
    ensures Closed(Extended(j, kind, bytes), kind)
  {
    ExtendedIsNumbered(j, kind, bytes);
    assert Extended(j, kind, bytes).events[..j.sequence] == j.events;
  }

  /** How one transaction may change the journal together with the state. */
  ghost predicate Moves(a: Run, b: Run)
  {
    || (a.journal == b.journal && (a.state == b.state || (Active(a.state) && Active(b.state))))
    || (Active(a.state) && Active(b.state) && Grows(a.journal, b.journal))
    || (Active(a.state) && Terminal(b.state) && Ends(a.journal, b.journal, Ending(b.state)))
  }

  predicate Adds(j: Journal, k: Journal, e: Event)
  {
    !Final(e.kind) && Fits(j, e.bytes, false) && k == Extended(j, e.kind, e.bytes)
  }

  ghost predicate Grows(j: Journal, k: Journal)
  {
    exists e :: Adds(j, k, e)
  }

  predicate AddsFinal(j: Journal, k: Journal, ending: EventKind, bytes: nat)
  {
    Fits(j, bytes, true) && k == Extended(j, ending, bytes)
  }

  ghost predicate Ends(j: Journal, k: Journal, ending: EventKind)
  {
    exists bytes :: AddsFinal(j, k, ending, bytes)
  }

  lemma MovesKeepSound(a: Run, b: Run)
    requires Sound(a) && Moves(a, b)
    ensures Sound(b)
  {
    if a.journal == b.journal {
    } else if Active(b.state) {
      var e :| Adds(a.journal, b.journal, e);
      OpenStaysOpen(a.journal, e.kind, e.bytes);
    } else {
      var bytes :| AddsFinal(a.journal, b.journal, Ending(b.state), bytes);
      FinalCloses(a.journal, Ending(b.state), bytes);
    }
  }

  /** Every transaction that appends at most one event. */
  lemma StepMoves(cfg: Settings, run: Run, a: Action, t: Tick)
    requires !a.DoComplete? && !a.DoBegin? && !a.DoFinish?
    ensures Moves(run, Apply(cfg, run, a, t).run)
  {
    var after := Apply(cfg, run, a, t).run;
    if after.journal != run.journal {
      match a
      case DoExpire(bytes) => assert AddsFinal(run.journal, after.journal, Error, bytes);
      case DoSettle(bytes) => assert AddsFinal(run.journal, after.journal, RunCancelled, bytes);
      case DoClaim(token, bytes) =>
        if after.state.Failed? { assert AddsFinal(run.journal, after.journal, Error, bytes); }
        else { assert Adds(run.journal, after.journal, Event(0, RunClaimed, bytes)); }
      case DoAppend(claim, kind, bytes) => assert Adds(run.journal, after.journal, Event(0, kind, bytes));
      case DoCancel(bytes) =>
        if after.state.Cancelled? { assert AddsFinal(run.journal, after.journal, RunCancelled, bytes); }
        else { assert Adds(run.journal, after.journal, Event(0, CancelRequested, bytes)); }
      case DoFail(claim, cleanupFailed, bytes) =>
        assert AddsFinal(run.journal, after.journal, Ending(after.state), bytes);
      case DoPause(claim, payload, size, question, key, bytes) =>
        assert Adds(run.journal, after.journal, Event(0, RunPaused, bytes));
      case DoResume(request, size, bytes) =>
        if after.state.Interrupted? { assert AddsFinal(run.journal, after.journal, Error, bytes); }
        else { assert Adds(run.journal, after.journal, Event(0, RunResumed, bytes)); }
      case _ =>
    }
  }

  lemma CompleteKeepsSound(run: Run, claim: Claim, t: Tick, matches: bool, sizes: Closing)
    requires Sound(run)
    ensures Sound(Complete(run, claim, t, matches, sizes).run)
  {
    var step := Complete(run, claim, t, matches, sizes);
    if step.reply.Quiet? {
      var j0 := run.journal;
      var j1 := if sizes.context.None? then j0 else Extended(j0, ContextUsage, sizes.context.value);
      if sizes.context.Some? { ExtendedIsNumbered(j0, ContextUsage, sizes.context.value); }
      var j2 := Extended(j1, Usage, sizes.usage);
      ExtendedIsNumbered(j1, Usage, sizes.usage);
      FinalCloses(j2, Done, sizes.done);
      assert step.run.journal == Extended(j2, Done, sizes.done);
    }
  }

  ghost predicate Stays(j: Journal, k: Journal) { k == j || Grows(j, k) }

  lemma StaysOpen(j: Journal, k: Journal)
    requires Open(j) && Stays(j, k)
    ensures Open(k)
  {
    if k != j {
      var e :| Adds(j, k, e);
      OpenStaysOpen(j, e.kind, e.bytes);
    }
  }

  lemma RecordStays(run: Run, kind: EventKind, bytes: nat)
    requires !Final(kind) && Record(run, kind, bytes, false).Some?
    ensures Stays(run.journal, Record(run, kind, bytes, false).value.journal)
  {
    assert Adds(run.journal, Extended(run.journal, kind, bytes), Event(0, kind, bytes));
  }

  lemma AnnounceStays(run: Run, key: string, kind: EventKind, bytes: nat)
    requires !Final(kind) && Announce(run, key, kind, bytes).Some?
    ensures Stays(run.journal, Announce(run, key, kind, bytes).value.journal)
  {
    if IsTool(key) { RecordStays(run, kind, bytes); }
  }

  lemma BeginStays(run: Run, claim: Claim, t: Tick, key: string, digest: Value, readonly: bool, bytes: nat)
    ensures Stays(run.journal, Begin(run, claim, t, key, digest, readonly, bytes).run.journal)
  {
    var after := Begin(run, claim, t, key, digest, readonly, bytes).run;
    if after != run {
      var written := run.(operations := after.operations);
      AnnounceStays(written, key, if after.operations[key].state.Uncertain? then ToolFailed else ToolStarted, bytes);
    }
  }

  lemma FinishStays(run: Run, claim: Claim, t: Tick, key: string, stored: Value, c: Closure) returns (mid: Journal)
    ensures Stays(run.journal, mid) && Stays(mid, Finish(run, claim, t, key, stored, c).run.journal)
  {
    mid := run.journal;
    if Finish(run, claim, t, key, stored, c).reply.Quiet? {
      var row := run.operations[key];
      var written := run.(operations := run.operations[key := row.(state := Recorded, result := stored)]);
      var kind := if c.failed then ToolFailed else ToolFinished;
      AnnounceStays(written, key, kind, c.toolBytes);
      var told := Announce(written, key, kind, c.toolBytes).value;
      mid := told.journal;
      if !row.readonly && c.artifactBytes.Some? { RecordStays(told, ArtifactsReady, c.artifactBytes.value); }
    }
  }

  lemma ReceiptsKeepSound(cfg: Settings, run: Run, a: Action, t: Tick)
    requires Sound(run) && (a.DoBegin? || a.DoFinish?)
    ensures Sound(Apply(cfg, run, a, t).run)
  {
    var after := Apply(cfg, run, a, t).run;
    ReceiptsTouchOnlyReceipts(cfg, run, a, t);
    if after != run {
      if a.DoBegin? {
        BeginStays(run, a.claim, t, a.key, a.digest, a.readonly, a.bytes);
        StaysOpen(run.journal, after.journal);
      } else {
        var mid := FinishStays(run, a.claim, t, a.key, a.stored, a.closure);
        StaysOpen(run.journal, mid);
        StaysOpen(mid, after.journal);
      }
    }
  }

  /** Every transaction keeps the journal well formed. */
  lemma StepKeepsSound(cfg: Settings, run: Run, a: Action, t: Tick)
    requires Sound(run)
    ensures Sound(Apply(cfg, run, a, t).run)
  {
    match a
    case DoComplete(claim, matches, sizes) => CompleteKeepsSound(run, claim, t, matches, sizes);
    case DoBegin(_, _, _, _, _) => ReceiptsKeepSound(cfg, run, a, t);
    case DoFinish(_, _, _, _) => ReceiptsKeepSound(cfg, run, a, t);
    case _ =>
      StepMoves(cfg, run, a, t);
      MovesKeepSound(run, Apply(cfg, run, a, t).run);
  }

  lemma CreationStartsJournal(cfg: Settings, now: Time, started: nat, approval: Option<nat>)
    requires Created(cfg, now, started, approval).Some?
    ensures Sound(Created(cfg, now, started, approval).value)
  {
    var j := Journal(0, 0, [], []);
    OpenStaysOpen(j, RunStarted, started);
    if approval.Some? { OpenStaysOpen(Extended(j, RunStarted, started), ToolApprovalGranted, approval.value); }
  }

  // ---------------------------------------------------------------- the reserve

  /** While a Run is unfinished there is always room for one final event of any
      permitted size: an error or a cancellation is never refused. */
  lemma FinalEventAlwaysFits(run: Run, kind: EventKind, bytes: nat)
    requires Sound(run) && Active(run.state) && bytes <= ONE_EVENT_LIMIT
    ensures Record(run, kind, bytes, true).Some?
  {
  }

  /** So a worker that still holds its claim can always settle a failure. */
  lemma FailureIsNeverRefused(run: Run, claim: Claim, t: Tick, cleanupFailed: bool, bytes: nat)
    requires Sound(run) && Holds(run, claim, t.checked) && bytes <= ONE_EVENT_LIMIT
    ensures var s := FinishFailure(run, claim, t, cleanupFailed, bytes);
      s.reply.Quiet? && Terminal(s.run.state)
      && (s.run.state.Cancelled? <==> run.state.Cancelling? && !cleanupFailed)
      && !Holds(s.run, claim, t.checked)
  {
  }

  /** The reserve does not cover the announcement of a cancellation: a running Run whose
      ordinary allowance is spent refuses the request, and only then. */
  lemma CancellationIsRefusedExactlyWhenFull(run: Run, now: Time, bytes: nat)
    requires Sound(run) && run.state.Running? && bytes <= ONE_EVENT_LIMIT
    ensures RequestCancel(run, now, bytes).reply == Refused(RunEventLimit)
      <==> !CancelsAtOnce(run, now) && (run.journal.sequence == EVENT_LIMIT || run.journal.bytes + bytes > BYTE_LIMIT)
  {
  }

  /** Nor does it cover the announcement of a takeover: an abandoned Run with budget left
      cannot be claimed again once its ordinary allowance is spent. */
  lemma TakeoverIsRefusedExactlyWhenFull(cfg: Settings, run: Run, token: Token, now: Time, bytes: nat)
    requires Sound(run) && Claimable(run, now) && bytes <= ONE_EVENT_LIMIT
    ensures ClaimNext(cfg, run, token, now, bytes).reply == Refused(RunEventLimit)
      <==> Budget(run, now) > 0.0 && (run.journal.sequence == EVENT_LIMIT || run.journal.bytes + bytes > BYTE_LIMIT)
  {
  }

  // ---------------------------------------------------------------- the state machine

  /** A finished Run is never changed again, in any column. */
  lemma TerminalIsAbsorbing(cfg: Settings, run: Run, a: Action, t: Tick)
    requires Terminal(run.state)
    ensures Apply(cfg, run, a, t).run == run
  {
  }

  predicate Follows(s: State, n: State)
  {
    || n == s
    || (s.Queued? && (n.Running? || n.Failed? || n.Cancelled?))
    || (s.Running? && (n.Queued? || n.Waiting? || n.Cancelling? || n.Succeeded? || n.Failed? || n.Cancelled?))
    || (s.Waiting? && (n.Queued? || n.Interrupted? || n.Cancelled?))
    || (s.Cancelling? && (n.Cancelled? || n.Failed?))
  }

  lemma StatesFollow(cfg: Settings, run: Run, a: Action, t: Tick)
    ensures Follows(run.state, Apply(cfg, run, a, t).run.state)
  {
    ReceiptsTouchOnlyReceipts(cfg, run, a, t);
  }

  // ---------------------------------------------------------------- whole histories

  /** One transaction of a history: when it ran and what it asked for. */
  datatype Moment = Moment(at: Tick, action: Action)

  function Replay(cfg: Settings, run: Run, history: seq<Moment>): Run
    decreases |history|
  {
    if history == [] then run
    else Replay(cfg, Apply(cfg, run, history[0].action, history[0].at).run, history[1..])
  }

  /** After any history whatever the journal is well formed. */
  lemma {:induction false} JournalAlways(cfg: Settings, run: Run, history: seq<Moment>)
    decreases |history|
    requires Sound(run)
    ensures Sound(Replay(cfg, run, history))
  {
    if history != [] {
      StepKeepsSound(cfg, run, history[0].action, history[0].at);
      JournalAlways(cfg, Apply(cfg, run, history[0].action, history[0].at).run, history[1..]);
    }
  }

  /** Once cancellation is requested the Run can only end cancelled or failed. */
  lemma {:induction false} CancellationIsFinal(cfg: Settings, run: Run, history: seq<Moment>)
    decreases |history|
    requires run.state.Cancelling? || run.state.Cancelled? || run.state.Failed?
    ensures var s := Replay(cfg, run, history).state; s.Cancelling? || s.Cancelled? || s.Failed?
  {
    if history != [] {
      StatesFollow(cfg, run, history[0].action, history[0].at);
      CancellationIsFinal(cfg, Apply(cfg, run, history[0].action, history[0].at).run, history[1..]);
    }
  }

  /** Published events are never rewritten: the journal only grows at its end. */
  lemma {:induction false} JournalOnlyGrows(cfg: Settings, run: Run, history: seq<Moment>)
    decreases |history|
    ensures run.journal.events <= Replay(cfg, run, history).journal.events
  {
    if history != [] {
      var next := Apply(cfg, run, history[0].action, history[0].at).run;
      StepExtendsJournal(cfg, run, history[0].action, history[0].at);
      JournalOnlyGrows(cfg, next, history[1..]);
    }
  }

  lemma StepExtendsJournal(cfg: Settings, run: Run, a: Action, t: Tick)
    ensures run.journal.events <= Apply(cfg, run, a, t).run.journal.events
  {
  }
}
