/** The time budget of a Run.  A ledger kept beside the Run records every closed interval,
    active or waiting; the columns of the row are proved to agree with it. */
module RunBudget {
  import opened Outcomes
  import opened RunModel
  import opened RunSteps
  import opened RunJournal
  import opened RunFencing

  datatype SpanKind = Working | Pausing

  datatype Span = Span(kind: SpanKind, from: Time, to: Time)

  /** The Run, the last clock reading, its closed intervals, and since when it waits. */
  datatype Ledger = Ledger(run: Run, clock: Time, spans: seq<Span>, waitingSince: Time)

  function Worked(spans: seq<Span>): real
  {
    if spans == [] then 0.0
    else
      var s := spans[|spans| - 1];
      Worked(spans[..|spans| - 1]) + (if s.kind.Working? then s.to - s.from else 0.0)
  }

  /** When the last closed interval ended. */
  function Latest(spans: seq<Span>, else_: Time): Time
  {
    if spans == [] then else_ else spans[|spans| - 1].to
  }

  /** Intervals run forward and do not overlap. */
  predicate Disjoint(spans: seq<Span>)
  {
    && (forall i | 0 <= i < |spans| :: spans[i].from <= spans[i].to)
    && (forall i, j | 0 <= i < j < |spans| :: spans[i].to <= spans[j].from)
  }

  /** Which interval a transaction closes. */
  function Closes(l: Ledger, m: Moment, after: Step): Option<Span>
  {
    if after.reply.Claimed? && l.run.activeSince.Some? then
      // A takeover: the abandoned segment ends with the lease that was not renewed.
      Some(Span(Working, l.run.activeSince.value, if l.run.lease.None? then m.at.now else l.run.lease.value))
    else if (m.action.DoRelease? || m.action.DoPause?) && after.reply.Quiet? && l.run.activeSince.Some? then
      Some(Span(Working, l.run.activeSince.value, m.at.now))
    else if l.run.state.Waiting? && after.run.state.Queued? then Some(Span(Pausing, l.waitingSince, m.at.now))
    else None
  }

  function Advance(cfg: Settings, l: Ledger, m: Moment): Ledger
  {
    var after := Apply(cfg, l.run, m.action, m.at);
    var closed := Closes(l, m, after);
    Ledger(after.run, m.at.now,
           if closed.None? then l.spans else l.spans + [closed.value],
           if after.run.state.Waiting? && !l.run.state.Waiting? then m.at.now else l.waitingSince)
  }

  function Account(cfg: Settings, l: Ledger, history: seq<Moment>): Ledger
    decreases |history|
  {
    if history == [] then l else Account(cfg, Advance(cfg, l, history[0]), history[1..])
  }

  /** The row agrees with the ledger: what is left plus what was worked is the budget, and
      while the Run is held its deadline is exactly where the budget ends. */
  predicate Balanced(cfg: Settings, l: Ledger)
  {
    && Disjoint(l.spans)
    && l.run.remaining + Worked(l.spans) == cfg.budget
    && Latest(l.spans, l.clock) <= l.clock
    && (l.run.state.Running? || l.run.state.Cancelling? ==>
          && l.run.activeSince.Some? && l.run.lease.Some?
          && Latest(l.spans, l.run.activeSince.value) <= l.run.activeSince.value <= l.clock
          && l.run.activeSince.value < l.run.lease.value
          && l.run.expiresAt == l.run.activeSince.value + l.run.remaining)
    && (l.run.state.Queued? || l.run.state.Waiting? ==> l.run.activeSince.None?)
    && (l.run.state.Waiting? ==> Latest(l.spans, l.waitingSince) <= l.waitingSince <= l.clock)
  }

  lemma SpanKeepsDisjoint(spans: seq<Span>, s: Span)
    requires Disjoint(spans) && s.from <= s.to && Latest(spans, s.from) <= s.from
    ensures Disjoint(spans + [s]) && Worked(spans + [s]) == Worked(spans) + (if s.kind.Working? then s.to - s.from else 0.0)
  {
    assert (spans + [s])[..|spans|] == spans;
  }

  /** A closed interval is well placed, and the row charges exactly the worked ones. */
  lemma ClosedSpanFits(cfg: Settings, l: Ledger, m: Moment)
    requires Balanced(cfg, l) && l.clock <= m.at.checked && Forward(m.at)
    requires Closes(l, m, Apply(cfg, l.run, m.action, m.at)).Some?
    ensures var s := Closes(l, m, Apply(cfg, l.run, m.action, m.at)).value;
      && s.from <= s.to <= m.at.now && Latest(l.spans, s.from) <= s.from
      && Apply(cfg, l.run, m.action, m.at).run.remaining
           == l.run.remaining - (if s.kind.Working? then s.to - s.from else 0.0)
  {
    ReceiptsTouchOnlyReceipts(cfg, l.run, m.action, m.at);
  }

  lemma NoSpanNoCharge(cfg: Settings, l: Ledger, m: Moment)
    requires Balanced(cfg, l) && l.clock <= m.at.checked && Forward(m.at)
    requires Closes(l, m, Apply(cfg, l.run, m.action, m.at)).None?
    ensures Apply(cfg, l.run, m.action, m.at).run.remaining == l.run.remaining
  {
    ReceiptsTouchOnlyReceipts(cfg, l.run, m.action, m.at);
  }

  lemma StepKeepsRow(cfg: Settings, l: Ledger, m: Moment)
    requires Balanced(cfg, l) && l.clock <= m.at.checked && Forward(m.at)
    ensures var run := Apply(cfg, l.run, m.action, m.at).run;
      && (run.state.Running? || run.state.Cancelling? ==>
            && run.activeSince.Some? && run.lease.Some?
            && (run.activeSince == l.run.activeSince || run.activeSince.value == m.at.now)
            && run.activeSince.value <= m.at.now && run.activeSince.value < run.lease.value
            && run.expiresAt == run.activeSince.value + run.remaining)
      && (run.state.Queued? || run.state.Waiting? ==> run.activeSince.None?)
  {
    ReceiptsTouchOnlyReceipts(cfg, l.run, m.action, m.at);
  }

  lemma StepKeepsBalance(cfg: Settings, l: Ledger, m: Moment)
    requires Balanced(cfg, l) && l.clock <= m.at.checked && Forward(m.at)
    ensures Balanced(cfg, Advance(cfg, l, m))
  {
    var after := Apply(cfg, l.run, m.action, m.at);
    var closed := Closes(l, m, after);
    StepKeepsRow(cfg, l, m);
    if closed.Some? {
      ClosedSpanFits(cfg, l, m);
      SpanKeepsDisjoint(l.spans, closed.value);
      ClosingStepIsPlaced(cfg, l, m);
    } else {
      NoSpanNoCharge(cfg, l, m);
      OpenStepIsPlaced(cfg, l, m);
    }
  }

  lemma ClosingStepIsPlaced(cfg: Settings, l: Ledger, m: Moment)
    requires Balanced(cfg, l) && l.clock <= m.at.checked && Forward(m.at)
    requires Closes(l, m, Apply(cfg, l.run, m.action, m.at)).Some?
    ensures var run := Apply(cfg, l.run, m.action, m.at).run;
      && (run.state.Running? || run.state.Cancelling? ==> run.activeSince == Some(m.at.now))
      && (run.state.Waiting? ==> !l.run.state.Waiting?)
  {
    ReceiptsTouchOnlyReceipts(cfg, l.run, m.action, m.at);
  }

  lemma OpenStepIsPlaced(cfg: Settings, l: Ledger, m: Moment)
    requires Balanced(cfg, l) && l.clock <= m.at.checked && Forward(m.at)
    requires Closes(l, m, Apply(cfg, l.run, m.action, m.at)).None?
    ensures var run := Apply(cfg, l.run, m.action, m.at).run;
      && (run.state.Running? || run.state.Cancelling? ==>
            run.activeSince == Some(m.at.now) || ((l.run.state.Running? || l.run.state.Cancelling?) && run.activeSince == l.run.activeSince))
      && (run.state.Waiting? ==> l.run.state.Waiting?)
  {
    ReceiptsTouchOnlyReceipts(cfg, l.run, m.action, m.at);
  }

  /** Conservation over every history: whatever the interleaving of claims, crashes,
      takeovers, pauses and cancellations, the remaining budget plus all charged active
      intervals is the initial budget, and no charged interval overlaps a wait. */
  lemma {:induction false} BudgetIsConserved(cfg: Settings, l: Ledger, history: seq<Moment>)
    decreases |history|
    requires Balanced(cfg, l) && Chronological(l.clock, history)
    ensures Balanced(cfg, Account(cfg, l, history))
    ensures Account(cfg, l, history).run == Replay(cfg, l.run, history)
  {
    if history != [] {
      StepKeepsBalance(cfg, l, history[0]);
      BudgetIsConserved(cfg, Advance(cfg, l, history[0]), history[1..]);
    }
  }

  lemma CreationIsBalanced(cfg: Settings, now: Time, started: nat, approval: Option<nat>)
    requires Created(cfg, now, started, approval).Some?
    ensures Balanced(cfg, Ledger(Created(cfg, now, started, approval).value, now, [], now))
  {
  }

  /** Every deadline-checked write happens strictly inside the budget, counted over all
      claims the Run ever had. */
  lemma WritesStayWithinBudget(cfg: Settings, l: Ledger, claim: Claim, at: Time)
    requires Balanced(cfg, l) && l.clock <= at && Owned(l.run, claim, at)
    ensures Worked(l.spans) + (at - l.run.activeSince.value) < cfg.budget
  {
  }

  /** A takeover charges the abandoned claim up to its lease end, not to the takeover. */
  lemma TakeoverChargesTheLease(cfg: Settings, l: Ledger, token: Token, now: Time, bytes: nat)
    requires Balanced(cfg, l) && l.clock <= now && l.run.state.Running?
    requires ClaimNext(cfg, l.run, token, now, bytes).reply.Claimed?
    ensures var next := ClaimNext(cfg, l.run, token, now, bytes).run;
      && next.remaining == l.run.remaining - (l.run.lease.value - l.run.activeSince.value)
      && next.expiresAt == now + next.remaining && next.remaining > 0.0
  {
  }

  /** Without a second clock reading after the guard, `pause` never finds the budget spent. */
  lemma PauseTimesOutOnlyBetweenReadings(cfg: Settings, l: Ledger, claim: Claim, t: Tick, payload: Payload,
                                         size: nat, question: string, key: Token, bytes: nat)
    requires Balanced(cfg, l) && l.clock <= t.checked && Forward(t) && Owned(l.run, claim, t.checked)
    requires TextLength(question, 4000) && size <= PAYLOAD_LIMIT
    ensures Pause(cfg, l.run, claim, t, payload, size, question, key, bytes).reply == Refused(AgentTimeout)
      <==> t.checked < l.run.expiresAt <= t.now
  {
  }
}
