/** Histories of the whole service: what each Run of the table went through, so that what is
    proved of one Run over all its histories holds of every Run of the service.
    app/service/runs.py. */
module RunService {
  import opened Outcomes
  import opened CanonicalJson
  import opened RunModel
  import opened RunSteps
  import opened RunJournal
  import opened RunFencing
  import opened RunAdmission
  import Budget = RunBudget
  import Operations = RunOperations

  /** A transaction of the service and when it ran. */
  datatype Event = Event(at: Tick, txn: Txn)

  predicate Possible(cfg: Settings, limit: nat, table: Table, from: Time, log: seq<Event>)
    decreases |log|
  {
    log == [] ||
    (from <= log[0].at.checked && Forward(log[0].at) && Legal(table, log[0].txn)
     && Possible(cfg, limit, After(cfg, limit, table, log[0]), log[0].at.now, log[1..]))
  }

  function After(cfg: Settings, limit: nat, table: Table, e: Event): Table
    requires Legal(table, e.txn)
  {
    Transact(cfg, limit, table, e.txn, e.at).table
  }

  function Outcome(cfg: Settings, limit: nat, table: Table, from: Time, log: seq<Event>): Table
    requires Possible(cfg, limit, table, from, log)
    decreases |log|
  {
    if log == [] then table else Outcome(cfg, limit, After(cfg, limit, table, log[0]), log[0].at.now, log[1..])
  }

  function Ends(from: Time, log: seq<Event>): Time { if log == [] then from else log[|log| - 1].at.now }

  // ---------------------------------------------------------------- what concerns one Run

  function SweepMoments(ids: seq<RunId>, id: RunId, m: Moment): seq<Moment>
  {
    if ids == [] then [] else (if ids[0] == id then [m] else []) + SweepMoments(ids[1..], id, m)
  }

  /** What a poll does to one Run: nothing when it was rolled back, else its place in the two
      sweeps and the claim. */
  function PollMoments(cfg: Settings, table: Table, p: Poll, now: Time, id: RunId): seq<Moment>
    requires Polled(table, p)
  {
    if Dispatch(cfg, table, p, now).answer.Rejected? then []
    else
      SweepMoments(p.expired, id, Moment(Instant(now), DoExpire(p.bytes)))
      + SweepMoments(p.abandoned, id, Moment(Instant(now), DoSettle(p.bytes)))
      + if p.next == Some(id) then [Moment(Instant(now), DoClaim(p.token, p.bytes))] else []
  }

  /** What one transaction of the service does to one Run, as transactions on that Run. */
  function Moments(cfg: Settings, limit: nat, table: Table, e: Event, id: RunId): seq<Moment>
    requires Legal(table, e.txn)
  {
    match e.txn
    case OnRun(run, action) => if run == id then [Moment(e.at, action)] else []
    case OnPoll(poll) => PollMoments(cfg, table, poll, e.at.now, id)
    case OnRequest(request, newId, found, busy, sizes) =>
      var answer := Transact(cfg, limit, table, e.txn, e.at).answer;
      var expiry := [Moment(Instant(e.at.now), DoExpire(sizes.expired))];
      if (answer.Existing? && found == Some(id)) || (answer.Admitted? && busy == Some(id)) then expiry else []
  }

  lemma ReplayOfOne(cfg: Settings, a: Run, m: Moment)
    ensures Replay(cfg, a, [m]) == Apply(cfg, a, m.action, m.at).run
  {
    var h := [m];
    assert h[0] == m && h[1..] == [];
    ReplayOfNone(cfg, Apply(cfg, a, m.action, m.at).run);
  }

  lemma ReplayOfNone(cfg: Settings, a: Run)
    ensures Replay(cfg, a, []) == a
  {
  }

  lemma {:induction false} ReplayJoins(cfg: Settings, a: Run, g: seq<Moment>, h: seq<Moment>)
    ensures Replay(cfg, a, g + h) == Replay(cfg, Replay(cfg, a, g), h)
    decreases |g|
  {
    if g == [] {
      assert g + h == h;
    } else {
      ReplayJoins(cfg, Apply(cfg, a, g[0].action, g[0].at).run, g[1..], h);
      assert (g + h)[1..] == g[1..] + h;
    }
  }

  /** All at one reading of the clock. */
  predicate AllAt(now: Time, h: seq<Moment>) { forall i | 0 <= i < |h| :: h[i].at == Instant(now) }

  lemma {:induction false} AllAtIsChronological(from: Time, now: Time, h: seq<Moment>)
    requires AllAt(now, h) && from <= now
    ensures Chronological(from, h) && Finishes(from, h) <= now
    decreases |h|
  {
    if h != [] { AllAtIsChronological(now, now, h[1..]); }
  }

  lemma {:induction false} SweepMomentsAreAt(ids: seq<RunId>, id: RunId, m: Moment, now: Time)
    requires m.at == Instant(now)
    ensures AllAt(now, SweepMoments(ids, id, m))
  {
    if ids != [] { SweepMomentsAreAt(ids[1..], id, m, now); }
  }

  lemma {:induction false} SweepProjects(cfg: Settings, table: Table, ids: seq<RunId>, a: Action, now: Time, id: RunId)
    requires (forall i | 0 <= i < |ids| :: ids[i] in table) && id in table
    requires Sweep(cfg, table, ids, a, Instant(now)).Some?
    ensures var swept := Sweep(cfg, table, ids, a, Instant(now)).value;
      swept.Keys == table.Keys
      && swept[id].run == Replay(cfg, table[id].run, SweepMoments(ids, id, Moment(Instant(now), a)))
    decreases |ids|
  {
    if ids == [] {
      ReplayOfNone(cfg, table[id].run);
    } else {
      var m := Moment(Instant(now), a);
      var next := WithRun(table, ids[0], Apply(cfg, table[ids[0]].run, a, Instant(now)).run);
      SweepProjects(cfg, next, ids[1..], a, now, id);
      if ids[0] == id {
        ReplayOfOne(cfg, table[id].run, m);
        ReplayJoins(cfg, table[id].run, [m], SweepMoments(ids[1..], id, m));
      } else {
        assert SweepMoments(ids, id, m) == SweepMoments(ids[1..], id, m);
      }
    }
  }

  lemma ClaimProjects(cfg: Settings, table: Table, next: Option<RunId>, m: Moment, id: RunId)
    requires id in table && (next.Some? ==> next.value in table)
    ensures next.Some? ==>
      WithRun(table, next.value, Apply(cfg, table[next.value].run, m.action, m.at).run)[id].run
        == Replay(cfg, table[id].run, if next == Some(id) then [m] else [])
    ensures next.None? ==> table[id].run == Replay(cfg, table[id].run, [])
  {
    ReplayOfNone(cfg, table[id].run);
    ReplayOfOne(cfg, table[id].run, m);
  }

  lemma ReplayThrice(cfg: Settings, a: Run, f: seq<Moment>, g: seq<Moment>, h: seq<Moment>)
    ensures Replay(cfg, a, f + g + h) == Replay(cfg, Replay(cfg, Replay(cfg, a, f), g), h)
  {
    ReplayJoins(cfg, a, f + g, h);
    ReplayJoins(cfg, a, f, g);
  }

  lemma PollProjects(cfg: Settings, table: Table, p: Poll, now: Time, id: RunId)
    requires Polled(table, p) && id in table
    ensures var after := Dispatch(cfg, table, p, now).table;
      after.Keys == table.Keys && after[id].run == Replay(cfg, table[id].run, PollMoments(cfg, table, p, now, id))
  {
    DispatchDevelops(cfg, table, p, now);
    if Dispatch(cfg, table, p, now).answer.Rejected? {
      ReplayOfNone(cfg, table[id].run);
    } else {
      SweepProjects(cfg, table, p.expired, DoExpire(p.bytes), now, id);
      var waited := Sweep(cfg, table, p.expired, DoExpire(p.bytes), Instant(now)).value;
      SweepProjects(cfg, waited, p.abandoned, DoSettle(p.bytes), now, id);
      var settled := Sweep(cfg, waited, p.abandoned, DoSettle(p.bytes), Instant(now)).value;
      var claim := Moment(Instant(now), DoClaim(p.token, p.bytes));
      ClaimProjects(cfg, settled, p.next, claim, id);
      ReplayThrice(cfg, table[id].run, SweepMoments(p.expired, id, Moment(Instant(now), DoExpire(p.bytes))),
                   SweepMoments(p.abandoned, id, Moment(Instant(now), DoSettle(p.bytes))),
                   if p.next == Some(id) then [claim] else []);
    }
  }

  lemma PollIsAt(cfg: Settings, table: Table, p: Poll, now: Time, id: RunId)
    requires Polled(table, p)
    ensures AllAt(now, PollMoments(cfg, table, p, now, id))
  {
    SweepMomentsAreAt(p.expired, id, Moment(Instant(now), DoExpire(p.bytes)), now);
    SweepMomentsAreAt(p.abandoned, id, Moment(Instant(now), DoSettle(p.bytes)), now);
  }

  lemma RequestProjects(cfg: Settings, limit: nat, table: Table, e: Event, id: RunId)
    requires e.txn.OnRequest? && Legal(table, e.txn) && id in table
    ensures var after := After(cfg, limit, table, e);
      table.Keys <= after.Keys && after[id].run == Replay(cfg, table[id].run, Moments(cfg, limit, table, e, id))
  {
    ReplayOfNone(cfg, table[id].run);
    ReplayOfOne(cfg, table[id].run, Moment(Instant(e.at.now), DoExpire(e.txn.sizes.expired)));
  }

  /** One transaction of the service does to each Run exactly its moments. */
  lemma TransactionProjects(cfg: Settings, limit: nat, table: Table, e: Event, id: RunId)
    requires Legal(table, e.txn) && id in table && Forward(e.at)
    ensures table.Keys <= After(cfg, limit, table, e).Keys
    ensures var h := Moments(cfg, limit, table, e, id);
      && After(cfg, limit, table, e)[id].run == Replay(cfg, table[id].run, h)
      && Chronological(e.at.checked, h) && Finishes(e.at.checked, h) <= e.at.now
  {
    match e.txn
    case OnRun(run, action) =>
      ReplayOfNone(cfg, table[id].run);
      ReplayOfOne(cfg, table[id].run, Moment(e.at, action));
      OneIsChronological(e.at.checked, Moment(e.at, action));
    case OnPoll(poll) =>
      PollProjects(cfg, table, poll, e.at.now, id);
      PollIsAt(cfg, table, poll, e.at.now, id);
      AllAtIsChronological(e.at.checked, e.at.now, PollMoments(cfg, table, poll, e.at.now, id));
    case OnRequest(request, newId, found, busy, sizes) =>
      RequestProjects(cfg, limit, table, e, id);
      AllAtIsChronological(e.at.checked, e.at.now, Moments(cfg, limit, table, e, id));
  }

  lemma OneIsChronological(from: Time, m: Moment)
    requires from <= m.at.checked && Forward(m.at)
    ensures Chronological(from, [m]) && Finishes(from, [m]) == m.at.now
  {
    assert [m][1..] == [];
  }

  /** A Run that a transaction brings into the table is one just created, at that time. */
  lemma NewRunIsCreated(cfg: Settings, limit: nat, table: Table, e: Event, id: RunId)
    requires Legal(table, e.txn) && id !in table && id in After(cfg, limit, table, e)
    ensures Begins(cfg, After(cfg, limit, table, e)[id].run, e.at.now)
  {
    match e.txn
    case OnRun(run, action) =>
    case OnPoll(poll) => DispatchDevelops(cfg, table, poll, e.at.now);
    case OnRequest(request, newId, found, busy, sizes) =>
      assert Created(cfg, e.at.now, sizes.started, sizes.approval) == Some(After(cfg, limit, table, e)[id].run);
  }

  /** A Run as `create` leaves it. */
  ghost predicate Begins(cfg: Settings, run: Run, now: Time)
  {
    exists started: nat, approval: Option<nat> :: Created(cfg, now, started, approval) == Some(run)
  }

  // ---------------------------------------------------------------- the life of a Run

  /** Everything the log did to a Run that is in the table. */
  function Project(cfg: Settings, limit: nat, table: Table, from: Time, log: seq<Event>, id: RunId): seq<Moment>
    requires Possible(cfg, limit, table, from, log) && id in table
    decreases |log|
  {
    if log == [] then []
    else
      TransactionProjects(cfg, limit, table, log[0], id);
      Moments(cfg, limit, table, log[0], id) + Project(cfg, limit, After(cfg, limit, table, log[0]), log[0].at.now, log[1..], id)
  }

  /** The state a Run had first, when that was, and what happened to it since. */
  datatype Life = Life(start: Run, born: Time, history: seq<Moment>)

  /** The life of a Run in the log: from the table on, or from its admission on. */
  function Lived(cfg: Settings, limit: nat, table: Table, from: Time, log: seq<Event>, id: RunId): Life
    requires Possible(cfg, limit, table, from, log) && id in Outcome(cfg, limit, table, from, log)
    decreases |log|
  {
    if id in table then Life(table[id].run, from, Project(cfg, limit, table, from, log, id))
    else Lived(cfg, limit, After(cfg, limit, table, log[0]), log[0].at.now, log[1..], id)
  }

  lemma StartEarlier(from: Time, mid: Time, h: seq<Moment>)
    requires from <= mid && Chronological(mid, h)
    ensures Chronological(from, h) && (if h == [] then Finishes(from, h) == from else Finishes(from, h) == Finishes(mid, h))
  {
  }

  lemma {:induction false} ChronologyJoins(from: Time, g: seq<Moment>, mid: Time, h: seq<Moment>)
    requires Chronological(from, g) && Finishes(from, g) <= mid && Chronological(mid, h)
    ensures Chronological(from, g + h) && Finishes(from, g + h) <= Finishes(mid, h)
    decreases |g|
  {
    FinishesLater(mid, h);
    if g == [] {
      assert g + h == h;
      StartEarlier(from, mid, h);
    } else {
      assert Finishes(g[0].at.now, g[1..]) == Finishes(from, g);
      ChronologyJoins(g[0].at.now, g[1..], mid, h);
      assert (g + h)[1..] == g[1..] + h;
      if g[1..] + h == [] { assert g + h == g; }
    }
  }

  lemma {:induction false} FinishesLater(from: Time, h: seq<Moment>)
    requires Chronological(from, h)
    ensures from <= Finishes(from, h)
    decreases |h|
  {
    if h != [] {
      FinishesLater(h[0].at.now, h[1..]);
      assert Finishes(h[0].at.now, h[1..]) == Finishes(from, h);
    }
  }

  /** A Run of the table ends up where its own part of the log leads it. */
  lemma {:induction false} ProjectIsReplayed(cfg: Settings, limit: nat, table: Table, from: Time, log: seq<Event>, id: RunId)
    requires Possible(cfg, limit, table, from, log) && id in table
    ensures id in Outcome(cfg, limit, table, from, log) && from <= Ends(from, log)
    ensures var h := Project(cfg, limit, table, from, log, id);
      && Outcome(cfg, limit, table, from, log)[id].run == Replay(cfg, table[id].run, h)
      && Chronological(from, h) && Finishes(from, h) <= Ends(from, log)
    decreases |log|
  {
    if log == [] {
      ReplayOfNone(cfg, table[id].run);
    } else {
      var e := log[0];
      var next := After(cfg, limit, table, e);
      TransactionProjects(cfg, limit, table, e, id);
      ProjectIsReplayed(cfg, limit, next, e.at.now, log[1..], id);
      var g, h := Moments(cfg, limit, table, e, id), Project(cfg, limit, next, e.at.now, log[1..], id);
      ReplayJoins(cfg, table[id].run, g, h);
      ChronologyJoins(e.at.checked, g, e.at.now, h);
      StartEarlier(from, e.at.checked, g + h);
      assert Ends(from, log) == Ends(e.at.now, log[1..]);
    }
  }

  /** Over every history of the service, every Run it has at the end, admitted before or in
      the log, is where exactly the transactions of the log on that Run lead it, in their
      order, from the state it had in the table or was created with. */
  lemma {:induction false} ServiceHistory(cfg: Settings, limit: nat, table: Table, from: Time, log: seq<Event>, id: RunId)
    requires Possible(cfg, limit, table, from, log) && id in Outcome(cfg, limit, table, from, log)
    ensures var life := Lived(cfg, limit, table, from, log, id);
      && Outcome(cfg, limit, table, from, log)[id].run == Replay(cfg, life.start, life.history)
      && from <= life.born && Chronological(life.born, life.history)
      && Finishes(life.born, life.history) <= Ends(from, log)
      && (if id in table then life.start == table[id].run && life.born == from
          else Begins(cfg, life.start, life.born))
    decreases |log|
  {
    if id in table {
      ProjectIsReplayed(cfg, limit, table, from, log, id);
    } else {
      var e := log[0];
      var next := After(cfg, limit, table, e);
      if id in next { NewRunIsCreated(cfg, limit, table, e, id); }
      ServiceHistory(cfg, limit, next, e.at.now, log[1..], id);
      assert Ends(from, log) == Ends(e.at.now, log[1..]);
    }
  }

  /** The table stays orderly over every history of the service. */
  lemma {:induction false} ServiceStaysOrderly(cfg: Settings, limit: nat, table: Table, from: Time, log: seq<Event>)
    requires Orderly(limit, table) && Possible(cfg, limit, table, from, log)
    ensures Orderly(limit, Outcome(cfg, limit, table, from, log))
    decreases |log|
  {
    if log != [] {
      TransactionKeepsOrder(cfg, limit, table, log[0].txn, log[0].at);
      ServiceStaysOrderly(cfg, limit, After(cfg, limit, table, log[0]), log[0].at.now, log[1..]);
    }
  }

  // ---------------------------------------------------------------- what holds of every Run of the service

  /** A service that started without Runs: the time budget of every Run it ever admitted is
      conserved over all that happened to it. */
  lemma EveryBudgetIsConserved(cfg: Settings, limit: nat, from: Time, log: seq<Event>, id: RunId)
    requires Possible(cfg, limit, map[], from, log) && id in Outcome(cfg, limit, map[], from, log)
    ensures var life := Lived(cfg, limit, map[], from, log, id);
      var ledger := Budget.Account(cfg, Budget.Ledger(life.start, life.born, [], life.born), life.history);
      Budget.Balanced(cfg, ledger) && ledger.run == Outcome(cfg, limit, map[], from, log)[id].run
  {
    ServiceHistory(cfg, limit, map[], from, log, id);
    var life := Lived(cfg, limit, map[], from, log, id);
    var started: nat, approval: Option<nat> :| Created(cfg, life.born, started, approval) == Some(life.start);
    Budget.CreationIsBalanced(cfg, life.born, started, approval);
    Budget.BudgetIsConserved(cfg, Budget.Ledger(life.start, life.born, [], life.born), life.history);
  }

  /** A claim that no longer holds can nowhere in the service's future write to its Run
      again: whatever it issues then is refused and leaves the table as it is. */
  lemma RevokedEverywhere(cfg: Settings, limit: nat, table: Table, from: Time, log: seq<Event>, id: RunId,
                          claim: Claim, a: Action, t: Tick)
    requires Possible(cfg, limit, table, from, log) && id in table
    requires claim.generation <= table[id].run.generation && !Holds(table[id].run, claim, from)
    requires Presented(a) == Some(claim) && Ends(from, log) <= t.checked && Forward(t)
    ensures id in Outcome(cfg, limit, table, from, log)
    ensures var last := Outcome(cfg, limit, table, from, log);
      var e := Transact(cfg, limit, last, OnRun(id, a), t);
      e.table == last && e.answer.Rejected?
  {
    ProjectIsReplayed(cfg, limit, table, from, log, id);
    var h := Project(cfg, limit, table, from, log, id);
    RevokedForever(cfg, table[id].run, claim, from, h);
    var last := Outcome(cfg, limit, table, from, log);
    StaleWriteIsRefused(cfg, last[id].run, a, t, claim);
    assert WithRun(last, id, last[id].run) == last;
  }

  /** A Run whose cancellation was requested ends nowhere but cancelled or failed. */
  lemma CancellationIsFinalEverywhere(cfg: Settings, limit: nat, table: Table, from: Time, log: seq<Event>, id: RunId)
    requires Possible(cfg, limit, table, from, log) && id in table && table[id].run.state.Cancelling?
    ensures id in Outcome(cfg, limit, table, from, log)
    ensures var s := Outcome(cfg, limit, table, from, log)[id].run.state; s.Cancelling? || s.Cancelled? || s.Failed?
  {
    ProjectIsReplayed(cfg, limit, table, from, log, id);
    CancellationIsFinal(cfg, table[id].run, Project(cfg, limit, table, from, log, id));
  }

  /** The transactions of a life, with the outcomes its workers held. */
  function Deeds(history: seq<Moment>, outcomes: seq<Value>): seq<Operations.Deed>
    requires |outcomes| == |history|
  {
    if history == [] then []
    else [Operations.Deed(history[0].at, history[0].action, outcomes[0])] + Deeds(history[1..], outcomes[1..])
  }

  lemma {:induction false} DeedsAreReplayed(cfg: Settings, w: Operations.Trail, history: seq<Moment>, outcomes: seq<Value>)
    requires |outcomes| == |history|
    ensures Operations.Follow(cfg, w, Deeds(history, outcomes)).run == Replay(cfg, w.run, history)
    decreases |history|
  {
    if history != [] {
      var d := Operations.Deed(history[0].at, history[0].action, outcomes[0]);
      assert Deeds(history, outcomes)[1..] == Deeds(history[1..], outcomes[1..]);
      DeedsAreReplayed(cfg, Operations.Advance(cfg, w, d), history[1..], outcomes[1..]);
    }
  }

  /** In a service that started without Runs, the body of a side effect starts at most once
      in the whole life of its Run, and a readonly one at most three times, whatever
      workers, polls and users did. */
  lemma BodiesStartAtMostOnceEverywhere(cfg: Settings, limit: nat, from: Time, log: seq<Event>, id: RunId, key: string,
                                        outcomes: seq<Value>)
    requires Possible(cfg, limit, map[], from, log) && id in Outcome(cfg, limit, map[], from, log)
    requires |outcomes| == |Lived(cfg, limit, map[], from, log, id).history|
    ensures var life := Lived(cfg, limit, map[], from, log, id);
      var last := Operations.Follow(cfg, Operations.Trail(life.start, [], []), Deeds(life.history, outcomes));
      var starts := Operations.Starts(last.launches, key);
      && last.run == Outcome(cfg, limit, map[], from, log)[id].run
      && |starts| <= 3 && (key in last.run.operations && !last.run.operations[key].readonly ==> |starts| <= 1)
  {
    ServiceHistory(cfg, limit, map[], from, log, id);
    var life := Lived(cfg, limit, map[], from, log, id);
    var w := Operations.Trail(life.start, [], []);
    var started: nat, approval: Option<nat> :| Created(cfg, life.born, started, approval) == Some(life.start);
    Operations.NewRunIsReceipted(cfg, life.born, started, approval, key, Operations.OfReplays);
    Operations.BodiesStartAtMostOnce(cfg, w, Deeds(life.history, outcomes), key);
    DeedsAreReplayed(cfg, w, life.history, outcomes);
  }

  // ---------------------------------------------------------------- a Run that has spent its allowance

  const PLAIN_SETTINGS: Settings := Durations(100.0, 10.0, 50.0)

  /** A worker claims the Run and streams three long pieces of its answer. */
  const LONG_ANSWER: seq<Moment> := [
    Moment(Instant(1.0), DoClaim(7, 100)),
    Moment(Instant(2.0), DoAppend(Claim(7, 1), AnswerDelta, 2_000_000)),
    Moment(Instant(3.0), DoAppend(Claim(7, 1), AnswerDelta, 2_000_000)),
    Moment(Instant(4.0), DoAppend(Claim(7, 1), AnswerDelta, 1_999_800))]

  /** Replaying one more moment at the end. */
  lemma ReplayLast(cfg: Settings, a: Run, h: seq<Moment>, m: Moment)
    ensures Replay(cfg, a, h + [m]) == Apply(cfg, Replay(cfg, a, h), m.action, m.at).run
  {
    ReplayJoins(cfg, a, h, [m]);
    ReplayOfOne(cfg, Replay(cfg, a, h), m);
  }

  /** The Run under its first claim, with so much in its journal. */
  predicate Streaming(run: Run, sequence: nat, bytes: nat)
  {
    && run.state.Running? && run.owner == Some(7) && run.generation == 1 && run.lease == Some(11.0)
    && run.activeSince == Some(1.0) && run.remaining == 100.0 && run.expiresAt == 101.0
    && run.journal.sequence == sequence && run.journal.bytes == bytes
  }

  lemma StreamOn(run: Run, sequence: nat, bytes: nat, at: Time, more: nat)
    requires Streaming(run, sequence, bytes) && sequence < EVENT_LIMIT && at < 11.0
    requires more <= ONE_EVENT_LIMIT && bytes + more <= BYTE_LIMIT
    ensures Streaming(Apply(PLAIN_SETTINGS, run, DoAppend(Claim(7, 1), AnswerDelta, more), Instant(at)).run,
                      sequence + 1, bytes + more)
  {
  }

  lemma LongAnswerFills(start: Run)
    requires Created(PLAIN_SETTINGS, 0.0, 100, None) == Some(start)
    ensures Streaming(Replay(PLAIN_SETTINGS, start, LONG_ANSWER), 5, BYTE_LIMIT)
  {
    var a := Replay(PLAIN_SETTINGS, start, [LONG_ANSWER[0]]);
    ReplayOfOne(PLAIN_SETTINGS, start, LONG_ANSWER[0]);
    ReplayLast(PLAIN_SETTINGS, start, [LONG_ANSWER[0]], LONG_ANSWER[1]);
    StreamOn(a, 2, 200, 2.0, 2_000_000);
    var b := Replay(PLAIN_SETTINGS, start, [LONG_ANSWER[0]] + [LONG_ANSWER[1]]);
    ReplayLast(PLAIN_SETTINGS, start, [LONG_ANSWER[0]] + [LONG_ANSWER[1]], LONG_ANSWER[2]);
    StreamOn(b, 3, 2_000_200, 3.0, 2_000_000);
    var c := Replay(PLAIN_SETTINGS, start, [LONG_ANSWER[0]] + [LONG_ANSWER[1]] + [LONG_ANSWER[2]]);
    ReplayLast(PLAIN_SETTINGS, start, [LONG_ANSWER[0]] + [LONG_ANSWER[1]] + [LONG_ANSWER[2]], LONG_ANSWER[3]);
    StreamOn(c, 4, 4_000_200, 4.0, 1_999_800);
    assert [LONG_ANSWER[0]] + [LONG_ANSWER[1]] + [LONG_ANSWER[2]] + [LONG_ANSWER[3]] == LONG_ANSWER;
  }

  /** The reserve is not used for announcements, and a Run does get there: after three long
      pieces of an answer a request to cancel it is refused, and when its worker dies so is
      every attempt to take it over. */
  lemma AllowanceCanBeSpent(start: Run)
    requires Created(PLAIN_SETTINGS, 0.0, 100, None) == Some(start)
    ensures Chronological(0.0, LONG_ANSWER)
    ensures var run := Replay(PLAIN_SETTINGS, start, LONG_ANSWER);
      && run.state.Running?
      && RequestCancel(run, 5.0, 100).reply == Refused(RunEventLimit)
      && Claimable(run, 20.0) && ClaimNext(PLAIN_SETTINGS, run, 8, 20.0, 100).reply == Refused(RunEventLimit)
  {
    LongAnswerFills(start);
    assert LONG_ANSWER[1..][1..] == LONG_ANSWER[2..] && LONG_ANSWER[2..][1..] == LONG_ANSWER[3..];
    assert LONG_ANSWER[3..][1..] == [];
  }
}
