/** All Runs together: admission (`create`) and the worker's dispatch (`claim_next`), and the
    order they keep in the table.  app/service/runs.py, app/dao/queries/runs.py. */
module RunAdmission {
  import opened Outcomes
  import opened RunModel
  import opened RunSteps
  import opened RunJournal
  import opened RunRequests

  type RunId = int

  /** The columns `create` fixes for good, and the Run itself. The fingerprint hash is
      taken to be injective: it is the session and the canonical input. */
  datatype Row = Row(user: int, session: int, clientKey: int, input: CanonicalInput, run: Run)

  type Table = map<RunId, Row>

  datatype Request = Request(user: int, session: int, clientKey: int, input: ChatInput)

  /** Sizes of the events `create` may write. */
  datatype Sizes = Sizes(started: nat, approval: Option<nat>, expired: nat)

  datatype Answer = Existing(id: RunId) | Admitted(id: RunId) | Issued(id: RunId, claim: Claim) | Nothing | Rejected(code: ErrorCode)

  datatype Effect = Effect(table: Table, answer: Answer)

  predicate Unfinished(table: Table, id: RunId) { id in table && Active(table[id].run.state) }

  function ActiveOf(table: Table, user: int): set<RunId>
  {
    set id | id in table && table[id].user == user && Active(table[id].run.state)
  }

  function WithRun(table: Table, id: RunId, run: Run): Table
    requires id in table
  {
    table[id := table[id].(run := run)]
  }

  // ---------------------------------------------------------------- admission

  /** What the two lookups of `create` return: the Run of this client key, and an
      unfinished Run of this session. */
  predicate Looked(table: Table, r: Request, found: Option<RunId>, busy: Option<RunId>)
  {
    && (if found.Some? then found.value in table && Keyed(table[found.value], r)
        else forall id | id in table :: !Keyed(table[id], r))
    && (if busy.Some? then Unfinished(table, busy.value) && table[busy.value].session == r.session
        else forall id | id in table :: !(table[id].session == r.session && Active(table[id].run.state)))
  }

  predicate Keyed(row: Row, r: Request) { row.user == r.user && row.clientKey == r.clientKey }

  function Matches(row: Row, r: Request): bool { row.session == r.session && row.input == Normalized(r.input) }

  function Create(cfg: Settings, limit: nat, table: Table, r: Request, id: RunId,
                  found: Option<RunId>, busy: Option<RunId>, now: Time, sizes: Sizes): Effect
    requires Looked(table, r, found, busy)
  {
    if found.Some? then
      if !Matches(table[found.value], r) then Effect(table, Rejected(IdempotencyConflict))
      else
        var e := Expire(table[found.value].run, now, sizes.expired);
        if e.reply.Refused? then Effect(table, Rejected(RunEventLimit))
        else Effect(WithRun(table, found.value, e.run), Existing(found.value))
    else
      var e := if busy.None? then Skipped else Expire(table[busy.value].run, now, sizes.expired).reply;
      if e.Refused? then Effect(table, Rejected(RunEventLimit))
      else
        var cleared := if busy.None? then table
                       else WithRun(table, busy.value, Expire(table[busy.value].run, now, sizes.expired).run);
        if busy.Some? && Active(cleared[busy.value].run.state) then Effect(table, Rejected(ResourceBusy))
        else if |ActiveOf(cleared, r.user)| >= limit then Effect(table, Rejected(RunCapacityExceeded))
        else
          var run := Created(cfg, now, sizes.started, sizes.approval);
          if run.None? then Effect(table, Rejected(RunEventLimit))
          else Effect(cleared[id := Row(r.user, r.session, r.clientKey, Normalized(r.input), run.value)], Admitted(id))
  }

  // ---------------------------------------------------------------- dispatch

  /** Apply one sweep to several rows; None when any of them exceeds the event limit. */
  function Sweep(cfg: Settings, table: Table, ids: seq<RunId>, a: Action, t: Tick): Option<Table>
    requires forall i | 0 <= i < |ids| :: ids[i] in table
    decreases |ids|
  {
    if ids == [] then Some(table)
    else
      var step := Apply(cfg, table[ids[0]].run, a, t);
      if step.reply.Refused? then None else Sweep(cfg, WithRun(table, ids[0], step.run), ids[1..], a, t)
  }

  /** One poll of a worker: the rows the three queries lock, and the sizes of the events. */
  datatype Poll = Poll(expired: seq<RunId>, abandoned: seq<RunId>, next: Option<RunId>, token: Token, bytes: nat)

  predicate Polled(table: Table, p: Poll)
  {
    && (forall i | 0 <= i < |p.expired| :: p.expired[i] in table)
    && (forall i | 0 <= i < |p.abandoned| :: p.abandoned[i] in table)
    && (p.next.Some? ==> p.next.value in table)
  }

  /** These transactions read the clock once. */
  function Instant(now: Time): Tick { Tick(now, now) }

  /** `claim_next`: expire waits, settle abandoned cancellations, claim one Run; a refused
      event rolls all of it back. */
  function Dispatch(cfg: Settings, table: Table, p: Poll, now: Time): Effect
    requires Polled(table, p)
  {
    SweepKeepsKeys(cfg, table, p.expired, DoExpire(p.bytes), Instant(now));
    var waited := Sweep(cfg, table, p.expired, DoExpire(p.bytes), Instant(now));
    if waited.None? then Effect(table, Rejected(RunEventLimit))
    else
      SweepKeepsKeys(cfg, waited.value, p.abandoned, DoSettle(p.bytes), Instant(now));
      var settled := Sweep(cfg, waited.value, p.abandoned, DoSettle(p.bytes), Instant(now));
      if settled.None? then Effect(table, Rejected(RunEventLimit))
      else if p.next.None? then Effect(settled.value, Nothing)
      else
        var step := Apply(cfg, settled.value[p.next.value].run, DoClaim(p.token, p.bytes), Instant(now));
        match step.reply
        case Refused(code) => Effect(table, Rejected(code))
        case Claimed(claim) => Effect(WithRun(settled.value, p.next.value, step.run), Issued(p.next.value, claim))
        case _ => Effect(WithRun(settled.value, p.next.value, step.run), Nothing)
  }

  lemma {:induction false} SweepKeepsKeys(cfg: Settings, table: Table, ids: seq<RunId>, a: Action, t: Tick)
    requires forall i | 0 <= i < |ids| :: ids[i] in table
    ensures Sweep(cfg, table, ids, a, t).Some? ==> Sweep(cfg, table, ids, a, t).value.Keys == table.Keys
    decreases |ids|
  {
    if ids != [] {
      var step := Apply(cfg, table[ids[0]].run, a, t);
      SweepKeepsKeys(cfg, WithRun(table, ids[0], step.run), ids[1..], a, t);
    }
  }

  // ---------------------------------------------------------------- the table as a whole

  datatype Txn =
    | OnRun(id: RunId, action: Action)
    | OnPoll(poll: Poll)
    | OnRequest(request: Request, newId: RunId, found: Option<RunId>, busy: Option<RunId>, sizes: Sizes)

  predicate Legal(table: Table, x: Txn)
  {
    match x
    case OnRun(id, action) => id in table
    case OnPoll(poll) => Polled(table, poll)
    case OnRequest(request, newId, found, busy, sizes) =>
      newId !in table && Looked(table, request, found, busy)
  }

  function Transact(cfg: Settings, limit: nat, table: Table, x: Txn, t: Tick): Effect
    requires Legal(table, x)
  {
    match x
    case OnRun(id, action) =>
      var step := Apply(cfg, table[id].run, action, t);
      Effect(WithRun(table, id, step.run), if step.reply.Refused? then Rejected(step.reply.code) else Nothing)
    case OnPoll(poll) => Dispatch(cfg, table, poll, t.now)
    case OnRequest(request, newId, found, busy, sizes) =>
      Create(cfg, limit, table, request, newId, found, busy, t.now, sizes)
  }

  /** No session has two unfinished Runs, no user two Runs under one client key, no user
      more unfinished Runs than admitted, and every journal is sound. */
  predicate Orderly(limit: nat, table: Table)
  {
    && (forall i, j | i in table && j in table && i != j && table[i].session == table[j].session ::
          Terminal(table[i].run.state) || Terminal(table[j].run.state))
    && (forall i, j | i in table && j in table && i != j ::
          table[i].user != table[j].user || table[i].clientKey != table[j].clientKey)
    && (forall i | i in table :: Sound(table[i].run) && |ActiveOf(table, table[i].user)| <= limit)
  }

  /** `b` is a later state of the rows of `a`: identities are fixed, finished Runs stay
      finished, and journals stay sound. */
  predicate Develops(a: Table, b: Table)
  {
    && a.Keys == b.Keys
    && (forall i | i in a ::
          && b[i] == a[i].(run := b[i].run)
          && (Terminal(a[i].run.state) ==> b[i].run == a[i].run)
          && (Sound(a[i].run) ==> Sound(b[i].run)))
  }

  lemma RowStepDevelops(cfg: Settings, table: Table, id: RunId, a: Action, t: Tick)
    requires id in table
    ensures Develops(table, WithRun(table, id, Apply(cfg, table[id].run, a, t).run))
  {
    if Terminal(table[id].run.state) { TerminalIsAbsorbing(cfg, table[id].run, a, t); }
    if Sound(table[id].run) { StepKeepsSound(cfg, table[id].run, a, t); }
  }

  lemma DevelopsOn(a: Table, b: Table, c: Table)
    requires Develops(a, b) && Develops(b, c)
    ensures Develops(a, c)
  {
    forall i | i in a
      ensures c[i] == a[i].(run := c[i].run)
      ensures Terminal(a[i].run.state) ==> c[i].run == a[i].run
      ensures Sound(a[i].run) ==> Sound(c[i].run)
    {
      assert b[i] == a[i].(run := b[i].run) && c[i] == b[i].(run := c[i].run);
    }
  }

  lemma {:induction false} SweepDevelops(cfg: Settings, table: Table, ids: seq<RunId>, a: Action, t: Tick)
    requires forall i | 0 <= i < |ids| :: ids[i] in table
    ensures Sweep(cfg, table, ids, a, t).Some? ==> Develops(table, Sweep(cfg, table, ids, a, t).value)
    decreases |ids|
  {
    if ids != [] {
      var next := WithRun(table, ids[0], Apply(cfg, table[ids[0]].run, a, t).run);
      RowStepDevelops(cfg, table, ids[0], a, t);
      SweepDevelops(cfg, next, ids[1..], a, t);
      var last := Sweep(cfg, table, ids, a, t);
      if last.Some? { DevelopsOn(table, next, last.value); }
    }
  }

  lemma SweepsDevelop(cfg: Settings, table: Table, p: Poll, now: Time)
    requires Polled(table, p)
    ensures var waited := Sweep(cfg, table, p.expired, DoExpire(p.bytes), Instant(now));
      waited.Some? ==>
        && Develops(table, waited.value)
        && var settled := Sweep(cfg, waited.value, p.abandoned, DoSettle(p.bytes), Instant(now));
           settled.Some? ==> Develops(table, settled.value)
  {
    SweepDevelops(cfg, table, p.expired, DoExpire(p.bytes), Instant(now));
    var waited := Sweep(cfg, table, p.expired, DoExpire(p.bytes), Instant(now));
    if waited.Some? {
      SweepDevelops(cfg, waited.value, p.abandoned, DoSettle(p.bytes), Instant(now));
      var settled := Sweep(cfg, waited.value, p.abandoned, DoSettle(p.bytes), Instant(now));
      if settled.Some? { DevelopsOn(table, waited.value, settled.value); }
    }
  }

  lemma DispatchDevelops(cfg: Settings, table: Table, p: Poll, now: Time)
    requires Polled(table, p)
    ensures Develops(table, Dispatch(cfg, table, p, now).table)
  {
    SweepsDevelop(cfg, table, p, now);
    var waited := Sweep(cfg, table, p.expired, DoExpire(p.bytes), Instant(now));
    if waited.Some? {
      var settled := Sweep(cfg, waited.value, p.abandoned, DoSettle(p.bytes), Instant(now));
      if settled.Some? { ClaimDevelops(cfg, table, settled.value, p, now); }
    }
  }

  lemma ClaimDevelops(cfg: Settings, table: Table, settled: Table, p: Poll, now: Time)
    requires Develops(table, settled) && (p.next.Some? ==> p.next.value in table)
    ensures p.next.Some? ==>
      Develops(table, WithRun(settled, p.next.value,
        Apply(cfg, settled[p.next.value].run, DoClaim(p.token, p.bytes), Instant(now)).run))
  {
    if p.next.Some? {
      var step := Apply(cfg, settled[p.next.value].run, DoClaim(p.token, p.bytes), Instant(now));
      RowStepDevelops(cfg, settled, p.next.value, DoClaim(p.token, p.bytes), Instant(now));
      DevelopsOn(table, settled, WithRun(settled, p.next.value, step.run));
    }
  }

  lemma SubsetSize<T>(a: set<T>, b: set<T>)
    requires a <= b
    ensures |a| <= |b|
  {
    assert b == a + (b - a);
  }

  /** The identity columns never move. */
  predicate SameIdentities(a: Table, b: Table)
  {
    a.Keys == b.Keys && forall i | i in a ::
      b[i].user == a[i].user && b[i].session == a[i].session && b[i].clientKey == a[i].clientKey
      && (Active(b[i].run.state) ==> Active(a[i].run.state))
  }

  lemma DevelopmentKeepsIdentities(a: Table, b: Table)
    requires Develops(a, b)
    ensures SameIdentities(a, b)
  {
    forall i | i in a
      ensures b[i].user == a[i].user && b[i].session == a[i].session && b[i].clientKey == a[i].clientKey
      ensures Active(b[i].run.state) ==> Active(a[i].run.state)
    {
      assert b[i] == a[i].(run := b[i].run);
    }
  }

  lemma FewerActive(a: Table, b: Table, user: int)
    requires SameIdentities(a, b)
    ensures |ActiveOf(b, user)| <= |ActiveOf(a, user)|
  {
    forall id | id in ActiveOf(b, user) ensures id in ActiveOf(a, user) {
      assert a[id].user == b[id].user;
    }
    SubsetSize(ActiveOf(b, user), ActiveOf(a, user));
  }

  lemma DevelopmentKeepsOrder(limit: nat, a: Table, b: Table)
    requires Orderly(limit, a) && Develops(a, b)
    ensures Orderly(limit, b)
  {
    DevelopmentKeepsIdentities(a, b);
    forall i, j | i in b && j in b && i != j && b[i].session == b[j].session
      ensures Terminal(b[i].run.state) || Terminal(b[j].run.state)
    {
      assert a[i].session == a[j].session;
    }
    forall i, j | i in b && j in b && i != j
      ensures b[i].user != b[j].user || b[i].clientKey != b[j].clientKey
    {
      assert a[i].user != a[j].user || a[i].clientKey != a[j].clientKey;
    }
    forall i | i in b ensures Sound(b[i].run) && |ActiveOf(b, b[i].user)| <= limit {
      FewerActive(a, b, a[i].user);
    }
  }

  lemma AdmissionKeepsOrder(cfg: Settings, limit: nat, table: Table, r: Request, id: RunId,
                            found: Option<RunId>, busy: Option<RunId>, now: Time, sizes: Sizes)
    requires Orderly(limit, table) && Looked(table, r, found, busy) && id !in table
    ensures Orderly(limit, Create(cfg, limit, table, r, id, found, busy, now, sizes).table)
  {
    var e := Create(cfg, limit, table, r, id, found, busy, now, sizes);
    var t := Instant(now);
    if e.answer.Existing? {
      RowStepDevelops(cfg, table, found.value, DoExpire(sizes.expired), t);
      DevelopmentKeepsOrder(limit, table, e.table);
    } else if e.answer.Admitted? {
      var cleared := if busy.None? then table
                     else WithRun(table, busy.value, Expire(table[busy.value].run, now, sizes.expired).run);
      if busy.Some? { RowStepDevelops(cfg, table, busy.value, DoExpire(sizes.expired), t); }
      DevelopmentKeepsOrder(limit, table, cleared);
      InsertionKeepsOrder(cfg, limit, cleared, r, id, now, sizes);
    }
  }

  lemma InsertionKeepsOrder(cfg: Settings, limit: nat, table: Table, r: Request, id: RunId, now: Time, sizes: Sizes)
    requires Orderly(limit, table) && id !in table
    requires forall i | i in table :: !Keyed(table[i], r)
    requires forall i | i in table && table[i].session == r.session :: Terminal(table[i].run.state)
    requires |ActiveOf(table, r.user)| < limit && Created(cfg, now, sizes.started, sizes.approval).Some?
    ensures Orderly(limit, table[id := Row(r.user, r.session, r.clientKey, Normalized(r.input),
                                           Created(cfg, now, sizes.started, sizes.approval).value)])
  {
    var after := table[id := Row(r.user, r.session, r.clientKey, Normalized(r.input),
                                 Created(cfg, now, sizes.started, sizes.approval).value)];
    CreationStartsJournal(cfg, now, sizes.started, sizes.approval);
    forall i | i in after ensures |ActiveOf(after, after[i].user)| <= limit {
      if after[i].user == r.user {
        assert ActiveOf(after, r.user) == ActiveOf(table, r.user) + {id};
      } else {
        assert ActiveOf(after, after[i].user) == ActiveOf(table, table[i].user);
      }
    }
  }

  /** Every transaction of the service, on any Runs, keeps the table orderly. */
  lemma TransactionKeepsOrder(cfg: Settings, limit: nat, table: Table, x: Txn, t: Tick)
    requires Orderly(limit, table) && Legal(table, x)
    ensures Orderly(limit, Transact(cfg, limit, table, x, t).table)
  {
    match x
    case OnRun(id, action) =>
      RowStepDevelops(cfg, table, id, action, t);
      DevelopmentKeepsOrder(limit, table, WithRun(table, id, Apply(cfg, table[id].run, action, t).run));
    case OnPoll(poll) =>
      DispatchDevelops(cfg, table, poll, t.now);
      DevelopmentKeepsOrder(limit, table, Dispatch(cfg, table, poll, t.now).table);
    case OnRequest(request, newId, found, busy, sizes) =>
      AdmissionKeepsOrder(cfg, limit, table, request, newId, found, busy, t.now, sizes);
  }

  // ---------------------------------------------------------------- idempotent requests

  /** A request repeated under its client key never creates a second Run: it is answered
      with the original when the session and the input are the same, and refused otherwise. */
  lemma RepeatedRequest(cfg: Settings, limit: nat, table: Table, r: Request, id: RunId, original: RunId,
                        first: ChatInput, found: Option<RunId>, busy: Option<RunId>, now: Time, sizes: Sizes)
    requires Orderly(limit, table) && Looked(table, r, found, busy) && id !in table
    requires original in table && Keyed(table[original], r) && table[original].input == Normalized(first)
    requires sizes.expired <= ONE_EVENT_LIMIT
    ensures var e := Create(cfg, limit, table, r, id, found, busy, now, sizes);
      && e.table.Keys == table.Keys
      && (e.answer == Existing(original) <==> table[original].session == r.session && SameRequest(first, r.input))
      && (e.answer == Existing(original) || e.answer == Rejected(IdempotencyConflict))
  {
    SameInputExactly(first, r.input);
    assert found.Some? && Keyed(table[found.value], r);
    if WaitExpired(table[original].run, now) {
      FinalEventAlwaysFits(table[original].run, Error, sizes.expired);
    }
  }
}
