/** The call boundary of a Run: app/manager/run_checkpoint.py `invoke`.  A call's outcome is
    recorded as a small dictionary, and what the caller gets is read back out of it. */
module RunInvoke {
  import opened Outcomes
  import opened CanonicalJson
  import opened RunModel
  import opened RunSteps
  import opened RunAdmission
  import opened RunStore

  /** What a call body produced that may be recorded: a value, or an application error. */
  datatype Produced = Returns(value: Value) | Fails(code: string, message: string, status: int)

  /** How a body ends: with a recordable result, or by an error that must not be recorded
      (a control error, or an unexpected exception). */
  datatype Body = Ends(result: Produced) | Escapes

  datatype Invocation = Delivered(result: Produced) | NotDelivered(code: ErrorCode) | BodyEscaped

  function Recordable(p: Produced): Value
  {
    match p
    case Returns(value) => Dict([Entry(Name("ok"), Bool(true)), Entry(Name("value"), value)])
    case Fails(code, message, status) =>
      Dict([Entry(Name("ok"), Bool(false)), Entry(Name("code"), Text(code)),
            Entry(Name("message"), Text(message)), Entry(Name("status"), Int(status))])
  }

  function Find(entries: seq<Entry>, name: string): Option<Value>
  {
    if entries == [] then None
    else if entries[0].key == Name(name) then Some(entries[0].value) else Find(entries[1..], name)
  }

  function Member(v: Value, name: string): Option<Value>
  {
    if v.Dict? then Find(v.entries, name) else None
  }

  /** Reading a recorded outcome: the value, or the error to raise again. */
  function Read(outcome: Value): Option<Produced>
  {
    var ok := Member(outcome, "ok");
    if ok == Some(Bool(true)) then
      var value := Member(outcome, "value");
      if value.Some? then Some(Returns(value.value)) else None
    else
      var code, message, status := Member(outcome, "code"), Member(outcome, "message"), Member(outcome, "status");
      if code.Some? && code.value.Text? && message.Some? && message.value.Text? && status.Some? && status.value.Int?
      then Some(Fails(code.value.s, message.value.s, status.value.i)) else None
  }

  function CanonicalResult(p: Produced): Produced
  {
    if p.Returns? then Returns(Canonical(p.value)) else p
  }

  // ---------------------------------------------------------------- reading what was written

  lemma {:induction false} FoundWhereItIs(entries: seq<Entry>, e: Entry, name: string)
    requires Distinct(entries) && e in entries && e.key == Name(name)
    ensures Find(entries, name) == Some(e.value)
  {
    if entries[0] != e {
      assert entries == [entries[0]] + entries[1..];
      assert e in entries[1..];
      var i :| 0 <= i < |entries[1..]| && entries[1..][i] == e;
      assert entries[0].key != entries[i + 1].key;
      FoundWhereItIs(entries[1..], e, name);
    }
  }

  lemma {:induction false} FoundIsThere(entries: seq<Entry>, name: string)
    ensures Find(entries, name).Some? ==> Entry(Name(name), Find(entries, name).value) in entries
  {
    if entries != [] && entries[0].key != Name(name) { FoundIsThere(entries[1..], name); }
  }

  /** Canonicalising a dictionary with text keys canonicalises each member in place: the
      same names are present, with the canonical values. */
  lemma CanonicalKeepsMembers(entries: seq<Entry>, name: string)
    requires Distinct(entries) && forall e | e in entries :: e.key.Name?
    ensures Member(Canonical(Dict(entries)), name)
      == if Find(entries, name).None? then None else Some(Canonical(Find(entries, name).value))
  {
    var c := CanonicalEntries(entries);
    CanonicalEntriesKeepKeys(entries);
    SortPermutes(c);
    SortOrders(c);
    SortOfNames(entries);
    NamedKeepsDistinct(c);
    var r := Sort(c);
    assert Canonical(Dict(entries)) == Dict(r);
    FoundIsThere(entries, name);
    FoundIsThere(r, name);
    if Find(entries, name).Some? {
      var i :| 0 <= i < |entries| && entries[i] == Entry(Name(name), Find(entries, name).value);
      assert c[i] in r;
      FoundWhereItIs(r, c[i], name);
    } else if Find(r, name).Some? {
      var i :| 0 <= i < |c| && c[i] == Entry(Name(name), Find(r, name).value);
      assert entries[i] in entries;
      FoundWhereItIs(entries, entries[i], name);
    }
  }

  lemma NamesSurvive(entries: seq<Entry>)
    requires forall i | 0 <= i < |entries| :: entries[i].key.Name?
    ensures OrderSurvives(entries) && SameKind(entries) && forall e | e in entries :: e.key.Name?
  {
  }

  lemma PlainMembers(entries: seq<Entry>)
    requires Distinct(entries) && forall i | 0 <= i < |entries| :: entries[i].key.Name?
    requires forall i | 0 <= i < |entries| :: Encodable(entries[i].value) && OrderStable(entries[i].value)
    ensures Encodable(Dict(entries)) && OrderStable(Dict(entries))
  {
    NamesSurvive(entries);
  }

  lemma FailureNamesDiffer(code: string, message: string, status: int)
    ensures Distinct(Recordable(Fails(code, message, status)).entries)
  {
    assert "ok"[0] != "code"[0] && "ok"[0] != "message"[0] && "ok"[0] != "status"[0];
    assert "code"[0] != "message"[0] && "message"[0] != "status"[0] && "code"[0] != "status"[0];
  }

  lemma FailureIsPlain(code: string, message: string, status: int)
    ensures var entries := Recordable(Fails(code, message, status)).entries;
      Distinct(entries) && Encodable(Dict(entries)) && OrderStable(Dict(entries))
      && forall e | e in entries :: e.key.Name?
  {
    var entries := Recordable(Fails(code, message, status)).entries;
    FailureNamesDiffer(code, message, status);
    NamesSurvive(entries);
    PlainMembers(entries);
  }

  lemma ValueIsPlain(value: Value)
    ensures var entries := Recordable(Returns(value)).entries;
      && Distinct(entries) && (forall e | e in entries :: e.key.Name?)
      && (Encodable(value) ==> Encodable(Dict(entries)))
      && (OrderStable(Dict(entries)) <==> OrderStable(value))
  {
    var entries := Recordable(Returns(value)).entries;
    NamesSurvive(entries);
    assert "ok"[0] != "value"[0];
    assert entries[0] in entries && entries[1] in entries;
  }

  lemma MemberReadsBack(entries: seq<Entry>, i: nat, name: string)
    requires Distinct(entries) && (forall e | e in entries :: e.key.Name?)
    requires i < |entries| && entries[i].key == Name(name)
    ensures Member(Canonical(Dict(entries)), name) == Some(Canonical(entries[i].value))
  {
    FoundWhereItIs(entries, entries[i], name);
    CanonicalKeepsMembers(entries, name);
  }

  lemma FailureIsRead(c: Value, code: string, message: string, status: int)
    requires Member(c, "ok") == Some(Bool(false)) && Member(c, "code") == Some(Text(code))
    requires Member(c, "message") == Some(Text(message)) && Member(c, "status") == Some(Int(status))
    ensures Read(c) == Some(Fails(code, message, status))
  {
  }

  lemma FailureEntriesReadBack(entries: seq<Entry>, code: string, message: string, status: int)
    requires Distinct(entries) && (forall e | e in entries :: e.key.Name?) && |entries| == 4
    requires entries[0] == Entry(Name("ok"), Bool(false)) && entries[1] == Entry(Name("code"), Text(code))
    requires entries[2] == Entry(Name("message"), Text(message)) && entries[3] == Entry(Name("status"), Int(status))
    ensures Read(Canonical(Dict(entries))) == Some(Fails(code, message, status))
  {
    MemberReadsBack(entries, 0, "ok");
    MemberReadsBack(entries, 1, "code");
    MemberReadsBack(entries, 2, "message");
    MemberReadsBack(entries, 3, "status");
    FailureIsRead(Canonical(Dict(entries)), code, message, status);
  }

  lemma FailureReadsBack(code: string, message: string, status: int)
    ensures Read(Canonical(Recordable(Fails(code, message, status)))) == Some(Fails(code, message, status))
  {
    FailureIsPlain(code, message, status);
    FailureEntriesReadBack(Recordable(Fails(code, message, status)).entries, code, message, status);
  }

  lemma ValueReadsBack(value: Value)
    ensures Read(Canonical(Recordable(Returns(value)))) == Some(Returns(Canonical(value)))
  {
    var entries := Recordable(Returns(value)).entries;
    ValueIsPlain(value);
    MemberReadsBack(entries, 0, "ok");
    MemberReadsBack(entries, 1, "value");
  }

  /** What a caller reads out of the recorded outcome is what the body produced: the
      canonical form of its value, or exactly its error. */
  lemma RecordedOutcomeReadsBack(p: Produced)
    ensures Read(Canonical(Recordable(p))) == Some(CanonicalResult(p))
  {
    match p
    case Returns(value) => ValueReadsBack(value);
    case Fails(code, message, status) => FailureReadsBack(code, message, status);
  }

  /** A result that survives a second canonicalisation unchanged: every error, and every
      value without order-unstable integer keys. */
  predicate Stable(p: Produced) { p.Returns? ==> Encodable(p.value) && OrderStable(p.value) }

  /** A fresh call and every replay of it deliver the same thing, even after the stored
      form went through a second canonicalisation: exactly when the result is stable. */
  lemma ReplayDeliversTheSame(p: Produced)
    requires p.Returns? ==> Encodable(p.value)
    ensures Encodable(Recordable(p))
    ensures Canonical(Canonical(Recordable(p))) == Canonical(Recordable(p)) <==> Stable(p)
  {
    match p
    case Returns(value) =>
      ValueIsPlain(value);
      CanonicalIsIdempotent(Recordable(p));
    case Fails(code, message, status) =>
      FailureIsPlain(code, message, status);
      CanonicalIsIdempotent(Recordable(p));
  }

  /** Equal for a caller: the same error, or equal values whatever the order of entries. */
  ghost predicate SameResult(p: Produced, q: Produced)
  {
    if p.Returns? then q.Returns? && SameValue(p.value, q.value) else p == q
  }

  /** A member of a stored dictionary is still there, canonical, when it is stored again. */
  lemma MemberSurvives(entries: seq<Entry>, name: string)
    requires Encodable(Dict(entries)) && forall e | e in entries :: e.key.Name?
    requires Member(Canonical(Dict(entries)), name).Some?
    ensures Member(Canonical(Canonical(Dict(entries))), name)
      == Some(Canonical(Member(Canonical(Dict(entries)), name).value))
  {
    var c := CanonicalEntries(entries);
    CanonicalIsTextual(Dict(entries));
    assert Canonical(Dict(entries)) == Dict(Named(Sort(c)));
    CanonicalKeepsMembers(Named(Sort(c)), name);
  }

  lemma FailureIsReplayed(code: string, message: string, status: int)
    ensures var p := Fails(code, message, status); Read(Canonical(Canonical(Recordable(p)))) == Some(p)
  {
    var p := Fails(code, message, status);
    ReplayDeliversTheSame(p);
    RecordedOutcomeReadsBack(p);
  }

  lemma ValueIsReplayed(value: Value)
    requires Encodable(value)
    ensures Read(Canonical(Canonical(Recordable(Returns(value))))) == Some(Returns(Canonical(Canonical(value))))
  {
    var entries := Recordable(Returns(value)).entries;
    ValueIsPlain(value);
    MemberReadsBack(entries, 0, "ok");
    MemberReadsBack(entries, 1, "value");
    MemberSurvives(entries, "ok");
    MemberSurvives(entries, "value");
  }

  /** Every replay delivers a result equal to the first, for every result that can be
      recorded: the stored form went through a second canonicalisation, which reorders at
      most the entries of dictionaries. */
  lemma ReplayIsEqual(p: Produced)
    requires Encodable(Recordable(p))
    ensures var replayed := Read(Canonical(Canonical(Recordable(p))));
      && replayed.Some? && SameResult(CanonicalResult(p), replayed.value)
      && (Stable(p) ==> replayed.value == CanonicalResult(p))
  {
    match p
    case Returns(value) =>
      var entries := Recordable(p).entries;
      assert entries[1] in entries;
      ValueIsReplayed(value);
      StoredAgainIsSame(value);
      if Stable(p) { CanonicalIsIdempotent(value); }
    case Fails(code, message, status) => FailureIsReplayed(code, message, status);
  }

  // ---------------------------------------------------------------- what the two transactions tell

  /** A recorded receipt is all `begin_operation` looks at: nothing is written, and the
      recorded outcome is the only answer besides a refusal. */
  lemma BeginOnRecorded(run: Run, claim: Claim, t: Tick, key: string, digest: Value, readonly: bool, bytes: nat)
    requires key in run.operations && run.operations[key].state.Recorded?
    ensures var step := Begin(run, claim, t, key, digest, readonly, bytes);
      step.run == run && (step.reply.Refused? || step.reply == Cached(run.operations[key].result))
  {
  }

  /** A body is started only by the holder of the Run, and for a side effect only when
      there is no receipt at all. */
  lemma BeginFresh(run: Run, claim: Claim, t: Tick, key: string, digest: Value, readonly: bool, bytes: nat)
    ensures var step := Begin(run, claim, t, key, digest, readonly, bytes);
      && (step.reply.Fresh? ==> Owned(run, claim, t.checked) && (key in run.operations ==> readonly))
      && (step.reply.Fresh? || step.reply.Cached? || step.reply.Refused?)
      && (step.reply.Cached? ==> key in run.operations && run.operations[key].state.Recorded?)
  {
  }

  /** The digest under which a receipt keeps its inputs tells two calls apart exactly when
      their inputs differ as JSON; the order of dictionary entries never matters. */
  lemma DigestDecidesEquality(a: Value, b: Value)
    requires Encodable(a) && Encodable(b)
    ensures Digest(a) == Digest(b) <==> SameValue(Canonical(a), Canonical(b))
  {
    CanonicalIsTextual(a);
    CanonicalIsTextual(b);
    CanonicalDecidesEquality(Canonical(a), Canonical(b));
  }

  lemma FinishRecords(run: Run, claim: Claim, t: Tick, key: string, stored: Value, c: Closure)
    ensures var step := Finish(run, claim, t, key, stored, c);
      && (step.reply.Quiet? || step.reply.Refused?)
      && (step.reply.Quiet? ==> key in step.run.operations && step.run.operations[key].state.Recorded?
                                && step.run.operations[key].result == stored)
  {
  }

  // ---------------------------------------------------------------- invoke

  /** The receipt of a key, if the Run has one. */
  function ReceiptOf(table: Table, id: RunId, key: string): Option<Operation>
  {
    if id in table && key in table[id].run.operations then Some(table[id].run.operations[key]) else None
  }

  /** What reading the receipt gives is equal to `result`, and identical when that is exact. */
  ghost predicate Replays(receipt: Operation, result: Produced, exact: bool)
  {
    var replayed := Read(receipt.result);
    replayed.Some? && SameResult(result, replayed.value) && (exact ==> replayed.value == result)
  }

  class RunCheckpoint {
    const store: RunStore
    const id: RunId
    const claim: Claim

    constructor (store: RunStore, id: RunId, claim: Claim)
      ensures this.store == store && this.id == id && this.claim == claim
    {
      this.store, this.id, this.claim := store, id, claim;
    }

    method Put(key: string, outcome: Value, closure: Closure, t: Tick) returns (error: Option<ErrorCode>)
      requires id in store.rows
      modifies store`rows
      ensures store.rows.Keys == old(store.rows).Keys
      ensures error.None? ==>
        var receipt := ReceiptOf(store.rows, id, key);
        receipt.Some? && receipt.value.state.Recorded? && receipt.value.result == Canonical(outcome)
    {
      ghost var before := store.rows;
      var finished := store.CompleteOperation(id, claim, key, outcome, closure, t);
      FinishRecords(before[id].run, claim, t, key, Canonical(outcome), closure);
      return if finished.Refused? then Some(finished.code) else None;
    }

    /** The end of `invoke`: canonicalise what the body produced, record it, deliver it. */
    method Conclude(key: string, produced: Produced, closure: Closure, t: Tick) returns (result: Invocation)
      requires id in store.rows
      modifies store`rows
      ensures store.rows.Keys == old(store.rows).Keys && (result.Delivered? || result.NotDelivered?)
      // What is delivered is recorded, and replays will read an equal result.
      ensures result.Delivered? ==>
        var receipt := ReceiptOf(store.rows, id, key);
        && result.result == CanonicalResult(produced)
        && receipt.Some? && receipt.value.state.Recorded?
        && Replays(receipt.value, result.result, Stable(produced))
    {
      var outcome := BoundedJson(Recordable(produced), VALUE_LIMIT);
      if outcome.Raised? { return NotDelivered(outcome.code); }
      var error := Put(key, outcome.value, closure, t);
      if error.Some? { return NotDelivered(error.value); }
      ReplayIsEqual(produced);
      return Delivered(CanonicalResult(produced));
    }

    /** One uninterrupted `invoke`; `body` is what running the call would end with, and
        `ran` tells whether it was run. The guards read the clock at `t`. */
    method Invoke(key: string, inputs: Value, readonly: bool, body: Body, bytes: nat, closure: Closure, t: Tick)
      returns (result: Invocation, ran: bool)
      requires id in store.rows
      modifies store`rows
      ensures store.rows.Keys == old(store.rows).Keys
      // A recorded outcome is delivered again without running the body or writing anything.
      ensures var receipt := ReceiptOf(old(store.rows), id, key);
        receipt.Some? && receipt.value.state.Recorded? ==>
          !ran && store.rows == old(store.rows)
          && (result.Delivered? ==> Read(receipt.value.result) == Some(result.result))
      // A body that ran and delivered is recorded, and replays will read an equal result.
      ensures ran && result.Delivered? ==>
        var receipt := ReceiptOf(store.rows, id, key);
        && body.Ends? && result.result == CanonicalResult(body.result)
        && receipt.Some? && receipt.value.state.Recorded?
        && Replays(receipt.value, result.result, Stable(body.result))
      // A side effect is never run over an existing receipt, nor by anyone but the holder.
      ensures ran && !readonly ==> ReceiptOf(old(store.rows), id, key).None?
      ensures ran ==> Owned(old(store.rows)[id].run, claim, t.checked)
    {
      var error := Refusal(store.rows[id].run, claim, t.checked, false, true);
      if error.Some? { return NotDelivered(error.value), false; }
      ghost var run := store.rows[id].run;
      var begun := store.BeginOperation(id, claim, key, inputs, readonly, bytes, t);
      BeginFresh(run, claim, t, key, Digest(inputs), readonly, bytes);
      if key in run.operations && run.operations[key].state.Recorded? {
        BeginOnRecorded(run, claim, t, key, Digest(inputs), readonly, bytes);
        assert store.rows == old(store.rows);
      }
      if begun.Refused? { return NotDelivered(begun.code), false; }
      if begun.Cached? {
        var cached := Read(begun.result);
        if cached.None? { return NotDelivered(ValueError), false; }
        return Delivered(cached.value), false;
      }
      if body.Escapes? { return BodyEscaped, true; }
      result := Conclude(key, body.result, closure, t);
      ran := true;
    }
  }
}
