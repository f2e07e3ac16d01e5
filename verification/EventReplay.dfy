/** The journal of a Run on its way to the browser: what the server prints on each connection, and
    what the client has been given after any series of them.  app/web/routes.py `durable_stream`,
    frontend/src/api.ts `resumeRun`. */
module EventReplay {
  import opened Outcomes
  import opened EventStream

  // ---------------------------------------------------------------- the journal and its readers

  /** An event item is the journal row at `at`, with the pause flag only on pauses. */
  predicate Shows(i: Item, journal: seq<Row>, runId: string, at: nat)
    requires at < |journal|
  {
    && i.Event? && i.row == journal[at]
    && i.data == Data(runId, at + 1, i.data.current, journal[at].content)
    && (i.data.current.Some? ==> i.row.event == "run_waiting")
  }

  /** The events among the items are the journal rows after `after`, in order. */
  predicate Consecutive(items: seq<Item>, journal: seq<Row>, runId: string, after: nat)
    decreases |items|
  {
    items == [] ||
    if items[0].KeepAlive? then Consecutive(items[1..], journal, runId, after)
    else after < |journal| && Shows(items[0], journal, runId, after)
         && Consecutive(items[1..], journal, runId, after + 1)
  }

  predicate WellNamed(journal: seq<Row>) { forall i | 0 <= i < |journal| :: Plain(journal[i].event) }

  /** The callback has been given exactly the journal rows after `start` up to the cursor. */
  predicate Follows(c: Client, journal: seq<Row>, runId: string, start: nat)
  {
    && c.runId == Some(runId) && start <= c.sequence <= |journal| && |c.log| == c.sequence - start
    && forall j | 0 <= j < |c.log| ::
         && c.log[j].event == journal[start + j].event
         && c.log[j].data == Data(runId, start + j + 1, c.log[j].data.current, journal[start + j].content)
  }

  lemma {:induction false} ConsecutiveIsPrintable(items: seq<Item>, journal: seq<Row>, runId: string, after: nat)
    requires Consecutive(items, journal, runId, after) && WellNamed(journal) && Plain(runId)
    ensures Printable(items)
    decreases |items|
  {
    if items != [] {
      ConsecutiveIsPrintable(items[1..], journal, runId, if items[0].KeepAlive? then after else after + 1);
      assert forall i | i in items :: i == items[0] || i in items[1..];
    }
  }

  lemma {:induction false} PartIsConsecutive(items: seq<Item>, journal: seq<Row>, runId: string, after: nat, m: nat)
    requires Consecutive(items, journal, runId, after) && m <= |items|
    ensures Consecutive(items[..m], journal, runId, after)
    decreases |items|
  {
    if m > 0 {
      PartIsConsecutive(items[1..], journal, runId, if items[0].KeepAlive? then after else after + 1, m - 1);
      assert items[..m][1..] == items[1..][..m - 1];
    }
  }

  /** Receiving any part of the journal from at or before the cursor keeps the log exact:
      repeats are skipped, the rest is appended in order. */
  lemma {:induction false} ReceiveFollows(c: Client, items: seq<Item>, journal: seq<Row>, runId: string, start: nat, after: nat)
    requires Follows(c, journal, runId, start) && Consecutive(items, journal, runId, after)
    requires after <= c.sequence && Plain(runId)
    ensures Follows(Receive(c, items).client, journal, runId, start) && c.sequence <= Receive(c, items).client.sequence
    decreases |items|
  {
    if items != [] {
      var r := ReceiveOne(c, items[0]);
      if r.verdict.Continue? {
        ReceiveFollows(r.client, items[1..], journal, runId, start, if items[0].KeepAlive? then after else after + 1);
      }
    }
  }

  /** How many journal rows a list of items shows. */
  function Events(items: seq<Item>): nat
  {
    if items == [] then 0 else Events(items[1..]) + if items[0].Event? then 1 else 0
  }

  /** And when nothing ends the reading, everything sent has arrived. */
  lemma {:induction false} ReceiveIsComplete(c: Client, items: seq<Item>, journal: seq<Row>, runId: string, start: nat, after: nat)
    requires Follows(c, journal, runId, start) && Consecutive(items, journal, runId, after)
    requires after <= c.sequence && Plain(runId) && Receive(c, items).verdict.Continue?
    ensures Receive(c, items).client.sequence >= after + Events(items)
    ensures c.sequence <= after + Events(items) ==> Receive(c, items).client.sequence == after + Events(items)
    decreases |items|
  {
    if items != [] {
      var r := ReceiveOne(c, items[0]);
      ReceiveFollows(c, [items[0]], journal, runId, start, after) by { assert [items[0]][1..] == []; }
      ReceiveIsComplete(r.client, items[1..], journal, runId, start, if items[0].KeepAlive? then after else after + 1);
    }
  }

  /** Nothing beyond what was sent ever arrives. */
  lemma {:induction false} ReceiveStaysWithin(c: Client, items: seq<Item>, journal: seq<Row>, runId: string, after: nat)
    requires Consecutive(items, journal, runId, after) && after <= c.sequence
    ensures c.sequence <= Receive(c, items).client.sequence
    ensures Receive(c, items).client.sequence <= if c.sequence <= after + Events(items) then after + Events(items) else c.sequence
    decreases |items|
  {
    if items != [] {
      var r := ReceiveOne(c, items[0]);
      if r.verdict.Continue? {
        ReceiveStaysWithin(r.client, items[1..], journal, runId, if items[0].KeepAlive? then after else after + 1);
      }
    }
  }

  // ---------------------------------------------------------------- where the reading ends

  /** The names of the events that settle a Run. */
  predicate Settles(event: string) { event == "done" || event == "run_cancelled" || event == "error" }

  /** Such an event is the last row of its journal. */
  predicate FinalLast(journal: seq<Row>)
  {
    forall i | 0 <= i < |journal| && Settles(journal[i].event) :: i == |journal| - 1
  }

  /** A pause that is flagged as current is the last thing on its connection. */
  predicate PauseEnds(items: seq<Item>)
  {
    forall i | 0 <= i < |items| && items[i].Event? && items[i].row.event == "run_waiting" ::
      items[i].data.current == Some(false) || (items[i].data.current == Some(true) && i == |items| - 1)
  }

  predicate Ended(r: Consumed) { r.verdict.Finished? || r.client.failed }

  lemma {:induction false} EventsOfPart(items: seq<Item>, j: nat)
    requires items != [] && j < |items|
    ensures Events(items[..j + 1]) == Events(items[1..][..j]) + if items[0].Event? then 1 else 0
  {
    assert items[..j + 1][1..] == items[1..][..j];
  }

  /** The reading ends at an item that settles the Run or is a current pause, and the cursor
      is then at that item. */
  lemma {:induction false} EndIsShown(c: Client, items: seq<Item>, journal: seq<Row>, runId: string, after: nat)
    returns (j: nat)
    requires Consecutive(items, journal, runId, after) && !c.failed && Ended(Receive(c, items))
    ensures j < |items| && items[j].Event? && (Settles(items[j].row.event) || Stops(items[j].row.event, items[j].data))
    ensures var at := Receive(c, items).client.sequence;
      1 <= at <= |journal| && at == after + Events(items[..j + 1]) && items[j].row == journal[at - 1]
    decreases |items|
  {
    var r := ReceiveOne(c, items[0]);
    if r.verdict.Continue? {
      var i := EndIsShown(r.client, items[1..], journal, runId, if items[0].KeepAlive? then after else after + 1);
      EventsOfPart(items, i + 1);
      return i + 1;
    } else {
      EventsOfPart(items, 0);
      assert items[1..][..0] == [];
      return 0;
    }
  }

  /** Where a client stands that stopped reading: at the end of the journal, or, at a current
      pause, at the end of what its connection carried. */
  lemma EndIsComplete(c: Client, items: seq<Item>, m: nat, journal: seq<Row>, runId: string, after: nat)
    requires Consecutive(items, journal, runId, after) && FinalLast(journal) && PauseEnds(items)
    requires m <= |items| && !c.failed && Ended(Receive(c, items[..m]))
    ensures var at := Receive(c, items[..m]).client.sequence;
      at == |journal| || (1 <= at <= |journal| && at == after + Events(items) && Flagged(items) && journal[at - 1].event == "run_waiting")
  {
    PartIsConsecutive(items, journal, runId, after, m);
    var j := EndIsShown(c, items[..m], journal, runId, after);
    assert items[..m][j] == items[j];
    if !Settles(items[j].row.event) {
      assert items[j].row.event == "run_waiting" && j == |items| - 1 && m == |items|;
      assert items[..m] == items && items[..j + 1] == items;
    }
  }

  /** The last item is a pause flagged as current. */
  predicate Flagged(items: seq<Item>)
  {
    items != [] && items[|items| - 1].Event? && items[|items| - 1].row.event == "run_waiting"
    && items[|items| - 1].data.current == Some(true)
  }

  /** When nothing ended the reading, no row it showed settles the Run. */
  lemma {:induction false} NothingEnded(c: Client, items: seq<Item>, journal: seq<Row>, runId: string, at: nat)
    requires Consecutive(items, journal, runId, c.sequence) && Receive(c, items).verdict.Continue?
    requires c.sequence <= at < c.sequence + Events(items)
    ensures at < |journal| && !Settles(journal[at].event)
    decreases |items|
  {
    var r := ReceiveOne(c, items[0]);
    if items[0].KeepAlive? {
      NothingEnded(c, items[1..], journal, runId, at);
    } else {
      assert r.client.sequence == c.sequence + 1 && !Settles(items[0].row.event);
      if at > c.sequence { NothingEnded(r.client, items[1..], journal, runId, at); }
    }
  }

  /** Rows sent from the cursor on never fail the checks of the reader. */
  lemma {:induction false} NothingIsRefused(c: Client, items: seq<Item>, journal: seq<Row>, runId: string, start: nat)
    requires Follows(c, journal, runId, start) && Consecutive(items, journal, runId, c.sequence) && Plain(runId)
    ensures Receive(c, items).verdict.Threw? ==> Receive(c, items).client.failed
    decreases |items|
  {
    if items != [] {
      var r := ReceiveOne(c, items[0]);
      if r.verdict.Continue? {
        ReceiveFollows(c, [items[0]], journal, runId, start, c.sequence) by { assert [items[0]][1..] == []; }
        NothingIsRefused(r.client, items[1..], journal, runId, start);
      }
    }
  }

  /** The rest of a settled Run, received from the cursor on, ends the reading at its last row. */
  lemma SettledRunEnds(c: Client, items: seq<Item>, journal: seq<Row>, runId: string, start: nat)
    requires Follows(c, journal, runId, start) && Plain(runId) && !c.failed
    requires Consecutive(items, journal, runId, c.sequence) && FinalLast(journal) && PauseEnds(items)
    requires c.sequence < |journal| == c.sequence + Events(items) && Settles(journal[|journal| - 1].event)
    ensures Ended(Receive(c, items)) && Receive(c, items).client.sequence == |journal|
  {
    if Receive(c, items).verdict.Continue? { NothingEnded(c, items, journal, runId, |journal| - 1); }
    NothingIsRefused(c, items, journal, runId, start);
    assert items[..|items|] == items;
    EndIsComplete(c, items, |items|, journal, runId, c.sequence);
  }

  /** A connection that carries the rest of a settled Run and is not cut off ends the reading,
      with every row of the journal delivered. */
  lemma SettledRunIsFinished(k: Codec, c: Client, items: seq<Item>, chunks: seq<string>, journal: seq<Row>,
                             runId: string, start: nat)
    requires Faithful(k) && WellNamed(journal) && Plain(runId) && Follows(c, journal, runId, start) && !c.failed
    requires Consecutive(items, journal, runId, c.sequence) && Printable(items) && Joined(chunks) == Print(k, items)
    requires FinalLast(journal) && PauseEnds(items)
    requires c.sequence < |journal| == c.sequence + Events(items) && Settles(journal[|journal| - 1].event)
    ensures var r := Read(k, c, Joined(chunks));
      Ended(r) && r.client.sequence == |journal| && Follows(r.client, journal, runId, start)
  {
    WholeTextIsReceived(k, c, items);
    ReceiveFollows(c, items, journal, runId, start, c.sequence);
    SettledRunEnds(c, items, journal, runId, start);
  }

  // ---------------------------------------------------------------- reconnecting

  /** One connection: the cursor it was served from, what the server sent, how much of it
      arrived, and in which pieces. */
  datatype Connection = Connection(after: nat, items: seq<Item>, arrived: nat, chunks: seq<string>)

  /** Read, and reconnect until the stream ends or fails. */
  function Session(k: Codec, c: Client, connections: seq<Connection>): Consumed
    decreases |connections|
  {
    if connections == [] then Consumed(c, Continue)
    else
      var r := Read(k, c, Joined(connections[0].chunks));
      if Ended(r) then r else Session(k, r.client, connections[1..])
  }

  /** A connection is served from a cursor the client had already reached, may end at any
      character, and may be cut into any pieces. */
  ghost predicate Serves(k: Codec, n: Connection, c: Client, journal: seq<Row>, runId: string)
  {
    && n.after <= c.sequence && Consecutive(n.items, journal, runId, n.after)
    && Printable(n.items) && n.arrived <= |Print(k, n.items)|
    && Joined(n.chunks) == Print(k, n.items)[..n.arrived]
  }

  ghost predicate Served(k: Codec, c: Client, connections: seq<Connection>, journal: seq<Row>, runId: string)
    decreases |connections|
  {
    connections == [] ||
    (Serves(k, connections[0], c, journal, runId)
     && Served(k, Read(k, c, Joined(connections[0].chunks)).client, connections[1..], journal, runId))
  }

  /** What one connection does: whatever arrives continues the log without gap or repeat, and
      when it ends the reading nothing is missing. */
  lemma ConnectionIsExact(k: Codec, c: Client, n: Connection, journal: seq<Row>, runId: string, start: nat)
    requires Faithful(k) && WellNamed(journal) && Plain(runId)
    requires Follows(c, journal, runId, start) && Serves(k, n, c, journal, runId)
    ensures var r := Read(k, c, Joined(n.chunks));
      && Follows(r.client, journal, runId, start) && c.sequence <= r.client.sequence
      && (r.client.sequence <= n.after + Events(n.items) || r.client.sequence == c.sequence)
      && (FinalLast(journal) && PauseEnds(n.items) && !c.failed && Ended(r) ==> Arrived(r.client, n, journal))
  {
    var m := CutTextIsReceived(k, c, n.items, n.arrived);
    PartIsConsecutive(n.items, journal, runId, n.after, m);
    ReceiveFollows(c, n.items[..m], journal, runId, start, n.after);
    ReceiveStaysWithin(c, n.items[..m], journal, runId, n.after);
    EventsOfPrefix(n.items, m);
    if FinalLast(journal) && PauseEnds(n.items) && !c.failed && Ended(Read(k, c, Joined(n.chunks))) {
      EndIsComplete(c, n.items, m, journal, runId, n.after);
    }
  }

  lemma {:induction false} EventsOfPrefix(items: seq<Item>, m: nat)
    requires m <= |items|
    ensures Events(items[..m]) <= Events(items)
    decreases |items|
  {
    if m > 0 {
      EventsOfPart(items, m - 1);
      EventsOfPrefix(items[1..], m - 1);
    }
  }

  /** Nothing is missing: the whole journal, or at a pause all its connection carried. */
  predicate Arrived(c: Client, n: Connection, journal: seq<Row>)
  {
    c.sequence == |journal|
    || (1 <= c.sequence <= |journal| && c.sequence == n.after + Events(n.items) && Flagged(n.items)
        && journal[c.sequence - 1].event == "run_waiting")
  }

  /** End to end: for every journal, every way its stream is printed, cut off, cut up,
      interleaved with keep-alives and resumed, the callback is given exactly the journal
      events after the starting cursor, in order, without gap or duplicate; and when the
      reading ends, all of them, or all up to a pause that was current. */
  lemma {:induction false} ReplayIsExact(k: Codec, c: Client, connections: seq<Connection>, journal: seq<Row>,
                                         runId: string, start: nat)
    requires Faithful(k) && WellNamed(journal) && Plain(runId)
    requires Follows(c, journal, runId, start) && Served(k, c, connections, journal, runId)
    ensures var r := Session(k, c, connections);
      && Follows(r.client, journal, runId, start) && c.sequence <= r.client.sequence
      && (FinalLast(journal) && (forall n | n in connections :: PauseEnds(n.items)) && !c.failed && Ended(r) ==>
            exists n | n in connections :: Arrived(r.client, n, journal))
    decreases |connections|
  {
    if connections != [] {
      var n := connections[0];
      assert n in connections;
      ConnectionIsExact(k, c, n, journal, runId, start);
      var r := Read(k, c, Joined(n.chunks));
      if !Ended(r) {
        ReplayIsExact(k, r.client, connections[1..], journal, runId, start);
        assert forall x | x in connections[1..] :: x in connections;
      }
    }
  }

  /** A connection that is not cut off delivers every event it carries, unless one of them
      ends the reading. */
  lemma FullConnectionDeliversAll(k: Codec, c: Client, items: seq<Item>, chunks: seq<string>, journal: seq<Row>,
                                  runId: string, start: nat)
    requires Faithful(k) && WellNamed(journal) && Plain(runId) && Follows(c, journal, runId, start)
    requires Consecutive(items, journal, runId, c.sequence) && Printable(items) && Joined(chunks) == Print(k, items)
    ensures var r := Read(k, c, Joined(chunks));
      || (Receive(c, items).verdict.Continue? && r.verdict.Threw? && r.client.sequence == c.sequence + Events(items))
      || r == Receive(c, items)
  {
    WholeTextIsReceived(k, c, items);
    if Receive(c, items).verdict.Continue? { ReceiveIsComplete(c, items, journal, runId, start, c.sequence); }
  }

  // ---------------------------------------------------------------- the server's side

  /** One read of the Run: how many rows it has, and whether it waits or has ended. */
  datatype Snapshot = Snapshot(visible: nat, settled: bool, waiting: bool)

  predicate Growing(journal: seq<Row>, after: nat, snapshots: seq<Snapshot>)
  {
    && after <= |journal|
    && (forall i | 0 <= i < |snapshots| :: after <= snapshots[i].visible <= |journal|)
    && (forall i, j | 0 <= i < j < |snapshots| :: snapshots[i].visible <= snapshots[j].visible)
  }

  lemma {:induction false} ConsecutiveJoins(a: seq<Item>, b: seq<Item>, journal: seq<Row>, runId: string, after: nat)
    requires Consecutive(a, journal, runId, after) && Consecutive(b, journal, runId, after + Events(a))
    ensures Consecutive(a + b, journal, runId, after) && Events(a + b) == Events(a) + Events(b)
    decreases |a|
  {
    if a == [] {
      assert a + b == b;
    } else {
      ConsecutiveJoins(a[1..], b, journal, runId, if a[0].KeepAlive? then after else after + 1);
      assert (a + b)[1..] == a[1..] + b;
    }
  }

  /** No pause is flagged as current. */
  predicate Quiet(items: seq<Item>)
  {
    forall i | 0 <= i < |items| && items[i].Event? && items[i].row.event == "run_waiting" ::
      items[i].data.current == Some(false)
  }

  lemma QuietThenOne(items: seq<Item>, item: Item)
    requires Quiet(items)
    ensures item.KeepAlive? || item.row.event != "run_waiting" || item.data.current == Some(false) ==> Quiet(items + [item])
    ensures item.Event? && item.data.current == Some(true) ==> PauseEnds(items + [item])
    ensures !Flagged(items)
  {
  }

  /** `durable_stream` until the client disconnects: batches of at most 100 rows after the
      cursor, a keep-alive when there are none, and an end once a settled Run is shown. */
  method DurableStream(journal: seq<Row>, runId: string, after: nat, snapshots: seq<Snapshot>)
    returns (items: seq<Item>, closed: bool)
    requires Growing(journal, after, snapshots) && WellNamed(journal) && Plain(runId)
    ensures Consecutive(items, journal, runId, after) && Printable(items) && PauseEnds(items)
    ensures closed ==> exists i :: 0 <= i < |snapshots| && (snapshots[i].settled || snapshots[i].waiting)
                                    && after + Events(items) == snapshots[i].visible
    // A pause is flagged as current only when the Run waits and all its rows were sent.
    ensures Flagged(items) ==> closed && ShowsAll(snapshots, after + Events(items))
    ensures Events(items) == 0 || SeenBy(snapshots, after + Events(items))
  {
    items, closed := [], false;
    var cursor := after;
    for s := 0 to |snapshots|
      invariant Consecutive(items, journal, runId, after) && cursor == after + Events(items)
      invariant after <= cursor <= |journal| && Quiet(items)
      invariant cursor == after || (s > 0 && cursor <= snapshots[s - 1].visible)
      invariant forall i | s <= i < |snapshots| :: cursor <= snapshots[i].visible
    {
      var run := snapshots[s];
      var end := if run.visible - cursor <= 100 then run.visible else cursor + 100;
      var idle := cursor == end;
      while cursor < end
        invariant Consecutive(items, journal, runId, after) && cursor == after + Events(items)
        invariant after <= cursor <= end <= run.visible
        invariant Quiet(items) || (PauseEnds(items) && run.waiting && cursor == run.visible)
      {
        var row := journal[cursor];
        var current := if row.event == "run_waiting" then Some(run.waiting && cursor + 1 == run.visible) else None;
        var item := Event(row, Data(runId, cursor + 1, current, row.content));
        assert [item][1..] == [] && Consecutive([item], journal, runId, cursor);
        ConsecutiveJoins(items, [item], journal, runId, after);
        QuietThenOne(items, item);
        items := items + [item];
        cursor := cursor + 1;
      }
      ConsecutiveIsPrintable(items, journal, runId, after);
      QuietThenOne(if Quiet(items) then items else [], KeepAlive);
      if (run.settled || run.waiting) && cursor >= run.visible {
        assert snapshots[s] == run;
        return items, true;
      }
      if idle {
        assert [KeepAlive][1..] == [] && Consecutive([KeepAlive], journal, runId, cursor);
        ConsecutiveJoins(items, [KeepAlive], journal, runId, after);
        QuietThenOne(items, KeepAlive);
        items := items + [KeepAlive];
      }
    }
    ConsecutiveIsPrintable(items, journal, runId, after);
    QuietThenOne(items, KeepAlive);
  }

  /** The last look at the Run saw at least this many rows. */
  predicate SeenBy(snapshots: seq<Snapshot>, cursor: nat)
  {
    snapshots != [] && cursor <= snapshots[|snapshots| - 1].visible
  }

  /** The Run was seen waiting with this many rows. */
  predicate ShowsAll(snapshots: seq<Snapshot>, visible: nat)
  {
    exists i :: 0 <= i < |snapshots| && snapshots[i].waiting && snapshots[i].visible == visible
  }

  // ---------------------------------------------------------------- both sides together

  /** One attempt to read: what the server saw while it lasted, how much of its text arrived,
      and the sizes of the pieces. */
  datatype Attempt = Attempt(snapshots: seq<Snapshot>, arrived: nat, sizes: seq<nat>)

  function Pieces(text: string, sizes: seq<nat>): (r: seq<string>)
    ensures Joined(r) == text
    decreases |sizes|
  {
    if sizes == [] || sizes[0] > |text| then [text]
    else
      assert text[..sizes[0]] + text[sizes[0]..] == text;
      [text[..sizes[0]]] + Pieces(text[sizes[0]..], sizes[1..])
  }

  /** The Run only gains rows, within an attempt and from one to the next. */
  predicate Evolving(journal: seq<Row>, after: nat, attempts: seq<Attempt>)
  {
    && after <= |journal|
    && (forall a | 0 <= a < |attempts| :: Growing(journal, after, attempts[a].snapshots))
    && (forall a, b, i, j | 0 <= a < b < |attempts| && 0 <= i < |attempts[a].snapshots| && 0 <= j < |attempts[b].snapshots| ::
          attempts[a].snapshots[i].visible <= attempts[b].snapshots[j].visible)
  }

  /** Every row the server sees from attempt `a` on is behind the cursor. */
  predicate Behind(cursor: nat, attempts: seq<Attempt>, a: nat)
  {
    forall b | a <= b < |attempts| :: forall i | 0 <= i < |attempts[b].snapshots| :: cursor <= attempts[b].snapshots[i].visible
  }

  /** One attempt of `resumeRun`: the server prints, part of it arrives, the client reads. */
  method ReadOnce(k: Codec, cursor: Client, journal: seq<Row>, runId: string, start: nat, attempt: Attempt)
    returns (result: Consumed)
    requires Faithful(k) && WellNamed(journal) && Plain(runId) && FinalLast(journal)
    requires Follows(cursor, journal, runId, start) && !cursor.failed
    requires Growing(journal, cursor.sequence, attempt.snapshots)
    ensures Follows(result.client, journal, runId, start)
    ensures result.client.sequence == cursor.sequence || SeenBy(attempt.snapshots, result.client.sequence)
    ensures Ended(result) ==>
      result.client.sequence == |journal| || ShowsAll(attempt.snapshots, result.client.sequence)
  {
    var items, closed := DurableStream(journal, runId, cursor.sequence, attempt.snapshots);
    var n := Transmitted(k, cursor.sequence, items, attempt);
    TransmittedIsServed(k, cursor, items, attempt, journal, runId);
    AttemptIsExact(k, cursor, n, journal, runId, start, attempt.snapshots);
    result := ReadEventStream(k, cursor, n.chunks);
  }

  /** The connection on which the printed items arrive, in pieces, up to where it is cut off. */
  function Transmitted(k: Codec, after: nat, items: seq<Item>, attempt: Attempt): (n: Connection)
    requires Printable(items)
    ensures n.after == after && n.items == items
  {
    var text := Print(k, items);
    var arrived := if attempt.arrived < |text| then attempt.arrived else |text|;
    Connection(after, items, arrived, Pieces(text[..arrived], attempt.sizes))
  }

  lemma TransmittedIsServed(k: Codec, c: Client, items: seq<Item>, attempt: Attempt, journal: seq<Row>, runId: string)
    requires Printable(items) && Consecutive(items, journal, runId, c.sequence)
    ensures Serves(k, Transmitted(k, c.sequence, items, attempt), c, journal, runId)
  {
  }

  lemma AttemptIsExact(k: Codec, c: Client, n: Connection, journal: seq<Row>, runId: string, start: nat,
                       snapshots: seq<Snapshot>)
    requires Faithful(k) && WellNamed(journal) && Plain(runId) && FinalLast(journal)
    requires Follows(c, journal, runId, start) && !c.failed && Serves(k, n, c, journal, runId) && PauseEnds(n.items)
    requires n.after == c.sequence && (Events(n.items) == 0 || SeenBy(snapshots, n.after + Events(n.items)))
    requires Flagged(n.items) ==> ShowsAll(snapshots, n.after + Events(n.items))
    ensures var r := Read(k, c, Joined(n.chunks));
      && Follows(r.client, journal, runId, start)
      && (r.client.sequence == c.sequence || SeenBy(snapshots, r.client.sequence))
      && (Ended(r) ==> r.client.sequence == |journal| || ShowsAll(snapshots, r.client.sequence))
  {
    ConnectionIsExact(k, c, n, journal, runId, start);
  }

  /** `resumeRun`: read from the cursor, and reconnect from where it got to, until the stream
      ends or fails or the attempts are used up. */
  method ResumeRun(k: Codec, runId: string, after: nat, journal: seq<Row>, attempts: seq<Attempt>)
    returns (result: Consumed)
    requires Faithful(k) && WellNamed(journal) && Plain(runId) && FinalLast(journal)
    requires Evolving(journal, after, attempts)
    ensures Follows(result.client, journal, runId, after)
    ensures Ended(result) ==>
      result.client.sequence == |journal|
      || exists a :: 0 <= a < |attempts| && ShowsAll(attempts[a].snapshots, result.client.sequence)
  {
    result := Consumed(Client(Some(runId), after, false, []), Threw);
    for a := 0 to |attempts|
      invariant Follows(result.client, journal, runId, after) && !Ended(result)
      invariant Behind(result.client.sequence, attempts, a)
    {
      ghost var before := result.client.sequence;
      assert Growing(journal, after, attempts[a].snapshots);
      result := ReadOnce(k, result.client, journal, runId, after, attempts[a]);
      if Ended(result) { return; }
      StaysBehind(journal, after, attempts, a, before, result.client.sequence);
    }
  }

  lemma StaysBehind(journal: seq<Row>, after: nat, attempts: seq<Attempt>, a: nat, before: nat, cursor: nat)
    requires Evolving(journal, after, attempts) && a < |attempts| && Behind(before, attempts, a)
    requires cursor == before || SeenBy(attempts[a].snapshots, cursor)
    ensures Behind(cursor, attempts, a + 1)
  {
  }
}
