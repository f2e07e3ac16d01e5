/** The public event stream, printer and reader together: app/web/routes.py `sse_event`,
    frontend/src/sse.ts `readEventStream`. The format is that of server-sent events (sections
    9.2.5 and 9.2.6 of the WHATWG HTML standard). Text is decoded; JSON is a codec of which
    only the round trip is used. */
module EventStream {
  import opened Outcomes

  /** One journal row: its event name and the rest of its payload. Its sequence number is
      its position, counted from one. */
  datatype Row = Row(event: string, content: int)

  /** The JSON data of a printed event; `current` is the flag added to pause events. */
  datatype Data = Data(runId: string, sequence: int, current: Option<bool>, content: int)

  datatype Codec = Codec(encode: Data -> string, decode: string -> Option<Data>)

  predicate IsSpace(c: char)
  {
    var n := c as int;
    0x09 <= n <= 0x0d || n == 0x20 || n == 0xa0 || n == 0x1680 || 0x2000 <= n <= 0x200a
    || n == 0x2028 || n == 0x2029 || n == 0x202f || n == 0x205f || n == 0x3000 || n == 0xfeff
  }

  predicate OneLine(s: string) { forall c | c in s :: c != '\n' && c != '\r' }

  /** JSON object text: it reads back, is one line, opens with a brace, and no proper prefix
      of it is JSON. */
  ghost predicate Faithful(k: Codec)
  {
    forall d {:trigger k.encode(d)} ::
      && k.decode(k.encode(d)) == Some(d) && OneLine(k.encode(d))
      && k.encode(d) != "" && !IsSpace(k.encode(d)[0])
      && forall n | 0 <= n < |k.encode(d)| :: k.decode(k.encode(d)[..n]).None?
  }

  /** Event names and Run identifiers have no white space. */
  predicate Plain(s: string) { s != "" && forall c | c in s :: !IsSpace(c) }

  // ---------------------------------------------------------------- printing

  function Digits(n: nat): string
  {
    (if n < 10 then [] else Digits(n / 10)) + ["0123456789"[n % 10]]
  }

  /** What the server puts on one connection: an event, or a keep-alive comment. */
  datatype Item = Event(row: Row, data: Data) | KeepAlive

  function Line1(i: Item): string
    requires i.Event?
  {
    "event: " + i.row.event
  }

  function Line2(i: Item): string
    requires i.Event? && i.data.sequence >= 0
  {
    "id: " + i.data.runId + ":" + Digits(i.data.sequence)
  }

  function Line3(k: Codec, i: Item): string
    requires i.Event?
  {
    "data: " + k.encode(i.data)
  }

  const COMMENT := ": keep-alive"

  /** An item without the blank line that ends it. */
  function Text(k: Codec, i: Item): string
    requires i.Event? ==> i.data.sequence >= 0
  {
    if i.KeepAlive? then COMMENT else Line1(i) + "\n" + Line2(i) + "\n" + Line3(k, i)
  }

  predicate Printable(items: seq<Item>)
  {
    forall i | i in items && i.Event? :: i.data.sequence >= 1 && Plain(i.row.event) && Plain(i.data.runId)
  }

  function Print(k: Codec, items: seq<Item>): string
    requires Printable(items)
  {
    if items == [] then "" else Text(k, items[0]) + "\n\n" + Print(k, items[1..])
  }

  // ---------------------------------------------------------------- reading

  datatype Client = Client(runId: Option<string>, sequence: nat, failed: bool, log: seq<Delivered>)

  /** One call of the event callback. */
  datatype Delivered = Delivered(event: string, data: Data)

  datatype Verdict = Continue | Finished | Threw

  datatype Consumed = Consumed(client: Client, verdict: Verdict)

  function TrimStart(s: string): string { if s != "" && IsSpace(s[0]) then TrimStart(s[1..]) else s }

  function TrimEnd(s: string): string
  {
    if s != "" && IsSpace(s[|s| - 1]) then TrimEnd(s[..|s| - 1]) else s
  }

  function Trim(s: string): string { TrimEnd(TrimStart(s)) }

  /** `split('\n')`. */
  function Lines(s: string): (r: seq<string>)
    ensures r != []
  {
    if s == "" then [""]
    else if s[0] == '\n' then [""] + Lines(s[1..])
    else var rest := Lines(s[1..]); [[s[0]] + rest[0]] + rest[1..]
  }

  datatype Parsed = Parsed(event: string, data: seq<string>)

  /** The field lines of a block; later `event:` lines win, `data:` lines accumulate. */
  function ParseLines(lines: seq<string>, p: Parsed): Parsed
    decreases |lines|
  {
    if lines == [] then p
    else
      var line := lines[0];
      var next := if "event:" <= line then p.(event := Trim(line[6..]))
                  else if "data:" <= line then p.(data := p.data + [TrimStart(line[5..])]) else p;
      ParseLines(lines[1..], next)
  }

  function Parse(block: string): Parsed { ParseLines(Lines(block), Parsed("message", [])) }

  function JoinLines(data: seq<string>): string
  {
    if data == [] then "" else if |data| == 1 then data[0] else data[0] + "\n" + JoinLines(data[1..])
  }

  predicate Stops(event: string, d: Data)
  {
    event == "done" || event == "run_cancelled" || (event == "run_waiting" && d.current != Some(false))
  }

  /** Accept one parsed event. */
  function Accept(c: Client, event: string, d: Data): Consumed
  {
    if d.sequence < 1 || d.runId == "" || (c.runId.Some? && d.runId != c.runId.value) then Consumed(c, Threw)
    else if d.sequence <= c.sequence then Consumed(c, Continue)
    else if d.sequence != c.sequence + 1 then Consumed(c, Threw)
    else
      var next := Client(Some(d.runId), d.sequence, c.failed, c.log + [Delivered(event, d)]);
      if event == "error" then Consumed(next.(failed := true), Threw)
      else Consumed(next, if Stops(event, d) then Finished else Continue)
  }

  /** `consume`. */
  function Consume(k: Codec, c: Client, block: string): Consumed
  {
    var p := Parse(block);
    if p.data == [] then Consumed(c, Continue)
    else
      var d := k.decode(JoinLines(p.data));
      if d.None? then Consumed(c, Threw) else Accept(c, p.event, d.value)
  }

  /** `indexOf("\n\n")` from `i`. */
  function Boundary(s: string, i: nat): (r: Option<nat>)
    ensures r.Some? ==> i <= r.value && r.value + 2 <= |s|
    decreases |s| - i
  {
    if i + 2 > |s| then None else if s[i] == '\n' && s[i + 1] == '\n' then Some(i) else Boundary(s, i + 1)
  }

  datatype Drained = Drained(client: Client, buffer: string, verdict: Verdict)

  /** Consume every complete block of the buffer, until one ends the reading. */
  function Drain(k: Codec, c: Client, buffer: string): Drained
    decreases |buffer|
  {
    var b := Boundary(buffer, 0);
    if b.None? then Drained(c, buffer, Continue)
    else
      var r := Consume(k, c, buffer[..b.value]);
      if r.verdict.Continue? then Drain(k, r.client, buffer[b.value + 2..])
      else Drained(r.client, buffer[b.value + 2..], r.verdict)
  }

  /** The end of the connection: a last unterminated block, then an interruption. */
  function AtEnd(k: Codec, d: Drained): Consumed
  {
    if !d.verdict.Continue? then Consumed(d.client, d.verdict)
    else if Trim(d.buffer) == "" then Consumed(d.client, Threw)
    else
      var r := Consume(k, d.client, d.buffer);
      if r.verdict.Continue? then Consumed(r.client, Threw) else r
  }

  /** Reading a connection that delivered `text`, however it was cut. */
  function Read(k: Codec, c: Client, text: string): Consumed { AtEnd(k, Drain(k, c, text)) }

  /** The loop of `readEventStream` over the received chunks. The reader stops asking for
      chunks once a block ends the reading. */
  method ReadEventStream(k: Codec, client: Client, chunks: seq<string>) returns (result: Consumed)
    ensures result == Read(k, client, Joined(chunks))
  {
    var c, buffer := client, "";
    assert "" + Joined(chunks) == Joined(chunks);
    for i := 0 to |chunks|
      invariant Boundary(buffer, 0).None?
      invariant Read(k, client, Joined(chunks)) == Read(k, c, buffer + Joined(chunks[i..]))
    {
      ghost var rest := Joined(chunks[i + 1..]);
      assert buffer + Joined(chunks[i..]) == (buffer + chunks[i]) + rest;
      buffer := buffer + chunks[i];
      var b := Boundary(buffer, 0);
      while b.Some?
        invariant b == Boundary(buffer, 0)
        invariant Read(k, client, Joined(chunks)) == Read(k, c, buffer + rest)
        decreases |buffer|
      {
        var block := buffer[..b.value];
        BlockIsRead(k, c, buffer, rest);
        buffer := buffer[b.value + 2..];
        var done := Consume(k, c, block);
        if !done.verdict.Continue? { return done; }
        c := done.client;
        b := Boundary(buffer, 0);
      }
    }
    assert buffer + Joined(chunks[|chunks|..]) == buffer;
    if Trim(buffer) != "" {
      var last := Consume(k, c, buffer);
      if !last.verdict.Continue? { return last; }
      c := last.client;
    }
    return Consumed(c, Threw);
  }

  /** Reading begins with the first complete block, whatever follows it. */
  lemma BlockIsRead(k: Codec, c: Client, buffer: string, rest: string)
    requires Boundary(buffer, 0).Some?
    ensures var b := Boundary(buffer, 0).value;
      var r := Consume(k, c, buffer[..b]);
      Read(k, c, buffer + rest)
        == if r.verdict.Continue? then Read(k, r.client, buffer[b + 2..] + rest) else r
  {
    BoundaryStays(buffer, rest, 0);
    DropJoined(buffer, rest, Boundary(buffer, 0).value + 2);
    DropJoined(buffer, rest, Boundary(buffer, 0).value);
  }

  function Joined(chunks: seq<string>): string
  {
    if chunks == [] then "" else chunks[0] + Joined(chunks[1..])
  }

  // ---------------------------------------------------------------- blocks are found whatever the cut

  lemma DropJoined(s: string, more: string, n: nat)
    requires n <= |s|
    ensures (s + more)[n..] == s[n..] + more && (s + more)[..n] == s[..n]
  {
  }

  lemma {:induction false} BoundaryStays(s: string, more: string, i: nat)
    requires Boundary(s, i).Some?
    ensures Boundary(s + more, i) == Boundary(s, i)
    decreases |s| - i
  {
    if !(s[i] == '\n' && s[i + 1] == '\n') { BoundaryStays(s, more, i + 1); }
  }

  // ---------------------------------------------------------------- text made of lines

  lemma {:induction false} BoundaryOfTail(s: string, i: nat)
    requires i <= |s|
    ensures Boundary(s, i) == (var b := Boundary(s[i..], 0); if b.None? then None else Some(b.value + i))
    decreases |s| - i
  {
    BoundaryFrom(s, i, 0);
  }

  lemma {:induction false} BoundaryFrom(s: string, i: nat, j: nat)
    requires i + j <= |s|
    ensures Boundary(s, i + j) == (var b := Boundary(s[i..], j); if b.None? then None else Some(b.value + i))
    decreases |s| - i - j
  {
    if i + j + 2 <= |s| && !(s[i + j] == '\n' && s[i + j + 1] == '\n') { BoundaryFrom(s, i, j + 1); }
  }

  lemma {:induction false} NoBoundaryInLine(s: string, i: nat, end: nat)
    requires i <= end <= |s| && forall j | i <= j < end :: s[j] != '\n'
    ensures Boundary(s, i) == Boundary(s, end)
    decreases end - i
  {
    if i < end { NoBoundaryInLine(s, i + 1, end); }
  }

  lemma LineHasNoBreak(line: string, rest: string)
    requires OneLine(line)
    ensures var s := line + "\n" + rest; forall j | 0 <= j < |line| :: s[j] != '\n'
  {
    assert forall j | 0 <= j < |line| :: (line + "\n" + rest)[j] == line[j] && line[j] in line;
  }

  /** From a line break on: a boundary at once, or wherever the rest has one. */
  lemma BoundaryAtBreak(s: string, n: nat, rest: string)
    requires n < |s| && s[n] == '\n' && s[n + 1..] == rest
    ensures var b := Boundary(rest, 0);
      Boundary(s, n) == if rest != "" && rest[0] == '\n' then Some(n)
                        else if b.None? then None else Some(n + 1 + b.value)
  {
    assert rest != "" ==> rest[0] == s[n + 1];
    if !(rest != "" && rest[0] == '\n') && n + 2 <= |s| { BoundaryOfTail(s, n + 1); }
  }

  /** A line break is a block boundary exactly when another follows at once. */
  lemma BoundaryAfterLine(line: string, rest: string)
    requires OneLine(line)
    ensures var b := Boundary(rest, 0);
      Boundary(line + "\n" + rest, 0)
        == if rest != "" && rest[0] == '\n' then Some(|line|)
           else if b.None? then None else Some(|line| + 1 + b.value)
  {
    var s := line + "\n" + rest;
    LineHasNoBreak(line, rest);
    NoBoundaryInLine(s, 0, |line|);
    BoundaryAtBreak(s, |line|, rest);
  }

  lemma {:induction false} LinesOfLine(line: string)
    requires OneLine(line)
    ensures Lines(line) == [line]
  {
    if line != "" {
      assert forall c | c in line[1..] :: c in line;
      assert line[0] in line;
      LinesOfLine(line[1..]);
      assert [line[0]] + line[1..] == line;
    }
  }

  lemma {:induction false} LinesAfterLine(line: string, rest: string)
    requires OneLine(line)
    ensures Lines(line + "\n" + rest) == [line] + Lines(rest)
  {
    var s := line + "\n" + rest;
    if line == "" {
      assert s[1..] == rest;
    } else {
      assert forall c | c in line[1..] :: c in line;
      assert line[0] in line;
      LinesAfterLine(line[1..], rest);
      assert s[1..] == line[1..] + "\n" + rest;
      assert [line[0]] + line[1..] == line;
    }
  }

  lemma {:induction false} DigitsAreOneLine(n: nat)
    ensures OneLine(Digits(n))
  {
    if n >= 10 { DigitsAreOneLine(n / 10); }
  }

  lemma ItemLines(k: Codec, i: Item)
    requires Faithful(k) && i.Event? && i.data.sequence >= 1 && Plain(i.row.event) && Plain(i.data.runId)
    ensures OneLine(Line1(i)) && OneLine(Line2(i)) && OneLine(Line3(k, i))
  {
    DigitsAreOneLine(i.data.sequence);
    assert forall c | c in i.row.event :: !IsSpace(c);
    assert forall c | c in i.data.runId :: !IsSpace(c);
    assert Faithful(k) && OneLine(k.encode(i.data));
  }

  /** The blank line after an item is where its block ends. */
  lemma ItemIsOneBlock(k: Codec, i: Item, rest: string)
    requires Faithful(k) && Printable([i])
    ensures Boundary(Text(k, i) + "\n\n" + rest, 0) == Some(|Text(k, i)|)
  {
    assert i in [i];
    if i.KeepAlive? {
      BoundaryAfterLine(COMMENT, "\n" + rest);
      assert COMMENT + "\n" + ("\n" + rest) == COMMENT + "\n\n" + rest;
    } else {
      ItemLines(k, i);
      var t3 := Line3(k, i) + "\n" + ("\n" + rest);
      var t2 := Line2(i) + "\n" + t3;
      BoundaryAfterLine(Line3(k, i), "\n" + rest);
      BoundaryAfterLine(Line2(i), t3);
      BoundaryAfterLine(Line1(i), t2);
      assert Text(k, i) + "\n\n" + rest == Line1(i) + "\n" + t2;
    }
  }

  // ---------------------------------------------------------------- what one block says

  lemma {:induction false} PlainIsTrimmed(s: string)
    requires Plain(s)
    ensures Trim(" " + s) == s && TrimStart(s) == s
  {
    assert s[0] in s && s[|s| - 1] in s;
    assert (" " + s)[0] == ' ' && IsSpace(' ') && (" " + s)[1..] == s;
    assert TrimStart(s) == s && TrimStart(" " + s) == TrimStart(s);
    assert TrimEnd(s) == s;
  }

  /** What remains of the data line when it has been received up to `json`. */
  lemma DataLine(json: string)
    requires json == "" || !IsSpace(json[0])
    ensures "data:" <= "data: " + json && TrimStart(("data: " + json)[5..]) == json
  {
    assert ("data: " + json)[5..] == " " + json && (" " + json)[1..] == json;
  }

  lemma FirstCharacter(prefix: string, s: string)
    requires prefix != "" && s != "" && prefix[0] != s[0]
    ensures !(prefix <= s)
  {
  }

  lemma OtherLineIsIgnored(line: string, rest: seq<string>, p: Parsed)
    requires !("event:" <= line) && !("data:" <= line)
    ensures ParseLines([line] + rest, p) == ParseLines(rest, p)
  {
    assert ([line] + rest)[1..] == rest;
  }

  lemma CommentSaysNothing(tail: string)
    requires tail == "" || tail == "\n"
    ensures Parse(COMMENT + tail).data == []
  {
    var p := Parsed("message", []);
    FirstCharacter("event:", COMMENT);
    FirstCharacter("data:", COMMENT);
    if tail == "" {
      LinesOfLine(COMMENT);
      assert COMMENT + tail == COMMENT && [COMMENT] == [COMMENT] + [];
      OtherLineIsIgnored(COMMENT, [], p);
    } else {
      LinesAfterLine(COMMENT, "");
      assert COMMENT + tail == COMMENT + "\n" + "";
      OtherLineIsIgnored(COMMENT, [""], p);
      assert [""] == [""] + [];
      OtherLineIsIgnored("", [], p);
    }
  }

  /** An event item, received whole, is accepted as the event it was printed from. */
  lemma WholeItemIsAccepted(k: Codec, c: Client, i: Item, tail: string)
    requires Faithful(k) && Printable([i]) && (tail == "" || tail == "\n")
    ensures Consume(k, c, Text(k, i) + tail)
      == if i.KeepAlive? then Consumed(c, Continue) else Accept(c, i.row.event, i.data)
  {
    assert i in [i];
    if i.KeepAlive? {
      CommentSaysNothing(tail);
    } else {
      EventLines(k, i, k.encode(i.data), tail);
      assert k.decode(k.encode(i.data)) == Some(i.data);
      assert JoinLines([k.encode(i.data)]) == k.encode(i.data);
    }
  }

  /** The parse of an event block whose data line has been received up to `json`. */
  lemma EventLines(k: Codec, i: Item, json: string, tail: string)
    requires Faithful(k) && i.Event? && Printable([i]) && (tail == "" || tail == "\n")
    requires json <= k.encode(i.data)
    ensures Parse(Line1(i) + "\n" + Line2(i) + "\n" + ("data: " + json) + tail) == Parsed(i.row.event, [json])
  {
    assert i in [i];
    ItemLines(k, i);
    var l3 := "data: " + json;
    assert OneLine(l3) by {
      assert OneLine(k.encode(i.data));
      assert forall c | c in json :: c in k.encode(i.data);
    }
    var block := Line1(i) + "\n" + Line2(i) + "\n" + l3 + tail;
    assert block == Line1(i) + "\n" + (Line2(i) + "\n" + (l3 + tail));
    LinesAfterLine(Line1(i), Line2(i) + "\n" + (l3 + tail));
    LinesAfterLine(Line2(i), l3 + tail);
    if tail == "" {
      LinesOfLine(l3);
      assert l3 + tail == l3;
    } else {
      LinesAfterLine(l3, "");
      assert l3 + tail == l3 + "\n" + "";
    }
    var ls := Lines(l3 + tail);
    assert Lines(block) == [Line1(i)] + ([Line2(i)] + ls);
    ParseEvent(i, json, ls);
  }

  lemma ParseEvent(i: Item, json: string, ls: seq<string>)
    requires i.Event? && i.data.sequence >= 0 && Plain(i.row.event) && (json == "" || !IsSpace(json[0]))
    requires ls == ["data: " + json] || ls == ["data: " + json, ""]
    ensures ParseLines([Line1(i)] + ([Line2(i)] + ls), Parsed("message", [])) == Parsed(i.row.event, [json])
  {
    var all := [Line1(i)] + ([Line2(i)] + ls);
    var p1 := Parsed(i.row.event, []);
    assert all[1..] == [Line2(i)] + ls && ([Line2(i)] + ls)[1..] == ls;
    assert Line1(i)[6..] == " " + i.row.event;
    PlainIsTrimmed(i.row.event);
    assert ParseLines(all, Parsed("message", [])) == ParseLines([Line2(i)] + ls, p1);
    FirstCharacter("event:", Line2(i));
    FirstCharacter("data:", Line2(i));
    OtherLineIsIgnored(Line2(i), ls, p1);
    FirstCharacter("event:", "data: " + json);
    DataLine(json);
    assert p1.data + [json] == [json];
    var p2 := Parsed(i.row.event, [json]);
    assert ls[0] == "data: " + json;
    assert ParseLines(ls, p1) == ParseLines(ls[1..], p2);
    if |ls| == 2 {
      assert ls[1..] == [""] && [""][1..] == [];
      assert ParseLines([""], p2) == ParseLines([], p2);
    } else {
      assert ls[1..] == [];
    }
  }

  // ---------------------------------------------------------------- a block cut short

  lemma {:induction false} NoDataLine(ls: seq<string>, p: Parsed)
    requires forall j | 0 <= j < |ls| :: !("data:" <= ls[j])
    ensures ParseLines(ls, p).data == p.data
    decreases |ls|
  {
    if ls != [] {
      NoDataLine(ls[1..], if "event:" <= ls[0] then p.(event := Trim(ls[0][6..])) else p);
    }
  }

  lemma PartOfLine(line: string, n: nat)
    requires OneLine(line) && n <= |line|
    ensures OneLine(line[..n])
  {
    assert forall c | c in line[..n] :: c in line;
  }

  /** Cut inside the name or the identifier line, a block carries no data. */
  lemma CutBeforeData(k: Codec, i: Item, p: string)
    requires Faithful(k) && i.Event? && Printable([i])
    requires p <= Line1(i) + "\n" + Line2(i)
    ensures Parse(p).data == []
  {
    assert i in [i];
    ItemLines(k, i);
    var l1, l2 := Line1(i), Line2(i);
    var none := Parsed("message", []);
    if |p| <= |l1| {
      assert p == l1[..|p|];
      PartOfLine(l1, |p|);
      LinesOfLine(p);
      if p != "" { FirstCharacter("data:", p); }
      NoDataLine([p], none);
    } else {
      var q := l2[..|p| - |l1| - 1];
      assert p == l1 + "\n" + q;
      PartOfLine(l2, |q|);
      LinesAfterLine(l1, q);
      LinesOfLine(q);
      FirstCharacter("data:", l1);
      if q != "" { FirstCharacter("data:", q); }
      assert [l1] + [q] == [l1, q];
      NoDataLine([l1, q], none);
    }
  }

  /** Cut inside the field name `data:`, it carries no data or an empty datum. */
  lemma CutInFieldName(k: Codec, i: Item, m: nat)
    requires Faithful(k) && i.Event? && Printable([i]) && m <= 5
    ensures var d := Parse(Line1(i) + "\n" + Line2(i) + "\n" + "data:"[..m]).data;
      d == [] || d == [""]
  {
    assert i in [i];
    ItemLines(k, i);
    var l1, l2, q := Line1(i), Line2(i), "data:"[..m];
    var p := l1 + "\n" + (l2 + "\n" + q);
    assert p == l1 + "\n" + l2 + "\n" + q;
    LinesAfterLine(l1, l2 + "\n" + q);
    LinesAfterLine(l2, q);
    LinesOfLine(q);
    assert [l1] + ([l2] + [q]) == [l1, l2, q];
    FirstCharacter("data:", l1);
    FirstCharacter("data:", l2);
    FirstCharacter("event:", l2);
    if m < 5 {
      NoDataLine([l1, l2, q], Parsed("message", []));
    } else {
      assert q == "data:";
      EmptyDataLine(l1, l2);
    }
  }

  /** Of three lines only the last is a data line, and it is empty. */
  lemma EmptyDataLine(l1: string, l2: string)
    requires "event:" <= l1 && !("data:" <= l2) && !("event:" <= l2)
    ensures ParseLines([l1, l2, "data:"], Parsed("message", [])).data == [""]
  {
    var none := Parsed("message", []);
    var named := none.(event := Trim(l1[6..]));
    assert [l1, l2, "data:"][1..] == [l2, "data:"] && [l2, "data:"][1..] == ["data:"] && ["data:"][1..] == [];
    FirstCharacter("event:", "data:");
    assert "data:"[5..] == "" && named.data + [""] == [""];
    assert ParseLines([l1, l2, "data:"], none) == ParseLines([l2, "data:"], named);
    assert ParseLines([l2, "data:"], named) == ParseLines(["data:"], named);
    assert ParseLines(["data:"], named) == ParseLines([], named.(data := [""]));
  }

  /** However much of an item arrived, consuming it says nothing, fails without effect, or
      accepts exactly the event that was printed. */
  lemma CutItemIsHarmless(k: Codec, c: Client, i: Item, p: string)
    requires Faithful(k) && Printable([i]) && p <= Text(k, i) + "\n"
    ensures var r := Consume(k, c, p);
      r == Consumed(c, Continue) || r == Consumed(c, Threw) || (i.Event? && r == Accept(c, i.row.event, i.data))
  {
    assert i in [i];
    if p == Text(k, i) + "\n" {
      WholeItemIsAccepted(k, c, i, "\n");
    } else if i.KeepAlive? {
      assert p == COMMENT[..|p|];
      assert OneLine(COMMENT);
      PartOfLine(COMMENT, |p|);
      LinesOfLine(p);
      if p != "" { FirstCharacter("data:", p); }
      NoDataLine([p], Parsed("message", []));
    } else {
      var head := Line1(i) + "\n" + Line2(i) + "\n";
      var json := k.encode(i.data);
      if |p| < |head| {
        assert p == (Line1(i) + "\n" + Line2(i))[..|p|];
        CutBeforeData(k, i, p);
      } else if |p| <= |head| + 5 {
        assert p == head + "data:"[..|p| - |head|];
        CutInFieldName(k, i, |p| - |head|);
        assert k.decode(json[..0]).None? && json[..0] == "";
      } else {
        var part := json[..|p| - |head| - 6];
        assert p == head + ("data: " + part) + "";
        EventLines(k, i, part, "");
        assert JoinLines([part]) == part;
        assert |part| < |json| ==> k.decode(json[..|part|]).None?;
        if |part| == |json| { assert part == json; }
      }
    }
  }

  // ---------------------------------------------------------------- reading printed text

  /** What the client makes of one whole item. */
  function ReceiveOne(c: Client, i: Item): Consumed
  {
    if i.KeepAlive? then Consumed(c, Continue) else Accept(c, i.row.event, i.data)
  }

  /** What a client makes of a list of items received whole. */
  function Receive(c: Client, items: seq<Item>): Consumed
    decreases |items|
  {
    if items == [] then Consumed(c, Continue)
    else
      var r := ReceiveOne(c, items[0]);
      if r.verdict.Continue? then Receive(r.client, items[1..]) else r
  }

  lemma PrintableParts(items: seq<Item>)
    requires Printable(items) && items != []
    ensures Printable([items[0]]) && Printable(items[1..])
  {
    assert items[0] in items;
    assert forall i | i in items[1..] :: i in items;
  }

  lemma ReceiveFirst(c: Client, items: seq<Item>, m: nat)
    requires items != [] && m < |items|
    ensures Receive(c, items[..m + 1])
      == var r := ReceiveOne(c, items[0]); if r.verdict.Continue? then Receive(r.client, items[1..][..m]) else r
  {
    assert items[..m + 1][1..] == items[1..][..m];
  }

  /** A whole item at the head of the text is read as itself. */
  lemma HeadItemIsRead(k: Codec, c: Client, i: Item, rest: string)
    requires Faithful(k) && Printable([i])
    ensures var r := ReceiveOne(c, i);
      Read(k, c, Text(k, i) + "\n\n" + rest) == if r.verdict.Continue? then Read(k, r.client, rest) else r
  {
    var t := Text(k, i);
    ItemIsOneBlock(k, i, "");
    assert t + "\n\n" + "" == t + "\n\n";
    BlockIsRead(k, c, t + "\n\n", rest);
    assert (t + "\n\n")[..|t|] == t + "" && (t + "\n\n")[|t| + 2..] + rest == rest;
    WholeItemIsAccepted(k, c, i, "");
    assert t + "" == t;
  }

  /** An item cut short at the end of the text is read as itself or not at all. */
  lemma CutItemIsRead(k: Codec, c: Client, i: Item, p: string)
    requires Faithful(k) && Printable([i]) && p <= Text(k, i) + "\n"
    ensures var r := Read(k, c, p);
      || (r.client == c && !r.verdict.Finished?)
      || (r.client == ReceiveOne(c, i).client && (r.verdict.Finished? ==> ReceiveOne(c, i).verdict.Finished?))
  {
    ItemIsOneBlock(k, i, "");
    assert Text(k, i) + "\n\n" + "" == Text(k, i) + "\n\n";
    CutBlockHasNoBoundary(Text(k, i), p);
    CutItemIsHarmless(k, c, i, p);
  }

  /** Whole items are read as they were printed. */
  lemma {:induction false} WholeTextIsReceived(k: Codec, c: Client, items: seq<Item>)
    requires Faithful(k) && Printable(items)
    ensures var r := Receive(c, items);
      Read(k, c, Print(k, items)) == if r.verdict.Continue? then Consumed(r.client, Threw) else r
    decreases |items|
  {
    if items != [] {
      PrintableParts(items);
      HeadItemIsRead(k, c, items[0], Print(k, items[1..]));
      var r := ReceiveOne(c, items[0]);
      if r.verdict.Continue? { WholeTextIsReceived(k, r.client, items[1..]); }
    }
  }

  lemma CutAfterBlank(t: string, rest: string, n: nat)
    requires n <= |t| + 2 + |rest|
    ensures var s := (t + "\n\n" + rest)[..n];
      if n < |t| + 2 then s <= t + "\n" else s == t + "\n\n" + rest[..n - |t| - 2]
  {
    var s := (t + "\n\n" + rest)[..n];
    if n < |t| + 2 { assert s == (t + "\n")[..n]; }
  }

  /** Text cut off anywhere is read as some number of whole items: never a damaged event. */
  lemma {:induction false} CutTextIsReceived(k: Codec, c: Client, items: seq<Item>, n: nat) returns (m: nat)
    requires Faithful(k) && Printable(items) && n <= |Print(k, items)|
    ensures m <= |items|
    ensures var r := Read(k, c, Print(k, items)[..n]);
      r.client == Receive(c, items[..m]).client && (r.verdict.Finished? ==> Receive(c, items[..m]).verdict.Finished?)
    decreases |items|
  {
    m := 0;
    if items == [] {
      assert Print(k, items)[..n] == "";
    } else {
      PrintableParts(items);
      var t := Text(k, items[0]);
      var rest := Print(k, items[1..]);
      var text := Print(k, items)[..n];
      CutAfterBlank(t, rest, n);
      if n < |t| + 2 {
        CutItemIsRead(k, c, items[0], text);
        ReceiveFirst(c, items, 0);
        m := if Read(k, c, text).client == c && !Read(k, c, text).verdict.Finished? then 0 else 1;
      } else {
        var cut := rest[..n - |t| - 2];
        HeadItemIsRead(k, c, items[0], cut);
        var r := ReceiveOne(c, items[0]);
        if r.verdict.Continue? {
          m := CutTextIsReceived(k, r.client, items[1..], |cut|);
          ReceiveFirst(c, items, m);
          m := m + 1;
        } else {
          ReceiveFirst(c, items, 0);
          m := 1;
        }
      }
    }
  }

  lemma {:induction false} BoundaryInPrefix(s: string, n: nat, i: nat)
    requires i <= n <= |s| && Boundary(s[..n], i).Some?
    ensures Boundary(s, i) == Boundary(s[..n], i)
  {
    BoundaryStays(s[..n], s[n..], i);
    assert s[..n] + s[n..] == s;
  }

  lemma CutBlockHasNoBoundary(t: string, p: string)
    requires Boundary(t + "\n\n", 0) == Some(|t|) && p <= t + "\n"
    ensures Boundary(p, 0).None?
  {
    assert p == (t + "\n\n")[..|p|];
    if Boundary(p, 0).Some? { BoundaryInPrefix(t + "\n\n", |p|, 0); }
  }
}
