/** The evidence registry of one answer: numbered sources and shared contexts under a token
    budget, saved in checkpoints and restored.  app/manager/evidence.py:44-213. */
module EvidenceBook {
  import opened Outcomes
  import opened OrderedDict
  import opened PythonText

  datatype Kind = Web | Knowledge | Tool | Memory | Sql

  datatype Key = Key(kind: Kind, identity: string)

  datatype Entry = Entry(number: nat, kind: Kind, title: string, excerpt: string)

  datatype Source = Source(number: nat, kind: Kind, title: string, content: string)

  datatype Context = Context(title: string, content: string, forNumbers: seq<nat>)

  datatype Registry = Registry(budget: nat, entries: seq<Entry>, sources: Dict<nat, Source>,
                               contexts: Dict<string, Context>, contextTokens: int, warnings: set<string>,
                               keys: Dict<Key, nat>, used: int)

  /** `count_tokens` of one text. */
  type Counter = string -> nat

  /** One piece of evidence offered. */
  datatype Item = Item(key: Key, title: string, content: string)

  /** What an offer led to: a new source, the number it already had, or no room. */
  datatype Offer = Fresh(source: Source) | Known(number: nat) | Refused

  const CONTENT_LIMIT := 12000
  const TITLE_LIMIT := 500

  function Blank(budget: nat): Registry { Registry(budget, [], Empty(), Empty(), 0, {}, Empty(), 0) }

  function Body(content: string): string { Strip(Take(content, CONTENT_LIMIT)) }

  // ---------------------------------------------------------------- adding

  /** `_add`. */
  function Add(count: Counter, r: Registry, i: Item): (Registry, Offer)
  {
    if i.key in r.keys.at then (r, Known(r.keys.at[i.key]))
    else
      var body := Body(i.content);
      if body == "" || r.used + count(body) > r.budget then (r, Refused)
      else
        var number := |r.entries| + 1;
        var source := Source(number, i.key.kind, Take(i.title, TITLE_LIMIT), body);
        (r.(entries := r.entries + [Entry(number, i.key.kind, i.title, Take(body, TITLE_LIMIT))],
            keys := Put(r.keys, i.key, number), used := r.used + count(body),
            sources := Put(r.sources, number, source)),
         Fresh(source))
  }

  datatype Reply = Reply(sources: seq<Source>, existing: seq<nat>, truncated: bool)

  function Noted(reply: Reply, o: Offer): Reply
  {
    match o
    case Fresh(s) => reply.(sources := reply.sources + [s])
    case Known(n) => reply.(existing := reply.existing + [n])
    case Refused => reply.(truncated := true)
  }

  /** The loops of `add_web`, `add_memories` and, for the hits, `add_knowledge`. */
  function AddAll(count: Counter, r: Registry, items: seq<Item>, reply: Reply): (Registry, Reply)
    decreases |items|
  {
    if items == [] then (r, reply)
    else
      var step := Add(count, r, items[0]);
      AddAll(count, step.0, items[1..], Noted(reply, step.1))
  }

  /** Halved until it fits. */
  function Halved(count: Counter, content: string, available: int): string
    decreases |content|
  {
    if content == "" || count(content) <= available then content
    else Halved(count, content[..|content| / 2], available)
  }

  function Rewritten(count: Counter, r: Registry, n: nat, title: string, body: string): Registry
    requires 1 <= n <= |r.entries| && n in r.sources.at
  {
    r.(used := r.used + count(body) - count(r.sources.at[n].content),
       sources := Put(r.sources, n, r.sources.at[n].(content := body, title := title)),
       entries := r.entries[n - 1 := r.entries[n - 1].(excerpt := Take(body, TITLE_LIMIT), title := title)])
  }

  /** As much of the new content as fits once the old content of source `n` is taken back. */
  function Revision(count: Counter, r: Registry, n: nat, content: string): string
    requires n in r.sources.at
  {
    Halved(count, Body(content), r.budget - r.used + count(r.sources.at[n].content))
  }

  /** A page already known is rewritten under its number. */
  function Revise(count: Counter, r: Registry, i: Item): (Registry, Reply)
    requires Numbered(r) && i.key in r.keys.at
  {
    var n := r.keys.at[i.key];
    KnownIsNumbered(r, i.key);
    var body := Revision(count, r, n, i.content);
    if body == "" then (r, Reply([], [n], true))
    else (Rewritten(count, r, n, Take(i.title, TITLE_LIMIT), body),
          Reply([r.sources.at[n].(content := body, title := Take(i.title, TITLE_LIMIT))], [], |body| < |i.content|))
  }

  const NOTHING := Reply([], [], false)

  /** `add_web_page`. */
  function AddPage(count: Counter, r: Registry, i: Item): (Registry, Reply)
    requires Numbered(r)
  {
    if i.key in r.keys.at then Revise(count, r, i) else AddAll(count, r, [i], NOTHING)
  }

  // ---------------------------------------------------------------- shared contexts

  /** A hit: its evidence, and the parent it may be read in. */
  datatype Hit = Hit(item: Item, parent: Option<Parent>, warning: Option<string>)

  datatype Parent = Parent(id: string, content: string)

  const OVER_BUDGET := "PARENT_CONTEXT_BUDGET_EXCEEDED"

  function Opened(r: Registry, id: string, c: Context, tokens: nat): Registry
  {
    r.(contexts := Put(r.contexts, id, c), used := r.used + tokens, contextTokens := r.contextTokens + tokens)
  }

  /** The number is noted once under the context. */
  function NotedUnder(r: Registry, id: string, number: nat): Registry
    requires id in r.contexts.at
  {
    var c := r.contexts.at[id];
    if number in c.forNumbers then r
    else r.(contexts := Put(r.contexts, id, c.(forNumbers := c.forNumbers + [number])))
  }

  predicate Fits(r: Registry, tokens: nat)
  {
    tokens <= r.budget - r.used && tokens <= r.budget / 3 - r.contextTokens
  }

  /** One turn of the second loop of `add_knowledge`; the set collects the contexts used. */
  function Frame(count: Counter, r: Registry, h: Hit, used: set<string>): (Registry, set<string>)
  {
    if h.parent.None? || h.item.key !in r.keys.at then (r, used)
    else
      var id := h.parent.value.id;
      var tokens := count(h.parent.value.content);
      if id in r.contexts.at then (NotedUnder(r, id, r.keys.at[h.item.key]), used + {id})
      else if !Fits(r, tokens) then (r.(warnings := r.warnings + {OVER_BUDGET}), used)
      else
        var c := Context(h.item.title, h.parent.value.content, []);
        (NotedUnder(Opened(r, id, c, tokens), id, r.keys.at[h.item.key]), used + {id})
  }

  // ---------------------------------------------------------------- the books

  /** Row `i`: the entry, its key and its source carry the same number. */
  predicate RowFits(r: Registry, i: nat)
  {
    && i < |r.entries| && i < |r.keys.order| && i < |r.sources.order|
    && r.entries[i].number == i + 1
    && r.keys.order[i] in r.keys.at && r.keys.at[r.keys.order[i]] == i + 1
    && r.sources.order[i] == i + 1 && i + 1 in r.sources.at
    && r.sources.at[i + 1].number == i + 1
    && r.entries[i].kind == r.keys.order[i].kind && r.sources.at[i + 1].kind == r.entries[i].kind
  }

  /** Entries, keys and sources are numbered 1..n in step. */
  ghost predicate Numbered(r: Registry)
  {
    && WellFormed(r.keys) && WellFormed(r.sources)
    && |r.keys.order| == |r.entries| && |r.sources.order| == |r.entries|
    && (forall i :: 0 <= i < |r.entries| ==> RowFits(r, i))
  }

  lemma KnownIsNumbered(r: Registry, k: Key)
    requires Numbered(r) && k in r.keys.at
    ensures 1 <= r.keys.at[k] <= |r.entries| && RowFits(r, r.keys.at[k] - 1) && r.keys.order[r.keys.at[k] - 1] == k
  {
    var i :| 0 <= i < |r.keys.order| && r.keys.order[i] == k;
    assert RowFits(r, i);
  }

  function SourceWeight(count: Counter): Source -> nat { (s: Source) => count(s.content) }

  function ContextWeight(count: Counter): Context -> nat { (c: Context) => count(c.content) }

  ghost predicate ForNumbersFit(r: Registry)
  {
    forall k :: k in r.contexts.at ==> forall n :: n in r.contexts.at[k].forNumbers ==> 1 <= n <= |r.entries|
  }

  /** The token counts are those of what is kept, within the budget and its third. */
  ghost predicate Counted(count: Counter, r: Registry)
  {
    && WellFormed(r.sources) && WellFormed(r.contexts)
    && r.contextTokens == Weight(r.contexts, ContextWeight(count))
    && r.used == Weight(r.sources, SourceWeight(count)) + r.contextTokens
    && r.used <= r.budget && r.contextTokens <= r.budget / 3
  }

  ghost predicate Books(count: Counter, r: Registry) { Numbered(r) && Counted(count, r) && ForNumbersFit(r) }

  // ---------------------------------------------------------------- every operation keeps the books

  lemma BlankIsBalanced(count: Counter, budget: nat)
    ensures Books(count, Blank(budget))
  {
  }

  lemma NumberIsNew(r: Registry)
    requires Numbered(r)
    ensures |r.entries| + 1 !in r.sources.at
  {
    forall i | 0 <= i < |r.sources.order| ensures r.sources.order[i] != |r.entries| + 1 { assert RowFits(r, i); }
  }

  /** A registry with one more numbered row. */
  function WithRow(r: Registry, k: Key, e: Entry, s: Source): Registry
  {
    r.(entries := r.entries + [e], keys := Put(r.keys, k, |r.entries| + 1), sources := Put(r.sources, |r.entries| + 1, s))
  }

  lemma WithRowKeepsNumbers(r: Registry, k: Key, e: Entry, s: Source)
    requires Numbered(r) && k !in r.keys.at
    requires e.number == |r.entries| + 1 == s.number && e.kind == k.kind == s.kind
    ensures Numbered(WithRow(r, k, e, s))
  {
    var v := WithRow(r, k, e, s);
    NumberIsNew(r);
    NewKeyKeepsForm(r.keys, k, |r.entries| + 1);
    NewKeyKeepsForm(r.sources, |r.entries| + 1, s);
    forall i | 0 <= i < |v.entries| ensures RowFits(v, i) {
      if i < |r.entries| { RowSurvives(r, k, e, s, i); } else { NewRowFits(r, k, e, s); }
    }
  }

  lemma NewRowFits(r: Registry, k: Key, e: Entry, s: Source)
    requires Numbered(r) && k !in r.keys.at
    requires e.number == |r.entries| + 1 == s.number && e.kind == k.kind == s.kind
    ensures RowFits(WithRow(r, k, e, s), |r.entries|)
  {
    NumberIsNew(r);
  }

  lemma RowSurvives(r: Registry, k: Key, e: Entry, s: Source, i: nat)
    requires Numbered(r) && k !in r.keys.at && i < |r.entries|
    ensures RowFits(WithRow(r, k, e, s), i)
  {
    assert RowFits(r, i);
    NumberIsNew(r);
  }

  lemma AddKeepsBooks(count: Counter, r: Registry, i: Item)
    requires Books(count, r)
    ensures Books(count, Add(count, r, i).0)
  {
    var step := Add(count, r, i);
    if step.1.Fresh? {
      var e := Entry(|r.entries| + 1, i.key.kind, i.title, Take(Body(i.content), TITLE_LIMIT));
      var s := step.1.source;
      WithRowKeepsNumbers(r, i.key, e, s);
      NumberIsNew(r);
      PutWeighs(r.sources, |r.entries| + 1, s, SourceWeight(count));
      assert step.0 == WithRow(r, i.key, e, s).(used := step.0.used);
      RenumberIgnoresTokens(WithRow(r, i.key, e, s), step.0);
    }
  }

  lemma RenumberIgnoresTokens(r: Registry, v: Registry)
    requires Numbered(r) && v.entries == r.entries && v.keys == r.keys && v.sources == r.sources
    ensures Numbered(v)
  {
    forall i | 0 <= i < |v.entries| ensures RowFits(v, i) { assert RowFits(r, i); }
  }

  lemma {:induction false} AddAllKeepsBooks(count: Counter, r: Registry, items: seq<Item>, reply: Reply)
    requires Books(count, r)
    ensures Books(count, AddAll(count, r, items, reply).0)
    decreases |items|
  {
    if items != [] {
      AddKeepsBooks(count, r, items[0]);
      var step := Add(count, r, items[0]);
      AddAllKeepsBooks(count, step.0, items[1..], Noted(reply, step.1));
    }
  }

  lemma {:induction false} HalvedFits(count: Counter, content: string, available: int)
    ensures var h := Halved(count, content, available);
            h <= content && (h == "" || count(h) <= available) && (count(content) <= available ==> h == content)
    decreases |content|
  {
    if content != "" && count(content) > available { HalvedFits(count, content[..|content| / 2], available); }
  }

  /** Row `i` rewritten under its number. */
  function WithBody(r: Registry, i: nat, e: Entry, s: Source): Registry
    requires i < |r.entries|
  {
    r.(entries := r.entries[i := e], sources := Put(r.sources, i + 1, s))
  }

  lemma WithBodyKeepsNumbers(r: Registry, i: nat, e: Entry, s: Source)
    requires Numbered(r) && i < |r.entries|
    requires e.number == i + 1 == s.number && e.kind == r.entries[i].kind == s.kind
    ensures Numbered(WithBody(r, i, e, s)) && i + 1 in r.sources.at
  {
    var v := WithBody(r, i, e, s);
    assert RowFits(r, i);
    PutKeepsForm(r.sources, i + 1, s);
    forall k | 0 <= k < |v.entries| ensures RowFits(v, k) { assert RowFits(r, k); }
  }

  lemma RewritingKeepsCount(count: Counter, r: Registry, n: nat, title: string, body: string)
    requires Counted(count, r) && 1 <= n <= |r.entries| && n in r.sources.at
    requires count(body) <= r.budget - r.used + count(r.sources.at[n].content)
    ensures Counted(count, Rewritten(count, r, n, title, body))
  {
    PutWeighs(r.sources, n, r.sources.at[n].(content := body, title := title), SourceWeight(count));
  }

  lemma RewritingKeepsBooks(count: Counter, r: Registry, n: nat, title: string, body: string)
    requires Books(count, r) && 1 <= n <= |r.entries| && RowFits(r, n - 1)
    requires count(body) <= r.budget - r.used + count(r.sources.at[n].content)
    ensures Books(count, Rewritten(count, r, n, title, body))
  {
    var s := r.sources.at[n].(content := body, title := title);
    var e := r.entries[n - 1].(excerpt := Take(body, TITLE_LIMIT), title := title);
    WithBodyKeepsNumbers(r, n - 1, e, s);
    RewritingKeepsCount(count, r, n, title, body);
    RenumberIgnoresTokens(WithBody(r, n - 1, e, s), Rewritten(count, r, n, title, body));
  }

  lemma RevisionFits(count: Counter, r: Registry, n: nat, content: string)
    requires n in r.sources.at
    ensures Revision(count, r, n, content) <= Body(content)
    ensures Revision(count, r, n, content) != "" ==>
              count(Revision(count, r, n, content)) <= r.budget - r.used + count(r.sources.at[n].content)
  {
    HalvedFits(count, Body(content), r.budget - r.used + count(r.sources.at[n].content));
  }

  lemma ReviseKeepsBooks(count: Counter, r: Registry, i: Item)
    requires Books(count, r) && i.key in r.keys.at
    ensures Books(count, Revise(count, r, i).0)
  {
    KnownIsNumbered(r, i.key);
    var n := r.keys.at[i.key];
    RevisionFits(count, r, n, i.content);
    if Revision(count, r, n, i.content) != "" {
      RewritingKeepsBooks(count, r, n, Take(i.title, TITLE_LIMIT), Revision(count, r, n, i.content));
    }
  }

  lemma PageKeepsBooks(count: Counter, r: Registry, i: Item)
    requires Books(count, r)
    ensures Books(count, AddPage(count, r, i).0)
  {
    if i.key in r.keys.at {
      ReviseKeepsBooks(count, r, i);
    } else {
      AddAllKeepsBooks(count, r, [i], NOTHING);
    }
  }

  lemma OpeningKeepsCount(count: Counter, r: Registry, id: string, c: Context)
    requires Counted(count, r) && id !in r.contexts.at && Fits(r, count(c.content))
    ensures Counted(count, Opened(r, id, c, count(c.content)))
  {
    PutWeighs(r.contexts, id, c, ContextWeight(count));
  }

  lemma OpeningKeepsBooks(count: Counter, r: Registry, id: string, c: Context)
    requires Books(count, r) && id !in r.contexts.at && c.forNumbers == [] && Fits(r, count(c.content))
    ensures Books(count, Opened(r, id, c, count(c.content)))
  {
    OpeningKeepsCount(count, r, id, c);
    RenumberIgnoresTokens(r, Opened(r, id, c, count(c.content)));
    assert ForNumbersFit(r);
  }

  lemma NotingKeepsBooks(count: Counter, r: Registry, id: string, n: nat)
    requires Books(count, r) && id in r.contexts.at && 1 <= n <= |r.entries|
    ensures Books(count, NotedUnder(r, id, n))
  {
    var c := r.contexts.at[id].(forNumbers := r.contexts.at[id].forNumbers + [n]);
    PutWeighs(r.contexts, id, c, ContextWeight(count));
    RenumberIgnoresTokens(r, NotedUnder(r, id, n));
  }

  lemma FrameKeepsBooks(count: Counter, r: Registry, h: Hit, used: set<string>)
    requires Books(count, r)
    ensures Books(count, Frame(count, r, h, used).0)
  {
    if h.parent.Some? && h.item.key in r.keys.at {
      KnownIsNumbered(r, h.item.key);
      var id := h.parent.value.id;
      if id in r.contexts.at {
        NotingKeepsBooks(count, r, id, r.keys.at[h.item.key]);
      } else if Fits(r, count(h.parent.value.content)) {
        var c := Context(h.item.title, h.parent.value.content, []);
        OpeningKeepsBooks(count, r, id, c);
        NotingKeepsBooks(count, Opened(r, id, c, count(c.content)), id, r.keys.at[h.item.key]);
      } else {
        RenumberIgnoresTokens(r, Frame(count, r, h, used).0);
      }
    }
  }

  // ---------------------------------------------------------------- whole histories

  datatype Op = Offers(items: seq<Item>) | Page(page: Item) | Hits(hits: seq<Hit>)

  function ItemsOf(hits: seq<Hit>): seq<Item> { seq(|hits|, i requires 0 <= i < |hits| => hits[i].item) }

  function FrameAll(count: Counter, r: Registry, hits: seq<Hit>, used: set<string>): (Registry, set<string>)
    decreases |hits|
  {
    if hits == [] then (r, used)
    else
      var step := Frame(count, r, hits[0], used);
      FrameAll(count, step.0, hits[1..], step.1)
  }

  function Warned(r: Registry, hits: seq<Hit>): Registry
  {
    r.(warnings := r.warnings + set h | h in hits && h.warning.Some? :: h.warning.value)
  }

  /** `add_knowledge`: the evidence of every hit first, then the contexts it may be read in. */
  function AddKnowledge(count: Counter, r: Registry, hits: seq<Hit>): (Registry, Reply, set<string>)
  {
    var added := AddAll(count, r, ItemsOf(hits), NOTHING);
    var framed := FrameAll(count, added.0, hits, {});
    (Warned(framed.0, hits), added.1, framed.1)
  }

  lemma {:induction false} FrameAllKeepsBooks(count: Counter, r: Registry, hits: seq<Hit>, used: set<string>)
    requires Books(count, r)
    ensures Books(count, FrameAll(count, r, hits, used).0)
    decreases |hits|
  {
    if hits != [] {
      FrameKeepsBooks(count, r, hits[0], used);
      var step := Frame(count, r, hits[0], used);
      FrameAllKeepsBooks(count, step.0, hits[1..], step.1);
    }
  }

  lemma WarningsKeepBooks(count: Counter, r: Registry, hits: seq<Hit>)
    requires Books(count, r)
    ensures Books(count, Warned(r, hits))
  {
    RenumberIgnoresTokens(r, Warned(r, hits));
  }

  /** A registry that never was in books answers nothing; the operations keep every registry in them. */
  function Apply(count: Counter, r: Registry, op: Op): (Registry, Reply)
    requires Numbered(r)
  {
    match op
    case Offers(items) => AddAll(count, r, items, NOTHING)
    case Page(page) => AddPage(count, r, page)
    case Hits(hits) => (AddKnowledge(count, r, hits).0, AddKnowledge(count, r, hits).1)
  }

  lemma ApplyKeepsBooks(count: Counter, r: Registry, op: Op)
    requires Books(count, r)
    ensures Books(count, Apply(count, r, op).0)
  {
    match op
    case Offers(items) => AddAllKeepsBooks(count, r, items, NOTHING);
    case Page(page) => PageKeepsBooks(count, r, page);
    case Hits(hits) =>
      AddAllKeepsBooks(count, r, ItemsOf(hits), NOTHING);
      var added := AddAll(count, r, ItemsOf(hits), NOTHING);
      FrameAllKeepsBooks(count, added.0, hits, {});
      WarningsKeepBooks(count, FrameAll(count, added.0, hits, {}).0, hits);
  }

  ghost function Replies(count: Counter, r: Registry, ops: seq<Op>): (Registry, seq<Reply>)
    requires Books(count, r)
    decreases |ops|
  {
    if ops == [] then (r, [])
    else
      ApplyKeepsBooks(count, r, ops[0]);
      var rest := Replies(count, Apply(count, r, ops[0]).0, ops[1..]);
      (rest.0, [Apply(count, r, ops[0]).1] + rest.1)
  }

  /** After any series of additions the books balance. */
  lemma {:induction false} BooksAlwaysBalance(count: Counter, r: Registry, ops: seq<Op>)
    requires Books(count, r)
    ensures Books(count, Replies(count, r, ops).0)
    decreases |ops|
  {
    if ops != [] {
      ApplyKeepsBooks(count, r, ops[0]);
      BooksAlwaysBalance(count, Apply(count, r, ops[0]).0, ops[1..]);
    }
  }

  // ---------------------------------------------------------------- numbers never move

  /** Every number keeps its key, its kind and its place; the sources keep their numbers. */
  ghost predicate Extends(r: Registry, v: Registry)
  {
    && v.budget == r.budget && |r.entries| <= |v.entries| && r.keys.order <= v.keys.order
    && (forall k :: k in r.keys.at ==> k in v.keys.at && v.keys.at[k] == r.keys.at[k])
  }

  lemma AddExtends(count: Counter, r: Registry, i: Item)
    requires Numbered(r)
    ensures Extends(r, Add(count, r, i).0)
  {
  }

  lemma {:induction false} AddAllExtends(count: Counter, r: Registry, items: seq<Item>, reply: Reply)
    requires Books(count, r)
    ensures Extends(r, AddAll(count, r, items, reply).0)
    decreases |items|
  {
    if items != [] {
      AddKeepsBooks(count, r, items[0]);
      AddExtends(count, r, items[0]);
      var step := Add(count, r, items[0]);
      AddAllExtends(count, step.0, items[1..], Noted(reply, step.1));
    }
  }

  lemma {:induction false} FrameAllExtends(count: Counter, r: Registry, hits: seq<Hit>, used: set<string>)
    ensures var v := FrameAll(count, r, hits, used).0;
            v.keys == r.keys && v.entries == r.entries && v.sources == r.sources && v.budget == r.budget
    decreases |hits|
  {
    if hits != [] {
      var step := Frame(count, r, hits[0], used);
      FrameAllExtends(count, step.0, hits[1..], step.1);
    }
  }

  lemma ApplyExtends(count: Counter, r: Registry, op: Op)
    requires Books(count, r)
    ensures Extends(r, Apply(count, r, op).0)
  {
    match op
    case Offers(items) => AddAllExtends(count, r, items, NOTHING);
    case Page(page) =>
      if page.key in r.keys.at { KnownIsNumbered(r, page.key); } else { AddAllExtends(count, r, [page], NOTHING); }
    case Hits(hits) =>
      AddAllExtends(count, r, ItemsOf(hits), NOTHING);
      FrameAllExtends(count, AddAll(count, r, ItemsOf(hits), NOTHING).0, hits, {});
  }

  /** Number `n` is the key's, in the entries, the sources and the order of arrival. */
  predicate Denotes(r: Registry, n: nat, k: Key)
  {
    && k in r.keys.at && r.keys.at[k] == n && n >= 1 && RowFits(r, n - 1)
    && r.keys.order[n - 1] == k && r.entries[n - 1].kind == k.kind
  }

  /** A number, once given to a key, denotes that key for ever. */
  lemma {:induction false} NumbersNeverMove(count: Counter, r: Registry, ops: seq<Op>, k: Key)
    requires Books(count, r) && k in r.keys.at
    ensures Denotes(Replies(count, r, ops).0, r.keys.at[k], k)
    decreases |ops|
  {
    if ops == [] {
      KnownIsNumbered(r, k);
    } else {
      ApplyKeepsBooks(count, r, ops[0]);
      ApplyExtends(count, r, ops[0]);
      NumbersNeverMove(count, Apply(count, r, ops[0]).0, ops[1..], k);
    }
  }

  // ---------------------------------------------------------------- checkpoints

  datatype Snapshot = Snapshot(budget: nat, entries: seq<Entry>, sources: seq<Source>, contexts: Dict<string, Context>,
                               contextTokens: int, warnings: set<string>, keys: seq<(Key, nat)>, used: int)

  /** `snapshot`: dictionaries become lists of their values and items. */
  function Saved(r: Registry): Snapshot
    requires WellFormed(r.sources) && WellFormed(r.keys)
  {
    Snapshot(r.budget, r.entries, Values(r.sources), r.contexts, r.contextTokens, r.warnings, Items(r.keys), r.used)
  }

  function Values(d: Dict<nat, Source>): seq<Source>
    requires WellFormed(d)
  {
    seq(|d.order|, i requires 0 <= i < |d.order| => d.at[d.order[i]])
  }

  /** `{source["number"]: source ...}`. */
  function ByNumber(sources: seq<Source>): Dict<nat, Source>
  {
    FromItems(seq(|sources|, i requires 0 <= i < |sources| => (sources[i].number, sources[i])))
  }

  /** `restore` into a registry with the budget given. */
  function Restored(budget: nat, s: Snapshot): Outcome<Registry>
  {
    if s.budget != budget then Raised(RunCheckpointDiverged)
    else Ok(Registry(budget, s.entries, ByNumber(s.sources), s.contexts, s.contextTokens, s.warnings, FromItems(s.keys), s.used))
  }

  lemma SourcesComeBack(r: Registry)
    requires Numbered(r)
    ensures ByNumber(Values(r.sources)) == r.sources
  {
    var values := Values(r.sources);
    var listed := seq(|values|, i requires 0 <= i < |values| => (values[i].number, values[i]));
    forall i | 0 <= i < |listed| ensures listed[i] == Items(r.sources)[i] { assert RowFits(r, i); }
    assert listed == Items(r.sources);
    RebuiltFromItems(r.sources);
  }

  /** Restoring a snapshot gives the registry back: exactly, and only under the same budget. */
  lemma RestoreReproduces(count: Counter, r: Registry, budget: nat)
    requires Books(count, r)
    ensures budget == r.budget ==> Restored(budget, Saved(r)) == Ok(r)
    ensures budget != r.budget ==> Restored(budget, Saved(r)) == Raised(RunCheckpointDiverged)
  {
    SourcesComeBack(r);
    RebuiltFromItems(r.keys);
  }

  /** A run interrupted after any of its additions and restored from the snapshot taken there
      gives the same replies to all later additions as one never interrupted. */
  lemma InterruptionIsInvisible(count: Counter, budget: nat, before: seq<Op>, after: seq<Op>)
    ensures Books(count, Blank(budget)) && Books(count, Replies(count, Blank(budget), before).0)
    ensures var r := Replies(count, Blank(budget), before).0;
            && Restored(budget, Saved(r)).Ok? && Books(count, Restored(budget, Saved(r)).value)
            && Replies(count, Restored(budget, Saved(r)).value, after) == Replies(count, r, after)
  {
    BlankIsBalanced(count, budget);
    BooksAlwaysBalance(count, Blank(budget), before);
    BudgetIsFixed(count, Blank(budget), before);
    RestoreReproduces(count, Replies(count, Blank(budget), before).0, budget);
  }

  lemma {:induction false} BudgetIsFixed(count: Counter, r: Registry, ops: seq<Op>)
    requires Books(count, r)
    ensures Replies(count, r, ops).0.budget == r.budget
    decreases |ops|
  {
    if ops != [] {
      ApplyKeepsBooks(count, r, ops[0]);
      ApplyExtends(count, r, ops[0]);
      BudgetIsFixed(count, Apply(count, r, ops[0]).0, ops[1..]);
    }
  }
}
