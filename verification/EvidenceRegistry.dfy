/** The evidence registry as the object it is: fields updated in place by each addition.
    app/manager/evidence.py:44-185. */
module EvidenceRegistry {
  import opened Outcomes
  import opened OrderedDict
  import opened PythonText
  import opened EvidenceBook

  class EvidenceRegistry {
    const count: Counter
    const budget: nat
    var entries: seq<Entry>
    var sources: Dict<nat, Source>
    var contexts: Dict<string, Context>
    var contextTokens: int
    var warnings: set<string>
    var keys: Dict<Key, nat>
    var used: int

    ghost function View(): Registry
      reads this
    {
      Registry(budget, entries, sources, contexts, contextTokens, warnings, keys, used)
    }

    constructor (count: Counter, budget: nat)
      ensures this.count == count && View() == Blank(budget) && Books(count, View())
    {
      this.count, this.budget := count, budget;
      entries, sources, contexts, contextTokens := [], Empty(), Empty(), 0;
      warnings, keys, used := {}, Empty(), 0;
    }

    /** `_add`. */
    method Add(i: Item) returns (offer: Offer)
      modifies this
      ensures (View(), offer) == EvidenceBook.Add(count, old(View()), i)
    {
      if i.key in keys.at { return Known(keys.at[i.key]); }
      var body := Strip(Take(i.content, EvidenceBook.CONTENT_LIMIT));
      var tokens := count(body);
      if body == "" || used + tokens > budget { return Refused; }
      var number := |entries| + 1;
      entries := entries + [Entry(number, i.key.kind, i.title, Take(body, TITLE_LIMIT))];
      keys := Put(keys, i.key, number);
      used := used + tokens;
      var source := Source(number, i.key.kind, Take(i.title, TITLE_LIMIT), body);
      sources := Put(sources, number, source);
      return Fresh(source);
    }

    /** The loop of `add_web`, `add_memories` and `add_knowledge`. */
    method AddEach(items: seq<Item>) returns (reply: Reply)
      requires Books(count, View())
      modifies this
      ensures Books(count, View())
      ensures (View(), reply) == AddAll(count, old(View()), items, NOTHING)
    {
      reply := NOTHING;
      for k := 0 to |items|
        invariant Books(count, View())
        invariant AddAll(count, View(), items[k..], reply) == AddAll(count, old(View()), items, NOTHING)
      {
        assert items[k..][1..] == items[k + 1..];
        AddKeepsBooks(count, View(), items[k]);
        var offer := Add(items[k]);
        match offer {
          case Fresh(source) => reply := reply.(sources := reply.sources + [source]);
          case Known(number) => reply := reply.(existing := reply.existing + [number]);
          case Refused => reply := reply.(truncated := true);
        }
      }
    }

    method AddWebPage(i: Item) returns (reply: Reply)
      requires Books(count, View())
      modifies this
      ensures Books(count, View())
      ensures (View(), reply) == AddPage(count, old(View()), i)
    {
      PageKeepsBooks(count, View(), i);
      if i.key in keys.at {
        reply := Rewrite(i);
      } else {
        reply := AddEach([i]);
      }
    }

    /** The rest of `add_web_page`, for a page already known. */
    method Rewrite(i: Item) returns (reply: Reply)
      requires Numbered(View()) && i.key in keys.at
      modifies this
      ensures (View(), reply) == Revise(count, old(View()), i)
    {
      KnownIsNumbered(View(), i.key);
      var number := keys.at[i.key];
      var previous := sources.at[number];
      var available := budget - used + count(previous.content);
      var content := Strip(Take(i.content, EvidenceBook.CONTENT_LIMIT));
      while content != "" && count(content) > available
        invariant Halved(count, content, available) == Revision(count, View(), number, i.content)
        decreases |content|
      {
        content := content[..|content| / 2];
      }
      if content == "" { return Reply([], [number], true); }
      used := used + count(content) - count(previous.content);
      var source := previous.(content := content, title := Take(i.title, TITLE_LIMIT));
      sources := Put(sources, number, source);
      entries := entries[number - 1 := entries[number - 1].(excerpt := Take(content, TITLE_LIMIT), title := Take(i.title, TITLE_LIMIT))];
      return Reply([source], [], |content| < |i.content|);
    }

    method AddKnowledge(hits: seq<Hit>) returns (reply: Reply, contextIds: set<string>)
      requires Books(count, View())
      modifies this
      ensures Books(count, View())
      ensures (View(), reply, contextIds) == EvidenceBook.AddKnowledge(count, old(View()), hits)
    {
      reply := AddEach(ItemsOf(hits));
      label added:
      contextIds := {};
      for k := 0 to |hits|
        invariant Books(count, View())
        invariant FrameAll(count, View(), hits[k..], contextIds) == FrameAll(count, old@added(View()), hits, {})
      {
        assert hits[k..][1..] == hits[k + 1..];
        FrameKeepsBooks(count, View(), hits[k], contextIds);
        contextIds := AddContext(hits[k], contextIds);
      }
      WarningsKeepBooks(count, View(), hits);
      warnings := warnings + set h | h in hits && h.warning.Some? :: h.warning.value;
    }

    /** One turn of the context loop. */
    method AddContext(h: Hit, ids: set<string>) returns (next: set<string>)
      modifies this
      ensures (View(), next) == Frame(count, old(View()), h, ids)
    {
      if h.parent.None? || h.item.key !in keys.at { return ids; }
      var id := h.parent.value.id;
      var number := keys.at[h.item.key];
      if id !in contexts.at {
        var tokens := count(h.parent.value.content);
        if tokens > budget - used || tokens > budget / 3 - contextTokens {
          warnings := warnings + {OVER_BUDGET};
          return ids;
        }
        contexts := Put(contexts, id, Context(h.item.title, h.parent.value.content, []));
        used := used + tokens;
        contextTokens := contextTokens + tokens;
      }
      if number !in contexts.at[id].forNumbers {
        contexts := Put(contexts, id, contexts.at[id].(forNumbers := contexts.at[id].forNumbers + [number]));
      }
      return ids + {id};
    }

    method Save() returns (s: Snapshot)
      requires Books(count, View())
      ensures s == Saved(View())
    {
      s := Snapshot(budget, entries, Values(sources), contexts, contextTokens, warnings, Items(keys), used);
    }

    /** `restore`: refused, and nothing is changed, when the budgets differ. */
    method Restore(s: Snapshot) returns (error: Option<ErrorCode>)
      modifies this
      ensures error == (if s.budget == budget then None else Some(RunCheckpointDiverged))
      ensures if error.None? then Restored(budget, s) == Ok(View()) else View() == old(View())
    {
      if s.budget != budget { return Some(RunCheckpointDiverged); }
      entries, sources, contexts, contextTokens := s.entries, ByNumber(s.sources), s.contexts, s.contextTokens;
      warnings, keys, used := s.warnings, FromItems(s.keys), s.used;
      return None;
    }
  }
}
