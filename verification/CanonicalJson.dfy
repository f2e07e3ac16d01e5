/** The canonical form that receipts and checkpoints are stored in:
    app/core/serialization.py.  `bounded_json` writes a value with sorted keys and
    reads it back, so its effect is the function `Canonical` below. */
module CanonicalJson {
  import opened Outcomes

  /** A dictionary key: text, or an integer, which the writer turns into decimal text. */
  datatype Key = Name(text: string) | Num(n: int)

  datatype Entry = Entry(key: Key, value: Value)

  /** Python data. `Stamp` is a UUID or a timestamp, written through the `default`
      hook as its text; `Alien` is anything the hook refuses. */
  datatype Value =
    | Null
    | Bool(b: bool)
    | Int(i: int)
    | Text(s: string)
    | Stamp(text: string)
    | Alien
    | Items(items: seq<Value>)
    | Dict(entries: seq<Entry>)

  // ---------------------------------------------------------------- decimal text

  function Digits(n: nat): string
  {
    (if n < 10 then [] else Digits(n / 10)) + ["0123456789"[n % 10]]
  }

  function Decimal(n: int): string { if n < 0 then "-" + Digits(-n) else Digits(n) }

  function KeyText(k: Key): string { if k.Name? then k.text else Decimal(k.n) }

  // ---------------------------------------------------------------- key order

  predicate TextBelow(a: string, b: string)
  {
    b != [] && (a == [] || a[0] < b[0] || (a[0] == b[0] && TextBelow(a[1..], b[1..])))
  }

  /** Python's order on two keys of the same type. */
  predicate KeyBelow(a: Key, b: Key)
  {
    if a.Name? && b.Name? then TextBelow(a.text, b.text) else a.Num? && b.Num? && a.n < b.n
  }

  predicate SameKind(entries: seq<Entry>)
  {
    (forall e | e in entries :: e.key.Name?) || (forall e | e in entries :: e.key.Num?)
  }

  predicate Distinct(entries: seq<Entry>)
  {
    forall i, j | 0 <= i < j < |entries| :: entries[i].key != entries[j].key
  }

  predicate Ascending(entries: seq<Entry>)
  {
    forall i, j | 0 <= i < j < |entries| :: KeyBelow(entries[i].key, entries[j].key)
  }

  function Insert(e: Entry, entries: seq<Entry>): seq<Entry>
  {
    if entries == [] || KeyBelow(e.key, entries[0].key) then [e] + entries
    else [entries[0]] + Insert(e, entries[1..])
  }

  /** `sort_keys=True`. */
  function Sort(entries: seq<Entry>): seq<Entry>
  {
    if entries == [] then [] else Insert(entries[0], Sort(entries[1..]))
  }

  function Named(entries: seq<Entry>): (r: seq<Entry>)
    ensures |r| == |entries|
    ensures forall i | 0 <= i < |r| :: r[i] == Entry(Name(KeyText(entries[i].key)), entries[i].value)
  {
    if entries == [] then []
    else [Entry(Name(KeyText(entries[0].key)), entries[0].value)] + Named(entries[1..])
  }

  // ---------------------------------------------------------------- canonical form

  /** What the writer accepts: no foreign object, and in every dictionary distinct
      keys of one kind (Python cannot order text against numbers). */
  predicate Encodable(v: Value)
    decreases v
  {
    match v
    case Alien => false
    case Items(items) => forall x | x in items :: Encodable(x)
    case Dict(entries) =>
      SameKind(entries) && Distinct(entries)
      && (forall e | e in entries :: Encodable(e.value))
    case _ => true
  }

  /** `json.loads(json.dumps(v, sort_keys=True, default=...))`. */
  function Canonical(v: Value): Value
    decreases v
  {
    match v
    case Stamp(text) => Text(text)
    case Items(items) => Items(CanonicalItems(items))
    case Dict(entries) => Dict(Named(Sort(CanonicalEntries(entries))))
    case _ => v
  }

  function CanonicalItems(items: seq<Value>): (r: seq<Value>)
    ensures |r| == |items|
    ensures forall i | 0 <= i < |items| :: r[i] == Canonical(items[i])
    decreases items
  {
    if items == [] then [] else [Canonical(items[0])] + CanonicalItems(items[1..])
  }

  function CanonicalEntries(entries: seq<Entry>): (r: seq<Entry>)
    ensures |r| == |entries|
    ensures forall i | 0 <= i < |entries| :: r[i] == CanonicalEntry(entries[i])
    decreases entries
  {
    if entries == [] then [] else [CanonicalEntry(entries[0])] + CanonicalEntries(entries[1..])
  }

  function CanonicalEntry(e: Entry): Entry
    decreases e
  {
    Entry(e.key, Canonical(e.value))
  }

  // ---------------------------------------------------------------- sorting

  lemma {:induction false} BelowIsTransitive(a: string, b: string, c: string)
    requires TextBelow(a, b) && TextBelow(b, c)
    ensures TextBelow(a, c)
  {
    if a != [] && a[0] == b[0] && b[0] == c[0] { BelowIsTransitive(a[1..], b[1..], c[1..]); }
  }

  lemma {:induction false} BelowIsTotal(a: string, b: string)
    ensures a == b || TextBelow(a, b) || TextBelow(b, a)
    ensures !(TextBelow(a, b) && TextBelow(b, a)) && !TextBelow(a, a)
  {
    if a != [] && b != [] && a[0] == b[0] {
      BelowIsTotal(a[1..], b[1..]);
      if a[1..] == b[1..] { assert a == [a[0]] + a[1..] == [b[0]] + b[1..] == b; }
    }
    if a != [] { BelowIsTotal(a[1..], a[1..]); }
  }

  lemma KeysBelow(a: Key, b: Key, c: Key)
    requires (a.Name? && b.Name? && c.Name?) || (a.Num? && b.Num? && c.Num?)
    ensures KeyBelow(a, b) && KeyBelow(b, c) ==> KeyBelow(a, c)
    ensures a == b || KeyBelow(a, b) || KeyBelow(b, a)
    ensures !(KeyBelow(a, b) && KeyBelow(b, a))
  {
    if a.Name? {
      BelowIsTotal(a.text, b.text);
      if TextBelow(a.text, b.text) && TextBelow(b.text, c.text) { BelowIsTransitive(a.text, b.text, c.text); }
    }
  }

  lemma {:induction false} InsertKeeps(e: Entry, entries: seq<Entry>)
    ensures multiset(Insert(e, entries)) == multiset([e]) + multiset(entries)
    ensures |Insert(e, entries)| == |entries| + 1
    ensures forall x :: x in Insert(e, entries) <==> x == e || x in entries
  {
    if entries == [] || KeyBelow(e.key, entries[0].key) {
    } else {
      InsertKeeps(e, entries[1..]);
      assert entries == [entries[0]] + entries[1..];
    }
  }

  lemma {:induction false} InsertSorts(e: Entry, entries: seq<Entry>)
    requires SameKind([e] + entries) && Ascending(entries)
    requires forall x | x in entries :: x.key != e.key
    ensures Ascending(Insert(e, entries))
  {
    if entries == [] {
    } else {
      assert forall x | x in entries :: x in [e] + entries;
      assert e in [e] + entries;
      if KeyBelow(e.key, entries[0].key) {
        forall j | 0 <= j < |entries| ensures KeyBelow(e.key, entries[j].key) {
          KeysBelow(e.key, entries[0].key, entries[j].key);
        }
      } else {
        var rest := Insert(e, entries[1..]);
        assert forall x | x in [e] + entries[1..] :: x in [e] + entries;
        InsertSorts(e, entries[1..]);
        InsertKeeps(e, entries[1..]);
        forall x | x in rest ensures KeyBelow(entries[0].key, x.key) {
          if x == e { KeysBelow(e.key, entries[0].key, e.key); }
        }
        assert forall j | 0 <= j < |rest| :: rest[j] in rest;
      }
    }
  }

  lemma {:induction false} SortPermutes(entries: seq<Entry>)
    ensures multiset(Sort(entries)) == multiset(entries) && |Sort(entries)| == |entries|
    ensures forall x :: x in Sort(entries) <==> x in entries
  {
    if entries == [] {
    } else {
      SortPermutes(entries[1..]);
      InsertKeeps(entries[0], Sort(entries[1..]));
      assert entries == [entries[0]] + entries[1..];
    }
  }

  /** On distinct keys of one kind, sorting puts the entries in key order. */
  lemma {:induction false} SortOrders(entries: seq<Entry>)
    requires SameKind(entries) && Distinct(entries)
    ensures Ascending(Sort(entries))
  {
    if entries == [] {
    } else {
      var rest := Sort(entries[1..]);
      assert forall x | x in entries[1..] :: x in entries;
      SortOrders(entries[1..]);
      SortPermutes(entries[1..]);
      assert forall x | x in [entries[0]] + rest :: x in entries;
      forall x | x in rest ensures x.key != entries[0].key {
        var i :| 0 <= i < |entries[1..]| && entries[1..][i] == x;
        assert entries[i + 1] == x;
      }
      InsertSorts(entries[0], rest);
    }
  }

  lemma {:induction false} SortOfSorted(entries: seq<Entry>)
    requires Ascending(entries)
    ensures Sort(entries) == entries
  {
    if entries == [] {
    } else {
      SortOfSorted(entries[1..]);
      assert entries == [entries[0]] + entries[1..];
    }
  }

  // ---------------------------------------------------------------- decimal text is unambiguous

  lemma {:induction false} DigitsAreInjective(m: nat, n: nat)
    requires Digits(m) == Digits(n)
    ensures m == n
  {
    var a, b := Digits(m), Digits(n);
    assert a[|a| - 1] == "0123456789"[m % 10] && b[|b| - 1] == "0123456789"[n % 10];
    assert m % 10 == n % 10;
    assert a[..|a| - 1] == if m < 10 then [] else Digits(m / 10);
    assert b[..|b| - 1] == if n < 10 then [] else Digits(n / 10);
    if m >= 10 && n >= 10 { DigitsAreInjective(m / 10, n / 10); }
  }

  lemma {:induction false} DigitsHaveNoSign(n: nat)
    ensures Digits(n) != [] && Digits(n)[0] != '-'
  {
    if n >= 10 { DigitsHaveNoSign(n / 10); }
  }

  lemma DecimalIsInjective(m: int, n: int)
    requires Decimal(m) == Decimal(n)
    ensures m == n
  {
    DigitsHaveNoSign(if m < 0 then -m else m);
    DigitsHaveNoSign(if n < 0 then -n else n);
    assert (Decimal(m)[0] == '-') == (m < 0) && (Decimal(n)[0] == '-') == (n < 0);
    if m < 0 {
      assert Digits(-m) == Decimal(m)[1..] && Digits(-n) == Decimal(n)[1..];
      DigitsAreInjective(-m, -n);
    } else {
      DigitsAreInjective(m, n);
    }
  }

  lemma KeyTextIsInjective(a: Key, b: Key)
    requires a.Name? == b.Name? && KeyText(a) == KeyText(b)
    ensures a == b
  {
    if a.Num? { DecimalIsInjective(a.n, b.n); }
  }

  // ---------------------------------------------------------------- idempotence

  /** The order of any two keys survives turning them into text. */
  predicate OrderSurvives(entries: seq<Entry>)
  {
    forall i, j | 0 <= i < |entries| && 0 <= j < |entries| && KeyBelow(entries[i].key, entries[j].key) ::
      TextBelow(KeyText(entries[i].key), KeyText(entries[j].key))
  }

  /** No dictionary of `v` has integer keys whose numeric and decimal orders differ
      (such as 9 and 10). Dictionaries with text keys always qualify. */
  predicate OrderStable(v: Value)
    decreases v
  {
    match v
    case Items(items) => forall x | x in items :: OrderStable(x)
    case Dict(entries) => OrderSurvives(entries) && forall e | e in entries :: OrderStable(e.value)
    case _ => true
  }

  lemma CanonicalEntriesKeepKeys(entries: seq<Entry>)
    requires SameKind(entries) && Distinct(entries)
    ensures SameKind(CanonicalEntries(entries)) && Distinct(CanonicalEntries(entries))
  {
    var r := CanonicalEntries(entries);
    forall e | e in r ensures exists x :: x in entries && x.key == e.key {
      var i :| 0 <= i < |r| && r[i] == e;
      assert entries[i] in entries;
    }
  }

  lemma NamedKeepsDistinct(entries: seq<Entry>)
    requires SameKind(entries) && Distinct(entries)
    ensures SameKind(Named(Sort(entries))) && Distinct(Named(Sort(entries)))
  {
    var s := Sort(entries);
    var r := Named(s);
    SortPermutes(entries);
    SortOrders(entries);
    forall i, j | 0 <= i < j < |s| ensures r[i].key != r[j].key {
      assert s[i] in s && s[j] in s && KeyBelow(s[i].key, s[j].key);
      if KeyText(s[i].key) == KeyText(s[j].key) {
        KeyTextIsInjective(s[i].key, s[j].key);
        KeysBelow(s[i].key, s[j].key, s[j].key);
      }
    }
  }

  /** In a sorted dictionary the smaller key comes first. */
  lemma SmallerComesFirst(s: seq<Entry>, i: nat, j: nat)
    requires SameKind(s) && Ascending(s) && i < |s| && j < |s| && KeyBelow(s[i].key, s[j].key)
    ensures i < j
  {
    assert s[i] in s && s[j] in s;
    KeysBelow(s[i].key, s[j].key, s[i].key);
  }

  lemma NamesInOrder(s: seq<Entry>)
    requires SameKind(s) && Ascending(s)
    ensures Ascending(Named(s)) <==> OrderSurvives(s)
  {
    var r := Named(s);
    if Ascending(r) {
      forall i, j | 0 <= i < |s| && 0 <= j < |s| && KeyBelow(s[i].key, s[j].key)
        ensures TextBelow(KeyText(s[i].key), KeyText(s[j].key))
      {
        SmallerComesFirst(s, i, j);
        assert KeyBelow(r[i].key, r[j].key);
      }
    }
    if OrderSurvives(s) {
      forall i, j | 0 <= i < j < |s| ensures KeyBelow(r[i].key, r[j].key) {
        assert KeyBelow(s[i].key, s[j].key);
      }
    }
  }

  lemma SurvivalIgnoresPosition(a: seq<Entry>, b: seq<Entry>)
    requires OrderSurvives(a) && forall x | x in b :: x in a
    ensures OrderSurvives(b)
  {
    forall i, j | 0 <= i < |b| && 0 <= j < |b| && KeyBelow(b[i].key, b[j].key)
      ensures TextBelow(KeyText(b[i].key), KeyText(b[j].key))
    {
      assert b[i] in a && b[j] in a;
      var p :| 0 <= p < |a| && a[p] == b[i];
      var q :| 0 <= q < |a| && a[q] == b[j];
    }
  }

  /** The stored entries are in text order exactly when the key order survives. */
  lemma NamedOrder(entries: seq<Entry>)
    requires SameKind(entries) && Distinct(entries)
    ensures Ascending(Named(Sort(entries))) <==> OrderSurvives(entries)
  {
    SortPermutes(entries);
    SortOrders(entries);
    NamesInOrder(Sort(entries));
    if OrderSurvives(entries) { SurvivalIgnoresPosition(entries, Sort(entries)); }
    if OrderSurvives(Sort(entries)) { SurvivalIgnoresPosition(Sort(entries), entries); }
  }

  lemma NamedOfNames(entries: seq<Entry>)
    requires forall e | e in entries :: e.key.Name?
    ensures Named(entries) == entries
  {
    assert forall i | 0 <= i < |entries| :: entries[i] in entries && Named(entries)[i] == entries[i];
  }

  predicate ValuesFixed(entries: seq<Entry>)
  {
    forall e | e in entries :: Canonical(e.value) == e.value
  }

  lemma EntriesFixed(r: seq<Entry>)
    ensures CanonicalEntries(r) == r <==> ValuesFixed(r)
    ensures Ascending(CanonicalEntries(r)) <==> Ascending(r)
  {
    var c := CanonicalEntries(r);
    assert forall i | 0 <= i < |r| :: r[i] in r && c[i].key == r[i].key;
    if c == r {
      forall e | e in r ensures Canonical(e.value) == e.value {
        var i :| 0 <= i < |r| && r[i] == e;
        assert c[i] == r[i];
      }
    }
  }

  lemma SortOfNames(r: seq<Entry>)
    requires forall e | e in r :: e.key.Name?
    ensures Named(Sort(CanonicalEntries(r))) == Sort(CanonicalEntries(r))
  {
    var c := CanonicalEntries(r);
    SortPermutes(c);
    forall e | e in Sort(c) ensures e.key.Name? {
      var i :| 0 <= i < |c| && c[i] == e;
      assert r[i] in r;
    }
    NamedOfNames(Sort(c));
  }

  /** Storing a canonical dictionary again returns it exactly when it was in text order
      and its values are themselves unchanged. */
  lemma RestoredDict(r: seq<Entry>)
    requires forall e | e in r :: e.key.Name?
    requires Distinct(r)
    ensures Canonical(Dict(r)) == Dict(r) <==> Ascending(r) && ValuesFixed(r)
  {
    var c := CanonicalEntries(r);
    CanonicalEntriesKeepKeys(r);
    SortOrders(c);
    SortOfNames(r);
    EntriesFixed(r);
    if Ascending(r) { SortOfSorted(c); }
  }

  /** Canonicalising twice changes nothing, key order included, exactly for the values
      without order-unstable integer keys. */
  lemma {:induction false} CanonicalIsIdempotent(v: Value)
    requires Encodable(v)
    ensures Canonical(Canonical(v)) == Canonical(v) <==> OrderStable(v)
    decreases v
  {
    match v
    case Items(items) =>
      forall x | x in items ensures Canonical(Canonical(x)) == Canonical(x) <==> OrderStable(x) {
        CanonicalIsIdempotent(x);
      }
      ItemsAreIdempotent(items);
    case Dict(entries) =>
      forall e | e in entries
        ensures Canonical(Canonical(e.value)) == Canonical(e.value) <==> OrderStable(e.value)
      {
        ValueIsIdempotent(e);
      }
      DictIsIdempotent(entries);
    case _ =>
  }

  lemma ItemsAreIdempotent(items: seq<Value>)
    requires forall x | x in items :: Canonical(Canonical(x)) == Canonical(x) <==> OrderStable(x)
    ensures CanonicalItems(CanonicalItems(items)) == CanonicalItems(items)
      <==> forall x | x in items :: OrderStable(x)
  {
    var c := CanonicalItems(items);
    assert forall i | 0 <= i < |items| :: items[i] in items;
    if CanonicalItems(c) == c {
      forall x | x in items ensures OrderStable(x) {
        var i :| 0 <= i < |items| && items[i] == x;
        assert CanonicalItems(c)[i] == c[i];
      }
    }
    if forall x | x in items :: OrderStable(x) {
      assert forall i | 0 <= i < |items| :: CanonicalItems(c)[i] == c[i];
    }
  }

  /** The values of the stored dictionary are the canonical values of the given one. */
  lemma StoredValues(entries: seq<Entry>)
    ensures var r := Named(Sort(CanonicalEntries(entries)));
      ValuesFixed(r) <==> forall e | e in entries :: Canonical(Canonical(e.value)) == Canonical(e.value)
  {
    var c := CanonicalEntries(entries);
    var s := Sort(c);
    var r := Named(s);
    SortPermutes(c);
    if ValuesFixed(r) {
      forall e | e in entries ensures Canonical(Canonical(e.value)) == Canonical(e.value) {
        var i :| 0 <= i < |entries| && entries[i] == e;
        assert c[i] in c;
        var k :| 0 <= k < |s| && s[k] == c[i];
        assert r[k] in r;
      }
    }
    if forall e | e in entries :: Canonical(Canonical(e.value)) == Canonical(e.value) {
      forall x | x in r ensures Canonical(x.value) == x.value {
        var k :| 0 <= k < |r| && r[k] == x;
        assert s[k] in s;
        var i :| 0 <= i < |c| && c[i] == s[k];
        assert entries[i] in entries;
      }
    }
  }

  lemma DictIsIdempotent(entries: seq<Entry>)
    requires SameKind(entries) && Distinct(entries)
    requires forall e | e in entries ::
      Canonical(Canonical(e.value)) == Canonical(e.value) <==> OrderStable(e.value)
    ensures Canonical(Canonical(Dict(entries))) == Canonical(Dict(entries)) <==> OrderStable(Dict(entries))
  {
    var c := CanonicalEntries(entries);
    var r := Named(Sort(c));
    CanonicalEntriesKeepKeys(entries);
    NamedOrder(c);
    NamedKeepsDistinct(c);
    RestoredDict(r);
    SurvivalIsAboutKeys(entries);
    StoredValues(entries);
  }

  lemma {:induction false} ValueIsIdempotent(e: Entry)
    requires Encodable(e.value)
    ensures Canonical(Canonical(e.value)) == Canonical(e.value) <==> OrderStable(e.value)
    decreases e
  {
    CanonicalIsIdempotent(e.value);
  }

  lemma SurvivalIsAboutKeys(entries: seq<Entry>)
    ensures OrderSurvives(CanonicalEntries(entries)) <==> OrderSurvives(entries)
  {
    var c := CanonicalEntries(entries);
    assert forall i | 0 <= i < |c| :: c[i].key == entries[i].key;
  }

  lemma TenSortsBeforeNine()
    ensures !OrderSurvives([Entry(Num(10), Null), Entry(Num(9), Null)])
  {
    var entries := [Entry(Num(10), Null), Entry(Num(9), Null)];
    assert Digits(1) == "1" && Digits(9) == "9" && Digits(10) == "10";
    assert KeyBelow(entries[1].key, entries[0].key) && !TextBelow("9", "10");
  }

  /** Integer keys 9 and 10: the first pass writes "9" before "10", the second swaps them. */
  lemma IntegerKeysAreReordered()
    ensures var v := Dict([Entry(Num(10), Null), Entry(Num(9), Null)]);
      Encodable(v) && !OrderStable(v) && Canonical(Canonical(v)) != Canonical(v)
  {
    TenSortsBeforeNine();
    CanonicalIsIdempotent(Dict([Entry(Num(10), Null), Entry(Num(9), Null)]));
  }

  // ---------------------------------------------------------------- equality up to entry order

  /** Python's `==` on data: lists agree place by place, dictionaries key by key, whatever
      the order of their entries. */
  ghost predicate SameValue(a: Value, b: Value)
    decreases a
  {
    match a
    case Items(items) =>
      b.Items? && |items| == |b.items| && forall i | 0 <= i < |items| :: SameValue(items[i], b.items[i])
    case Dict(entries) =>
      b.Dict? && SameEntries(entries, b.entries)
    case _ => a == b
  }

  ghost predicate SameEntries(a: seq<Entry>, b: seq<Entry>)
    decreases a, 1
  {
    && (forall e {:trigger HasSame(e, b)} | e in a :: HasSame(e, b))
    && (forall f {:trigger IsSame(a, f)} | f in b :: IsSame(a, f))
  }

  ghost predicate HasSame(e: Entry, b: seq<Entry>)
    decreases e, 1
  {
    exists f | f in b :: SameMember(e, f)
  }

  ghost predicate IsSame(a: seq<Entry>, f: Entry)
    decreases a, 0
  {
    exists e | e in a :: SameMember(e, f)
  }

  ghost predicate SameMember(e: Entry, f: Entry)
    decreases e, 0
  {
    e.key == f.key && SameValue(e.value, f.value)
  }

  lemma {:induction false} SameAsItself(v: Value)
    ensures SameValue(v, v)
    decreases v
  {
    match v
    case Items(items) => forall x | x in items ensures SameValue(x, x) { SameAsItself(x); }
    case Dict(entries) => EntriesAsThemselves(entries);
    case _ =>
  }

  lemma {:induction false} EntriesAsThemselves(entries: seq<Entry>)
    ensures SameEntries(entries, entries)
    decreases entries
  {
    forall e | e in entries ensures HasSame(e, entries) && IsSame(entries, e) { SameMemberAsItself(e); }
  }

  lemma {:induction false} SameMemberAsItself(e: Entry)
    ensures SameMember(e, e)
    decreases e
  {
    SameAsItself(e.value);
  }

  /** What reading JSON gives: text keys, each once, and no dates. */
  predicate Textual(v: Value)
    decreases v
  {
    match v
    case Stamp(_) => false
    case Alien => false
    case Items(items) => forall x | x in items :: Textual(x)
    case Dict(entries) =>
      Distinct(entries) && (forall e | e in entries :: e.key.Name?) && forall e | e in entries :: Textual(e.value)
    case _ => true
  }

  lemma {:induction false} CanonicalIsTextual(v: Value)
    requires Encodable(v)
    ensures Textual(Canonical(v))
    decreases v
  {
    match v
    case Items(items) =>
      forall x | x in items ensures Textual(Canonical(x)) { CanonicalIsTextual(x); }
    case Dict(entries) =>
      forall e | e in entries ensures Textual(CanonicalEntry(e).value) { MemberIsTextual(e); }
      StoredIsTextual(entries);
    case _ =>
  }

  lemma {:induction false} MemberIsTextual(e: Entry)
    requires Encodable(e.value)
    ensures Textual(CanonicalEntry(e).value)
    decreases e
  {
    CanonicalIsTextual(e.value);
  }

  /** Where an entry of a stored dictionary comes from. */
  lemma StoredEntry(entries: seq<Entry>, x: Entry) returns (e: Entry)
    requires x in Named(Sort(CanonicalEntries(entries)))
    ensures e in entries && x == Entry(Name(KeyText(e.key)), CanonicalEntry(e).value)
  {
    var c := CanonicalEntries(entries);
    SortPermutes(c);
    var k :| 0 <= k < |Sort(c)| && Named(Sort(c))[k] == x;
    assert Sort(c)[k] in c;
    var i :| 0 <= i < |c| && c[i] == Sort(c)[k];
    return entries[i];
  }

  lemma StoredIsTextual(entries: seq<Entry>)
    requires SameKind(entries) && Distinct(entries)
    requires forall e | e in entries :: Textual(CanonicalEntry(e).value)
    ensures Textual(Canonical(Dict(entries)))
  {
    var r := Named(Sort(CanonicalEntries(entries)));
    CanonicalEntriesKeepKeys(entries);
    NamedKeepsDistinct(CanonicalEntries(entries));
    forall x | x in r ensures x.key.Name? && Textual(x.value) {
      var e := StoredEntry(entries, x);
    }
    assert Canonical(Dict(entries)) == Dict(r);
  }

  /** Canonicalising what was read from JSON changes at most the order of entries. */
  lemma {:induction false} CanonicalOnlyReorders(v: Value)
    requires Textual(v)
    ensures SameValue(v, Canonical(v))
    decreases v
  {
    match v
    case Items(items) =>
      forall i | 0 <= i < |items| ensures SameValue(items[i], CanonicalItems(items)[i]) {
        CanonicalOnlyReorders(items[i]);
      }
    case Dict(entries) =>
      forall e | e in entries ensures SameMember(e, CanonicalEntry(e)) { MemberOnlyReorders(e); }
      StoredIsSame(entries);
    case _ =>
  }

  lemma {:induction false} MemberOnlyReorders(e: Entry)
    requires Textual(e.value)
    ensures SameMember(e, CanonicalEntry(e))
    decreases e
  {
    CanonicalOnlyReorders(e.value);
  }

  lemma StoredIsSame(entries: seq<Entry>)
    requires forall e | e in entries :: e.key.Name? && SameMember(e, CanonicalEntry(e))
    ensures SameValue(Dict(entries), Canonical(Dict(entries)))
  {
    var c := CanonicalEntries(entries);
    var s := Sort(c);
    SortOfNames(entries);
    SortPermutes(c);
    forall e | e in entries ensures HasSame(e, s) {
      var i :| 0 <= i < |entries| && entries[i] == e;
      assert c[i] in s && SameMember(e, c[i]);
    }
    forall f | f in s ensures IsSame(entries, f) {
      var i :| 0 <= i < |c| && c[i] == f;
      assert entries[i] in entries && SameMember(entries[i], f);
    }
    assert SameEntries(entries, s);
  }

  /** Storing a canonical value again gives an equal value, for every value the writer
      accepts: only the order of dictionary entries can differ. */
  lemma StoredAgainIsSame(v: Value)
    requires Encodable(v)
    ensures SameValue(Canonical(v), Canonical(Canonical(v)))
  {
    CanonicalIsTextual(v);
    CanonicalOnlyReorders(Canonical(v));
  }

  lemma {:induction false} SameIsSymmetric(a: Value, b: Value)
    requires SameValue(a, b)
    ensures SameValue(b, a)
    decreases a
  {
    match a
    case Items(items) =>
      forall i | 0 <= i < |items| ensures SameValue(b.items[i], items[i]) { SameIsSymmetric(items[i], b.items[i]); }
    case Dict(entries) => EntriesAreSymmetric(entries, b.entries);
    case _ =>
  }

  lemma {:induction false} EntriesAreSymmetric(a: seq<Entry>, b: seq<Entry>)
    requires SameEntries(a, b)
    ensures SameEntries(b, a)
    decreases a
  {
    forall f | f in b ensures HasSame(f, a) {
      assert IsSame(a, f);
      var e :| e in a && SameMember(e, f);
      MembersAreSymmetric(e, f);
    }
    forall e | e in a ensures IsSame(b, e) {
      assert HasSame(e, b);
      var f :| f in b && SameMember(e, f);
      MembersAreSymmetric(e, f);
    }
  }

  lemma {:induction false} MembersAreSymmetric(e: Entry, f: Entry)
    requires SameMember(e, f)
    ensures SameMember(f, e)
    decreases e
  {
    SameIsSymmetric(e.value, f.value);
  }

  lemma {:induction false} SameIsTransitive(a: Value, b: Value, c: Value)
    requires SameValue(a, b) && SameValue(b, c)
    ensures SameValue(a, c)
    decreases a
  {
    match a
    case Items(items) =>
      forall i | 0 <= i < |items| ensures SameValue(items[i], c.items[i]) {
        SameIsTransitive(items[i], b.items[i], c.items[i]);
      }
    case Dict(entries) => EntriesAreTransitive(entries, b.entries, c.entries);
    case _ =>
  }

  lemma {:induction false} EntriesAreTransitive(a: seq<Entry>, b: seq<Entry>, c: seq<Entry>)
    requires SameEntries(a, b) && SameEntries(b, c)
    ensures SameEntries(a, c)
    decreases a
  {
    forall e | e in a ensures HasSame(e, c) {
      assert HasSame(e, b);
      var f :| f in b && SameMember(e, f);
      assert HasSame(f, c);
      var g :| g in c && SameMember(f, g);
      MembersAreTransitive(e, f, g);
    }
    forall g | g in c ensures IsSame(a, g) {
      assert IsSame(b, g);
      var f :| f in b && SameMember(f, g);
      assert IsSame(a, f);
      var e :| e in a && SameMember(e, f);
      MembersAreTransitive(e, f, g);
    }
  }

  lemma {:induction false} MembersAreTransitive(e: Entry, f: Entry, g: Entry)
    requires SameMember(e, f) && SameMember(f, g)
    ensures SameMember(e, g)
    decreases e
  {
    SameIsTransitive(e.value, f.value, g.value);
  }

  lemma FirstIsLeast(a: seq<Entry>, x: Entry)
    requires SameKind(a) && Ascending(a) && x in a
    ensures x == a[0] || (KeyBelow(a[0].key, x.key) && x in a[1..])
    ensures !KeyBelow(x.key, a[0].key)
  {
    var i :| 0 <= i < |a| && a[i] == x;
    assert a[0] in a;
    KeysBelow(a[0].key, x.key, a[0].key);
    if i > 0 { assert a[1..][i - 1] == x; }
  }

  /** A dictionary in key order is determined by its entries. */
  lemma {:induction false} AscendingIsUnique(a: seq<Entry>, b: seq<Entry>)
    requires SameKind(a) && SameKind(b) && Ascending(a) && Ascending(b)
    requires (forall x | x in a :: x in b) && forall x | x in b :: x in a
    ensures a == b
  {
    assert (a != [] ==> a[0] in a) && (b != [] ==> b[0] in b);
    if a != [] && b != [] {
      HeadsAgree(a, b);
      TailIsWithin(a, b);
      TailIsWithin(b, a);
      AscendingIsUnique(a[1..], b[1..]);
      assert a == [a[0]] + a[1..] && b == [b[0]] + b[1..];
    }
  }

  lemma HeadsAgree(a: seq<Entry>, b: seq<Entry>)
    requires a != [] && b != [] && SameKind(a) && SameKind(b) && Ascending(a) && Ascending(b)
    requires (forall x | x in a :: x in b) && forall x | x in b :: x in a
    ensures a[0] == b[0]
  {
    assert a[0] in b && b[0] in a;
    FirstIsLeast(a, b[0]);
    FirstIsLeast(b, a[0]);
  }

  lemma TailIsWithin(a: seq<Entry>, b: seq<Entry>)
    requires a != [] && b != [] && a[0] == b[0] && SameKind(a) && SameKind(b) && Ascending(a) && Ascending(b)
    requires forall x | x in a :: x in b
    ensures forall x | x in a[1..] :: x in b[1..]
    ensures SameKind(a[1..]) && Ascending(a[1..])
  {
    assert forall x | x in a[1..] :: x in a;
    forall x | x in a[1..] ensures x in b[1..] {
      var i :| 0 <= i < |a[1..]| && a[1..][i] == x;
      assert KeyBelow(a[0].key, a[i + 1].key);
      assert a[0] in a;
      assert x in a;
      if x == a[0] { KeysBelow(x.key, x.key, x.key); } else { FirstIsLeast(b, x); }
    }
  }

  /** Every entry of `a` has the same canonical form as one of `b`. */
  ghost predicate Covers(a: seq<Entry>, b: seq<Entry>)
  {
    forall e | e in a :: exists f | f in b :: CanonicalEntry(e) == CanonicalEntry(f)
  }

  /** Equal values have the same canonical form. */
  lemma {:induction false} SameIsCanonical(a: Value, b: Value)
    requires Textual(a) && Textual(b) && SameValue(a, b)
    ensures Canonical(a) == Canonical(b)
    decreases a
  {
    match a
    case Items(items) =>
      forall i | 0 <= i < |items| ensures CanonicalItems(items)[i] == CanonicalItems(b.items)[i] {
        SameIsCanonical(items[i], b.items[i]);
      }
    case Dict(entries) =>
      EntriesAreCanonical(entries, b.entries);
      SameDicts(entries, b.entries);
    case _ =>
  }

  lemma {:induction false} EntriesAreCanonical(a: seq<Entry>, b: seq<Entry>)
    requires SameEntries(a, b) && (forall e | e in a :: Textual(e.value)) && (forall f | f in b :: Textual(f.value))
    ensures Covers(a, b) && Covers(b, a)
    decreases a
  {
    forall e | e in a ensures exists f | f in b :: CanonicalEntry(e) == CanonicalEntry(f) {
      assert HasSame(e, b);
      var f :| f in b && SameMember(e, f);
      SameMemberIsCanonical(e, f);
    }
    forall f | f in b ensures exists e | e in a :: CanonicalEntry(f) == CanonicalEntry(e) {
      assert IsSame(a, f);
      var e :| e in a && SameMember(e, f);
      SameMemberIsCanonical(e, f);
    }
  }

  lemma {:induction false} SameMemberIsCanonical(e: Entry, f: Entry)
    requires Textual(e.value) && Textual(f.value) && SameMember(e, f)
    ensures CanonicalEntry(e) == CanonicalEntry(f)
    decreases e
  {
    SameIsCanonical(e.value, f.value);
  }

  lemma SameDicts(a: seq<Entry>, b: seq<Entry>)
    requires Distinct(a) && Distinct(b) && (forall e | e in a :: e.key.Name?) && (forall e | e in b :: e.key.Name?)
    requires Covers(a, b) && Covers(b, a)
    ensures Canonical(Dict(a)) == Canonical(Dict(b))
  {
    var ca, cb := CanonicalEntries(a), CanonicalEntries(b);
    CanonicalEntriesKeepKeys(a);
    CanonicalEntriesKeepKeys(b);
    CoveredBy(a, b);
    CoveredBy(b, a);
    SortPermutes(ca);
    SortPermutes(cb);
    SortOrders(ca);
    SortOrders(cb);
    AscendingIsUnique(Sort(ca), Sort(cb));
  }

  lemma CoveredBy(a: seq<Entry>, b: seq<Entry>)
    requires Covers(a, b)
    ensures forall x | x in CanonicalEntries(a) :: x in CanonicalEntries(b)
  {
    var ca, cb := CanonicalEntries(a), CanonicalEntries(b);
    forall x | x in ca ensures x in cb {
      var i :| 0 <= i < |ca| && ca[i] == x;
      assert a[i] in a;
      var f :| f in b && CanonicalEntry(a[i]) == CanonicalEntry(f);
      var j :| 0 <= j < |b| && b[j] == f;
      assert cb[j] == x;
    }
  }

  /** The canonical form decides equality: two values read from JSON are equal, whatever the
      order of their entries, exactly when their canonical forms are identical. */
  lemma CanonicalDecidesEquality(a: Value, b: Value)
    requires Textual(a) && Textual(b)
    ensures SameValue(a, b) <==> Canonical(a) == Canonical(b)
  {
    if SameValue(a, b) { SameIsCanonical(a, b); }
    if Canonical(a) == Canonical(b) {
      CanonicalOnlyReorders(a);
      CanonicalOnlyReorders(b);
      SameIsSymmetric(b, Canonical(b));
      SameIsTransitive(a, Canonical(a), b);
    }
  }

  // ---------------------------------------------------------------- bounded_json

  function CharBytes(c: char): nat
  {
    if c in "\"\\\n\r\t\U{8}\U{c}" then 2 else if c as int < 0x20 then 6
    else if c as int < 0x80 then 1 else if c as int < 0x800 then 2 else if c as int < 0x10000 then 3 else 4
  }

  function TextBytes(s: string): nat { if s == "" then 0 else CharBytes(s[0]) + TextBytes(s[1..]) }

  /** The encoded size of a value, separators included. */
  function Bytes(v: Value): nat
    decreases v
  {
    match v
    case Null => 4
    case Bool(b) => if b then 4 else 5
    case Int(i) => |Decimal(i)|
    case Text(s) => 2 + TextBytes(s)
    case Stamp(s) => 2 + TextBytes(s)
    case Alien => 0
    case Items(items) => 2 + ItemBytes(items)
    case Dict(entries) => 2 + EntryBytes(entries)
  }

  function ItemBytes(items: seq<Value>): nat
    decreases items
  {
    if items == [] then 0 else Bytes(items[0]) + (if |items| > 1 then 2 else 0) + ItemBytes(items[1..])
  }

  function EntryBytes(entries: seq<Entry>): nat
    decreases entries
  {
    if entries == [] then 0
    else MemberBytes(entries[0]) + (if |entries| > 1 then 2 else 0) + EntryBytes(entries[1..])
  }

  function MemberBytes(e: Entry): nat
    decreases e
  {
    TextBytes(KeyText(e.key)) + 4 + Bytes(e.value)
  }

  function BoundedJson(v: Value, maxBytes: nat): Outcome<Value>
  {
    if !Encodable(v) then Raised(TypeError)
    else if Bytes(v) > maxBytes then Raised(RunCheckpointLimit)
    else Ok(Canonical(v))
  }

  lemma {:induction false} InsertBytes(e: Entry, entries: seq<Entry>)
    ensures EntryBytes(Insert(e, entries)) == EntryBytes([e] + entries)
  {
    assert ([e] + entries)[1..] == entries;
    if entries == [] || KeyBelow(e.key, entries[0].key) {
    } else {
      var rest := Insert(e, entries[1..]);
      InsertBytes(e, entries[1..]);
      InsertKeeps(e, entries[1..]);
      assert ([entries[0]] + rest)[1..] == rest;
      assert ([e] + entries[1..])[1..] == entries[1..];
    }
  }

  lemma {:induction false} SortBytes(entries: seq<Entry>)
    ensures EntryBytes(Sort(entries)) == EntryBytes(entries)
  {
    if entries == [] {
    } else {
      var rest := Sort(entries[1..]);
      SortBytes(entries[1..]);
      SortPermutes(entries[1..]);
      InsertBytes(entries[0], rest);
      assert ([entries[0]] + rest)[1..] == rest;
    }
  }

  lemma {:induction false} NamedBytes(entries: seq<Entry>)
    ensures EntryBytes(Named(entries)) == EntryBytes(entries)
  {
    if entries == [] {
    } else {
      NamedBytes(entries[1..]);
      assert Named(entries)[1..] == Named(entries[1..]);
    }
  }

  /** A canonical value is accepted again, at the same size. */
  lemma {:induction false} CanonicalKeepsSize(v: Value)
    requires Encodable(v)
    ensures Encodable(Canonical(v)) && Bytes(Canonical(v)) == Bytes(v)
    decreases v
  {
    match v
    case Items(items) => ItemsKeepSize(items);
    case Dict(entries) =>
      EntriesKeepSize(entries);
      var c := CanonicalEntries(entries);
      CanonicalEntriesKeepKeys(entries);
      SortPermutes(c);
      SortBytes(c);
      NamedBytes(Sort(c));
      NamedKeepsDistinct(c);
      forall x | x in Named(Sort(c)) ensures Encodable(x.value) {
        var k :| 0 <= k < |Sort(c)| && Named(Sort(c))[k] == x;
        assert Sort(c)[k] in c;
      }
    case _ =>
  }

  lemma {:induction false} ItemsKeepSize(items: seq<Value>)
    requires forall x | x in items :: Encodable(x)
    ensures ItemBytes(CanonicalItems(items)) == ItemBytes(items)
    ensures forall x | x in CanonicalItems(items) :: Encodable(x)
    decreases items
  {
    if items != [] {
      CanonicalKeepsSize(items[0]);
      ItemsKeepSize(items[1..]);
      assert CanonicalItems(items)[1..] == CanonicalItems(items[1..]);
    }
  }

  lemma {:induction false} EntriesKeepSize(entries: seq<Entry>)
    requires forall e | e in entries :: Encodable(e.value)
    ensures EntryBytes(CanonicalEntries(entries)) == EntryBytes(entries)
    ensures forall x | x in CanonicalEntries(entries) :: Encodable(x.value)
    decreases entries
  {
    if entries != [] {
      EntryKeepsSize(entries[0]);
      EntriesKeepSize(entries[1..]);
      assert CanonicalEntries(entries)[1..] == CanonicalEntries(entries[1..]);
    }
  }

  lemma {:induction false} EntryKeepsSize(e: Entry)
    requires Encodable(e.value)
    ensures MemberBytes(CanonicalEntry(e)) == MemberBytes(e) && Encodable(CanonicalEntry(e).value)
    decreases e
  {
    CanonicalKeepsSize(e.value);
  }
}
