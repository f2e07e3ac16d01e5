/** When two question requests count as the same one: the canonical input that `create`
    fingerprints.  app/service/runs.py, app/entity/bo/contracts.py `AgentChatInput`. */
module RunRequests {
  import opened Outcomes
  import opened CanonicalJson

  datatype ChatInput = ChatInput(
    question: string, searchMode: string, documentIds: Option<seq<int>>, webQuery: Option<string>,
    modelProvider: Option<string>, webUrls: seq<string>, knowledgeBases: seq<int>,
    modelProfile: Option<string>, skill: Option<string>,
    approvedTools: seq<string>, approvalRevision: Option<int>)

  /** The dictionary that is hashed; an outer None is an absent key. */
  datatype CanonicalInput = CanonicalInput(
    question: string, searchMode: string, documentIds: Option<seq<int>>, webQuery: Option<string>,
    modelProvider: Option<string>, webUrls: seq<string>, knowledgeBases: Option<seq<int>>,
    modelProfile: Option<string>, skill: Option<string>,
    approvedTools: Option<seq<string>>, approvalRevision: Option<Option<int>>)

  function InsertText(s: string, texts: seq<string>): seq<string>
  {
    if texts == [] || !TextBelow(texts[0], s) then [s] + texts else [texts[0]] + InsertText(s, texts[1..])
  }

  function Sorted(texts: seq<string>): seq<string>
  {
    if texts == [] then [] else InsertText(texts[0], Sorted(texts[1..]))
  }

  function Normalized(i: ChatInput): CanonicalInput
  {
    var plain := i.approvedTools == [] && i.approvalRevision.None?;
    CanonicalInput(i.question, i.searchMode, i.documentIds, i.webQuery, i.modelProvider, i.webUrls,
      if i.knowledgeBases == [] then None else Some(i.knowledgeBases), i.modelProfile, i.skill,
      if plain then None else Some(Sorted(i.approvedTools)),
      if plain then None else Some(i.approvalRevision))
  }

  /** Equal up to the order in which the approved tools are listed. */
  predicate SameRequest(a: ChatInput, b: ChatInput)
  {
    a.(approvedTools := []) == b.(approvedTools := []) && multiset(a.approvedTools) == multiset(b.approvedTools)
  }

  predicate InOrder(texts: seq<string>)
  {
    forall i, j | 0 <= i < j < |texts| :: !TextBelow(texts[j], texts[i])
  }

  lemma {:induction false} InsertTextKeeps(s: string, texts: seq<string>)
    ensures multiset(InsertText(s, texts)) == multiset([s]) + multiset(texts)
  {
    if texts == [] || !TextBelow(texts[0], s) {
    } else {
      InsertTextKeeps(s, texts[1..]);
      assert texts == [texts[0]] + texts[1..];
    }
  }

  lemma {:induction false} InsertTextOrders(s: string, texts: seq<string>)
    requires InOrder(texts)
    ensures InOrder(InsertText(s, texts))
  {
    if texts == [] {
    } else if !TextBelow(texts[0], s) {
      forall j | 0 <= j < |texts| ensures !TextBelow(texts[j], s) {
        if TextBelow(texts[j], s) {
          BelowIsTotal(s, texts[0]);
          if s != texts[0] { BelowIsTransitive(texts[j], s, texts[0]); }
        }
      }
    } else {
      var rest := InsertText(s, texts[1..]);
      InsertTextOrders(s, texts[1..]);
      InsertTextKeeps(s, texts[1..]);
      forall j | 0 <= j < |rest| ensures !TextBelow(rest[j], texts[0]) {
        assert rest[j] in multiset(rest);
        if rest[j] == s { BelowIsTotal(texts[0], s); }
        else {
          assert rest[j] in texts[1..];
          var k :| 0 <= k < |texts[1..]| && texts[1..][k] == rest[j];
        }
      }
    }
  }

  lemma {:induction false} SortedIsSorted(texts: seq<string>)
    ensures multiset(Sorted(texts)) == multiset(texts) && InOrder(Sorted(texts))
  {
    if texts == [] {
    } else {
      SortedIsSorted(texts[1..]);
      InsertTextKeeps(texts[0], Sorted(texts[1..]));
      InsertTextOrders(texts[0], Sorted(texts[1..]));
      assert texts == [texts[0]] + texts[1..];
    }
  }

  lemma FirstIsLeast(a: seq<string>, b: seq<string>)
    requires InOrder(a) && a != [] && b != [] && multiset(a) == multiset(b)
    ensures !TextBelow(b[0], a[0])
  {
    assert b[0] in multiset(b);
    assert b[0] in a;
    var k :| 0 <= k < |a| && a[k] == b[0];
    if k == 0 { BelowIsTotal(a[0], a[0]); }
  }

  /** A sorted list is determined by what it contains. */
  lemma {:induction false} SortedIsUnique(a: seq<string>, b: seq<string>)
    requires InOrder(a) && InOrder(b) && multiset(a) == multiset(b)
    ensures a == b
  {
    assert |a| == |multiset(a)| == |multiset(b)| == |b|;
    if a != [] {
      FirstIsLeast(a, b);
      FirstIsLeast(b, a);
      BelowIsTotal(a[0], b[0]);
      assert a == [a[0]] + a[1..] && b == [b[0]] + b[1..];
      assert multiset(a[1..]) == multiset(a) - multiset{a[0]};
      assert multiset(b[1..]) == multiset(b) - multiset{b[0]};
      SortedIsUnique(a[1..], b[1..]);
    }
  }

  /** Two requests have the same canonical input exactly when they differ at most in the
      order of the approved tools. */
  lemma SameInputExactly(a: ChatInput, b: ChatInput)
    ensures Normalized(a) == Normalized(b) <==> SameRequest(a, b)
  {
    SortedIsSorted(a.approvedTools);
    SortedIsSorted(b.approvedTools);
    if SameRequest(a, b) {
      SortedIsUnique(Sorted(a.approvedTools), Sorted(b.approvedTools));
      assert |a.approvedTools| == |multiset(a.approvedTools)| == |multiset(b.approvedTools)| == |b.approvedTools|;
      assert a.knowledgeBases == a.(approvedTools := []).knowledgeBases == b.knowledgeBases;
    }
  }
}
