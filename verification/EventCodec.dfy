/** A codec with the properties that the stream proofs ask of JSON, so that they speak of
    something: numbers are written as strokes, and a brace stands only at either end. */
module EventCodec {
  import opened Outcomes
  import opened EventStream

  function Strokes(n: nat): string { if n == 0 then "" else "1" + Strokes(n - 1) }

  function Tally(numbers: seq<nat>): string
  {
    if numbers == [] then "" else Strokes(numbers[0]) + "," + Tally(numbers[1..])
  }

  function Folded(n: int): nat { if n >= 0 then 2 * n else -2 * n - 1 }

  function Codes(s: string): seq<nat> { if s == "" then [] else [s[0] as nat] + Codes(s[1..]) }

  function Numbers(d: Data): seq<nat>
  {
    [Folded(d.sequence), if d.current.None? then 0 else if d.current.value then 1 else 2, Folded(d.content)]
    + Codes(d.runId)
  }

  function Encode(d: Data): string { "{" + Tally(Numbers(d)) + "}" }

  ghost predicate Encodes(d: Data, s: string) { Encode(d) == s }

  ghost function Decode(s: string): Option<Data>
  {
    if exists d :: Encodes(d, s) then var d :| Encodes(d, s); Some(d) else None
  }

  ghost function Tallies(): Codec { Codec(d => Encode(d), s => Decode(s)) }

  lemma {:induction false} StrokesEnd(m: nat, n: nat, a: string, b: string)
    requires Strokes(m) + "," + a == Strokes(n) + "," + b
    ensures m == n && a == b
  {
    var s, t := Strokes(m) + "," + a, Strokes(n) + "," + b;
    if m > 0 && n > 0 {
      assert s[1..] == Strokes(m - 1) + "," + a && t[1..] == Strokes(n - 1) + "," + b;
      StrokesEnd(m - 1, n - 1, a, b);
    } else {
      assert s[0] == (if m > 0 then '1' else ',') && t[0] == (if n > 0 then '1' else ',');
      assert s[1..] == t[1..];
      if m == 0 && n == 0 { assert s[1..] == a && t[1..] == b; }
    }
  }

  lemma {:induction false} TallyIsInjective(a: seq<nat>, b: seq<nat>)
    requires Tally(a) == Tally(b)
    ensures a == b
  {
    if a != [] && b != [] {
      StrokesEnd(a[0], b[0], Tally(a[1..]), Tally(b[1..]));
      TallyIsInjective(a[1..], b[1..]);
      assert a == [a[0]] + a[1..] && b == [b[0]] + b[1..];
    }
  }

  lemma {:induction false} CodesAreInjective(s: string, t: string)
    requires Codes(s) == Codes(t)
    ensures s == t
  {
    if s != "" && t != "" {
      assert Codes(s)[0] == s[0] as nat && Codes(s)[1..] == Codes(s[1..]);
      assert Codes(t)[0] == t[0] as nat && Codes(t)[1..] == Codes(t[1..]);
      CodesAreInjective(s[1..], t[1..]);
      assert s == [s[0]] + s[1..] && t == [t[0]] + t[1..];
    }
  }

  lemma EncodeIsInjective(d: Data, e: Data)
    requires Encode(d) == Encode(e)
    ensures d == e
  {
    assert Encode(d)[1..][..|Encode(d)| - 2] == Tally(Numbers(d));
    assert Encode(e)[1..][..|Encode(e)| - 2] == Tally(Numbers(e));
    TallyIsInjective(Numbers(d), Numbers(e));
    assert Numbers(d)[0] == Numbers(e)[0] && Numbers(d)[1] == Numbers(e)[1] && Numbers(d)[2] == Numbers(e)[2];
    assert Numbers(d)[3..] == Codes(d.runId) && Numbers(e)[3..] == Codes(e.runId);
    CodesAreInjective(d.runId, e.runId);
  }

  lemma {:induction false} StrokesOnly(n: nat)
    ensures forall c | c in Strokes(n) :: c == '1'
  {
    if n > 0 { StrokesOnly(n - 1); }
  }

  lemma {:induction false} TallyOnly(numbers: seq<nat>)
    ensures forall c | c in Tally(numbers) :: c == '1' || c == ','
  {
    if numbers != [] {
      StrokesOnly(numbers[0]);
      TallyOnly(numbers[1..]);
    }
  }

  /** The closing brace stands nowhere but at the end, so no proper part is an encoding. */
  lemma PartIsNoEncoding(d: Data, n: nat, e: Data)
    requires n < |Encode(d)|
    ensures Encode(d)[..n] != Encode(e)
  {
    var part := Encode(d)[..n];
    TallyOnly(Numbers(d));
    if n > 1 {
      assert part[n - 1] == Tally(Numbers(d))[n - 2] && Tally(Numbers(d))[n - 2] in Tally(Numbers(d));
    }
    assert Encode(e)[|Encode(e)| - 1] == '}' && |Encode(e)| >= 2;
  }

  /** The premise on the codec can be met. */
  lemma FaithfulCodec()
    ensures Faithful(Tallies())
  {
    var k := Tallies();
    forall d: Data
      ensures k.decode(k.encode(d)) == Some(d) && OneLine(k.encode(d))
      ensures k.encode(d) != "" && !IsSpace(k.encode(d)[0])
      ensures forall n | 0 <= n < |k.encode(d)| :: k.decode(k.encode(d)[..n]).None?
    {
      assert Encodes(d, Encode(d));
      forall e | Encodes(e, Encode(d)) ensures e == d { EncodeIsInjective(e, d); }
      TallyOnly(Numbers(d));
      forall n | 0 <= n < |Encode(d)| ensures Decode(Encode(d)[..n]).None? {
        forall e ensures !Encodes(e, Encode(d)[..n]) { PartIsNoEncoding(d, n, e); }
      }
    }
  }
}
