/** The incremental answer parser: app/manager/agent_runtime.py `AnswerStreamParser`.
    It pulls the string value of the "answer" field out of JSON text (RFC 8259, section 7)
    that arrives in arbitrary pieces. Decoded text is a sequence of code points. */
module AnswerStream {
  import opened Outcomes
  import opened PythonText

  type CodePoint = int

  // ---------------------------------------------------------------- the field pattern

  const MARK := "\"answer\""

  function SkipSpaces(s: string, i: nat): (j: nat)
    requires i <= |s|
    ensures i <= j <= |s| && (forall k | i <= k < j :: IsSpace(s[k])) && (j < |s| ==> !IsSpace(s[j]))
    decreases |s| - i
  {
    if i < |s| && IsSpace(s[i]) then SkipSpaces(s, i + 1) else i
  }

  /** The end of a match of `"answer"\s*:\s*"` that starts at `i`. */
  function MatchAt(s: string, i: nat): Option<nat>
    requires i <= |s|
  {
    if !(MARK <= s[i..]) then None
    else
      var j := SkipSpaces(s, i + 8);
      if j == |s| || s[j] != ':' then None
      else
        var k := SkipSpaces(s, j + 1);
        if k == |s| || s[k] != '"' then None else Some(k + 1)
  }

  /** The end of the leftmost match that starts at or after `i`. */
  function Search(s: string, i: nat): Option<nat>
    requires i <= |s|
    decreases |s| - i
  {
    if MatchAt(s, i).Some? then MatchAt(s, i) else if i == |s| then None else Search(s, i + 1)
  }

  function Field(s: string): Option<nat> { Search(s, 0) }

  // ---------------------------------------------------------------- tokens of a string body

  /** Python's `int(text, 16)` on four characters. It takes more than hex digits (signs,
      spaces, underscores), so it is left open except on true digits. */
  type Int16 = string -> Option<int>

  predicate IsHex(c: char) { '0' <= c <= '9' || 'a' <= c <= 'f' || 'A' <= c <= 'F' }

  predicate HexDigits(s: string) { forall c | c in s :: IsHex(c) }

  function HexDigit(c: char): int
    requires IsHex(c)
  {
    if c <= '9' then c as int - '0' as int
    else if c <= 'F' then c as int - 'A' as int + 10 else c as int - 'a' as int + 10
  }

  function HexValue(s: string): int
    requires HexDigits(s)
  {
    if s == "" then 0 else HexValue(s[..|s| - 1]) * 16 + HexDigit(s[|s| - 1])
  }

  ghost predicate ReadsHex(hex: Int16) { forall s | |s| == 4 && HexDigits(s) :: hex(s) == Some(HexValue(s)) }

  predicate High(n: int) { 0xd800 <= n <= 0xdbff }
  predicate Low(n: int) { 0xdc00 <= n <= 0xdfff }

  const SIMPLE := "\"\\/bfnrt"

  /** How long the complete token at the head of `s` is; 0 when the scan must stop there. */
  function Token(hex: Int16, s: string): (n: nat)
    requires s != ""
    ensures n <= |s|
  {
    if s[0] == '"' then 0
    else if s[0] != '\\' then 1
    else if |s| < 2 then 0
    else if s[1] in SIMPLE then 2
    else if s[1] != 'u' || |s| < 6 then 0
    else
      var unit := hex(s[2..6]);
      if unit.None? then 0
      else if !High(unit.value) then 6
      else if |s| < 12 || s[6..8] != "\\u" then 0
      else
        var low := hex(s[8..12]);
        if low.None? || !Low(low.value) then 0 else 12
  }

  /** The longest prefix made of complete tokens. */
  function Safe(hex: Int16, s: string): (n: nat)
    ensures n <= |s|
    decreases |s|
  {
    if s == "" || Token(hex, s) == 0 then 0 else Token(hex, s) + Safe(hex, s[Token(hex, s)..])
  }

  // ---------------------------------------------------------------- decoding

  function Unescaped(c: char): CodePoint
  {
    match c
    case 'b' => 8 case 'f' => 12 case 'n' => 10 case 'r' => 13 case 't' => 9
    case _ => c as int
  }

  /** One decoded code point and how many characters it took. */
  datatype Piece = Piece(code: CodePoint, length: nat)

  /** The first code point of a JSON string body: None is a JSONDecodeError. */
  function One(s: string): (p: Option<Piece>)
    requires s != ""
    ensures p.Some? ==> 1 <= p.value.length <= |s|
  {
    if s[0] == '"' || s[0] as int < 0x20 then None
    else if s[0] != '\\' then Some(Piece(s[0] as int, 1))
    else if |s| < 2 then None
    else if s[1] in SIMPLE then Some(Piece(Unescaped(s[1]), 2))
    else if s[1] != 'u' || |s| < 6 || !HexDigits(s[2..6]) then None
    else
      var unit := HexValue(s[2..6]);
      if !High(unit) || |s| < 8 || s[6..8] != "\\u" then Some(Piece(unit, 6))
      else if |s| < 12 || !HexDigits(s[8..12]) then None
      else
        var low := HexValue(s[8..12]);
        if Low(low) then Some(Piece(0x10000 + (unit - 0xd800) * 0x400 + (low - 0xdc00), 12))
        else Some(Piece(unit, 6))
  }

  /** `json.loads` on the text between two quotes. */
  function Decode(s: string): Option<seq<CodePoint>>
    decreases |s|
  {
    if s == "" then Some([])
    else
      var p := One(s);
      if p.None? then None
      else
        var rest := Decode(s[p.value.length..]);
        if rest.None? then None else Some([p.value.code] + rest.value)
  }

  /** The text a parser may show once it has seen `s`: nothing before the field starts, then
      the decoding of its longest token-aligned part; None when that part is not JSON. */
  function Visible(hex: Int16, s: string): Option<seq<CodePoint>>
  {
    if Field(s).None? then Some([]) else Decode(Body(s)[..Safe(hex, Body(s))])
  }

  function Body(s: string): string
    requires Field(s).Some?
  {
    FieldBounds(s);
    s[Field(s).value..]
  }

  lemma {:induction false} SearchBounds(s: string, i: nat)
    requires i <= |s|
    ensures Search(s, i).Some? ==> 10 <= Search(s, i).value <= |s|
    decreases |s| - i
  {
    if MatchAt(s, i).None? && i < |s| { SearchBounds(s, i + 1); }
  }

  lemma FieldBounds(s: string)
    ensures Field(s).Some? ==> 10 <= Field(s).value <= |s|
  {
    SearchBounds(s, 0);
  }

  // ---------------------------------------------------------------- the field never moves

  lemma {:induction false} SkipFurther(s: string, more: string, i: nat)
    requires i <= |s|
    ensures SkipSpaces(s, i) < |s| ==> SkipSpaces(s + more, i) == SkipSpaces(s, i)
    ensures SkipSpaces(s + more, i) < |s| ==> SkipSpaces(s + more, i) == SkipSpaces(s, i)
    ensures SkipSpaces(s, i) <= SkipSpaces(s + more, i)
    decreases |s| - i
  {
    if i < |s| && IsSpace(s[i]) { SkipFurther(s, more, i + 1); }
  }

  lemma MarkIsLocal(s: string, more: string, i: nat)
    requires i <= |s| && |MARK| <= |s| - i
    ensures MARK <= s[i..] <==> MARK <= (s + more)[i..]
  {
    assert (s + more)[i..] == s[i..] + more;
    assert s[i..][..8] == (s[i..] + more)[..8];
  }

  lemma MatchPersists(s: string, more: string, i: nat)
    requires i <= |s| && MatchAt(s, i).Some?
    ensures MatchAt(s + more, i) == MatchAt(s, i)
  {
    MarkIsLocal(s, more, i);
    SkipFurther(s, more, i + 8);
    SkipFurther(s, more, SkipSpaces(s, i + 8) + 1);
  }

  lemma MatchIsEarly(s: string, more: string, i: nat)
    requires i <= |s| && MatchAt(s + more, i).Some? && MatchAt(s + more, i).value <= |s|
    ensures MatchAt(s, i) == MatchAt(s + more, i)
  {
    assert |(s + more)[i..]| >= 8;
    MarkIsLocal(s, more, i);
    SkipFurther(s, more, i + 8);
    SkipFurther(s, more, SkipSpaces(s, i + 8) + 1);
  }

  lemma MatchGrows(s: string, more: string, i: nat)
    requires i <= |s|
    ensures MatchAt(s, i).Some? ==> MatchAt(s + more, i) == MatchAt(s, i)
    ensures MatchAt(s + more, i).Some? && MatchAt(s + more, i).value <= |s| ==> MatchAt(s, i) == MatchAt(s + more, i)
  {
    if MatchAt(s, i).Some? { MatchPersists(s, more, i); }
    if MatchAt(s + more, i).Some? && MatchAt(s + more, i).value <= |s| { MatchIsEarly(s, more, i); }
  }

  /** Inside a match, a quote stands only at its two ends and after the word. */
  lemma QuotesInMatch(s: string, i: nat, p: nat)
    requires i <= |s| && MatchAt(s, i).Some? && i < p < MatchAt(s, i).value - 1 && s[p] == '"'
    ensures p == i + 7 && p + 1 < |s| && s[p + 1] != 'a'
  {
    assert s[i..][..8] == MARK;
    if p < i + 8 { assert s[p] == MARK[p - i]; }
    assert !IsSpace('a');
  }

  /** A start that cannot match yet does not become a match once a later start has one. */
  lemma LateMatchIsNoMatch(s: string, more: string, i: nat, j: nat)
    requires i < j <= |s| && MatchAt(s, i).None? && MatchAt(s, j).Some?
    ensures MatchAt(s + more, i).None?
  {
    var t := s + more;
    MatchGrows(s, more, i);
    MatchGrows(s, more, j);
    assert MARK <= s[j..] && s[j..][0] == MARK[0] && s[j..][1] == MARK[1];
    assert t[j] == '"' && t[j + 1] == 'a';
    if MatchAt(t, i).Some? { QuotesInMatch(t, i, j); }
  }

  lemma {:induction false} SearchFinds(s: string, i: nat) returns (j: nat)
    requires i <= |s| && Search(s, i).Some?
    ensures i <= j <= |s| && MatchAt(s, j) == Search(s, i) && forall k | i <= k < j :: MatchAt(s, k).None?
    decreases |s| - i
  {
    if MatchAt(s, i).Some? { j := i; } else { j := SearchFinds(s, i + 1); }
  }

  lemma {:induction false} SearchIsLeftmost(s: string, i: nat, j: nat)
    requires i <= j <= |s| && MatchAt(s, j).Some? && forall k | i <= k < j :: MatchAt(s, k).None?
    ensures Search(s, i) == MatchAt(s, j)
    decreases |s| - i
  {
    if i < j { SearchIsLeftmost(s, i + 1, j); }
  }

  /** Once the field is found it stays where it is, whatever text follows. */
  lemma FieldIsStable(s: string, more: string)
    requires Field(s).Some?
    ensures Field(s + more) == Field(s)
  {
    var j := SearchFinds(s, 0);
    MatchGrows(s, more, j);
    forall k | 0 <= k < j ensures MatchAt(s + more, k).None? { LateMatchIsNoMatch(s, more, k, j); }
    SearchIsLeftmost(s + more, 0, j);
  }

  /** And it is found as soon as it is complete. */
  lemma FieldIsFoundEarly(s: string, more: string)
    requires Field(s + more).Some? && Field(s + more).value <= |s|
    ensures Field(s) == Field(s + more)
  {
    var t := s + more;
    var j := SearchFinds(t, 0);
    MatchGrows(s, more, j);
    forall k | 0 <= k < j ensures MatchAt(s, k).None? { MatchGrows(s, more, k); }
    SearchIsLeftmost(s, 0, j);
  }

  // ---------------------------------------------------------------- tokens are local

  lemma PrefixSlice(s: string, n: nat, i: nat, j: nat)
    requires i <= j <= n <= |s|
    ensures s[..n][i..j] == s[i..j]
  {
  }

  lemma DropTwice(s: string, m: nat, n: nat)
    requires m + n <= |s|
    ensures s[m..][n..] == s[m + n..]
  {
  }

  lemma DropOfJoined(s: string, more: string, n: nat)
    requires n <= |s|
    ensures (s + more)[n..] == s[n..] + more && (s + more)[..n] == s[..n]
  {
  }

  lemma TokenIsLocal(hex: Int16, s: string, more: string)
    requires s != "" && Token(hex, s) > 0
    ensures Token(hex, s + more) == Token(hex, s)
  {
    var t := s + more;
    DropOfJoined(s, more, |s|);
    if |s| >= 6 { PrefixSlice(t, |s|, 2, 6); }
    if |s| >= 12 {
      PrefixSlice(t, |s|, 6, 8);
      PrefixSlice(t, |s|, 8, 12);
    }
  }

  /** A complete token stands for itself, and decodes, if at all, to one code point that
      is never a lone high surrogate. */
  lemma TokenStandsAlone(hex: Int16, s: string)
    requires ReadsHex(hex) && s != "" && Token(hex, s) > 0
    ensures var n := Token(hex, s);
      && Token(hex, s[..n]) == n && One(s[..n]) == One(s)
      && (One(s).Some? ==> One(s).value.length == n && !High(One(s).value.code))
  {
    var n := Token(hex, s);
    if n >= 6 { PrefixSlice(s, n, 2, 6); }
    if n >= 12 {
      PrefixSlice(s, n, 6, 8);
      PrefixSlice(s, n, 8, 12);
    }
  }

  lemma SafeOfStop(hex: Int16, s: string)
    requires s == "" || Token(hex, s) == 0
    ensures Safe(hex, s) == 0
  {
  }

  lemma SafeOfToken(hex: Int16, s: string)
    requires s != "" && Token(hex, s) > 0
    ensures Safe(hex, s) == Token(hex, s) + Safe(hex, s[Token(hex, s)..])
  {
  }

  /** Behind its first token the safe prefixes of a text and of its extension are those of the tails. */
  lemma SafeBehindToken(hex: Int16, s: string, more: string)
    requires s != "" && Token(hex, s) > 0
    ensures var t := s[Token(hex, s)..];
      Safe(hex, s) == Token(hex, s) + Safe(hex, t) && Safe(hex, s + more) == Token(hex, s) + Safe(hex, t + more)
  {
    SafeOfToken(hex, s);
    TokenIsLocal(hex, s, more);
    SafeOfToken(hex, s + more);
    DropOfJoined(s, more, Token(hex, s));
  }

  predicate Grows(hex: Int16, s: string, more: string)
  {
    Safe(hex, s + more) == Safe(hex, s) + Safe(hex, s[Safe(hex, s)..] + more)
  }

  lemma GrowsBehind(hex: Int16, s: string, more: string, n: nat)
    requires n <= |s| && Grows(hex, s[n..], more)
    requires Safe(hex, s) == n + Safe(hex, s[n..]) && Safe(hex, s + more) == n + Safe(hex, s[n..] + more)
    ensures Grows(hex, s, more)
  {
    DropTwice(s, n, Safe(hex, s[n..]));
  }

  /** The safe prefix only ever grows, and by whole tokens. */
  lemma {:induction false} SafeGrows(hex: Int16, s: string, more: string)
    ensures Grows(hex, s, more)
    decreases |s|
  {
    if s != "" && Token(hex, s) > 0 {
      SafeBehindToken(hex, s, more);
      SafeGrows(hex, s[Token(hex, s)..], more);
      GrowsBehind(hex, s, more, Token(hex, s));
    } else {
      assert s[0..] == s;
    }
  }

  /** Decoding splits at the end of every safe prefix. */
  lemma {:induction false} DecodeSplits(hex: Int16, s: string, rest: string)
    requires ReadsHex(hex) && Safe(hex, s) == |s|
    ensures Decode(s).None? ==> Decode(s + rest).None?
    ensures Decode(s).Some? && Decode(rest).None? ==> Decode(s + rest).None?
    ensures Decode(s).Some? && Decode(rest).Some? ==> Decode(s + rest) == Some(Decode(s).value + Decode(rest).value)
    decreases |s|
  {
    if s == "" {
      assert s + rest == rest;
      if Decode(rest).Some? { assert [] + Decode(rest).value == Decode(rest).value; }
    } else {
      var n := Token(hex, s);
      TokenIsLocal(hex, s, rest);
      DropOfJoined(s, rest, n);
      TokenStandsAlone(hex, s);
      TokenStandsAlone(hex, s + rest);
      DecodeSplits(hex, s[n..], rest);
      if One(s).Some? && Decode(s[n..]).Some? && Decode(rest).Some? {
        assert [One(s).value.code] + (Decode(s[n..]).value + Decode(rest).value)
            == ([One(s).value.code] + Decode(s[n..]).value) + Decode(rest).value;
      }
    }
  }

  lemma {:induction false} SafePrefixIsSafe(hex: Int16, s: string)
    requires ReadsHex(hex)
    ensures Safe(hex, s[..Safe(hex, s)]) == Safe(hex, s)
    decreases |s|
  {
    if s != "" && Token(hex, s) > 0 {
      var n := Token(hex, s);
      var t := s[..Safe(hex, s)];
      HeadOfSafe(hex, s);
      SafePrefixIsSafe(hex, s[n..]);
      assert t[n..] == s[n..][..Safe(hex, s[n..])];
    }
  }

  /** The safe prefix opens with the same token as the whole. */
  lemma HeadOfSafe(hex: Int16, s: string)
    requires ReadsHex(hex) && s != "" && Token(hex, s) > 0
    ensures var t := s[..Safe(hex, s)];
      Token(hex, s) <= |t| && Token(hex, t) == Token(hex, s) && One(t) == One(s)
  {
    var n := Token(hex, s);
    var t := s[..Safe(hex, s)];
    TokenStandsAlone(hex, s);
    TokenIsLocal(hex, s[..n], t[n..]);
    assert s[..n] + t[n..] == t;
    TokenStandsAlone(hex, t);
    assert t[..n] == s[..n];
  }

  // ---------------------------------------------------------------- what may be shown only grows

  lemma PrefixIsGreater(s: string, n: nat, m: nat)
    requires n <= m <= |s|
    ensures s[..m] == s[..n] + s[n..m]
  {
  }

  lemma ShownBodyGrows(hex: Int16, body: string, more: string)
    requires ReadsHex(hex) && Decode((body + more)[..Safe(hex, body + more)]).Some?
    ensures var now := Decode(body[..Safe(hex, body)]);
      now.Some? && now.value <= Decode((body + more)[..Safe(hex, body + more)]).value
  {
    var n, m := Safe(hex, body), Safe(hex, body + more);
    SafeGrows(hex, body, more);
    SafePrefixIsSafe(hex, body);
    DropOfJoined(body, more, n);
    PrefixIsGreater(body + more, n, m);
    ShownPartGrows(hex, body[..n], (body + more)[n..m]);
  }

  lemma ShownPartGrows(hex: Int16, shown: string, next: string)
    requires ReadsHex(hex) && Safe(hex, shown) == |shown| && Decode(shown + next).Some?
    ensures Decode(shown).Some? && Decode(shown).value <= Decode(shown + next).value
  {
    DecodeSplits(hex, shown, next);
  }

  /** More text never takes back what was shown, and never repairs what could not be
      decoded. */
  lemma VisibleGrows(hex: Int16, s: string, more: string)
    requires ReadsHex(hex) && Visible(hex, s + more).Some?
    ensures Visible(hex, s).Some? && Visible(hex, s).value <= Visible(hex, s + more).value
  {
    if Field(s).Some? {
      FieldIsStable(s, more);
      FieldBounds(s);
      DropOfJoined(s, more, Field(s).value);
      ShownBodyGrows(hex, Body(s), more);
    }
  }

  // ---------------------------------------------------------------- what can be decoded

  /** A token of `n` characters without a raw control character or a false hex digit. */
  predicate PlainToken(s: string, n: nat)
    requires 0 < n <= |s|
  {
    && s[0] as int >= 0x20
    && (n >= 6 ==> HexDigits(s[2..6])) && (n >= 12 ==> HexDigits(s[8..12]))
  }

  /** The complete tokens at the head of a string body, up to where the scan stops, are plain. */
  predicate Plain(hex: Int16, body: string)
    decreases |body|
  {
    body == "" || Token(hex, body) == 0
    || (PlainToken(body, Token(hex, body)) && Plain(hex, body[Token(hex, body)..]))
  }

  /** The same of the answer field in a text, once there is one. */
  predicate PlainText(hex: Int16, s: string) { Field(s).Some? ==> Plain(hex, Body(s)) }

  lemma TokenDecodesExactly(hex: Int16, s: string)
    requires ReadsHex(hex) && s != "" && Token(hex, s) > 0
    ensures One(s).Some? <==> PlainToken(s, Token(hex, s))
  {
  }

  lemma DecodeBehindOne(s: string, n: nat, rest: string)
    requires s != "" && n <= |s| && s[n..] == rest && (One(s).Some? ==> One(s).value.length == n)
    ensures Decode(s).Some? <==> One(s).Some? && Decode(rest).Some?
  {
  }

  lemma PlainBehindToken(hex: Int16, body: string)
    requires body != "" && Token(hex, body) > 0
    ensures var n := Token(hex, body);
      Plain(hex, body) <==> PlainToken(body, n) && Plain(hex, body[n..])
  {
  }

  lemma SafePartBehindToken(hex: Int16, s: string)
    requires s != "" && Token(hex, s) > 0
    ensures var n := Token(hex, s);
      n <= Safe(hex, s) && s[..Safe(hex, s)][n..] == s[n..][..Safe(hex, s[n..])]
  {
    SafeOfToken(hex, s);
  }

  /** The token-aligned part of a string body is JSON exactly when its tokens are plain. */
  lemma {:induction false} PlainDecodes(hex: Int16, body: string)
    requires ReadsHex(hex)
    ensures Decode(body[..Safe(hex, body)]).Some? <==> Plain(hex, body)
    decreases |body|
  {
    if body == "" || Token(hex, body) == 0 {
      SafeOfStop(hex, body);
      assert body[..0] == "";
    } else {
      var n := Token(hex, body);
      var rest := body[n..];
      TokenDecodesExactly(hex, body);
      TokenStandsAlone(hex, body);
      HeadOfSafe(hex, body);
      SafePartBehindToken(hex, body);
      DecodeBehindOne(body[..Safe(hex, body)], n, rest[..Safe(hex, rest)]);
      PlainBehindToken(hex, body);
      PlainDecodes(hex, rest);
    }
  }

  lemma PlainIsVisible(hex: Int16, s: string)
    requires ReadsHex(hex)
    ensures Visible(hex, s).Some? <==> PlainText(hex, s)
  {
    if Field(s).Some? { PlainDecodes(hex, Body(s)); }
  }

  lemma {:induction false} NoLoneHighSurrogate(hex: Int16, s: string)
    requires ReadsHex(hex) && Safe(hex, s) == |s| && Decode(s).Some?
    ensures forall c | c in Decode(s).value :: !High(c)
    decreases |s|
  {
    if s != "" {
      var n := Token(hex, s);
      TokenStandsAlone(hex, s);
      NoLoneHighSurrogate(hex, s[n..]);
    }
  }

  // ---------------------------------------------------------------- the parser

  datatype Parser = Parser(buffer: string, started: bool, emitted: nat)

  datatype Fed = Fed(state: Parser, startedNow: bool, delta: seq<CodePoint>)

  function Dropped(s: seq<CodePoint>, n: nat): seq<CodePoint> { if n <= |s| then s[n..] else [] }

  /** One `feed`. */
  function Taken(hex: Int16, p: Parser, text: string): Fed
  {
    var buffer := p.buffer + text;
    if Field(buffer).None? || Visible(hex, buffer).None? then Fed(p.(buffer := buffer), false, [])
    else
      var decoded := Visible(hex, buffer).value;
      Fed(Parser(buffer, true, |decoded|), !p.started, Dropped(decoded, p.emitted))
  }

  /** All the deltas of a run, joined, and how often a start was announced. */
  datatype Shown = Shown(text: seq<CodePoint>, starts: nat)

  function FeedAll(hex: Int16, p: Parser, chunks: seq<string>): Shown
    decreases |chunks|
  {
    if chunks == [] then Shown([], 0)
    else
      var f := Taken(hex, p, chunks[0]);
      var rest := FeedAll(hex, f.state, chunks[1..]);
      Shown(f.delta + rest.text, rest.starts + if f.startedNow then 1 else 0)
  }

  function Joined(chunks: seq<string>): string
    decreases |chunks|
  {
    if chunks == [] then "" else chunks[0] + Joined(chunks[1..])
  }

  const INITIAL := Parser("", false, 0)

  lemma JoinedAfter(p: Parser, chunks: seq<string>)
    requires chunks != []
    ensures p.buffer + Joined(chunks) == (p.buffer + chunks[0]) + Joined(chunks[1..])
  {
  }

  /** The parser has shown exactly what is visible in its buffer. */
  predicate UpToDate(hex: Int16, p: Parser)
  {
    && Visible(hex, p.buffer).Some? && p.emitted == |Visible(hex, p.buffer).value|
    && (p.started <==> Field(p.buffer).Some?)
  }

  lemma DroppedCompletes(a: seq<CodePoint>, b: seq<CodePoint>)
    requires a <= b
    ensures a + Dropped(b, |a|) == b
  {
  }

  lemma FeedStaysUpToDate(hex: Int16, p: Parser, text: string)
    requires ReadsHex(hex) && UpToDate(hex, p) && Visible(hex, p.buffer + text).Some?
    ensures var f := Taken(hex, p, text);
      && UpToDate(hex, f.state) && f.state.buffer == p.buffer + text
      && Visible(hex, p.buffer).value + f.delta == Visible(hex, f.state.buffer).value
      && (f.startedNow <==> !p.started && Field(p.buffer + text).Some?)
  {
    VisibleGrows(hex, p.buffer, text);
    if Field(p.buffer).Some? { FieldIsStable(p.buffer, text); }
    var before, after := Visible(hex, p.buffer).value, Visible(hex, p.buffer + text).value;
    assert before <= after;
    DroppedCompletes(before, after);
    if Field(p.buffer + text).None? { NothingVisible(hex, p.buffer + text); NothingVisible(hex, p.buffer); }
  }

  lemma NothingVisible(hex: Int16, s: string)
    requires Field(s).None?
    ensures Visible(hex, s) == Some([])
  {
  }

  lemma Regroup(a: seq<CodePoint>, b: seq<CodePoint>, c: seq<CodePoint>)
    ensures a + (b + c) == (a + b) + c
  {
  }

  lemma {:induction false} DeltasJoin(hex: Int16, p: Parser, chunks: seq<string>)
    requires ReadsHex(hex) && UpToDate(hex, p) && Visible(hex, p.buffer + Joined(chunks)).Some?
    ensures Visible(hex, p.buffer).value + FeedAll(hex, p, chunks).text
      == Visible(hex, p.buffer + Joined(chunks)).value
    decreases |chunks|
  {
    if chunks == [] {
      assert p.buffer + Joined(chunks) == p.buffer;
    } else {
      var f := Taken(hex, p, chunks[0]);
      JoinedAfter(p, chunks);
      VisibleGrows(hex, p.buffer + chunks[0], Joined(chunks[1..]));
      FeedStaysUpToDate(hex, p, chunks[0]);
      DeltasJoin(hex, f.state, chunks[1..]);
      Regroup(Visible(hex, p.buffer).value, f.delta, FeedAll(hex, f.state, chunks[1..]).text);
    }
  }

  lemma {:induction false} StartIsAnnouncedOnce(hex: Int16, p: Parser, chunks: seq<string>)
    requires ReadsHex(hex) && UpToDate(hex, p) && Visible(hex, p.buffer + Joined(chunks)).Some?
    ensures FeedAll(hex, p, chunks).starts
      == if !p.started && Field(p.buffer + Joined(chunks)).Some? then 1 else 0
    decreases |chunks|
  {
    if chunks == [] {
      assert p.buffer + Joined(chunks) == p.buffer;
    } else {
      var f := Taken(hex, p, chunks[0]);
      JoinedAfter(p, chunks);
      VisibleGrows(hex, p.buffer + chunks[0], Joined(chunks[1..]));
      FeedStaysUpToDate(hex, p, chunks[0]);
      StartIsAnnouncedOnce(hex, f.state, chunks[1..]);
      if Field(p.buffer + chunks[0]).Some? { FieldIsStable(p.buffer + chunks[0], Joined(chunks[1..])); }
      if p.started { FieldIsStable(p.buffer, chunks[0]); }
    }
  }

  /** Chunk invariance: however a plain text is cut, the deltas join to the decoding of its
      longest token-aligned part, and the start is announced once. */
  lemma ChunkInvariance(hex: Int16, chunks: seq<string>)
    requires ReadsHex(hex) && PlainText(hex, Joined(chunks))
    ensures var shown := FeedAll(hex, INITIAL, chunks);
      && Some(shown.text) == Visible(hex, Joined(chunks))
      && shown.starts == (if Field(Joined(chunks)).Some? then 1 else 0)
      && forall c | c in shown.text :: !High(c)
  {
    var whole := Joined(chunks);
    PlainIsVisible(hex, whole);
    assert "" + whole == whole;
    assert UpToDate(hex, INITIAL);
    DeltasJoin(hex, INITIAL, chunks);
    StartIsAnnouncedOnce(hex, INITIAL, chunks);
    NothingFromNothing(FeedAll(hex, INITIAL, chunks).text);
    VisibleHasNoLoneHigh(hex, whole);
  }

  lemma NothingFromNothing(text: seq<CodePoint>)
    ensures [] + text == text
  {
  }

  lemma VisibleHasNoLoneHigh(hex: Int16, s: string)
    requires ReadsHex(hex) && Visible(hex, s).Some?
    ensures forall c | c in Visible(hex, s).value :: !High(c)
  {
    if Field(s).Some? {
      SafePrefixIsSafe(hex, Body(s));
      NoLoneHighSurrogate(hex, Body(s)[..Safe(hex, Body(s))]);
    }
  }

  // ---------------------------------------------------------------- answers that are JSON

  /** Where the scan stops in a JSON string, a lone high surrogate stands. */
  lemma StopIsLoneHigh(hex: Int16, t: string, tail: string)
    requires ReadsHex(hex) && t != "" && Token(hex, t) == 0 && One(t).Some?
    ensures High(One(t).value.code)
    ensures Token(hex, t + ['"'] + tail) == 0
  {
    var whole := t + ['"'] + tail;
    PrefixSlice(whole, |t|, 2, 6);
    assert whole[..|t|] == t;
    assert whole[|t|] == '"';
    if |t| >= 8 { PrefixSlice(whole, |t|, 6, 8); }
    if |t| >= 12 { PrefixSlice(whole, |t|, 8, 12); }
    if |t| < 8 && |whole| >= 12 { assert whole[6..8][|t| - 6] == '"'; }
  }

  /** The scan of a JSON string goes no further than its closing quote, whatever follows. */
  lemma {:induction false} ScanOfJson(hex: Int16, t: string, tail: string)
    requires ReadsHex(hex) && Decode(t).Some?
    ensures Safe(hex, t + ['"'] + tail) == Safe(hex, t)
    decreases |t|
  {
    var whole := t + ['"'] + tail;
    if t == "" {
      assert whole[0] == '"';
      SafeOfStop(hex, whole);
    } else if Token(hex, t) == 0 {
      StopIsLoneHigh(hex, t, tail);
      SafeOfStop(hex, whole);
      SafeOfStop(hex, t);
    } else {
      var n := Token(hex, t);
      JsonBehindToken(hex, t);
      ScanOfJson(hex, t[n..], tail);
      SafeBehindToken(hex, t, ['"'] + tail);
      Regrouped(t, tail);
      Regrouped(t[n..], tail);
    }
  }

  lemma Regrouped(t: string, tail: string)
    ensures t + (['"'] + tail) == t + ['"'] + tail
  {
  }

  lemma JsonBehindToken(hex: Int16, t: string)
    requires ReadsHex(hex) && t != "" && Token(hex, t) > 0 && Decode(t).Some?
    ensures Decode(t[Token(hex, t)..]).Some?
  {
    TokenStandsAlone(hex, t);
  }

  /** It reaches the closing quote unless a lone high surrogate stands in the string. */
  lemma {:induction false} ScanIsWhole(hex: Int16, t: string)
    requires ReadsHex(hex) && Decode(t).Some?
    ensures Safe(hex, t) == |t| <==> forall c | c in Decode(t).value :: !High(c)
    decreases |t|
  {
    if t != "" {
      var first, rest := One(t).value, Decode(t[One(t).value.length..]).value;
      assert Decode(t).value == [first.code] + rest;
      assert Decode(t).value[0] == first.code;
      if Token(hex, t) == 0 {
        StopIsLoneHigh(hex, t, "");
      } else {
        TokenStandsAlone(hex, t);
        SafeOfToken(hex, t);
        ScanIsWhole(hex, t[first.length..]);
        HeadAndRest(first.code, rest);
      }
    }
  }

  lemma HeadAndRest(head: CodePoint, rest: seq<CodePoint>)
    ensures (forall c | c in [head] + rest :: !High(c)) <==> !High(head) && forall c | c in rest :: !High(c)
  {
    if forall c | c in [head] + rest :: !High(c) { assert forall c | c in rest :: c in [head] + rest; }
  }

  /** The safe part of a JSON string decodes to a beginning of what the string decodes to. */
  lemma SafePartOfJson(hex: Int16, t: string)
    requires ReadsHex(hex) && Decode(t).Some?
    ensures var now := Decode(t[..Safe(hex, t)]); now.Some? && now.value <= Decode(t).value
    ensures Decode(t[..Safe(hex, t)]) == Decode(t) <==> Safe(hex, t) == |t|
  {
    var n := Safe(hex, t);
    SafePrefixIsSafe(hex, t);
    TakeAndDrop(t, n);
    ShownPartGrows(hex, t[..n], t[n..]);
    ScanIsWhole(hex, t);
    NoLoneHighSurrogate(hex, t[..n]);
  }

  lemma TakeAndDrop(t: string, n: nat)
    requires n <= |t|
    ensures t[..n] + t[n..] == t
    ensures n == |t| ==> t[..n] == t
  {
  }

  /** The answer of a JSON document: `t` is the value of its field, between the quotes.
      However the document is cut, the start is announced once and the deltas join to a
      beginning of the decoded answer; to all of it exactly when no lone high surrogate
      stands in it. */
  lemma AnswerIsStreamed(hex: Int16, head: string, t: string, tail: string, chunks: seq<string>)
    requires ReadsHex(hex) && Field(head) == Some(|head|) && Decode(t).Some?
    requires Joined(chunks) == head + (t + ['"'] + tail)
    ensures var shown := FeedAll(hex, INITIAL, chunks);
      && shown.starts == 1 && shown.text <= Decode(t).value
      && (shown.text == Decode(t).value <==> forall c | c in Decode(t).value :: !High(c))
  {
    var s := Joined(chunks);
    var body := t + ['"'] + tail;
    FieldIsStable(head, body);
    DropOfJoined(head, body, |head|);
    assert head[|head|..] + body == body;
    assert Body(s) == body;
    ScanOfJson(hex, t, tail);
    ScanIsWhole(hex, t);
    SafePartOfJson(hex, t);
    assert body[..Safe(hex, t)] == t[..Safe(hex, t)];
    PlainIsVisible(hex, s);
    ChunkInvariance(hex, chunks);
  }

  // ---------------------------------------------------------------- where it fails

  /** The body opens with a token that cannot be decoded. */
  predicate OpensGarbled(hex: Int16, s: string)
  {
    Field(s).Some? && Garbled(hex, Body(s))
  }

  predicate Garbled(hex: Int16, body: string) { body != "" && Token(hex, body) > 0 && One(body).None? }

  /** Before a garbled opening is complete, and after, nothing can be shown. */
  lemma GarbledBodyShowsNothing(hex: Int16, body: string, more: string)
    requires ReadsHex(hex) && Garbled(hex, body + more)
    ensures Decode(body[..Safe(hex, body)]).None? || Decode(body[..Safe(hex, body)]) == Some([])
  {
    if body != "" && Token(hex, body) > 0 {
      TokenIsLocal(hex, body, more);
      TokenStandsAlone(hex, body);
      TokenStandsAlone(hex, body + more);
      DropOfJoined(body, more, Token(hex, body));
      HeadOfSafe(hex, body);
    }
  }

  /** With such an opening nothing is ever shown. */
  lemma GarbledShowsNothing(hex: Int16, s: string, more: string)
    requires ReadsHex(hex) && OpensGarbled(hex, s + more)
    ensures Visible(hex, s).None? || Visible(hex, s) == Some([])
  {
    if Field(s).Some? {
      FieldIsStable(s, more);
      FieldBounds(s);
      DropOfJoined(s, more, Field(s).value);
      GarbledBodyShowsNothing(hex, Body(s), more);
    }
  }

  lemma {:induction false} GarbledEmitsNothing(hex: Int16, p: Parser, chunks: seq<string>)
    requires ReadsHex(hex) && OpensGarbled(hex, p.buffer + Joined(chunks)) && p.emitted == 0
    ensures FeedAll(hex, p, chunks).text == []
    decreases |chunks|
  {
    if chunks != [] {
      JoinedAfter(p, chunks);
      GarbledShowsNothing(hex, p.buffer + chunks[0], Joined(chunks[1..]));
      GarbledEmitsNothing(hex, Taken(hex, p, chunks[0]).state, chunks[1..]);
    }
  }

  lemma OneTokenIsShown(hex: Int16, body: string)
    requires ReadsHex(hex) && body != "" && Token(hex, body) > 0 && One(body).Some?
    ensures var t := body[..Token(hex, body)];
      Decode(t[..Safe(hex, t)]) == Some([One(body).value.code])
  {
    var n := Token(hex, body);
    var t := body[..n];
    TokenStandsAlone(hex, body);
    assert t[n..] == "" && Safe(hex, t) == n && t[..n] == t;
    assert Decode("") == Some([]);
    assert [One(body).value.code] + [] == [One(body).value.code];
  }

  lemma FeedOne(hex: Int16, s: string)
    ensures FeedAll(hex, INITIAL, [s])
      == if Field(s).None? || Visible(hex, s).None? then Shown([], 0) else Shown(Visible(hex, s).value, 1)
  {
    assert "" + s == s && [s][1..] == [];
    var f := Taken(hex, INITIAL, s);
    assert FeedAll(hex, f.state, []).text == [];
  }

  /** What the first chunk shows and announces is not taken back by a second. */
  lemma FirstDeltaIsShown(hex: Int16, first: string, second: string)
    ensures FeedAll(hex, INITIAL, [first]).text <= FeedAll(hex, INITIAL, [first, second]).text
    ensures FeedAll(hex, INITIAL, [first]).starts <= FeedAll(hex, INITIAL, [first, second]).starts
  {
    var f := Taken(hex, INITIAL, first);
    assert [first, second][1..] == [second] && [first][1..] == [];
    assert FeedAll(hex, INITIAL, [first, second]).text == f.delta + FeedAll(hex, f.state, [second]).text;
    assert FeedAll(hex, INITIAL, [first]).text == f.delta + FeedAll(hex, f.state, []).text == f.delta;
  }

  lemma UndecodableHasToken(hex: Int16, body: string)
    requires Decode(body[..Safe(hex, body)]).None?
    ensures body != "" && Token(hex, body) > 0
  {
    assert body[..0] == "";
  }

  lemma JoinedPair(a: string, b: string)
    ensures Joined([a, b]) == a + b
  {
    assert [a, b][1..] == [b] && [b][1..] == [];
    assert Joined([b]) == b + Joined([]) == b;
  }

  /** A decodable opening is shown when it arrives by itself, and lost when it arrives
      together with something undecodable. */
  lemma CutBehindFirstToken(hex: Int16, s: string) returns (cut: seq<string>)
    requires ReadsHex(hex) && Visible(hex, s).None? && !OpensGarbled(hex, s)
    ensures Joined(cut) == s && FeedAll(hex, INITIAL, cut).text != FeedAll(hex, INITIAL, [s]).text
  {
    FieldBounds(s);
    UndecodableHasToken(hex, Body(s));
    var at := Field(s).value + Token(hex, Body(s));
    cut := [s[..at], s[at..]];
    assert s[..at] + s[at..] == s;
    JoinedPair(s[..at], s[at..]);
    FirstTokenIsShown(hex, s, at);
    FeedOne(hex, s);
    FirstDeltaIsShown(hex, s[..at], s[at..]);
  }

  /** Cut right behind the opening quote, the start is announced and no text shown. */
  lemma OpeningIsAnnounced(s: string, hex: Int16)
    requires Field(s).Some? && Field(s).value <= |s|
    ensures FeedAll(hex, INITIAL, [s[..Field(s).value]]) == Shown([], 1)
  {
    var first := s[..Field(s).value];
    assert first + s[Field(s).value..] == s;
    FieldIsFoundEarly(first, s[Field(s).value..]);
    assert Body(first) == "" && ""[..Safe(hex, "")] == "";
    FeedOne(hex, first);
  }

  /** A text with an undecodable part is shown differently under different cuts: either text
      of it is shown or not, or, when it opens with that part, its start is announced or not. */
  lemma CuttingMatters(hex: Int16, s: string) returns (cut: seq<string>)
    requires ReadsHex(hex) && !PlainText(hex, s)
    ensures Joined(cut) == s && FeedAll(hex, INITIAL, cut) != FeedAll(hex, INITIAL, [s])
  {
    PlainIsVisible(hex, s);
    FieldBounds(s);
    if OpensGarbled(hex, s) {
      var at := Field(s).value;
      cut := [s[..at], s[at..]];
      assert s[..at] + s[at..] == s;
      JoinedPair(s[..at], s[at..]);
      OpeningIsAnnounced(s, hex);
      FeedOne(hex, s);
      FirstDeltaIsShown(hex, s[..at], s[at..]);
    } else {
      cut := CutBehindFirstToken(hex, s);
    }
  }

  /** Cut after its first token, a text that opens well shows that token. */
  lemma FirstTokenIsShown(hex: Int16, s: string, at: nat)
    requires ReadsHex(hex) && Field(s).Some? && !OpensGarbled(hex, s)
    requires Body(s) != "" && Token(hex, Body(s)) > 0 && at == Field(s).value + Token(hex, Body(s)) <= |s|
    ensures FeedAll(hex, INITIAL, [s[..at]]).text != []
  {
    var first := s[..at];
    assert first + s[at..] == s;
    FieldIsFoundEarly(first, s[at..]);
    assert Body(first) == Body(s)[..Token(hex, Body(s))];
    OneTokenIsShown(hex, Body(s));
    FeedOne(hex, first);
  }

  /** Exactly when the way a text is cut does not matter for what `feed` returns, deltas and
      starts alike: when the part the scan accepts has no raw control character and only
      true hex digits. */
  lemma ChunkInvarianceExactly(hex: Int16, s: string)
    requires ReadsHex(hex)
    ensures (forall chunks | Joined(chunks) == s :: FeedAll(hex, INITIAL, chunks) == FeedAll(hex, INITIAL, [s]))
      <==> PlainText(hex, s)
  {
    assert Joined([s]) == s + Joined([]) == s;
    if PlainText(hex, s) {
      forall chunks | Joined(chunks) == s
        ensures FeedAll(hex, INITIAL, chunks) == FeedAll(hex, INITIAL, [s])
      {
        ChunkInvariance(hex, chunks);
        ChunkInvariance(hex, [s]);
      }
    } else {
      var cut := CuttingMatters(hex, s);
    }
  }

  /** The deltas alone are independent of the cut in one case more: when the very first
      token cannot be decoded, no cut shows any text. */
  lemma DeltaInvarianceExactly(hex: Int16, s: string)
    requires ReadsHex(hex)
    ensures (forall chunks | Joined(chunks) == s ::
              FeedAll(hex, INITIAL, chunks).text == FeedAll(hex, INITIAL, [s]).text)
      <==> PlainText(hex, s) || OpensGarbled(hex, s)
  {
    assert Joined([s]) == s + Joined([]) == s;
    PlainIsVisible(hex, s);
    if PlainText(hex, s) {
      ChunkInvarianceExactly(hex, s);
    } else if OpensGarbled(hex, s) {
      forall chunks | Joined(chunks) == s
        ensures FeedAll(hex, INITIAL, chunks).text == FeedAll(hex, INITIAL, [s]).text
      {
        assert "" + s == s;
        GarbledEmitsNothing(hex, INITIAL, chunks);
        GarbledEmitsNothing(hex, INITIAL, [s]);
      }
    } else {
      var cut := CutBehindFirstToken(hex, s);
    }
  }

  const OPENING := "\"answer\":\""

  lemma OpeningIsField(body: string)
    ensures Field(OPENING + body) == Some(10) && Body(OPENING + body) == body
  {
    var s := OPENING + body;
    assert s[0..][..8] == MARK;
    assert s[8] == ':' && s[9] == '"';
    assert SkipSpaces(s, 8) == 8 && SkipSpaces(s, 9) == 9;
    assert MatchAt(s, 0) == Some(10);
  }

  lemma FeedTwo(hex: Int16, first: string, second: string)
    requires Field(first).Some? && Visible(hex, first).Some? && Visible(hex, first + second).None?
    ensures FeedAll(hex, INITIAL, [first, second]) == Shown(Visible(hex, first).value, 1)
  {
    assert "" + first == first;
    assert [first, second][1..] == [second] && [second][1..] == [];
    var f := Taken(hex, INITIAL, first);
    var g := Taken(hex, f.state, second);
    assert FeedAll(hex, g.state, []) == Shown([], 0);
    assert FeedAll(hex, f.state, [second]) == Shown([], 0);
  }

  /** U+0001 behind a letter: the letter is shown only when the text is cut between the
      two. Directly behind the quote: the start is announced only when the text is cut there. */
  lemma ControlCharactersMatter(hex: Int16)
    ensures FeedAll(hex, INITIAL, [OPENING + "a", "\U{1}"]) == Shown(['a' as int], 1)
    ensures FeedAll(hex, INITIAL, [OPENING + "a" + "\U{1}"]) == Shown([], 0)
    ensures FeedAll(hex, INITIAL, [OPENING, "\U{1}"]) == Shown([], 1)
    ensures FeedAll(hex, INITIAL, [OPENING + "\U{1}"]) == Shown([], 0)
  {
    BodyIsVisible(hex, "");
    BodyIsVisible(hex, "a");
    BodyIsVisible(hex, "\U{1}");
    BodyIsVisible(hex, "a\U{1}");
    assert OPENING + "" == OPENING && OPENING + "a" + "\U{1}" == OPENING + "a\U{1}";
    ControlIsNotDecoded(hex);
    FeedTwo(hex, OPENING + "a", "\U{1}");
    FeedOne(hex, OPENING + "a\U{1}");
    FeedTwo(hex, OPENING, "\U{1}");
    FeedOne(hex, OPENING + "\U{1}");
  }

  lemma BodyIsVisible(hex: Int16, body: string)
    ensures Field(OPENING + body) == Some(10)
    ensures Visible(hex, OPENING + body) == Decode(body[..Safe(hex, body)])
  {
    OpeningIsField(body);
  }

  lemma ControlIsNotDecoded(hex: Int16)
    ensures var c := "\U{1}"; Decode(c[..Safe(hex, c)]).None?
    ensures var c := "a\U{1}"; Decode(c[..Safe(hex, c)]).None?
    ensures Decode("a"[..Safe(hex, "a")]) == Some(['a' as int])
    ensures Decode(""[..Safe(hex, "")]) == Some([])
  {
    var c, a := "\U{1}", "a\U{1}";
    assert c[1..] == "" && a[1..] == c && "a"[1..] == "";
    assert Safe(hex, "") == 0 && Safe(hex, c) == 1 && Safe(hex, a) == 2 && Safe(hex, "a") == 1;
    assert c[..1] == c && a[..2] == a && "a"[..1] == "a";
    assert Decode(c).None?;
    assert Decode("") == Some([]) && One("a") == Some(Piece('a' as int, 1));
    assert ['a' as int] + [] == ['a' as int];
  }

  // ---------------------------------------------------------------- the class

  class AnswerStreamParser {
    const hex: Int16
    var buffer: string
    var started: bool
    var emitted: nat

    constructor (hex: Int16)
      ensures this.hex == hex && State() == INITIAL
    {
      this.hex, buffer, started, emitted := hex, "", false, 0;
    }

    function State(): Parser
      reads this
    {
      Parser(buffer, started, emitted)
    }

    method Feed(text: string) returns (startedNow: bool, delta: seq<CodePoint>)
      modifies this
      ensures Fed(State(), startedNow, delta) == Taken(hex, old(State()), text)
    {
      buffer := buffer + text;
      var end := Field(buffer);
      if end.None? { return false, []; }
      FieldBounds(buffer);
      var raw := buffer[end.value..];
      var safeEnd := SafePrefix(raw);
      var decoded := Decode(raw[..safeEnd]);
      if decoded.None? { return false, []; }
      startedNow := !started;
      started := true;
      delta := Dropped(decoded.value, emitted);
      emitted := |decoded.value|;
    }

    /** The body of the loop below: the length of the token at `index`, or 0 to stop there. */
    method ScanToken(raw: string, index: nat) returns (length: nat)
      requires index < |raw|
      ensures length == Token(hex, raw[index..])
    {
      assert raw[index..][0] == raw[index];
      if raw[index] == '"' { return 0; }
      if raw[index] != '\\' { return 1; }
      if index + 1 >= |raw| { return 0; }
      var escape := raw[index + 1];
      assert raw[index..][1] == escape;
      if escape in SIMPLE { return 2; }
      if escape != 'u' || index + 6 > |raw| { return 0; }
      Slices(raw, index);
      var codepoint := hex(raw[index + 2..index + 6]);
      if codepoint.None? { return 0; }
      if !High(codepoint.value) { return 6; }
      if index + 12 > |raw| || raw[index + 6..index + 8] != "\\u" { return 0; }
      var low := hex(raw[index + 8..index + 12]);
      if low.None? || !Low(low.value) { return 0; }
      return 12;
    }

    /** `_safe_prefix`. */
    method SafePrefix(raw: string) returns (safeEnd: nat)
      ensures safeEnd == Safe(hex, raw)
    {
      var index := 0;
      safeEnd := 0;
      while index < |raw|
        invariant index == safeEnd <= |raw|
        invariant ScannedTo(hex, raw, index)
      {
        var length := ScanToken(raw, index);
        ScanGoesOn(hex, raw, index);
        if length == 0 { return; }
        index := index + length;
        safeEnd := index;
      }
      ScanIsDone(hex, raw);
    }
  }

  /** Everything before `i` is made of complete tokens. */
  predicate ScannedTo(hex: Int16, raw: string, i: nat)
    requires i <= |raw|
  {
    Safe(hex, raw) == i + Safe(hex, raw[i..])
  }

  lemma ScanGoesOn(hex: Int16, raw: string, i: nat)
    requires i < |raw| && ScannedTo(hex, raw, i)
    ensures var n := Token(hex, raw[i..]);
      i + n <= |raw| && if n == 0 then Safe(hex, raw) == i else ScannedTo(hex, raw, i + n)
  {
    if Token(hex, raw[i..]) == 0 {
      SafeOfStop(hex, raw[i..]);
    } else {
      SafeOfToken(hex, raw[i..]);
      DropTwice(raw, i, Token(hex, raw[i..]));
    }
  }

  lemma ScanIsDone(hex: Int16, raw: string)
    requires ScannedTo(hex, raw, |raw|)
    ensures Safe(hex, raw) == |raw|
  {
    SafeOfStop(hex, raw[|raw|..]);
  }

  lemma Slices(raw: string, i: nat)
    requires i + 6 <= |raw|
    ensures raw[i..][2..6] == raw[i + 2..i + 6]
    ensures i + 12 <= |raw| ==> raw[i..][6..8] == raw[i + 6..i + 8] && raw[i..][8..12] == raw[i + 8..i + 12]
  {
  }
}
