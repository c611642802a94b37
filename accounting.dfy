/** The scanner accounts for every character of the source. Each entry
    stands for a span of the text; a successful run's spans, in order and
    without overlap, tile the source together with gaps that hold only
    blanks, newlines and "//" comments. Conversely, a tiling of the whole
    source by entries that agree with it is exactly what a run pushes, so
    the token stream is the only one the source admits. A failed run stops
    at the first character such a tiling cannot get past. */
module Accounting {
  import opened Tokens
  import opened Scanning
  import opened ScanProperties

  /** Where the text an entry stands for starts: its lexeme, and for a
      string literal the opening quote before it. */
  function SpanStart(e: Entry): int
  {
    var k := e.token.kind;
    var n := LexemeLength(e.token.lexeme);
    var off := e.loc.offset;
    if k == StringLiteral then off - n - 1
    else if k == NumberLiteral || k == Identifier || IsKeyword(k) then off - n
    else off + 1 - n
  }

  /** Where the text an entry stands for ends (exclusive): past the closing
      quote of a string literal, at the offset of a number or word, past the
      last character of a punctuation mark. */
  function SpanEnd(e: Entry): int
  {
    var k := e.token.kind;
    var off := e.loc.offset;
    if k == NumberLiteral || k == Identifier || IsKeyword(k) then off else off + 1
  }

  /** s[a..b] holds nothing that makes a token: blanks, newlines and "//"
      comments, each comment running up to the next newline (not past it)
      or to the end of the source. */
  predicate Skippable(s: string, a: nat, b: nat)
    requires b <= |s|
    decreases b - a
  {
    if a >= b then a == b
    else if IsBlank(s[a]) || s[a] == '\n' then Skippable(s, a + 1, b)
    else
      a + 1 < |s| && s[a] == '/' && s[a + 1] == '/' &&
      RunEnd(s, a + 2, NotNewlines) <= b && Skippable(s, RunEnd(s, a + 2, NotNewlines), b)
  }

  /** The entries es, in order, account for s[a..b]: their spans follow
      one another inside [a, b) without overlap, and everything before,
      between and after them is skippable. */
  predicate Accounts(s: string, es: seq<Entry>, a: nat, b: nat)
    requires b <= |s|
    decreases |es|
  {
    if es == [] then Skippable(s, a, b)
    else
      var st := SpanStart(es[0]);
      var en := SpanEnd(es[0]);
      a <= st < en <= b && Skippable(s, a, st) && Accounts(s, es[1..], en, b)
  }

  /** An entry that stands for a token of the source (not the end marker). */
  ghost predicate TokenEntry(s: string, e: Entry)
  {
    e.token.kind != Eof && EntryMatchesSource(s, e)
  }

  /** es accounts for the whole of s with tokens that agree with it. */
  ghost predicate AccountsForAll(s: string, es: seq<Entry>)
  {
    Accounts(s, es, 0, |s|) && forall e :: e in es ==> TokenEntry(s, e)
  }

  // ----- Tiling -----

  lemma {:induction false} SkippableConcat(s: string, a: nat, b: nat, c: nat)
    requires b <= c <= |s|
    requires Skippable(s, a, b) && Skippable(s, b, c)
    ensures Skippable(s, a, c)
    decreases b - a
  {
    if a < b {
      if IsBlank(s[a]) || s[a] == '\n' {
        SkippableConcat(s, a + 1, b, c);
      } else {
        SkippableConcat(s, RunEnd(s, a + 2, NotNewlines), b, c);
      }
    }
  }

  /** Skippable text after an account extends it. */
  lemma {:induction false} AccountsExtend(s: string, es: seq<Entry>, a: nat, b: nat, c: nat)
    requires b <= c <= |s|
    requires Accounts(s, es, a, b) && Skippable(s, b, c)
    ensures Accounts(s, es, a, c)
    decreases |es|
  {
    if es == [] {
      SkippableConcat(s, a, b, c);
    } else {
      AccountsExtend(s, es[1..], SpanEnd(es[0]), b, c);
    }
  }

  /** An entry whose span starts where an account ends extends it. */
  lemma {:induction false} AccountsAppend(s: string, es: seq<Entry>, e: Entry, a: nat, b: nat)
    requires b < SpanEnd(e) <= |s| && SpanStart(e) == b
    requires Accounts(s, es, a, b)
    ensures Accounts(s, es + [e], a, SpanEnd(e))
    decreases |es|
  {
    if es == [] {
      assert [e][1..] == [];
    } else {
      AccountsAppend(s, es[1..], e, SpanEnd(es[0]), b);
      assert (es + [e])[1..] == es[1..] + [e];
    }
  }

  // ----- One iteration, forwards -----

  /** Whatever an iteration skips is skippable. */
  lemma DispatchSkips(s: string, pos: nat)
    requires pos < |s| && Dispatch(s, pos).Skip?
    ensures Skippable(s, pos, Dispatch(s, pos).next)
  {
  }

  /** The entry an iteration pushes stands for exactly the text the
      iteration moves the cursor over. */
  lemma DispatchSpan(s: string, pos: nat)
    requires pos < |s| && Dispatch(s, pos).Emit?
    ensures SpanStart(EmittedEntry(s, Dispatch(s, pos))) == pos
    ensures SpanEnd(EmittedEntry(s, Dispatch(s, pos))) == Dispatch(s, pos).next
  {
    var c := s[pos];
    if c == ':' {
      DispatchOnColon(s, pos);
    } else if c == '/' {
      DispatchOnSlash(s, pos);
    } else if SingleCharKind(c).Some? {
      DispatchOnMark(s, pos);
      var k := SingleCharKind(c).value;
      assert k !in {StringLiteral, NumberLiteral, Identifier} && !IsKeyword(k);
    } else if c == '"' {
      DispatchOnQuote(s, pos);
    } else if IsDigit(c) {
      DispatchOnDigit(s, pos);
    } else if IsAlpha(c) {
      DispatchOnLetter(s, pos);
    } else {
      assert false;
    }
  }

  // ----- One iteration, backwards -----

  /** A cursor advancing over a class stops at the first character outside it. */
  lemma RunEndAt(s: string, i: nat, cls: CharClass, e: nat)
    requires i <= e <= |s|
    requires forall k :: i <= k < e ==> InClass(s[k], cls)
    requires e == |s| || !InClass(s[e], cls)
    ensures RunEnd(s, i, cls) == e
  {
  }

  /** At the start of skippable text, an iteration skips and stays inside it. */
  lemma SkipStep(s: string, pos: nat, g: nat)
    requires pos < g <= |s| && Skippable(s, pos, g)
    ensures Dispatch(s, pos).Skip? && Dispatch(s, pos).next <= g
    ensures Skippable(s, Dispatch(s, pos).next, g)
  {
  }

  lemma ColonAt(s: string, x: string, off: nat)
    requires MarkMatches(s, Colon, x, off)
    ensures Dispatch(s, off) == Emit(Colon, x, off, off + 1)
  {
    assert x == ":";
    assert s[off..off + 1] == ":";
    DispatchOnColon(s, off);
  }

  lemma DoubleColonAt(s: string, x: string, off: nat)
    requires MarkMatches(s, DoubleColon, x, off)
    ensures 0 < off && Dispatch(s, off - 1) == Emit(DoubleColon, x, off, off + 1)
  {
    assert x == "::" && |x| == 2;
    assert s[off - 1..off + 1] == "::";
    assert s[off - 1] == ':' && s[off] == ':';
    DispatchOnColon(s, off - 1);
  }

  lemma SlashAt(s: string, x: string, off: nat)
    requires MarkMatches(s, Slash, x, off)
    ensures Dispatch(s, off) == Emit(Slash, x, off, off + 1)
  {
    assert s[off..off + 1] == "/";
    DispatchOnSlash(s, off);
  }

  lemma SingleCharAt(s: string, k: TokenKind, x: string, off: nat)
    requires k != Colon && k != Slash && MarkMatches(s, k, x, off) && |x| == 1
    ensures Dispatch(s, off) == Emit(k, x, off, off + 1)
  {
    SingleCharSpelling(s[off], k);
    assert x == s[off..off + 1] == [s[off]];
  }

  /** Where a punctuation mark that agrees with the source starts, one
      iteration pushes exactly that mark. */
  lemma MarkAt(s: string, k: TokenKind, x: string, off: nat)
    requires MarkMatches(s, k, x, off) && !IsKeyword(k)
    requires k != DoubleColon ==> |x| == 1
    ensures 0 <= off + 1 - |x| && Dispatch(s, off + 1 - |x|) == Emit(k, x, off, off + 1)
  {
    if k == Colon {
      ColonAt(s, x, off);
    } else if k == DoubleColon {
      DoubleColonAt(s, x, off);
    } else if k == Slash {
      SlashAt(s, x, off);
    } else {
      SingleCharAt(s, k, x, off);
    }
  }

  /** The same, for an entry: the iteration at its span's start pushes it. */
  lemma MarkDispatch(s: string, e: Entry)
    requires TokenEntry(s, e)
    requires e.token.kind !in {StringLiteral, NumberLiteral, Identifier} && !IsKeyword(e.token.kind)
    ensures 0 <= SpanStart(e) < |s|
    ensures Dispatch(s, SpanStart(e)) == Emit(e.token.kind, e.token.lexeme.value, e.loc.offset, SpanEnd(e))
  {
    var k := e.token.kind;
    var x := e.token.lexeme.value;
    assert MarkMatches(s, k, x, e.loc.offset);
    if k != DoubleColon {
      MarkSpellingLength(k);
    }
    MarkAt(s, k, x, e.loc.offset);
    assert SpanStart(e) == e.loc.offset + 1 - |x| && SpanEnd(e) == e.loc.offset + 1;
  }

  lemma StringAt(s: string, x: string, off: nat)
    requires StringMatches(s, x, off)
    ensures Dispatch(s, off - |x| - 1) == Emit(StringLiteral, x, off, off + 1)
  {
    var pos := off - |x| - 1;
    assert forall k :: pos < k < off ==> s[k] == x[k - pos - 1];
    RunEndAt(s, pos + 1, NotQuotes, off);
    DispatchOnQuote(s, pos);
  }

  /** Where a string literal that agrees with the source starts, one
      iteration pushes exactly it and steps past its closing quote. */
  lemma StringDispatch(s: string, e: Entry)
    requires TokenEntry(s, e) && e.token.kind == StringLiteral
    ensures 0 <= SpanStart(e) < |s|
    ensures Dispatch(s, SpanStart(e)) == Emit(StringLiteral, e.token.lexeme.value, e.loc.offset, SpanEnd(e))
  {
    StringAt(s, e.token.lexeme.value, e.loc.offset);
  }

  /** A numeric literal that agrees with the source ends where NumberEnd,
      started at its first digit, says it does. */
  lemma NumberEndAt(s: string, x: string, off: nat)
    requires NumberMatches(s, x, off)
    ensures NumberEnd(s, off - |x|) == off
  {
    var pos := off - |x|;
    assert forall k :: pos <= k < off ==> s[k] == x[k - pos];
    if '.' in x {
      var j :| 0 <= j < |x| && x[j] == '.';
      assert forall k :: 0 <= k < |x| && k != j ==> IsDigit(x[k]);
      RunEndAt(s, pos, Digits, pos + j);
      RunEndAt(s, pos + j + 1, Digits, off);
    } else {
      RunEndAt(s, pos, Digits, off);
    }
  }

  lemma NumberAt(s: string, x: string, off: nat)
    requires NumberMatches(s, x, off)
    ensures Dispatch(s, off - |x|) == Emit(NumberLiteral, x, off, off)
  {
    NumberEndAt(s, x, off);
    assert s[off - |x|] == x[0];
    DispatchOnDigit(s, off - |x|);
  }

  /** Where a numeric literal that agrees with the source starts, one
      iteration pushes exactly it. */
  lemma NumberDispatch(s: string, e: Entry)
    requires TokenEntry(s, e) && e.token.kind == NumberLiteral
    ensures 0 <= SpanStart(e) < |s|
    ensures Dispatch(s, SpanStart(e)) == Emit(NumberLiteral, e.token.lexeme.value, e.loc.offset, SpanEnd(e))
  {
    NumberAt(s, e.token.lexeme.value, e.loc.offset);
  }

  lemma WordAt(s: string, k: TokenKind, x: string, off: nat)
    requires WordMatches(s, k, x, off)
    ensures Dispatch(s, off - |x|) == Emit(k, x, off, off)
  {
    var pos := off - |x|;
    assert forall i :: pos <= i < off ==> s[i] == x[i - pos];
    RunEndAt(s, pos, IdentChars, off);
    assert s[pos..off] == x;
    DispatchOnLetter(s, pos);
  }

  /** Where an identifier or keyword that agrees with the source starts, one
      iteration pushes exactly it. */
  lemma WordDispatch(s: string, e: Entry)
    requires TokenEntry(s, e) && (e.token.kind == Identifier || IsKeyword(e.token.kind))
    ensures 0 <= SpanStart(e) < |s|
    ensures Dispatch(s, SpanStart(e)) == Emit(e.token.kind, e.token.lexeme.value, e.loc.offset, SpanEnd(e))
  {
    WordAt(s, e.token.kind, e.token.lexeme.value, e.loc.offset);
  }

  /** Where an entry that agrees with the source starts, an iteration pushes
      exactly that entry and moves the cursor to the end of its span. */
  lemma EntryDispatch(s: string, e: Entry)
    requires TokenEntry(s, e)
    ensures 0 <= SpanStart(e) < |s|
    ensures Dispatch(s, SpanStart(e)).Emit? && Dispatch(s, SpanStart(e)).next == SpanEnd(e)
    ensures EmittedEntry(s, Dispatch(s, SpanStart(e))) == e
  {
    var k := e.token.kind;
    if k == StringLiteral {
      StringDispatch(s, e);
    } else if k == NumberLiteral {
      NumberDispatch(s, e);
    } else if k == Identifier || IsKeyword(k) {
      WordDispatch(s, e);
    } else {
      MarkDispatch(s, e);
    }
  }

  // ----- Whole runs -----

  /** What a run's outcome says in terms of accounts: a success accounts
      for the whole source with the entries before the end marker; a
      failure happens at a position p up to which the entries pushed so far
      account for the source, at an invalid character or at a quote with no
      quote after it. */
  ghost predicate OutcomeAccounted(s: string, o: Outcome)
  {
    (o.status == Success ==> |o.entries| > 0 && Accounts(s, o.entries[..|o.entries| - 1], 0, |s|)) &&
    (o.status.InvalidCharacter? ==>
      exists p :: 0 <= p < |s| && Accounts(s, o.entries, 0, p) &&
        s[p] == o.status.ch && !StartsSomething(s[p]) && o.status.line == LineOf(s, p)) &&
    (o.status.UnterminatedString? ==>
      o.status.line == LineOf(s, |s|) &&
      exists p :: 0 <= p < |s| && Accounts(s, o.entries, 0, p) &&
        s[p] == '"' && forall k :: p < k < |s| ==> s[k] != '"')
  }

  lemma FailAccounted(s: string, pos: nat, acc: seq<Entry>)
    requires pos < |s| && Dispatch(s, pos).Fail? && Accounts(s, acc, 0, pos)
    ensures OutcomeAccounted(s, Outcome(acc, Dispatch(s, pos).status))
  {
    if s[pos] == '"' {
      assert forall k :: pos < k < |s| ==> s[k] != '"';
    }
  }

  lemma {:induction false} ScanFromAccounts(s: string, pos: nat, acc: seq<Entry>)
    requires pos <= |s| && Accounts(s, acc, 0, pos)
    ensures OutcomeAccounted(s, ScanFrom(s, pos, acc))
    decreases |s| - pos
  {
    if pos == |s| {
      var o := ScanFrom(s, pos, acc);
      assert o.entries[..|o.entries| - 1] == acc;
    } else {
      var a := Dispatch(s, pos);
      if a.Fail? {
        FailAccounted(s, pos, acc);
      } else if a.Skip? {
        DispatchSkips(s, pos);
        AccountsExtend(s, acc, 0, pos, a.next);
        assert acc + Pushed(s, a) == acc;
        ScanFromAccounts(s, a.next, acc);
      } else {
        DispatchSpan(s, pos);
        AccountsAppend(s, acc, EmittedEntry(s, a), 0, pos);
        assert acc + Pushed(s, a) == acc + [EmittedEntry(s, a)];
        ScanFromAccounts(s, a.next, acc + Pushed(s, a));
      }
    }
  }

  /** The main loop, at the start of an entry that agrees with the source,
      pushes that entry and continues at the end of its span. */
  lemma EmitAt(s: string, acc: seq<Entry>, e: Entry)
    requires TokenEntry(s, e)
    ensures 0 <= SpanStart(e) < SpanEnd(e) <= |s|
    ensures ScanFrom(s, SpanStart(e), acc) == ScanFrom(s, SpanEnd(e), acc + [e])
  {
    EntryDispatch(s, e);
    assert Pushed(s, Dispatch(s, SpanStart(e))) == [e];
  }

  /** The main loop, at the start of skippable text, skips and stays inside it. */
  lemma SkipAt(s: string, pos: nat, acc: seq<Entry>, g: nat)
    requires pos < g <= |s| && Skippable(s, pos, g)
    ensures Dispatch(s, pos).Skip? && Dispatch(s, pos).next <= g
    ensures Skippable(s, Dispatch(s, pos).next, g)
    ensures ScanFrom(s, pos, acc) == ScanFrom(s, Dispatch(s, pos).next, acc)
  {
    SkipStep(s, pos, g);
    assert acc + Pushed(s, Dispatch(s, pos)) == acc;
  }

  lemma SplitFirst(acc: seq<Entry>, es: seq<Entry>)
    requires es != []
    ensures acc + [es[0]] + es[1..] == acc + es
  {
    assert es == [es[0]] + es[1..];
  }

  lemma {:induction false} ScanFromFollowsAccount(s: string, pos: nat, acc: seq<Entry>, es: seq<Entry>)
    requires pos <= |s| && Accounts(s, es, pos, |s|)
    requires forall e :: e in es ==> TokenEntry(s, e)
    ensures ScanFrom(s, pos, acc) == Outcome(acc + es + [Entry(EofToken(), LocAt(s, |s|))], Success)
    decreases |s| - pos
  {
    if pos == |s| {
      assert es == [];
    } else if es != [] && SpanStart(es[0]) == pos {
      assert es[0] in es;
      EmitAt(s, acc, es[0]);
      assert forall e :: e in es[1..] ==> e in es;
      ScanFromFollowsAccount(s, SpanEnd(es[0]), acc + [es[0]], es[1..]);
      SplitFirst(acc, es);
    } else {
      var g := if es == [] then |s| else SpanStart(es[0]);
      SkipAt(s, pos, acc, g);
      ScanFromFollowsAccount(s, Dispatch(s, pos).next, acc, es);
    }
  }

  // ----- The properties of a whole run from a fresh scanner -----

  /** A successful run accounts for the whole source: the entries before the
      end marker are tokens that agree with the source, and their spans tile
      it, in order and without overlap, with only blanks, newlines and
      comments left over. */
  lemma ScanAccountsForSource(s: string)
    ensures var o := Scan(s);
      o.status == Success ==>
        var es := o.entries[..|o.entries| - 1];
        Accounts(s, es, 0, |s|) && forall e :: e in es ==> TokenEntry(s, e)
  {
    var o := Scan(s);
    ScanFromAccounts(s, 0, []);
    ScanMatchesSource(s);
    ScanEndMarker(s);
    if o.status == Success {
      var es := o.entries[..|o.entries| - 1];
      forall e | e in es
        ensures TokenEntry(s, e)
      {
        var i :| 0 <= i < |es| && es[i] == e;
        assert o.entries[i] == e;
      }
    }
  }

  /** Any account of the whole source by token entries that agree with it
      is the run's own: the run succeeds and pushes exactly those entries,
      then the end marker. */
  lemma ScanIsTheOnlyAccount(s: string, es: seq<Entry>)
    requires Accounts(s, es, 0, |s|) && forall e :: e in es ==> TokenEntry(s, e)
    ensures Scan(s) == Outcome(es + [Entry(EofToken(), LocAt(s, |s|))], Success)
  {
    ScanFromFollowsAccount(s, 0, [], es);
    assert [] + es == es;
  }

  /** A run succeeds exactly when the source can be accounted for by tokens. */
  lemma ScanSucceeds(s: string)
    ensures Scan(s).status == Success <==> exists es :: AccountsForAll(s, es)
  {
    if Scan(s).status == Success {
      ScanAccountsForSource(s);
      var o := Scan(s);
      assert AccountsForAll(s, o.entries[..|o.entries| - 1]);
    }
    if exists es :: AccountsForAll(s, es) {
      var es :| AccountsForAll(s, es);
      ScanIsTheOnlyAccount(s, es);
    }
  }

  /** The two ways a run fails, each at a cursor position p up to which the
      entries pushed so far account for the source. An invalid character is
      one the main loop cannot start anything with, reported with its line.
      An unterminated string starts at a quote with no quote after it, and
      is reported with the line at the end of the source. */
  lemma ScanFailure(s: string)
    ensures var o := Scan(s);
      (o.status.InvalidCharacter? ==>
        exists p :: 0 <= p < |s| && Accounts(s, o.entries, 0, p) &&
          s[p] == o.status.ch && !StartsSomething(s[p]) && o.status.line == LineOf(s, p)) &&
      (o.status.UnterminatedString? ==>
        o.status.line == LineOf(s, |s|) &&
        exists p :: 0 <= p < |s| && Accounts(s, o.entries, 0, p) &&
          s[p] == '"' && forall k :: p < k < |s| ==> s[k] != '"')
  {
    ScanFromAccounts(s, 0, []);
  }
}
