/** What the scanner promises about every run, proved of the pure scanner
    (and so, through Scanner.Tokenize, of the arrays the Lexer fills):
    where each token is located, what text it stands for, the order of the
    stream and the single end marker. Module Accounting builds on these to
    show that the entries account for the whole source, and where a run
    fails. */
module ScanProperties {
  import opened Tokens
  import opened Scanning

  /** Characters the main loop knows what to do with. Any other character
      under the cursor ends the run with InvalidCharacter. */
  predicate StartsSomething(c: char)
  {
    IsBlank(c) || c == '\n' || c == ':' || c == '/' || SingleCharKind(c).Some? ||
    c == '"' || IsDigit(c) || IsAlpha(c)
  }

  /** A numeric literal's text: a leading digit, then digits and at most one '.'. */
  predicate IsNumberText(x: string)
  {
    |x| > 0 && IsDigit(x[0]) &&
    (forall k :: 0 <= k < |x| ==> IsDigit(x[k]) || x[k] == '.') &&
    (forall i, j :: 0 <= i < j < |x| && x[i] == '.' ==> x[j] != '.')
  }

  /** An identifier's (or keyword's) text: a letter, then letters, digits and underscores. */
  predicate IsIdentifierText(x: string)
  {
    |x| > 0 && IsAlpha(x[0]) && forall k :: 0 <= k < |x| ==> IsIdentChar(x[k])
  }

  /** x is the source text that ends just before position end. */
  predicate EndsAt(s: string, x: string, end: nat)
  {
    |x| <= end <= |s| && s[end - |x|..end] == x
  }

  /** A string literal's entry: located at the closing quote, with the
      text strictly between that quote and the opening one, which holds no
      quote. */
  predicate StringMatches(s: string, x: string, off: nat)
  {
    off < |s| && s[off] == '"' && |x| < off && s[off - |x| - 1] == '"' &&
    EndsAt(s, x, off) && '"' !in x
  }

  /** A numeric literal's entry: located just past its text, which is maximal. */
  predicate NumberMatches(s: string, x: string, off: nat)
  {
    EndsAt(s, x, off) && IsNumberText(x) &&
    (off == |s| || (!IsDigit(s[off]) && ('.' !in x ==> s[off] != '.')))
  }

  /** An identifier's or keyword's entry: located just past its text, which
      is maximal and decides the kind. */
  predicate WordMatches(s: string, k: TokenKind, x: string, off: nat)
  {
    EndsAt(s, x, off) && IsIdentifierText(x) && k == KeywordKind(x) &&
    (off == |s| || !IsIdentChar(s[off]))
  }

  /** A punctuation entry: its fixed spelling, ending at the cursor's
      character. A single ':' is not followed by another ':' (that would be
      "::"), and a '/' is not followed by another '/' (that would start a
      comment). */
  predicate MarkMatches(s: string, k: TokenKind, x: string, off: nat)
  {
    FixedSpelling(k) == Some(x) && EndsAt(s, x, off + 1) &&
    (k == Colon ==> off + 1 == |s| || s[off + 1] != ':') &&
    (k == Slash ==> off + 1 == |s| || s[off + 1] != '/')
  }

  /** An entry agrees with the source it was scanned from: it is located at
      its offset by LocAt and carries a lexeme copy with its length, and that
      lexeme is the source text the token stands for, placed as the scanner
      places it. The end marker sits at the end of the source with no lexeme. */
  ghost predicate EntryMatchesSource(s: string, e: Entry)
  {
    var off := e.loc.offset;
    var k := e.token.kind;
    var lx := e.token.lexeme;
    off <= |s| && e.loc == LocAt(s, off) &&
    if k == Eof then
      e.token == EofToken() && off == |s|
    else
      lx.Some? && e.token.length == |lx.value| &&
      if k == StringLiteral then StringMatches(s, lx.value, off)
      else if k == NumberLiteral then NumberMatches(s, lx.value, off)
      else if k == Identifier || IsKeyword(k) then WordMatches(s, k, lx.value, off)
      else MarkMatches(s, k, lx.value, off)
  }

  predicate OffsetsOrdered(es: seq<Entry>)
  {
    forall i, j :: 0 <= i < j < |es| ==> es[i].loc.offset <= es[j].loc.offset
  }

  // ----- Lines -----

  /** The line of position i is 1 plus the number of newlines before i. */
  lemma {:induction false} LineOfCountsNewlines(s: string, i: nat)
    requires i <= |s|
    ensures LineOf(s, i) == 1 + multiset(s[..i])['\n']
  {
    if i > 0 {
      LineOfCountsNewlines(s, i - 1);
      assert s[..i] == s[..i - 1] + [s[i - 1]];
    }
  }

  /** Lines never decrease as the cursor moves forward. */
  lemma {:induction false} LineOfMonotone(s: string, i: nat, j: nat)
    requires i <= j <= |s|
    ensures LineOf(s, i) <= LineOf(s, j)
    decreases j - i
  {
    if i < j {
      LineOfMonotone(s, i, j - 1);
    }
  }

  // ----- One iteration -----

  /** A numeric literal starting at a digit has number shape and is maximal. */
  lemma NumberEndShape(s: string, pos: nat)
    requires pos < |s| && IsDigit(s[pos])
    ensures var e := NumberEnd(s, pos); var x := s[pos..e];
      pos < e && IsNumberText(x) &&
      (e == |s| || (!IsDigit(s[e]) && ('.' !in x ==> s[e] != '.')))
  {
    var d := RunEnd(s, pos, Digits);
    var e := NumberEnd(s, pos);
    var x := s[pos..e];
    assert forall k :: 0 <= k < d - pos ==> IsDigit(x[k]);
    if d < |s| && s[d] == '.' {
      assert x[d - pos] == '.';
      assert forall k :: d - pos < k < |x| ==> IsDigit(x[k]);
    } else {
      assert e == d;
      assert forall k :: 0 <= k < |x| ==> x[k] != '.';
    }
  }

  /** The entry an Emit action pushes. */
  function EmittedEntry(s: string, a: Action): Entry
    requires a.Emit? && a.at <= |s|
  {
    Entry(TokenData(a.kind, Some(a.lexeme), |a.lexeme|), LocAt(s, a.at))
  }

  lemma ColonMatchesSource(s: string, pos: nat)
    requires pos < |s| && s[pos] == ':'
    ensures EntryMatchesSource(s, EmittedEntry(s, ColonAction(s, pos)))
  {
    if pos + 1 < |s| && s[pos + 1] == ':' {
      assert s[pos..pos + 2] == "::";
      assert MarkMatches(s, DoubleColon, "::", pos + 1);
    } else {
      assert s[pos..pos + 1] == ":";
      assert MarkMatches(s, Colon, ":", pos);
    }
  }

  lemma SingleCharMatchesSource(s: string, pos: nat)
    requires pos < |s| && SingleCharKind(s[pos]).Some?
    ensures EntryMatchesSource(s, EmittedEntry(s, Emit(SingleCharKind(s[pos]).value, [s[pos]], pos, pos + 1)))
  {
    var k := SingleCharKind(s[pos]).value;
    assert FixedSpelling(k) == Some([s[pos]]);
    assert s[pos..pos + 1] == [s[pos]];
    assert EndsAt(s, [s[pos]], pos + 1);
  }

  lemma StringMatchesSource(s: string, pos: nat)
    requires pos < |s| && s[pos] == '"' && StringAction(s, pos).Emit?
    ensures EntryMatchesSource(s, EmittedEntry(s, StringAction(s, pos)))
  {
    var a := StringAction(s, pos);
    assert forall k :: 0 <= k < |a.lexeme| ==> a.lexeme[k] == s[pos + 1 + k];
    assert StringMatches(s, a.lexeme, a.at);
  }

  lemma NumberMatchesSource(s: string, pos: nat)
    requires pos < |s| && IsDigit(s[pos])
    ensures EntryMatchesSource(s, EmittedEntry(s, NumberAction(s, pos)))
  {
    NumberEndShape(s, pos);
    var a := NumberAction(s, pos);
    assert NumberMatches(s, a.lexeme, a.at);
  }

  lemma IdentifierMatchesSource(s: string, pos: nat)
    requires pos < |s| && IsAlpha(s[pos])
    ensures EntryMatchesSource(s, EmittedEntry(s, IdentifierAction(s, pos)))
  {
    var a := IdentifierAction(s, pos);
    assert WordMatches(s, a.kind, a.lexeme, a.at);
  }

  /** Whatever one iteration pushes agrees with the source. */
  lemma DispatchMatchesSource(s: string, pos: nat)
    requires pos < |s|
    ensures forall e :: e in Pushed(s, Dispatch(s, pos)) ==> EntryMatchesSource(s, e)
  {
    var c := s[pos];
    var a := Dispatch(s, pos);
    if a.Emit? {
      assert Pushed(s, a) == [EmittedEntry(s, a)];
      if c == ':' {
        ColonMatchesSource(s, pos);
      } else if c == '/' {
        assert s[pos..pos + 1] == "/";
        assert MarkMatches(s, Slash, "/", pos);
      } else if SingleCharKind(c).Some? {
        SingleCharMatchesSource(s, pos);
      } else if c == '"' {
        StringMatchesSource(s, pos);
      } else if IsDigit(c) {
        NumberMatchesSource(s, pos);
      } else {
        IdentifierMatchesSource(s, pos);
      }
    }
  }

  /** No iteration pushes an end marker. */
  lemma DispatchNeverEmitsEof(s: string, pos: nat)
    requires pos < |s|
    ensures Dispatch(s, pos).Emit? ==> Dispatch(s, pos).kind != Eof
  {
  }

  // ----- Whole runs, by induction over the main loop -----

  lemma {:induction false} ScanFromMatchesSource(s: string, pos: nat, acc: seq<Entry>)
    requires pos <= |s|
    requires forall e :: e in acc ==> EntryMatchesSource(s, e)
    ensures forall e :: e in ScanFrom(s, pos, acc).entries ==> EntryMatchesSource(s, e)
    decreases |s| - pos
  {
    if pos == |s| {
      assert EntryMatchesSource(s, Entry(EofToken(), LocAt(s, pos)));
    } else {
      var a := Dispatch(s, pos);
      if !a.Fail? {
        DispatchMatchesSource(s, pos);
        ScanFromMatchesSource(s, a.next, acc + Pushed(s, a));
      }
    }
  }

  lemma {:induction false} ScanFromOrdered(s: string, pos: nat, acc: seq<Entry>)
    requires pos <= |s|
    requires OffsetsOrdered(acc) && forall e :: e in acc ==> e.loc.offset <= pos
    ensures OffsetsOrdered(ScanFrom(s, pos, acc).entries)
    decreases |s| - pos
  {
    if pos < |s| {
      var a := Dispatch(s, pos);
      if !a.Fail? {
        ScanFromOrdered(s, a.next, acc + Pushed(s, a));
      }
    }
  }

  lemma {:induction false} ScanFromEndMarker(s: string, pos: nat, acc: seq<Entry>)
    requires pos <= |s|
    requires forall e :: e in acc ==> e.token.kind != Eof
    ensures var o := ScanFrom(s, pos, acc);
      (o.status == Success ==>
        |o.entries| > 0 && forall i :: 0 <= i < |o.entries| - 1 ==> o.entries[i].token.kind != Eof) &&
      (o.status != Success ==> forall e :: e in o.entries ==> e.token.kind != Eof)
    decreases |s| - pos
  {
    if pos == |s| {
      assert forall i :: 0 <= i < |acc| ==> acc[i] in acc;
    } else {
      var a := Dispatch(s, pos);
      if !a.Fail? {
        DispatchNeverEmitsEof(s, pos);
        ScanFromEndMarker(s, a.next, acc + Pushed(s, a));
      }
    }
  }

  // ----- The properties of a whole run from a fresh scanner -----

  /** Every pushed entry agrees with the source (see EntryMatchesSource). */
  lemma ScanMatchesSource(s: string)
    ensures forall e :: e in Scan(s).entries ==> EntryMatchesSource(s, e)
  {
    ScanFromMatchesSource(s, 0, []);
  }

  /** Offsets, and hence lines, never decrease along the token stream. */
  lemma ScanOrdered(s: string)
    ensures var es := Scan(s).entries;
      forall i, j :: 0 <= i < j < |es| ==>
        es[i].loc.offset <= es[j].loc.offset && es[i].loc.line <= es[j].loc.line
  {
    var es := Scan(s).entries;
    ScanFromOrdered(s, 0, []);
    ScanMatchesSource(s);
    forall i, j | 0 <= i < j < |es|
      ensures es[i].loc.line <= es[j].loc.line
    {
      assert es[i] in es && es[j] in es;
      LineOfMonotone(s, es[i].loc.offset, es[j].loc.offset);
    }
  }

  /** A successful run ends with exactly one end marker, located at the end
      of the source (line 1 plus its newlines, column past the last one); a
      failed run pushes none. */
  lemma ScanEndMarker(s: string)
    ensures var o := Scan(s);
      (o.status == Success ==>
        |o.entries| > 0 && o.entries[|o.entries| - 1] == Entry(EofToken(), LocAt(s, |s|)) &&
        forall i :: 0 <= i < |o.entries| - 1 ==> o.entries[i].token.kind != Eof) &&
      (o.status != Success ==> forall e :: e in o.entries ==> e.token.kind != Eof)
  {
    ScanFromEndMarker(s, 0, []);
  }
}
