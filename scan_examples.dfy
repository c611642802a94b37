/** Small runs worked out in full: the behaviours the scanner is known for
    at its edges (empty input, "::" against ":", comments, multi-line
    strings, keyword matching, number shape, and both errors). Each source
    is given character by character. */
module ScanExamples {
  import opened Tokens
  import opened Scanning

  /** On the first line, the column of a position is the position itself. */
  lemma {:induction false} FirstLine(s: string, i: nat)
    requires i <= |s| && forall k :: 0 <= k < i ==> s[k] != '\n'
    ensures LocAt(s, i) == Location(1, i, i)
  {
    SameLine(s, 0, i);
  }

  /** After the only newline, at n, columns count from n + 1. */
  lemma {:induction false} SecondLine(s: string, n: nat, i: nat)
    requires n < i <= |s| && s[n] == '\n'
    requires forall k :: 0 <= k < i && k != n ==> s[k] != '\n'
    ensures LocAt(s, i) == Location(2, i - n - 1, i)
  {
    SameLine(s, 0, n);
    SameLine(s, n + 1, i);
  }

  /** One iteration of the main loop, with its action known. */
  lemma StepTo(s: string, pos: nat, acc: seq<Entry>, a: Action, acc': seq<Entry>)
    requires pos < |s| && Dispatch(s, pos) == a && !a.Fail? && acc' == acc + Pushed(s, a)
    ensures ScanFrom(s, pos, acc) == ScanFrom(s, a.next, acc')
  {
  }

  /** An iteration that fails ends the run with what was pushed so far. */
  lemma FailAt(s: string, pos: nat, acc: seq<Entry>, st: Status)
    requires pos < |s| && Dispatch(s, pos) == Fail(st)
    ensures ScanFrom(s, pos, acc) == Outcome(acc, st)
  {
  }

  /** Empty input: just the end marker, at line 1, column 0, offset 0. */
  lemma EmptySource()
    ensures Scan("") == Outcome([Entry(EofToken(), Location(1, 0, 0))], Success)
  {
  }

  /** ":::" is "::" (located at its second colon) followed by ":". */
  lemma TripleColon(s: string)
    requires |s| == 3 && s[0] == ':' && s[1] == ':' && s[2] == ':'
    ensures Scan(s) == Outcome([
      Entry(TokenData(DoubleColon, Some("::"), 2), Location(1, 1, 1)),
      Entry(TokenData(Colon, Some(":"), 1), Location(1, 2, 2)),
      Entry(EofToken(), Location(1, 3, 3))], Success)
  {
    var e1 := Entry(TokenData(DoubleColon, Some("::"), 2), Location(1, 1, 1));
    var e2 := Entry(TokenData(Colon, Some(":"), 1), Location(1, 2, 2));
    FirstLine(s, 1);
    FirstLine(s, 2);
    FirstLine(s, 3);
    DispatchOnColon(s, 0);
    StepTo(s, 0, [], Emit(DoubleColon, "::", 1, 2), [e1]);
    DispatchOnColon(s, 2);
    StepTo(s, 2, [e1], Emit(Colon, ":", 2, 3), [e1, e2]);
  }

  /** "a//x\nb": the comment ends at the newline, which still moves the
      scanner to line 2. */
  lemma CommentStopsAtNewline(s: string)
    requires |s| == 6 && s[0] == 'a' && s[1] == '/' && s[2] == '/' && s[3] == 'x'
    requires s[4] == '\n' && s[5] == 'b'
    ensures Scan(s) == Outcome([
      Entry(TokenData(Identifier, Some("a"), 1), Location(1, 1, 1)),
      Entry(TokenData(Identifier, Some("b"), 1), Location(2, 1, 6)),
      Entry(EofToken(), Location(2, 1, 6))], Success)
  {
    var e1 := Entry(TokenData(Identifier, Some("a"), 1), Location(1, 1, 1));
    LeadingA(s, e1);
    CommentSkipped(s, e1);
    NewlineThenB(s, e1);
  }

  /** The start of CommentStopsAtNewline: "a", stopped by the slash. */
  lemma LeadingA(s: string, e1: Entry)
    requires |s| == 6 && s[0] == 'a' && s[1] == '/'
    requires e1 == Entry(TokenData(Identifier, Some("a"), 1), Location(1, 1, 1))
    ensures ScanFrom(s, 0, []) == ScanFrom(s, 1, [e1])
  {
    FirstLine(s, 1);
    assert RunEnd(s, 0, IdentChars) == 1 && s[0..1] == "a";
    DispatchOnLetter(s, 0);
    StepTo(s, 0, [], Emit(Identifier, "a", 1, 1), [e1]);
  }

  /** The comment of CommentStopsAtNewline is skipped up to its newline. */
  lemma CommentSkipped(s: string, e1: Entry)
    requires |s| == 6 && s[1] == '/' && s[2] == '/' && s[3] == 'x' && s[4] == '\n'
    ensures ScanFrom(s, 1, [e1]) == ScanFrom(s, 4, [e1])
  {
    assert RunEnd(s, 3, NotNewlines) == 4;
    DispatchOnSlash(s, 1);
    StepTo(s, 1, [e1], Skip(4), [e1]);
  }

  /** The end of CommentStopsAtNewline: the newline, then "b" on line 2. */
  lemma NewlineThenB(s: string, e1: Entry)
    requires |s| == 6 && s[0] == 'a' && s[1] == '/' && s[2] == '/' && s[3] == 'x'
    requires s[4] == '\n' && s[5] == 'b'
    ensures ScanFrom(s, 4, [e1]) == Outcome([
      e1,
      Entry(TokenData(Identifier, Some("b"), 1), Location(2, 1, 6)),
      Entry(EofToken(), Location(2, 1, 6))], Success)
  {
    var e2 := Entry(TokenData(Identifier, Some("b"), 1), Location(2, 1, 6));
    SecondLine(s, 4, 6);
    DispatchOnBlank(s, 4);
    StepTo(s, 4, [e1], Skip(5), [e1]);
    assert RunEnd(s, 5, IdentChars) == 6 && s[5..6] == "b";
    DispatchOnLetter(s, 5);
    StepTo(s, 5, [e1], Emit(Identifier, "b", 6, 6), [e1, e2]);
  }

  /** A string literal may span lines: the newline inside it is counted, the
      literal is located at its closing quote on line 2, and the text between
      the quotes is kept verbatim. */
  lemma MultiLineString(s: string)
    requires |s| == 7 && s[0] == '"' && s[1] == 'x' && s[2] == '\n' && s[3] == 'y'
    requires s[4] == '"' && s[5] == ' ' && s[6] == 'z'
    ensures Scan(s) == Outcome([
      Entry(TokenData(StringLiteral, Some("x\ny"), 3), Location(2, 1, 4)),
      Entry(TokenData(Identifier, Some("z"), 1), Location(2, 4, 7)),
      Entry(EofToken(), Location(2, 4, 7))], Success)
  {
    var e1 := Entry(TokenData(StringLiteral, Some("x\ny"), 3), Location(2, 1, 4));
    SecondLine(s, 2, 4);
    assert RunEnd(s, 1, NotQuotes) == 4 && s[1..4] == "x\ny";
    DispatchOnQuote(s, 0);
    StepTo(s, 0, [], Emit(StringLiteral, "x\ny", 4, 5), [e1]);
    BlankThenZ(s, e1);
  }

  /** The end of MultiLineString: a blank, then "z" on line 2. */
  lemma BlankThenZ(s: string, e1: Entry)
    requires |s| == 7 && s[2] == '\n' && s[5] == ' ' && s[6] == 'z'
    requires forall k :: 0 <= k < 7 && k != 2 ==> s[k] != '\n'
    ensures ScanFrom(s, 5, [e1]) == Outcome([
      e1,
      Entry(TokenData(Identifier, Some("z"), 1), Location(2, 4, 7)),
      Entry(EofToken(), Location(2, 4, 7))], Success)
  {
    var e2 := Entry(TokenData(Identifier, Some("z"), 1), Location(2, 4, 7));
    SecondLine(s, 2, 7);
    DispatchOnBlank(s, 5);
    StepTo(s, 5, [e1], Skip(6), [e1]);
    assert RunEnd(s, 6, IdentChars) == 7 && s[6..7] == "z";
    DispatchOnLetter(s, 6);
    StepTo(s, 6, [e1], Emit(Identifier, "z", 7, 7), [e1, e2]);
  }

  /** Keywords match whole runs only: "iffy" is an identifier, "if" a
      keyword, and both carry their text. */
  lemma KeywordNeedsWholeRun(s: string)
    requires |s| == 7 && s[0] == 'i' && s[1] == 'f' && s[2] == 'f' && s[3] == 'y'
    requires s[4] == ' ' && s[5] == 'i' && s[6] == 'f'
    ensures Scan(s) == Outcome([
      Entry(TokenData(Identifier, Some("iffy"), 4), Location(1, 4, 4)),
      Entry(TokenData(If, Some("if"), 2), Location(1, 7, 7)),
      Entry(EofToken(), Location(1, 7, 7))], Success)
  {
    var e1 := Entry(TokenData(Identifier, Some("iffy"), 4), Location(1, 4, 4));
    FirstLine(s, 4);
    assert RunEnd(s, 0, IdentChars) == 4 && s[0..4] == "iffy";
    DispatchOnLetter(s, 0);
    StepTo(s, 0, [], Emit(Identifier, "iffy", 4, 4), [e1]);
    BlankThenIf(s, e1);
  }

  /** The end of KeywordNeedsWholeRun: a blank, then the keyword "if". */
  lemma BlankThenIf(s: string, e1: Entry)
    requires |s| == 7 && s[4] == ' ' && s[5] == 'i' && s[6] == 'f'
    requires forall k :: 0 <= k < 7 ==> s[k] != '\n'
    ensures ScanFrom(s, 4, [e1]) == Outcome([
      e1,
      Entry(TokenData(If, Some("if"), 2), Location(1, 7, 7)),
      Entry(EofToken(), Location(1, 7, 7))], Success)
  {
    var e2 := Entry(TokenData(If, Some("if"), 2), Location(1, 7, 7));
    FirstLine(s, 7);
    DispatchOnBlank(s, 4);
    StepTo(s, 4, [e1], Skip(5), [e1]);
    assert RunEnd(s, 5, IdentChars) == 7 && s[5..7] == "if";
    DispatchOnLetter(s, 5);
    StepTo(s, 5, [e1], Emit(If, "if", 7, 7), [e1, e2]);
  }

  /** A numeric literal takes at most one '.': "1.2.3" is a number, a
      period and a number. */
  lemma SecondDotEndsNumber(s: string)
    requires |s| == 5 && s[0] == '1' && s[1] == '.' && s[2] == '2' && s[3] == '.' && s[4] == '3'
    ensures Scan(s) == Outcome([
      Entry(TokenData(NumberLiteral, Some("1.2"), 3), Location(1, 3, 3)),
      Entry(TokenData(Period, Some("."), 1), Location(1, 3, 3)),
      Entry(TokenData(NumberLiteral, Some("3"), 1), Location(1, 5, 5)),
      Entry(EofToken(), Location(1, 5, 5))], Success)
  {
    var e1 := Entry(TokenData(NumberLiteral, Some("1.2"), 3), Location(1, 3, 3));
    FirstLine(s, 3);
    assert RunEnd(s, 0, Digits) == 1 && RunEnd(s, 2, Digits) == 3 && s[0..3] == "1.2";
    DispatchOnDigit(s, 0);
    StepTo(s, 0, [], Emit(NumberLiteral, "1.2", 3, 3), [e1]);
    PeriodThenThree(s, e1);
  }

  /** The end of SecondDotEndsNumber: the second '.' is a period, then "3". */
  lemma PeriodThenThree(s: string, e1: Entry)
    requires |s| == 5 && s[3] == '.' && s[4] == '3'
    requires forall k :: 0 <= k < 5 ==> s[k] != '\n'
    ensures ScanFrom(s, 3, [e1]) == Outcome([
      e1,
      Entry(TokenData(Period, Some("."), 1), Location(1, 3, 3)),
      Entry(TokenData(NumberLiteral, Some("3"), 1), Location(1, 5, 5)),
      Entry(EofToken(), Location(1, 5, 5))], Success)
  {
    var e2 := Entry(TokenData(Period, Some("."), 1), Location(1, 3, 3));
    var e3 := Entry(TokenData(NumberLiteral, Some("3"), 1), Location(1, 5, 5));
    FirstLine(s, 3);
    FirstLine(s, 5);
    DispatchOnMark(s, 3);
    StepTo(s, 3, [e1], Emit(Period, ".", 3, 4), [e1, e2]);
    assert RunEnd(s, 4, Digits) == 5 && s[4..5] == "3";
    DispatchOnDigit(s, 4);
    StepTo(s, 4, [e1, e2], Emit(NumberLiteral, "3", 5, 5), [e1, e2, e3]);
  }

  /** A trailing '.' belongs to the number: "12." is one literal. */
  lemma TrailingDotInNumber(s: string)
    requires |s| == 3 && s[0] == '1' && s[1] == '2' && s[2] == '.'
    ensures Scan(s) == Outcome([
      Entry(TokenData(NumberLiteral, Some("12."), 3), Location(1, 3, 3)),
      Entry(EofToken(), Location(1, 3, 3))], Success)
  {
    var e1 := Entry(TokenData(NumberLiteral, Some("12."), 3), Location(1, 3, 3));
    FirstLine(s, 3);
    assert RunEnd(s, 0, Digits) == 2 && RunEnd(s, 3, Digits) == 3 && s[0..3] == "12.";
    DispatchOnDigit(s, 0);
    StepTo(s, 0, [], Emit(NumberLiteral, "12.", 3, 3), [e1]);
  }

  /** A quote with no closing quote fails the run, reporting the line at the
      end of the source, and pushes nothing (not even the end marker). */
  lemma UnterminatedStringFails(s: string)
    requires |s| == 4 && s[0] == '"' && s[1] == 'a' && s[2] == 'b' && s[3] == 'c'
    ensures Scan(s) == Outcome([], UnterminatedString(1))
  {
    FirstLine(s, 4);
    assert RunEnd(s, 1, NotQuotes) == 4;
    DispatchOnQuote(s, 0);
    FailAt(s, 0, [], UnterminatedString(1));
  }

  /** A character the scanner has no rule for fails the run; what was pushed
      before it stays, and no end marker follows. */
  lemma InvalidCharacterFails(s: string)
    requires |s| == 5 && s[0] == 'a' && s[1] == ' ' && s[2] == '~' && s[3] == ' ' && s[4] == 'b'
    ensures Scan(s) == Outcome([Entry(TokenData(Identifier, Some("a"), 1), Location(1, 1, 1))],
                               InvalidCharacter('~', 1))
  {
    var e1 := Entry(TokenData(Identifier, Some("a"), 1), Location(1, 1, 1));
    FirstLine(s, 1);
    assert RunEnd(s, 0, IdentChars) == 1 && s[0..1] == "a";
    DispatchOnLetter(s, 0);
    StepTo(s, 0, [], Emit(Identifier, "a", 1, 1), [e1]);
    BlankThenTilde(s, e1);
  }

  /** The end of InvalidCharacterFails: a blank, then '~' on line 1. */
  lemma BlankThenTilde(s: string, e1: Entry)
    requires |s| == 5 && s[1] == ' ' && s[2] == '~'
    requires forall k :: 0 <= k < 2 ==> s[k] != '\n'
    ensures ScanFrom(s, 1, [e1]) == Outcome([e1], InvalidCharacter('~', 1))
  {
    FirstLine(s, 2);
    DispatchOnBlank(s, 1);
    StepTo(s, 1, [e1], Skip(2), [e1]);
    FailAt(s, 2, [e1], InvalidCharacter('~', 1));
  }
}
