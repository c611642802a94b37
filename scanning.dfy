/** The scanner's behaviour as pure functions of the source text.

    The source is the text before the terminating NUL; index |s| plays the part
    of that terminator. One call of Dispatch is one iteration of lexer_run's
    main loop, and ScanFrom runs that loop to its end, appending every pushed
    entry to an accumulator. Line, column and offset are functions of the
    cursor position alone (LocAt), which is what the scanner's running
    line_number and line_start fields keep up to date. */
module Scanning {
  import opened Tokens

  /** A token together with the location recorded for it. */
  datatype Entry = Entry(token: TokenData, loc: Location)

  /** How a run ends: success, or one of the two errors, with the line number
      current at the point of failure (and the offending character). */
  datatype Status = Success | UnterminatedString(line: nat) | InvalidCharacter(ch: char, line: nat)

  /** Everything a run pushes, in order, and how it ends. */
  datatype Outcome = Outcome(entries: seq<Entry>, status: Status)

  /** What one iteration of the main loop does: move the cursor to `next`
      without a token, push a token while the cursor is at `at` and then move
      it to `next`, or stop with an error. */
  datatype Action =
    | Skip(next: nat)
    | Emit(kind: TokenKind, lexeme: string, at: nat, next: nat)
    | Fail(status: Status)

  /** The line the cursor is on at position i: 1 plus the newlines before i. */
  function LineOf(s: string, i: nat): (line: nat)
    requires i <= |s|
    ensures line >= 1
  {
    if i == 0 then 1 else LineOf(s, i - 1) + (if s[i - 1] == '\n' then 1 else 0)
  }

  /** The position just past the last newline before i, or 0 if there is none. */
  function LineStartOf(s: string, i: nat): (start: nat)
    requires i <= |s|
    ensures start <= i
    ensures start == 0 || s[start - 1] == '\n'
    ensures forall k :: start <= k < i ==> s[k] != '\n'
  {
    if i == 0 then 0 else if s[i - 1] == '\n' then i else LineStartOf(s, i - 1)
  }

  /** Moving the cursor across text without a newline changes neither the
      line nor the line start. */
  lemma {:induction false} SameLine(s: string, i: nat, j: nat)
    requires i <= j <= |s|
    requires forall k :: i <= k < j ==> s[k] != '\n'
    ensures LineOf(s, j) == LineOf(s, i) && LineStartOf(s, j) == LineStartOf(s, i)
    decreases j - i
  {
    if i < j {
      SameLine(s, i, j - 1);
    }
  }

  /** The location push_token records when the cursor is at position i: the
      column counts the characters since the last newline before i (or since
      the start of the source). */
  function LocAt(s: string, i: nat): (loc: Location)
    requires i <= |s|
    ensures loc.offset == i && loc.line >= 1 && loc.column <= i
    ensures loc.column == i || s[i - loc.column - 1] == '\n'
    ensures forall k :: i - loc.column <= k < i ==> s[k] != '\n'
  {
    Location(LineOf(s, i), i - LineStartOf(s, i), i)
  }

  /** The character classes the scanner's inner loops advance over. */
  datatype CharClass = Digits | IdentChars | NotQuotes | NotNewlines

  predicate InClass(c: char, cls: CharClass)
  {
    match cls
    case Digits => IsDigit(c)
    case IdentChars => IsIdentChar(c)
    case NotQuotes => c != '"'
    case NotNewlines => c != '\n'
  }

  /** Where a cursor that starts at i and advances while the character under
      it is in cls stops: the end of the maximal run of such characters. */
  function RunEnd(s: string, i: nat, cls: CharClass): (e: nat)
    requires i <= |s|
    ensures i <= e <= |s|
    ensures forall k :: i <= k < e ==> InClass(s[k], cls)
    ensures e == |s| || !InClass(s[e], cls)
    decreases |s| - i
  {
    if i < |s| && InClass(s[i], cls) then RunEnd(s, i + 1, cls) else i
  }

  /** The end of a numeric literal starting at i: a maximal digit run, then,
      if a '.' follows, that '.' and a further maximal (possibly empty) digit run. */
  function NumberEnd(s: string, i: nat): (e: nat)
    requires i <= |s|
    ensures i <= e <= |s|
    ensures i < |s| && IsDigit(s[i]) ==> i < e
    ensures forall k :: i <= k < e ==> IsDigit(s[k]) || s[k] == '.'
  {
    var d := RunEnd(s, i, Digits);
    if d < |s| && s[d] == '.' then RunEnd(s, d + 1, Digits) else d
  }

  /** The ':' branch: "::" is one token, located at its second colon. */
  function ColonAction(s: string, pos: nat): Action
    requires pos < |s|
  {
    if pos + 1 < |s| && s[pos + 1] == ':' then Emit(DoubleColon, "::", pos + 1, pos + 2)
    else Emit(Colon, ":", pos, pos + 1)
  }

  /** The '/' branch: "//" skips to the next newline (not past it) or the end. */
  function SlashAction(s: string, pos: nat): Action
    requires pos < |s|
  {
    if pos + 1 < |s| && s[pos + 1] == '/' then Skip(RunEnd(s, pos + 2, NotNewlines))
    else Emit(Slash, "/", pos, pos + 1)
  }

  /** The '"' branch: the text up to the next quote, located at that quote,
      or an error at the end of the source when there is none. */
  function StringAction(s: string, pos: nat): Action
    requires pos < |s|
  {
    var close := RunEnd(s, pos + 1, NotQuotes);
    if close == |s| then Fail(UnterminatedString(LineOf(s, close)))
    else Emit(StringLiteral, s[pos + 1..close], close, close + 1)
  }

  /** The digit branch: a numeric literal, located just past it. */
  function NumberAction(s: string, pos: nat): Action
    requires pos < |s|
  {
    var e := NumberEnd(s, pos);
    Emit(NumberLiteral, s[pos..e], e, e)
  }

  /** The letter branch (handle_identifier): a keyword or identifier, located just past it. */
  function IdentifierAction(s: string, pos: nat): Action
    requires pos < |s|
  {
    var e := RunEnd(s, pos, IdentChars);
    Emit(KeywordKind(s[pos..e]), s[pos..e], e, e)
  }

  /** One iteration of the main loop with the cursor at pos. */
  function Dispatch(s: string, pos: nat): (a: Action)
    requires pos < |s|
    ensures a.Skip? ==> pos < a.next <= |s|
    ensures a.Emit? ==> pos <= a.at <= a.next <= |s| && pos < a.next
    ensures a.Fail? ==> !a.status.Success?
  {
    var c := s[pos];
    if IsBlank(c) || c == '\n' then Skip(pos + 1)
    else if c == ':' then ColonAction(s, pos)
    else if c == '/' then SlashAction(s, pos)
    else if SingleCharKind(c).Some? then Emit(SingleCharKind(c).value, [c], pos, pos + 1)
    else if c == '"' then StringAction(s, pos)
    else if IsDigit(c) then NumberAction(s, pos)
    else if IsAlpha(c) then IdentifierAction(s, pos)
    else Fail(InvalidCharacter(c, LineOf(s, pos)))
  }

  // Which branch of the main loop the character under the cursor selects.

  lemma DispatchOnBlank(s: string, pos: nat)
    requires pos < |s| && (IsBlank(s[pos]) || s[pos] == '\n')
    ensures Dispatch(s, pos) == Skip(pos + 1)
  {
  }

  lemma DispatchOnMark(s: string, pos: nat)
    requires pos < |s| && SingleCharKind(s[pos]).Some?
    ensures Dispatch(s, pos) == Emit(SingleCharKind(s[pos]).value, [s[pos]], pos, pos + 1)
  {
  }

  lemma DispatchOnColon(s: string, pos: nat)
    requires pos < |s| && s[pos] == ':'
    ensures Dispatch(s, pos) == ColonAction(s, pos)
  {
  }

  lemma DispatchOnSlash(s: string, pos: nat)
    requires pos < |s| && s[pos] == '/'
    ensures Dispatch(s, pos) == SlashAction(s, pos)
  {
  }

  lemma DispatchOnQuote(s: string, pos: nat)
    requires pos < |s| && s[pos] == '"'
    ensures Dispatch(s, pos) == StringAction(s, pos)
  {
  }

  lemma DispatchOnDigit(s: string, pos: nat)
    requires pos < |s| && IsDigit(s[pos])
    ensures Dispatch(s, pos) == NumberAction(s, pos)
  {
  }

  lemma DispatchOnLetter(s: string, pos: nat)
    requires pos < |s| && IsAlpha(s[pos])
    ensures Dispatch(s, pos) == IdentifierAction(s, pos)
  {
  }

  /** The end marker push_token stores: no lexeme, length 0. */
  function EofToken(): TokenData { TokenData(Eof, None, 0) }

  /** What an action pushes: one entry, located at `at`, for Emit; nothing otherwise. */
  function Pushed(s: string, a: Action): (es: seq<Entry>)
    requires a.Emit? ==> a.at <= |s|
    ensures |es| == (if a.Emit? then 1 else 0)
  {
    if a.Emit? then [Entry(TokenData(a.kind, Some(a.lexeme), |a.lexeme|), LocAt(s, a.at))] else []
  }

  /** The main loop from cursor pos to its end, after `acc` was pushed. */
  function ScanFrom(s: string, pos: nat, acc: seq<Entry>): (o: Outcome)
    requires pos <= |s|
    ensures acc <= o.entries
    decreases |s| - pos
  {
    if pos == |s| then
      Outcome(acc + [Entry(EofToken(), LocAt(s, pos))], Success)
    else
      var a := Dispatch(s, pos);
      if a.Fail? then Outcome(acc, a.status) else ScanFrom(s, a.next, acc + Pushed(s, a))
  }

  /** A successful run from any point ends with the end marker, located at
      the end of the source. */
  lemma {:induction false} ScanFromEnds(s: string, pos: nat, acc: seq<Entry>)
    requires pos <= |s|
    ensures var o := ScanFrom(s, pos, acc);
      o.status == Success ==>
        |o.entries| > |acc| && o.entries[|o.entries| - 1] == Entry(EofToken(), LocAt(s, |s|))
    decreases |s| - pos
  {
    if pos < |s| {
      var a := Dispatch(s, pos);
      if !a.Fail? {
        ScanFromEnds(s, a.next, acc + Pushed(s, a));
      }
    }
  }

  /** A whole run over s from a freshly initialised scanner. A successful
      run ends with the end marker, located at the end of the source. */
  function Scan(s: string): (r: Outcome)
    ensures r.status == Success ==>
      |r.entries| > 0 && r.entries[|r.entries| - 1] == Entry(EofToken(), LocAt(s, |s|))
  {
    ScanFromEnds(s, 0, []);
    ScanFrom(s, 0, [])
  }
}
