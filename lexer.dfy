/** The scanner as the C code runs it: a Lexer object whose cursor, line
    counter and line start move forward through the source while tokens and
    their locations are appended to two parallel, growable arrays.

    The ghost field Entries is the abstract token stream: Valid() ties it,
    entry by entry, to tokens[..count] and locations[..count]. The scanning
    methods (Step, Run and the branch methods they call) are proved against
    the pure scanner of module Scanning; the storage methods (the
    constructor, EnsureCapacity, Push and Free) against contracts of their
    own that state the new fields and array contents. */
module Scanner {
  import opened Tokens
  import opened Scanning

  /** The capacity ensure_capacity moves to when the arrays are full. */
  function GrownCapacity(capacity: nat): (r: nat)
    ensures r > capacity
  {
    if capacity == 0 then 8 else capacity * 2
  }

  class Lexer {
    /** The text before the terminating NUL; position |source| is that NUL. */
    const source: string
    var current: nat
    var lineStart: nat
    var lineNumber: nat
    var count: nat
    var capacity: nat
    var tokens: array<TokenData>
    var locations: array<Location>

    /** The tokens pushed so far, each with its location. */
    ghost var Entries: seq<Entry>

    /** Buffer invariant: both arrays have the recorded capacity and the
        first count slots of each hold Entries. */
    ghost predicate Valid()
      reads this`tokens, this`locations, this`count, this`capacity, this`Entries, tokens, locations
    {
      tokens.Length == capacity && locations.Length == capacity &&
      count <= capacity && |Entries| == count &&
      forall i :: 0 <= i < count ==> tokens[i] == Entries[i].token && locations[i] == Entries[i].loc
    }

    /** The cursor is inside the source and the running line counter and line
        start agree with it: line_number is 1 plus the newlines before the
        cursor and line_start is just past the last of them (so never past
        the cursor). */
    ghost predicate OnTrack()
      reads this`current, this`lineNumber, this`lineStart
    {
      '\0' !in source && current <= |source| &&
      lineNumber == LineOf(source, current) && lineStart == LineStartOf(source, current)
    }

    /** lexer_init: cursor and line start at the beginning, line 1, no
        tokens and no storage yet. */
    constructor (source: string)
      requires '\0' !in source
      ensures this.source == source
      ensures current == 0 && lineStart == 0 && lineNumber == 1
      ensures count == 0 && capacity == 0 && Entries == []
      ensures Valid() && OnTrack()
      ensures fresh(tokens) && fresh(locations)
    {
      this.source := source;
      current, lineStart, lineNumber := 0, 0, 1;
      count, capacity := 0, 0;
      tokens := new TokenData[0];
      locations := new Location[0];
      Entries := [];
    }

    /** ensure_capacity: afterwards there is a free slot. Storage grows (0 to
        8, otherwise doubling) only when the arrays are full; both arrays get
        the same capacity and the entries already stored are kept. */
    method EnsureCapacity()
      requires Valid()
      modifies this
      ensures Valid() && count < capacity
      ensures count == old(count) && Entries == old(Entries)
      ensures tokens[..count] == old(tokens[..count]) && locations[..count] == old(locations[..count])
      ensures current == old(current) && lineStart == old(lineStart) && lineNumber == old(lineNumber)
      ensures old(count) < old(capacity) ==>
        capacity == old(capacity) && tokens == old(tokens) && locations == old(locations)
      ensures old(count) >= old(capacity) ==>
        capacity == GrownCapacity(old(capacity)) && fresh(tokens) && fresh(locations)
    {
      if count >= capacity {
        var newCapacity := GrownCapacity(capacity);
        var newTokens := new TokenData[newCapacity];
        var newLocations := new Location[newCapacity];
        // realloc keeps the old contents at the front of the new storage.
        forall i | 0 <= i < count {
          newTokens[i] := tokens[i];
        }
        forall i | 0 <= i < count {
          newLocations[i] := locations[i];
        }
        tokens, locations, capacity := newTokens, newLocations, newCapacity;
      }
    }

    /** push_token: appends exactly one entry, of the given kind, carrying a
        copy of the lexeme and its length (nothing and 0 for NULL), located at
        the cursor as it is now. The length is strlen of the copy, so the
        lexeme holds no NUL. Nothing else in the stream changes. */
    method Push(kind: TokenKind, lexeme: Option<string>)
      requires Valid() && lineStart <= current
      requires lexeme.Some? ==> '\0' !in lexeme.value
      modifies this, tokens, locations
      ensures current == old(current) && lineStart == old(lineStart) && lineNumber == old(lineNumber)
      ensures Valid()
      ensures count == old(count) + 1
      ensures Entries == old(Entries) +
        [Entry(TokenData(kind, lexeme, LexemeLength(lexeme)), Location(lineNumber, current - lineStart, current))]
      ensures (tokens == old(tokens) || fresh(tokens)) && (locations == old(locations) || fresh(locations))
      ensures capacity == (if old(count) < old(capacity) then old(capacity) else GrownCapacity(old(capacity)))
      ensures old(count) < old(capacity) ==> tokens == old(tokens) && locations == old(locations)
      ensures old(count) >= old(capacity) ==> fresh(tokens) && fresh(locations)
    {
      EnsureCapacity();
      var token := TokenData(kind, lexeme, LexemeLength(lexeme));
      var loc := Location(lineNumber, current - lineStart, current);
      tokens[count] := token;
      locations[count] := loc;
      count := count + 1;
      Entries := Entries + [Entry(token, loc)];
    }

    /** The cursor loops of lexer_run and handle_identifier: from position
        i, advance while the character under the cursor is in cls. */
    method AdvanceWhile(i: nat, cls: CharClass) returns (e: nat)
      requires i <= |source|
      ensures e == RunEnd(source, i, cls)
    {
      e := i;
      while e < |source| && InClass(source[e], cls)
        invariant i <= e <= |source|
        invariant RunEnd(source, e, cls) == RunEnd(source, i, cls)
        decreases |source| - e
      {
        e := e + 1;
      }
    }

    /** The string loop of lexer_run: from position i, whose line and line
        start are given, advance to the next '"' or the end of the source,
        bumping the line and moving the line start at each newline passed. */
    method AdvanceCountingLines(i: nat, line: nat, start: nat) returns (e: nat, endLine: nat, endStart: nat)
      requires i <= |source| && line == LineOf(source, i) && start == LineStartOf(source, i)
      ensures e == RunEnd(source, i, NotQuotes)
      ensures endLine == LineOf(source, e) && endStart == LineStartOf(source, e)
    {
      e, endLine, endStart := i, line, start;
      while e < |source| && source[e] != '"'
        invariant i <= e <= |source|
        invariant RunEnd(source, e, NotQuotes) == RunEnd(source, i, NotQuotes)
        invariant endLine == LineOf(source, e) && endStart == LineStartOf(source, e)
        decreases |source| - e
      {
        if source[e] == '\n' {
          endLine := endLine + 1;
          endStart := e + 1;
        }
        e := e + 1;
      }
    }

    /** handle_identifier: consumes the maximal run of letters, digits and
        underscores at the cursor and pushes it, as the keyword it spells
        exactly or else as an identifier, located just past the run. */
    method HandleIdentifier()
      requires Valid() && OnTrack()
      modifies this, tokens, locations
      ensures Valid() && OnTrack()
      ensures (tokens == old(tokens) || fresh(tokens)) && (locations == old(locations) || fresh(locations))
      ensures current == RunEnd(source, old(current), IdentChars)
      ensures var lexeme := source[old(current)..current];
        Entries == old(Entries) +
          [Entry(TokenData(KeywordKind(lexeme), Some(lexeme), |lexeme|), LocAt(source, current))]
    {
      var identifierStart := current;
      var identifierEnd := AdvanceWhile(current, IdentChars);
      SameLine(source, identifierStart, identifierEnd);
      current := identifierEnd;
      var lexeme := source[identifierStart..current];
      Push(KeywordKind(lexeme), Some(lexeme));
    }

    /** The line-comment branch of lexer_run (the cursor is on "//"): skips
        both slashes and everything up to, not past, the next newline or the
        end of the source. No token is pushed. */
    method SkipComment()
      requires OnTrack()
      requires current + 1 < |source| && source[current] == '/' && source[current + 1] == '/'
      modifies this
      ensures OnTrack()
      ensures current == RunEnd(source, old(current) + 2, NotNewlines)
      ensures Entries == old(Entries) && count == old(count) && capacity == old(capacity)
      ensures tokens == old(tokens) && locations == old(locations)
    {
      var commentStart := current;
      var commentEnd := AdvanceWhile(current + 2, NotNewlines);
      SameLine(source, commentStart, commentEnd);
      current := commentEnd;
    }

    /** The string-literal branch of lexer_run (the cursor is on '"'): scans
        to the next '"', counting the newlines it passes. Without one it stops
        at the end of the source and reports failure; otherwise it pushes the
        text strictly between the quotes, located at the closing quote, and
        steps past that quote. */
    method ScanString() returns (ok: bool)
      requires Valid() && OnTrack()
      requires current < |source| && source[current] == '"'
      modifies this, tokens, locations
      ensures Valid() && OnTrack()
      ensures (tokens == old(tokens) || fresh(tokens)) && (locations == old(locations) || fresh(locations))
      ensures var close := RunEnd(source, old(current) + 1, NotQuotes);
        ok == (close < |source|) &&
        (!ok ==> current == |source| && Entries == old(Entries)) &&
        (ok ==> (current == close + 1 &&
                 Entries == old(Entries) +
                   [Entry(TokenData(StringLiteral, Some(source[old(current) + 1..close]), close - old(current) - 1),
                          LocAt(source, close))]))
    {
      var stringStart := current + 1;
      var stringEnd, endLine, endLineStart := AdvanceCountingLines(stringStart, lineNumber, lineStart);
      current, lineNumber, lineStart := stringEnd, endLine, endLineStart;
      if current == |source| {
        return false;
      }
      Push(StringLiteral, Some(source[stringStart..current]));
      current := current + 1;
      ok := true;
    }

    /** The two digit loops of the numeric-literal branch, with the '.'
        between them; a literal never spans a newline. */
    method AdvanceOverNumber(i: nat) returns (e: nat)
      requires i <= |source|
      ensures e == NumberEnd(source, i)
      ensures forall k :: i <= k < e ==> source[k] != '\n'
    {
      e := AdvanceWhile(i, Digits);
      if e < |source| && source[e] == '.' {
        e := AdvanceWhile(e + 1, Digits);
      }
    }

    /** The numeric-literal branch of lexer_run: consumes a maximal digit
        run, then, if a '.' follows, that '.' and a further maximal digit run,
        and pushes the consumed text located just past it. */
    method ScanNumber()
      requires Valid() && OnTrack()
      modifies this, tokens, locations
      ensures Valid() && OnTrack()
      ensures (tokens == old(tokens) || fresh(tokens)) && (locations == old(locations) || fresh(locations))
      ensures current == NumberEnd(source, old(current))
      ensures var lexeme := source[old(current)..current];
        Entries == old(Entries) + [Entry(TokenData(NumberLiteral, Some(lexeme), |lexeme|), LocAt(source, current))]
    {
      var numberStart := current;
      var numberEnd := AdvanceOverNumber(current);
      SameLine(source, numberStart, numberEnd);
      current := numberEnd;
      Push(NumberLiteral, Some(source[numberStart..current]));
    }

    /** The branches of lexer_run for the punctuation marks that need no
        lookahead: push the mark, located at its own character, and step past it. */
    method ScanMark()
      requires Valid() && OnTrack() && current < |source| && SingleCharKind(source[current]).Some?
      modifies this, tokens, locations
      ensures Valid() && OnTrack()
      ensures (tokens == old(tokens) || fresh(tokens)) && (locations == old(locations) || fresh(locations))
      ensures var a := Dispatch(source, old(current));
        current == a.next && Entries == old(Entries) + Pushed(source, a)
    {
      var c := source[current];
      Push(SingleCharKind(c).value, Some([c]));
      current := current + 1;
    }

    /** The ':' branch of lexer_run: with a second ':' right after, steps
        onto it and pushes "::" located there; otherwise pushes ":". Either
        way the cursor ends just past what was consumed. */
    method ScanColon()
      requires Valid() && OnTrack() && current < |source| && source[current] == ':'
      modifies this, tokens, locations
      ensures Valid() && OnTrack()
      ensures (tokens == old(tokens) || fresh(tokens)) && (locations == old(locations) || fresh(locations))
      ensures var a := Dispatch(source, old(current));
        current == a.next && Entries == old(Entries) + Pushed(source, a)
    {
      if current + 1 < |source| && source[current + 1] == ':' {
        current := current + 1;
        Push(DoubleColon, Some("::"));
      } else {
        Push(Colon, Some(":"));
      }
      current := current + 1;
    }

    /** The '/' branch of lexer_run: a second '/' right after starts a line
        comment, which is skipped; otherwise "/" is pushed. */
    method ScanSlash()
      requires Valid() && OnTrack() && current < |source| && source[current] == '/'
      modifies this, tokens, locations
      ensures Valid() && OnTrack()
      ensures (tokens == old(tokens) || fresh(tokens)) && (locations == old(locations) || fresh(locations))
      ensures var a := Dispatch(source, old(current));
        current == a.next && Entries == old(Entries) + Pushed(source, a)
    {
      if current + 1 < |source| && source[current + 1] == '/' {
        SkipComment();
      } else {
        Push(Slash, Some("/"));
        current := current + 1;
      }
    }

    /** One iteration of lexer_run's main loop, with the cursor on a
        character of the source: it does what the pure scanner's Dispatch
        says, pushing at most one entry, or reports that the run fails. */
    method Step() returns (ok: bool)
      requires Valid() && OnTrack() && current < |source|
      modifies this, tokens, locations
      ensures Valid() && OnTrack()
      ensures (tokens == old(tokens) || fresh(tokens)) && (locations == old(locations) || fresh(locations))
      ensures var a := Dispatch(source, old(current));
        ok == !a.Fail? &&
        (ok ==> current == a.next && Entries == old(Entries) + Pushed(source, a)) &&
        (!ok ==> Entries == old(Entries))
    {
      var c := source[current];
      if IsBlank(c) {
        // Whitespace: no token.
      } else if c == '\n' {
        lineNumber := lineNumber + 1;
        lineStart := current + 1;
      } else if c == ':' {
        ScanColon();
        return true;
      } else if c == '/' {
        ScanSlash();
        return true;
      } else if SingleCharKind(c).Some? {
        ScanMark();
        return true;
      } else if c == '"' {
        ok := ScanString();
        return;
      } else if IsDigit(c) {
        ScanNumber();
        return true;
      } else if IsAlpha(c) {
        HandleIdentifier();
        return true;
      } else {
        return false;
      }
      current := current + 1;
      ok := true;
    }

    /** lexer_run: scans from the cursor to the end of the source or to the
        first error. The entries it pushes are exactly those of the pure
        scanner, kept in place on error, and it returns 0 on success and -1
        on either error. */
    method Run() returns (r: int)
      requires Valid() && OnTrack()
      modifies this, tokens, locations
      ensures Valid() && OnTrack()
      ensures Entries == ScanFrom(source, old(current), old(Entries)).entries
      ensures r == (if ScanFrom(source, old(current), old(Entries)).status == Success then 0 else -1)
    {
      while current < |source|
        invariant Valid() && OnTrack()
        invariant (tokens == old(tokens) || fresh(tokens)) && (locations == old(locations) || fresh(locations))
        invariant ScanFrom(source, current, Entries) == ScanFrom(source, old(current), old(Entries))
        decreases |source| - current
      {
        var ok := Step();
        if !ok {
          return -1;
        }
      }
      Push(Eof, None);
      r := 0;
    }

    /** The reset at the end of lexer_free: no tokens, no storage, count,
        capacity and line number back to 0. */
    method Free()
      modifies this
      ensures count == 0 && capacity == 0 && lineNumber == 0 && Entries == []
      ensures tokens.Length == 0 && locations.Length == 0
      ensures current == old(current) && lineStart == old(lineStart)
    {
      tokens := new TokenData[0];
      locations := new Location[0];
      count, capacity, lineNumber := 0, 0, 0;
      Entries := [];
    }
  }

  /** The way the driver uses the scanner: lexer_init on the source, then
      lexer_run. Returns lexer_run's result and the stored token and
      location arrays up to token_count, which are exactly what the pure
      scanner produces. */
  method Tokenize(source: string) returns (status: int, tokens: seq<TokenData>, locations: seq<Location>)
    requires '\0' !in source
    ensures status == (if Scan(source).status == Success then 0 else -1)
    ensures |tokens| == |locations| == |Scan(source).entries|
    ensures forall i :: 0 <= i < |tokens| ==>
      tokens[i] == Scan(source).entries[i].token && locations[i] == Scan(source).entries[i].loc
  {
    var lexer := new Lexer(source);
    status := lexer.Run();
    tokens := lexer.tokens[..lexer.count];
    locations := lexer.locations[..lexer.count];
  }
}
