# A verified model of the jam scanner

jam's scanner (`src/lexer.c`) turns a NUL-terminated source text into a
token stream. The stream is kept as two parallel, growable arrays: one holds
token records (kind, lexeme copy, length) and the other holds locations
(1-based line, 0-based column, 0-based offset). The scanner reads the text
once, left to right, with one character of lookahead. Blanks, newlines and
`//` comments produce no tokens. It emits punctuation marks (including
`::`), string literals, numeric literals, identifiers and the keywords
`if`, `else`, `while`, `func` and `return`. A run ends in one of three ways:
an end marker with result 0, or result -1 at the first invalid character or
unterminated string.

The model has seven modules:

- `Tokens` (`tokens.dfy`): token kinds, token records, locations, the ASCII
  character classes, the punctuation table and keyword matching.
- `Scanning` (`scanning.dfy`): the scanner as pure functions of the source
  text. `Dispatch` is one iteration of `lexer_run`'s main loop. `ScanFrom`
  runs that loop to its end. `Scan` is a whole run from a freshly
  initialised scanner. `LineOf`, `LineStartOf` and `LocAt` give the
  line, line start and location of every cursor position.
- `Scanner` (`lexer.dfy`): the scanner as the C code runs it. The class
  `Lexer` has the cursor, line counter, line start, count, capacity and the
  two arrays as fields. Its methods change them in place. A ghost field
  `Entries` holds the abstract stream, and `Valid()` ties it to the arrays.
  The scanning methods (`Step`, `Run` and the branch methods they call) are
  proved against the pure scanner: `Lexer.Run` leaves exactly the entries
  and result of `ScanFrom`, and `Tokenize` (init, then run) yields exactly
  `Scan(source)`. The storage methods (the constructor, `EnsureCapacity`,
  `Push` and `Free`) are proved against contracts of their own, which state
  the new fields and array contents outright.
- `ScanProperties` (`scan_properties.dfy`): what every run guarantees.
  Each entry agrees with the source text. Offsets and lines never decrease.
  There is exactly one end marker, at the end.
- `Accounting` (`accounting.dfy`): every character of the source is
  accounted for. Each entry stands for a span of the text. A successful
  run's spans tile the source in order, without overlap, with only blanks,
  newlines and `//` comments between them. Conversely, any such tiling by
  entries that agree with the source is exactly the run's stream, so a run
  succeeds exactly when such a tiling exists. A failed run stops where the
  entries pushed so far account for the text, at an invalid character or at
  a quote that is never closed.
- `ScanExamples` (`scan_examples.dfy`): small runs worked out in full.
- `TypeNames` (`type_names.dfy`): `token_type_to_string` as written, and as
  its cases intend it.

The source is a Dafny `string`. Its length plays the part of the NUL
terminator, so the `Lexer` constructor requires that the text holds no NUL.
The C code's `char *` cursors into the source are modelled as indices. `realloc` is modelled as
fresh arrays that receive the old contents.

Three behaviours of the code are easy to misread; the model follows the
code:

- Punctuation and keyword tokens carry a lexeme copy, just as literals do
  (`push_token` copies every non-NULL lexeme, src/lexer.c:246-254). Only
  the end marker has no lexeme.
- A token's location is the cursor at the moment it is pushed. That is the
  character just after a number or identifier, but the mark itself for a
  punctuation mark, the second colon for `::`, and the closing quote for a
  string literal.
- On either error, `lexer_run` returns -1 and the tokens pushed so far stay
  in the arrays. No end marker is added.

## Model

| member | source | states |
|---|---|---|
| Tokens.SingleCharKind | src/lexer.c:42-123 | each of the twenty marks that need no lookahead is recognised by its own character, which is its whole spelling. ':' and '/' are not among them |
| Tokens.KeywordKind | src/lexer.c:304-317 | an identifier-shaped run is a keyword exactly when it spells that keyword, otherwise it is an identifier |
| Tokens.KeywordSpellingMatches | src/lexer.c:304-317 | converse of KeywordKind: each keyword's own spelling is classified as that keyword |
| Tokens.SingleCharSpelling | src/lexer.c:42-123 | a punctuation mark that needs no lookahead is emitted for a character exactly when that character is its spelling |
| Scanning.LineOf | src/lexer.c:37-41 | the line at a cursor position is at least 1 and grows by one past each newline |
| Scanning.LineStartOf | src/lexer.c:37-41 | the line start is at or before the cursor, is 0 or just past a newline, and no newline lies between it and the cursor |
| Scanning.SameLine | src/lexer.c:37-41 | moving the cursor across text without a newline changes neither the line nor the line start |
| Scanning.LocAt | src/lexer.c:260-262 | the recorded offset is the cursor and the line is at least 1. The column counts the characters since the last newline before the cursor (or since the start), and none of them is a newline |
| Scanning.NumberEnd | src/lexer.c:160-172 | a numeric literal that starts at a digit is not empty and holds only digits and '.' |
| Scanning.RunEnd | src/lexer.c:89-292 | each of the comment, digit and identifier cursor loops (lines 89-91, 162-164, 169-171 and 290-292) stops at the end of the maximal run of characters of its class, or at the end of the source |
| Scanning.Dispatch | src/lexer.c:30-199 | every iteration of the main loop that does not fail moves the cursor forward, and a token is located between the old and new cursor |
| Scanning.DispatchOnBlank | src/lexer.c:32-41 | at a blank or a newline, an iteration moves one character on and pushes nothing |
| Scanning.DispatchOnMark | src/lexer.c:42-123 | at a mark that needs no lookahead, an iteration pushes its one-character spelling at the cursor and moves one character on |
| Scanning.DispatchOnColon | src/lexer.c:63-72 | at a ':' an iteration is ColonAction: when another ':' follows, it pushes "::" located at that second colon and moves past it; otherwise it pushes ":" at the cursor and moves one character on |
| Scanning.DispatchOnSlash | src/lexer.c:85-96 | at a '/' an iteration is SlashAction: when another '/' follows, it pushes nothing and moves to the next newline or the end; otherwise it pushes "/" at the cursor and moves one character on |
| Scanning.DispatchOnQuote | src/lexer.c:124-157 | at a '"' an iteration is StringAction: with no later quote it fails as an unterminated string on the line at the end of the source; otherwise it pushes the text between the quotes, located at the closing quote, and moves past that quote |
| Scanning.DispatchOnDigit | src/lexer.c:158-187 | at a digit an iteration is NumberAction: it pushes the text up to NumberEnd, located just past it, and moves there |
| Scanning.DispatchOnLetter | src/lexer.c:188-190 | at a letter an iteration is IdentifierAction: it pushes the maximal run of letters, digits and '_' with KeywordKind of that run as its kind, located just past it, and moves there |
| Scanning.Pushed | src/lexer.c:240-265 | an iteration pushes exactly one entry when it emits a token and none otherwise |
| Scanning.ScanFrom | src/lexer.c:28-205 | the main loop only appends to what was already pushed |
| Scanning.ScanFromEnds | src/lexer.c:202-204 | from any point, a run that succeeds ends with the end marker, located at the end of the source |
| Scanning.Scan | src/lexer.c:13-205 | a run from a freshly initialised scanner that succeeds ends with the end marker, located at the end of the source |
| Scanner.GrownCapacity | src/lexer.c:270 | the new capacity is larger than the old one: 8 from 0, otherwise doubled |
| Scanner.Lexer.constructor | src/lexer.c:13-26 | the cursor and line start are at the start, the line is 1, and there are no tokens and no capacity |
| Scanner.Lexer.EnsureCapacity | src/lexer.c:267-284 | afterwards count < capacity. Storage grows to GrownCapacity only when full, into two fresh arrays of equal capacity. Stored entries, the cursor and the line fields are unchanged |
| Scanner.Lexer.Push | src/lexer.c:240-265 | appends exactly one entry: the kind, the lexeme copy and its length, located at the current line, cursor minus line start, and cursor. The length is that of the copy, so the lexeme must hold no NUL. Earlier entries, the cursor and the line fields are unchanged; the capacity stays when there was a free slot and otherwise becomes GrownCapacity, with both arrays replaced by fresh ones |
| Scanner.Lexer.AdvanceWhile | src/lexer.c:89-292 | the comment, digit and identifier loops (lines 89-91, 162-164, 169-171 and 290-292) stop exactly at RunEnd |
| Scanner.Lexer.AdvanceCountingLines | src/lexer.c:129-136 | the string loop stops at the next quote or the end, and leaves the line and line start right for where it stops |
| Scanner.Lexer.AdvanceOverNumber | src/lexer.c:160-172 | the number loops stop at NumberEnd, and a number never spans a newline |
| Scanner.Lexer.HandleIdentifier | src/lexer.c:286-321 | consumes the maximal identifier run and pushes it as KeywordKind of its text, located just past it |
| Scanner.Lexer.SkipComment | src/lexer.c:85-92 | skips "//" and everything up to, not past, the next newline. Nothing is pushed |
| Scanner.Lexer.ScanString | src/lexer.c:124-157 | succeeds exactly when a closing quote follows. It then pushes the text strictly between the quotes, located at the closing quote, and steps past it. Otherwise it stops at the end with nothing pushed. Lines are tracked throughout |
| Scanner.Lexer.ScanNumber | src/lexer.c:158-187 | consumes up to NumberEnd and pushes that text located just past it |
| Scanner.Lexer.ScanMark | src/lexer.c:42-123 | pushes a one-character mark at its own position and steps past it, as Dispatch says |
| Scanner.Lexer.ScanColon | src/lexer.c:63-72 | "::" is one token located at its second colon; otherwise ":" is pushed |
| Scanner.Lexer.ScanSlash | src/lexer.c:85-96 | "//" starts a comment; otherwise "/" is pushed |
| Scanner.Lexer.Step | src/lexer.c:30-199 | one loop iteration does what Dispatch says: the same cursor move and the same pushed entry, or failure with nothing pushed |
| Scanner.Lexer.Run | src/lexer.c:28-205 | the entries pushed are exactly those of ScanFrom. The result is 0 on success and -1 on either error |
| Scanner.Lexer.Free | src/lexer.c:231-237 | count, capacity and line number become 0 and the storage is released, with the line start left as it was |
| Scanner.Tokenize | src/lexer.c:13-205 | init then run returns 0 exactly when Scan succeeds. The stored token and location arrays are exactly Scan's entries |
| ScanProperties.LineOfCountsNewlines | src/lexer.c:37-41 | the line at a position is 1 plus the number of newlines before it |
| ScanProperties.LineOfMonotone | src/lexer.c:37-41 | the line never decreases as the cursor moves forward |
| ScanProperties.NumberEndShape | src/lexer.c:158-172 | a numeric literal is a digit, then digits with at most one '.'; it is maximal, and a trailing '.' belongs to it |
| ScanProperties.ColonMatchesSource | src/lexer.c:63-72 | ":" and "::" carry their spelling, which ends at the cursor's character, and a single ":" is never followed by another ":" |
| ScanProperties.SingleCharMatchesSource | src/lexer.c:42-123 | a one-character mark carries its spelling, which is the character under the cursor |
| ScanProperties.StringMatchesSource | src/lexer.c:126-157 | a string literal carries exactly the text between its quotes, which holds no quote, located at the closing quote |
| ScanProperties.NumberMatchesSource | src/lexer.c:158-187 | a numeric literal carries its source text in number shape, ending where it is located |
| ScanProperties.IdentifierMatchesSource | src/lexer.c:286-321 | an identifier or keyword carries its maximal source text, and its kind is that text's keyword kind |
| ScanProperties.DispatchMatchesSource | src/lexer.c:30-199 | whatever one iteration pushes agrees with the source |
| ScanProperties.DispatchNeverEmitsEof | src/lexer.c:30-199 | no iteration of the main loop pushes an end marker |
| ScanProperties.ScanFromMatchesSource | src/lexer.c:28-205 | every entry of a run agrees with the source, given that the earlier ones did |
| ScanProperties.ScanFromOrdered | src/lexer.c:28-205 | offsets stay in order through the rest of a run |
| ScanProperties.ScanFromEndMarker | src/lexer.c:202-204 | from any point, a run that succeeds has no end marker before its last entry, and one that fails adds none |
| ScanProperties.ScanMatchesSource | src/lexer.c:28-205 | every entry is located by LocAt at its offset and carries a lexeme copy with its length. The lexeme is the source text the token stands for: exact spelling (a ":" not followed by ":", a "/" not followed by "/"), string body, maximal number or identifier. The end marker has no lexeme and sits at the end |
| ScanProperties.ScanOrdered | src/lexer.c:28-205 | along the token stream, offsets and lines never decrease |
| ScanProperties.ScanEndMarker | src/lexer.c:202-204 | a successful run ends with exactly one end marker, located at the end of the source. A failed run pushes no end marker |
| Accounting.DispatchSkips | src/lexer.c:32-41 | what an iteration skips is blanks, a newline, or a "//" comment up to the next newline |
| Accounting.DispatchSpan | src/lexer.c:42-187 | the entry an iteration pushes stands for exactly the text the cursor moves over |
| Accounting.SkipStep | src/lexer.c:32-41 | at a blank, a newline or a "//", an iteration skips it and stays inside the skippable text |
| Accounting.ColonAt | src/lexer.c:63-72 | where a ":" that agrees with the source (not followed by ':') is located, the ':' branch pushes exactly it |
| Accounting.DoubleColonAt | src/lexer.c:63-72 | a "::" that agrees with the source is pushed by the ':' branch one character before where it is located |
| Accounting.SlashAt | src/lexer.c:85-96 | where a "/" that agrees with the source (not followed by '/') is located, the '/' branch pushes exactly it |
| Accounting.SingleCharAt | src/lexer.c:42-123 | where a one-character mark that agrees with the source is located, the switch pushes exactly it |
| Accounting.MarkAt | src/lexer.c:42-123 | where any punctuation mark that agrees with the source starts, one iteration pushes exactly it and steps past it |
| Accounting.MarkDispatch | src/lexer.c:42-123 | where any punctuation entry that agrees with the source starts, one iteration pushes exactly it |
| Accounting.StringAt | src/lexer.c:126-157 | at the opening quote of a string literal that agrees with the source, the string branch pushes exactly its body, located at its closing quote |
| Accounting.StringDispatch | src/lexer.c:126-157 | where a string literal that agrees with the source starts, one iteration pushes exactly it and steps past its closing quote |
| Accounting.NumberEndAt | src/lexer.c:160-172 | the number loops stop exactly at the end of any numeric literal that agrees with the source |
| Accounting.NumberAt | src/lexer.c:158-187 | at the first digit of a numeric literal that agrees with the source, the digit branch pushes exactly that literal, located just past it |
| Accounting.NumberDispatch | src/lexer.c:158-187 | where a numeric literal that agrees with the source starts, one iteration pushes exactly it |
| Accounting.WordAt | src/lexer.c:286-321 | at the first letter of an identifier or keyword that agrees with the source, handle_identifier pushes exactly it with its kind, located just past it |
| Accounting.WordDispatch | src/lexer.c:286-321 | where an identifier or keyword that agrees with the source starts, one iteration pushes exactly it |
| Accounting.EntryDispatch | src/lexer.c:30-199 | where any token entry that agrees with the source starts, one iteration pushes exactly that entry and moves to the end of its span |
| Accounting.FailAccounted | src/lexer.c:126-195 | a failing iteration is at an invalid character, or at a quote with no quote after it, and is reported with the right line |
| Accounting.ScanFromAccounts | src/lexer.c:28-205 | if the entries so far account for the text up to the cursor, a success accounts for the whole source and a failure happens where the entries pushed account for the text before it |
| Accounting.EmitAt | src/lexer.c:30-199 | at the start of an entry that agrees with the source, the main loop pushes it and continues at the end of its span |
| Accounting.SkipAt | src/lexer.c:32-41 | at the start of skippable text, the main loop skips without pushing and stays inside it |
| Accounting.ScanFromFollowsAccount | src/lexer.c:28-205 | if token entries account for the rest of the source, the run from the cursor succeeds and pushes exactly them, then the end marker |
| Accounting.ScanAccountsForSource | src/lexer.c:28-205 | a successful run's entries before the end marker are tokens that agree with the source, and their spans tile it in order, without overlap, with only blanks, newlines and comments between them |
| Accounting.ScanIsTheOnlyAccount | src/lexer.c:28-205 | any tiling of the whole source by token entries that agree with it is exactly what the run pushes, followed by the end marker |
| Accounting.ScanSucceeds | src/lexer.c:28-205 | a run succeeds exactly when the source can be tiled by token entries that agree with it |
| Accounting.ScanFailure | src/lexer.c:126-195 | a run fails at a position up to which the pushed entries account for the text. An invalid character there cannot start anything and is reported with its line. An unterminated string starts there with no quote after it and is reported with the line at the end of the source |
| ScanExamples.EmptySource | src/lexer.c:202-204 | empty text gives only the end marker, at line 1, column 0, offset 0 |
| ScanExamples.TripleColon | src/lexer.c:63-72 | ":::" gives "::" at the second colon, then ":", then the end marker |
| ScanExamples.CommentStopsAtNewline | src/lexer.c:85-92 | a comment is dropped but its newline still counts: the next identifier is on line 2 |
| ScanExamples.MultiLineString | src/lexer.c:126-157 | a string spanning a newline keeps that newline, is located on line 2 at its closing quote, and moves later columns to line 2 |
| ScanExamples.KeywordNeedsWholeRun | src/lexer.c:304-317 | "iffy" is an identifier and "if" a keyword, both with their text |
| ScanExamples.SecondDotEndsNumber | src/lexer.c:158-172 | "1.2.3" is the number "1.2", a period and the number "3" |
| ScanExamples.TrailingDotInNumber | src/lexer.c:166-172 | "12." is one numeric literal |
| ScanExamples.UnterminatedStringFails | src/lexer.c:138-141 | a quote with no closing quote fails on its line with nothing pushed |
| ScanExamples.InvalidCharacterFails | src/lexer.c:191-195 | an invalid character fails on its line, keeps the tokens before it, and adds no end marker |
| TypeNames.TypeNameAsWritten | src/lexer.c:323-391 | as written, every kind other than "::" gets a name other than the fallback |
| TypeNames.DoubleColonIsUnnamed | src/lexer.c:323-391 | as written, a kind gets the fallback name exactly when it is "::" |
| TypeNames.TypeName | src/lexer.c:323-391 | corrected: no kind gets the fallback name, and every other kind keeps its name as written |
| TypeNames.KindNamedInverts | src/lexer.c:323-391 | corrected: every kind is recovered from its name |
| TypeNames.TypeNameInjective | src/lexer.c:323-391 | corrected: no two kinds share a name |

## Left out

- The command-line and interactive driver (src/jam.c) is not part of this model. `Scanner.Tokenize` stands for its init-then-run use.
- Allocation failure: `malloc`, `realloc` and `strdup` failing end the process with `exit`. The model has unbounded memory and no such path.
- Lexeme ownership: string literals, numbers and identifiers are first copied into a scratch buffer, which is freed once `push_token` has copied it again with `strdup` (src/lexer.c:143-154, 174-184, 294-320). Punctuation marks pass a string constant, which `push_token` copies once. `lexer_free`'s loop frees only the copies of literals, identifiers and keywords (src/lexer.c:211-221). This is memory management, not scanning behaviour. A lexeme is modelled as a value.
- Scanner.Lexer.Free: does not model setting `start`, `current`, `tokens` and `locations` to NULL. Index fields cannot be NULL, so the cursor is left unchanged and the arrays become empty.
- Diagnostics: the text printed to stderr is not modelled. The error kind, the line and the offending character are kept in `Status`, and the result is 0 or -1.
- Machine integers: `size_t` arithmetic is modelled unbounded. Capacity doubling cannot wrap in the model.
- Text is a sequence of characters, not of bytes. Offsets, columns and lexeme lengths count characters, so they equal the C code's byte counts only for ASCII text. A character beyond ASCII is one character here but several bytes in UTF-8 (it is never a letter or a digit, so it fails the run either way, unless it is inside a string or a comment).
- Character classes are ASCII `isdigit`, `isalpha` and `isalnum` in the C locale. Characters beyond ASCII are never letters or digits.
- The cursor loops in the digit, comment, string and identifier branches advance a local index, and the field `current` is then set once. The line counter in the string loop is handled the same way. Fields in the C code move a step at a time, but no other code can observe the difference.
- src/lexer.h (the struct and enum declarations) is not part of this model. Its content is read from its use in src/lexer.c.

## Findings

| source | as written | input that shows it | evidently intended | confidence | as-written member | corrected member |
|---|---|---|---|---|---|---|
| src/lexer.c:323-391 | `token_type_to_string` has no case for `tok_double_colon`, so "::" is named "Unknown Token Type" | the kind of the token scanned from "::" | "::" has a name of its own, like every other kind | not executed | TypeNames.DoubleColonIsUnnamed | TypeNames.TypeName |
