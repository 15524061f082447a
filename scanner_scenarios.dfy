/**
 * The scanner unit tests, replayed on their own inputs through the model:
 * each lemma states the tokens successive scanToken calls give, with the
 * cursor and line each call leaves behind for the next one.
 */
module ScannerScenarios {
  import opened Scanning
  import opened ScanningProperties

  /** A run of digits ends at the first non-digit. */
  lemma {:induction false} DigitsRun(src: string, pos: nat, end: nat)
    requires pos <= end <= |src|
    requires forall k | pos <= k < end :: IsDigit(src[k])
    requires !IsDigit(Peek(src, end))
    ensures DigitsEnd(src, pos) == end
    decreases end - pos
  {
    DigitsEndStep(src, pos);
    if pos < end {
      DigitsRun(src, pos + 1, end);
    }
  }

  /** "123": one number token of length 3 on line 1. */
  lemma IntegerNumber()
    ensures ScanFrom("123", 0, 1) == Scanned(Token(Number, Span(0, 3), 1), Cursor(3, 1))
  {
    DigitsRun("123", 1, 3);
  }

  /** "45.67": the fraction belongs to the number, length 5. */
  lemma DecimalNumber()
    ensures ScanFrom("45.67", 0, 1) == Scanned(Token(Number, Span(0, 5), 1), Cursor(5, 1))
  {
    DigitsRun("45.67", 1, 2);
    DigitsRun("45.67", 3, 5);
  }

  /** A comment body runs to the first newline, or to the end. */
  lemma {:induction false} CommentRun(src: string, pos: nat, end: nat)
    requires pos <= end <= |src|
    requires forall k | pos <= k < end :: src[k] != '\n' && src[k] != '\0'
    requires Peek(src, end) == '\n' || AtEnd(src, end)
    ensures CommentEnd(src, pos) == end
    decreases end - pos
  {
    CommentEndStep(src, pos);
    if pos < end {
      CommentRun(src, pos + 1, end);
    }
  }

  /** A string body runs to the first quote, or to the end, counting its newlines. */
  lemma {:induction false} StringRun(src: string, pos: nat, end: nat, line: int)
    requires pos <= end <= |src|
    requires forall k | pos <= k < end :: src[k] != '"' && src[k] != '\0'
    requires Peek(src, end) == '"' || AtEnd(src, end)
    ensures StringEnd(src, pos, line) == Cursor(end, line + Newlines(src[pos..end]))
    decreases end - pos
  {
    StringEndStep(src, pos, line);
    if pos < end {
      assert src[pos..end] == [src[pos]] + src[pos + 1..end];
      StringRun(src, pos + 1, end, if src[pos] == '\n' then line + 1 else line);
    }
  }

  /** A run of letters, digits and underscores ends at the first other character. */
  lemma {:induction false} IdentRun(src: string, pos: nat, end: nat)
    requires pos <= end <= |src|
    requires forall k | pos <= k < end :: IsAlpha(src[k]) || IsDigit(src[k])
    requires !IsAlpha(Peek(src, end)) && !IsDigit(Peek(src, end))
    ensures IdentEnd(src, pos) == end
    decreases end - pos
  {
    IdentEndStep(src, pos);
    if pos < end {
      IdentRun(src, pos + 1, end);
    }
  }

  /** A number without a fraction, where the skipped trivia ends. */
  lemma IntegerAt(src: string, pos: nat, line: int, t: Cursor, end: nat)
    requires pos <= |src| && SkipTrivia(src, pos, line) == t
    requires t.pos < end <= |src|
    requires forall k | t.pos <= k < end :: IsDigit(src[k])
    requires !IsDigit(Peek(src, end)) && Peek(src, end) != '.'
    ensures ScanFrom(src, pos, line) == Scanned(Token(Number, Span(t.pos, end - t.pos), t.line), Cursor(end, t.line))
  {
    DigitsRun(src, t.pos + 1, end);
  }

  /** An identifier or keyword, where the skipped trivia ends. */
  lemma WordAt(src: string, pos: nat, line: int, t: Cursor, end: nat)
    requires pos <= |src| && SkipTrivia(src, pos, line) == t
    requires t.pos < end <= |src| && IsAlpha(src[t.pos])
    requires forall k | t.pos < k < end :: IsAlpha(src[k]) || IsDigit(src[k])
    requires !IsAlpha(Peek(src, end)) && !IsDigit(Peek(src, end))
    ensures ScanFrom(src, pos, line)
      == Scanned(Token(IdentifierType(src[t.pos..end]), Span(t.pos, end - t.pos), t.line), Cursor(end, t.line))
  {
    IdentRun(src, t.pos + 1, end);
  }

  const Numbers: string := "123 45.67 0.5"

  /** "123 45.67 0.5", first call: the number 123, length 3. */
  lemma FirstOfNumbers()
    ensures ScanFrom(Numbers, 0, 1) == Scanned(Token(Number, Span(0, 3), 1), Cursor(3, 1))
  {
    SkipTriviaStops(Numbers, 0, 1);
    IntegerAt(Numbers, 0, 1, Cursor(0, 1), 3);
  }

  /** Second call: the blank is skipped and 45.67 is one number, length 5. */
  lemma SecondOfNumbers()
    ensures ScanFrom(Numbers, 3, 1) == Scanned(Token(Number, Span(4, 5), 1), Cursor(9, 1))
  {
    SkipTriviaStep(Numbers, 3, 1);
    SkipTriviaStops(Numbers, 4, 1);
    DigitsRun(Numbers, 5, 6);
    DigitsRun(Numbers, 7, 9);
  }

  /** Third call: 0.5, length 3; a fourth call finds the end. */
  lemma ThirdOfNumbers()
    ensures ScanFrom(Numbers, 9, 1) == Scanned(Token(Number, Span(10, 3), 1), Cursor(13, 1))
    ensures ScanFrom(Numbers, 13, 1).token.kind == Eof
  {
    SkipTriviaStep(Numbers, 9, 1);
    SkipTriviaStops(Numbers, 10, 1);
    DigitsRun(Numbers, 11, 11);
    DigitsRun(Numbers, 12, 13);
  }

  const Quoted: string := "\"hello world\""

  /** The body of "hello world" ends at the closing quote, on the same line. */
  lemma BodyOfQuoted()
    ensures StringEnd(Quoted, 1, 1) == Cursor(12, 1)
  {
    assert Newlines(Quoted[1..12]) == 0 by {
      NoNewlines(Quoted, 1, 12);
    }
    StringRun(Quoted, 1, 12, 1);
  }

  /** A string token includes both quotes: 13 characters for "hello world". */
  lemma QuotedString()
    ensures ScanFrom(Quoted, 0, 1) == Scanned(Token(String, Span(0, 13), 1), Cursor(13, 1))
  {
    BodyOfQuoted();
    SkipTriviaStops(Quoted, 0, 1);
    assert ScanFrom(Quoted, 0, 1) == ScanString(Quoted, 0, 1);
  }

  /** A quote with no closing quote gives the "Unterminated string." error. */
  lemma UnterminatedQuote()
    ensures ScanFrom("\"hello", 0, 1).token == Token(Error, Message(UnterminatedString), 1)
  {
    assert Newlines("\"hello"[1..6]) == 0 by {
      NoNewlines("\"hello", 1, 6);
    }
    StringRun("\"hello", 1, 6, 1);
  }

  /** "@" starts no token: an error token, and the cursor moves past it. */
  lemma UnexpectedAt()
    ensures ScanFrom("@", 0, 1) == Scanned(Token(Error, Message(UnexpectedCharacter), 1), Cursor(1, 1))
  {
  }

  const Blanks: string := "  \t\r\n  123  \n\n  456  "

  /** Two blanks, a tab, a carriage return, a newline and two blanks: one line down. */
  lemma LeadingBlanks(src: string, pos: nat, line: int)
    requires pos + 7 < |src| && src[pos] == ' ' && src[pos + 1] == ' ' && src[pos + 2] == '\t'
    requires src[pos + 3] == '\r' && src[pos + 4] == '\n' && src[pos + 5] == ' ' && src[pos + 6] == ' '
    requires IsDigit(src[pos + 7])
    ensures SkipTrivia(src, pos, line) == Cursor(pos + 7, line + 1)
  {
    SkipTriviaStep(src, pos, line);
    SkipTriviaStep(src, pos + 1, line);
    SkipTriviaStep(src, pos + 2, line);
    SkipTriviaStep(src, pos + 3, line);
    SkipTriviaStep(src, pos + 4, line);
    SkipTriviaStep(src, pos + 5, line + 1);
    SkipTriviaStep(src, pos + 6, line + 1);
    SkipTriviaStops(src, pos + 7, line + 1);
  }

  /** Blanks leave the line alone and the newline counts: 123 is on line 2. */
  lemma FirstAfterBlanks()
    ensures ScanFrom(Blanks, 0, 1) == Scanned(Token(Number, Span(7, 3), 2), Cursor(10, 2))
  {
    LeadingBlanks(Blanks, 0, 1);
    IntegerAt(Blanks, 0, 1, Cursor(7, 2), 10);
  }

  /** Two blanks, two newlines and two blanks: two lines down. */
  lemma MiddleBlanks(src: string, pos: nat, line: int)
    requires pos + 6 < |src| && src[pos] == ' ' && src[pos + 1] == ' ' && src[pos + 2] == '\n'
    requires src[pos + 3] == '\n' && src[pos + 4] == ' ' && src[pos + 5] == ' ' && IsDigit(src[pos + 6])
    ensures SkipTrivia(src, pos, line) == Cursor(pos + 6, line + 2)
  {
    SkipTriviaStep(src, pos, line);
    SkipTriviaStep(src, pos + 1, line);
    SkipTriviaStep(src, pos + 2, line);
    SkipTriviaStep(src, pos + 3, line + 1);
    SkipTriviaStep(src, pos + 4, line + 2);
    SkipTriviaStep(src, pos + 5, line + 2);
    SkipTriviaStops(src, pos + 6, line + 2);
  }

  /** Two more newlines: 456 is on line 4. */
  lemma SecondAfterBlanks()
    ensures ScanFrom(Blanks, 10, 2) == Scanned(Token(Number, Span(16, 3), 4), Cursor(19, 4))
  {
    MiddleBlanks(Blanks, 10, 2);
    IntegerAt(Blanks, 10, 2, Cursor(16, 4), 19);
  }

  const Commented: string := "123 // this is a comment\n456"

  /** The comment runs from its slashes to the newline at 24. */
  lemma CommentOfCommented()
    ensures CommentEnd(Commented, 4) == 24
  {
    CommentRun(Commented, 4, 24);
  }

  /** The blank and the comment after 123 are skipped together. */
  lemma CommentedSkipsComment(src: string)
    requires src == Commented
    ensures SkipTrivia(src, 3, 1) == SkipTrivia(src, 24, 1)
  {
    CommentOfCommented();
    SkipTriviaStep(src, 3, 1);
    SkipTriviaStep(src, 4, 1);
  }

  /** The newline that ends the comment is counted. */
  lemma CommentedSkipsNewline(src: string)
    requires src == Commented
    ensures SkipTrivia(src, 24, 1) == Cursor(25, 2)
  {
    SkipTriviaStep(src, 24, 1);
    SkipTriviaStops(src, 25, 2);
  }

  /** "123 // this is a comment\n456", first call: the number 123 on line 1. */
  lemma FirstOfCommented()
    ensures ScanFrom(Commented, 0, 1) == Scanned(Token(Number, Span(0, 3), 1), Cursor(3, 1))
  {
    SkipTriviaStops(Commented, 0, 1);
    IntegerAt(Commented, 0, 1, Cursor(0, 1), 3);
  }

  /** A comment is skipped up to its newline, which still counts: 456 is on line 2. */
  lemma AfterComment()
    ensures ScanFrom(Commented, 3, 1) == Scanned(Token(Number, Span(25, 3), 2), Cursor(28, 2))
  {
    CommentedSkipsComment(Commented);
    CommentedSkipsNewline(Commented);
    IntegerAt(Commented, 3, 1, Cursor(25, 2), 28);
  }

  const Lines: string := "123\n456\n789"

  /** One newline between tokens moves the next token one line down. */
  lemma NextLine(src: string, pos: nat, line: int)
    requires pos + 4 <= |src| && src[pos] == '\n'
    requires IsDigit(src[pos + 1]) && IsDigit(src[pos + 2]) && IsDigit(src[pos + 3])
    requires Peek(src, pos + 4) == '\n' || AtEnd(src, pos + 4)
    ensures ScanFrom(src, pos, line) == Scanned(Token(Number, Span(pos + 1, 3), line + 1), Cursor(pos + 4, line + 1))
  {
    SkipTriviaStep(src, pos, line);
    SkipTriviaStops(src, pos + 1, line + 1);
    IntegerAt(src, pos, line, Cursor(pos + 1, line + 1), pos + 4);
  }

  /** "123\n456\n789": the three numbers are on lines 1, 2 and 3. */
  lemma LineTracking()
    ensures ScanFrom(Lines, 0, 1) == Scanned(Token(Number, Span(0, 3), 1), Cursor(3, 1))
    ensures ScanFrom(Lines, 3, 1) == Scanned(Token(Number, Span(4, 3), 2), Cursor(7, 2))
    ensures ScanFrom(Lines, 7, 2) == Scanned(Token(Number, Span(8, 3), 3), Cursor(11, 3))
  {
    SkipTriviaStops(Lines, 0, 1);
    IntegerAt(Lines, 0, 1, Cursor(0, 1), 3);
    NextLine(Lines, 3, 1);
    NextLine(Lines, 7, 2);
  }

  const NearKeywords: string := "ifx for4 variable"

  /** Keywords match whole lexemes only: ifx is an identifier. */
  lemma IfxIsIdentifier()
    ensures ScanFrom(NearKeywords, 0, 1) == Scanned(Token(Identifier, Span(0, 3), 1), Cursor(3, 1))
  {
    assert IdentifierType(NearKeywords[0..3]) == Identifier;
    SkipTriviaStops(NearKeywords, 0, 1);
    WordAt(NearKeywords, 0, 1, Cursor(0, 1), 3);
  }

  /** for4 is an identifier. */
  lemma For4IsIdentifier()
    ensures ScanFrom(NearKeywords, 3, 1) == Scanned(Token(Identifier, Span(4, 4), 1), Cursor(8, 1))
  {
    assert IdentifierType(NearKeywords[4..8]) == Identifier;
    assert SkipTrivia(NearKeywords, 3, 1) == Cursor(4, 1) by {
      SkipTriviaStep(NearKeywords, 3, 1);
      SkipTriviaStops(NearKeywords, 4, 1);
    }
    WordAt(NearKeywords, 3, 1, Cursor(4, 1), 8);
  }

  /** variable is an identifier although it starts with the keyword var. */
  lemma VariableIsIdentifier()
    ensures ScanFrom(NearKeywords, 8, 1) == Scanned(Token(Identifier, Span(9, 8), 1), Cursor(17, 1))
  {
    assert IdentifierType(NearKeywords[9..17]) == Identifier;
    assert SkipTrivia(NearKeywords, 8, 1) == Cursor(9, 1) by {
      SkipTriviaStep(NearKeywords, 8, 1);
      SkipTriviaStops(NearKeywords, 9, 1);
    }
    WordAt(NearKeywords, 8, 1, Cursor(9, 1), 17);
  }

  const Words: string := "variable _name test123"

  /** "variable _name test123", first call: variable is an identifier. */
  lemma FirstOfWords()
    ensures ScanFrom(Words, 0, 1) == Scanned(Token(Identifier, Span(0, 8), 1), Cursor(8, 1))
  {
    assert IdentifierType(Words[0..8]) == Identifier;
    SkipTriviaStops(Words, 0, 1);
    WordAt(Words, 0, 1, Cursor(0, 1), 8);
  }

  /** Second call: a leading underscore starts an identifier, _name. */
  lemma SecondOfWords()
    ensures ScanFrom(Words, 8, 1) == Scanned(Token(Identifier, Span(9, 5), 1), Cursor(14, 1))
  {
    assert IdentifierType(Words[9..14]) == Identifier;
    assert SkipTrivia(Words, 8, 1) == Cursor(9, 1) by {
      SkipTriviaStep(Words, 8, 1);
      SkipTriviaStops(Words, 9, 1);
    }
    WordAt(Words, 8, 1, Cursor(9, 1), 14);
  }

  /** Third call: digits may follow the first letter, test123. */
  lemma ThirdOfWords()
    ensures ScanFrom(Words, 14, 1) == Scanned(Token(Identifier, Span(15, 7), 1), Cursor(22, 1))
  {
    assert IdentifierType(Words[15..22]) == Identifier;
    assert SkipTrivia(Words, 14, 1) == Cursor(15, 1) by {
      SkipTriviaStep(Words, 14, 1);
      SkipTriviaStops(Words, 15, 1);
    }
    WordAt(Words, 14, 1, Cursor(15, 1), 22);
  }
}
