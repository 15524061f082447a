/**
 * What one call of scanToken guarantees, stated against the pure scanning
 * functions: keywords, numbers, strings, operators, punctuation, errors and
 * line counting.
 */
module ScanningProperties {
  import opened Wrappers
  import opened Scanning

  /** The keyword trie agrees with exact lookup of the whole lexeme. */
  lemma {:induction false} IdentifierTypeIsKeywordLookup(s: string)
    requires |s| > 0
    ensures IdentifierType(s) == if s in Keywords then Keywords[s] else Identifier
  {
    KeywordsDistinct();
    var kind := IdentifierType(s);
    if s in Keywords {
      SpellingScansBack(Keywords[s]);
    } else if kind != Identifier {
      IdentifierTypeSpells(s);
      SpellingScansBack(kind);
      assert false;
    }
  }

  /** When the trie answers a keyword, the lexeme is that keyword's spelling. */
  lemma {:induction false} IdentifierTypeSpells(s: string)
    requires |s| > 0
    ensures IdentifierType(s) != Identifier ==> s == Spelling(IdentifierType(s))
  {
    if IdentifierType(s) != Identifier {
      if s[0] <= 'n' {
        SpellsAToN(s);
      } else {
        SpellsOToW(s);
      }
    }
  }

  /** The trie's branches for the keywords from `and` to `nil`. */
  lemma SpellsAToN(s: string)
    requires |s| > 0 && s[0] <= 'n' && IdentifierType(s) != Identifier
    ensures s == Spelling(IdentifierType(s))
  {
    match s[0]
    case 'a' =>
      assert IdentifierType(s) == And;
      Spelled(s, 1, "nd", "and", And);
    case 'c' =>
      assert IdentifierType(s) == Class;
      Spelled(s, 1, "lass", "class", Class);
    case 'e' =>
      assert IdentifierType(s) == Else;
      Spelled(s, 1, "lse", "else", Else);
    case 'f' =>
      match s[1] {
        case 'a' =>
          assert IdentifierType(s) == False;
          Spelled(s, 2, "lse", "false", False);
        case 'o' =>
          assert IdentifierType(s) == For;
          Spelled(s, 2, "r", "for", For);
        case 'u' =>
          assert IdentifierType(s) == Fun;
          Spelled(s, 2, "n", "fun", Fun);
        case _ => assert false;
      }
    case 'i' =>
      assert IdentifierType(s) == If;
      Spelled(s, 1, "f", "if", If);
    case 'n' =>
      assert IdentifierType(s) == Nil;
      Spelled(s, 1, "il", "nil", Nil);
    case _ => assert false;
  }

  /** The trie's branches for the keywords from `or` to `while`. */
  lemma SpellsOToW(s: string)
    requires |s| > 0 && 'n' < s[0] && IdentifierType(s) != Identifier
    ensures s == Spelling(IdentifierType(s))
  {
    match s[0]
    case 'o' =>
      assert IdentifierType(s) == Or;
      Spelled(s, 1, "r", "or", Or);
    case 'p' =>
      assert IdentifierType(s) == Print;
      Spelled(s, 1, "rint", "print", Print);
    case 'r' =>
      assert IdentifierType(s) == Return;
      Spelled(s, 1, "eturn", "return", Return);
    case 's' =>
      assert IdentifierType(s) == Super;
      Spelled(s, 1, "uper", "super", Super);
    case 't' =>
      match s[1] {
        case 'h' =>
          assert IdentifierType(s) == This;
          Spelled(s, 2, "is", "this", This);
        case 'r' =>
          assert IdentifierType(s) == True;
          Spelled(s, 2, "ue", "true", True);
        case _ => assert false;
      }
    case 'v' =>
      assert IdentifierType(s) == Var;
      Spelled(s, 1, "ar", "var", Var);
    case 'w' =>
      assert IdentifierType(s) == While;
      Spelled(s, 1, "hile", "while", While);
    case _ => assert false;
  }

  /** A lexeme that starts like `word` and whose rest matches is `word`. */
  lemma Spelled(s: string, start: nat, rest: string, word: string, kind: TokenType)
    requires start <= |s| && start <= |word| && word[start..] == rest
    requires forall i | 0 <= i < start :: s[i] == word[i]
    requires CheckKeyword(s, start, rest, kind) == kind && kind != Identifier
    ensures s == word
  {
    assert s == s[..start] + s[start..];
    assert word == word[..start] + word[start..];
  }

  /** Each keyword's spelling is in the table and the trie recognises it. */
  lemma SpellingScansBack(kind: TokenType)
    requires IsKeywordType(kind)
    ensures Spelling(kind) in Keywords && Keywords[Spelling(kind)] == kind
    ensures IdentifierType(Spelling(kind)) == kind
  {
    SpellingLooksUp(kind);
    if kind == And || kind == Class || kind == Else || kind == False
      || kind == For || kind == Fun || kind == If || kind == Nil {
      EarlySpellingScansBack(kind);
    } else {
      LateSpellingScansBack(kind);
    }
  }

  lemma EarlySpellingScansBack(kind: TokenType)
    requires kind == And || kind == Class || kind == Else || kind == False
      || kind == For || kind == Fun || kind == If || kind == Nil
    ensures IdentifierType(Spelling(kind)) == kind
  {
  }

  lemma LateSpellingScansBack(kind: TokenType)
    requires kind == Or || kind == Print || kind == Return || kind == Super
      || kind == This || kind == True || kind == Var || kind == While
    ensures IdentifierType(Spelling(kind)) == kind
  {
  }

  /** Each keyword's spelling is in the table, under that keyword. */
  lemma SpellingLooksUp(kind: TokenType)
    requires IsKeywordType(kind)
    ensures Spelling(kind) in Keywords && Keywords[Spelling(kind)] == kind
  {
    if kind == And || kind == Class || kind == Else || kind == False
      || kind == For || kind == Fun || kind == If || kind == Nil {
      EarlySpellingLooksUp(kind);
    } else {
      LateSpellingLooksUp(kind);
    }
  }

  lemma EarlySpellingLooksUp(kind: TokenType)
    requires kind == And || kind == Class || kind == Else || kind == False
      || kind == For || kind == Fun || kind == If || kind == Nil
    ensures Spelling(kind) in Keywords && Keywords[Spelling(kind)] == kind
  {
  }

  lemma LateSpellingLooksUp(kind: TokenType)
    requires kind == Or || kind == Print || kind == Return || kind == Super
      || kind == This || kind == True || kind == Var || kind == While
    ensures Spelling(kind) in Keywords && Keywords[Spelling(kind)] == kind
  {
  }

  lemma KeywordsMembership(s: string)
    ensures s in Keywords <==>
      || s == "and" || s == "class" || s == "else" || s == "false"
      || s == "for" || s == "fun" || s == "if" || s == "nil"
      || s == "or" || s == "print" || s == "return" || s == "super"
      || s == "this" || s == "true" || s == "var" || s == "while"
  {
  }

  /** The spelling of each keyword token type: the inverse of the keyword table. */
  function Spelling(kind: TokenType): string
    requires IsKeywordType(kind)
  {
    match kind
    case And => "and"
    case Class => "class"
    case Else => "else"
    case False => "false"
    case For => "for"
    case Fun => "fun"
    case If => "if"
    case Nil => "nil"
    case Or => "or"
    case Print => "print"
    case Return => "return"
    case Super => "super"
    case This => "this"
    case True => "true"
    case Var => "var"
    case While => "while"
  }

  /**
   * Each keyword maps to a keyword token type of its own: the table can be
   * read backwards, so no two keywords share a type.
   */
  lemma KeywordsDistinct()
    ensures forall w | w in Keywords :: IsKeywordType(Keywords[w]) && Spelling(Keywords[w]) == w
    ensures forall w, v | w in Keywords && v in Keywords && w != v :: Keywords[w] != Keywords[v]
  {
    forall w | w in Keywords
      ensures IsKeywordType(Keywords[w]) && Spelling(Keywords[w]) == w
    {
      KeywordSpelledBack(w);
    }
  }

  /** A keyword of the table is the spelling of its own token type. */
  lemma KeywordSpelledBack(w: string)
    requires w in Keywords
    ensures IsKeywordType(Keywords[w]) && Spelling(Keywords[w]) == w
  {
    KeywordsMembership(w);
    if w == "and" || w == "class" || w == "else" || w == "false" {
      SpelledBackAndToFalse(w);
    } else if w == "for" || w == "fun" || w == "if" || w == "nil" {
      SpelledBackForToNil(w);
    } else if w == "or" || w == "print" || w == "return" || w == "super" {
      SpelledBackOrToSuper(w);
    } else {
      SpelledBackThisToWhile(w);
    }
  }

  lemma SpelledBackAndToFalse(w: string)
    requires w == "and" || w == "class" || w == "else" || w == "false"
    ensures w in Keywords && IsKeywordType(Keywords[w]) && Spelling(Keywords[w]) == w
  {
  }

  lemma SpelledBackForToNil(w: string)
    requires w == "for" || w == "fun" || w == "if" || w == "nil"
    ensures w in Keywords && IsKeywordType(Keywords[w]) && Spelling(Keywords[w]) == w
  {
  }

  lemma SpelledBackOrToSuper(w: string)
    requires w == "or" || w == "print" || w == "return" || w == "super"
    ensures w in Keywords && IsKeywordType(Keywords[w]) && Spelling(Keywords[w]) == w
  {
  }

  lemma SpelledBackThisToWhile(w: string)
    requires w == "this" || w == "true" || w == "var" || w == "while"
    ensures w in Keywords && IsKeywordType(Keywords[w]) && Spelling(Keywords[w]) == w
  {
  }

  /** skipWhitespace adds one to the line for each newline it skips, and nothing else. */
  lemma {:induction false} SkipTriviaCountsLines(src: string, pos: nat, line: int)
    requires pos <= |src|
    ensures var r := SkipTrivia(src, pos, line);
      r.line == line + Newlines(src[pos..r.pos])
    decreases |src| - pos
  {
    var c := Peek(src, pos);
    var r := SkipTrivia(src, pos, line);
    if c == ' ' || c == '\r' || c == '\t' || c == '\n' {
      SkipTriviaCountsLines(src, pos + 1, if c == '\n' then line + 1 else line);
      assert src[pos..r.pos] == [c] + src[pos + 1..r.pos];
    } else if c == '/' && Peek(src, pos + 1) == '/' {
      var end := CommentEnd(src, pos);
      SkipTriviaCountsLines(src, end, line);
      assert src[pos..r.pos] == src[pos..end] + src[end..r.pos];
      NoNewlines(src, pos, end);
    }
  }

  /** Whether the character at `k` is text of a `//` comment opened at `j`, with no newline in between. */
  predicate InComment(src: string, j: nat, k: nat)
  {
    && j <= k < |src|
    && j + 1 < |src| && src[j] == '/' && src[j + 1] == '/'
    && forall m | j <= m <= k :: src[m] != '\n'
  }

  /**
   * Whether a skip starting at `pos` may pass over the character at `k`:
   * a blank, a newline, or the text of a comment opened at or after `pos`.
   */
  predicate Skippable(src: string, pos: nat, k: nat)
    requires k < |src|
  {
    || src[k] == ' ' || src[k] == '\r' || src[k] == '\t' || src[k] == '\n'
    || exists j | pos <= j <= k :: InComment(src, j, k)
  }

  /**
   * skipWhitespace passes over blanks, newlines and comment text only: no
   * character that could begin or belong to a token is ever skipped.
   */
  lemma {:induction false} SkipTriviaSkipsOnlyTrivia(src: string, pos: nat, line: int)
    requires pos <= |src|
    ensures var r := SkipTrivia(src, pos, line);
      forall k | pos <= k < r.pos :: Skippable(src, pos, k)
    decreases |src| - pos
  {
    var c := Peek(src, pos);
    var r := SkipTrivia(src, pos, line);
    if c == ' ' || c == '\r' || c == '\t' || c == '\n' {
      var next := if c == '\n' then line + 1 else line;
      SkipTriviaSkipsOnlyTrivia(src, pos + 1, next);
      assert r == SkipTrivia(src, pos + 1, next);
      forall k | pos <= k < r.pos
        ensures Skippable(src, pos, k)
      {
        if pos < k && !(src[k] == ' ' || src[k] == '\r' || src[k] == '\t' || src[k] == '\n') {
          assert Skippable(src, pos + 1, k);
          var j :| pos + 1 <= j <= k && InComment(src, j, k);
          assert pos <= j;
        }
      }
    } else if c == '/' && Peek(src, pos + 1) == '/' {
      var end := CommentEnd(src, pos);
      SkipTriviaSkipsOnlyTrivia(src, end, line);
      assert r == SkipTrivia(src, end, line);
      forall k | pos <= k < r.pos
        ensures Skippable(src, pos, k)
      {
        if k < end {
          assert InComment(src, pos, k);
        } else if !(src[k] == ' ' || src[k] == '\r' || src[k] == '\t' || src[k] == '\n') {
          assert Skippable(src, end, k);
          var j :| end <= j <= k && InComment(src, j, k);
          assert pos <= j;
        }
      }
    }
  }

  /** The string loop adds one to the line for each newline inside the literal. */
  lemma {:induction false} StringEndCountsLines(src: string, pos: nat, line: int)
    requires pos <= |src|
    ensures var r := StringEnd(src, pos, line);
      r.line == line + Newlines(src[pos..r.pos])
    decreases |src| - pos
  {
    var c := Peek(src, pos);
    if c != '"' && !AtEnd(src, pos) {
      var r := StringEnd(src, pos, line);
      StringEndCountsLines(src, pos + 1, if c == '\n' then line + 1 else line);
      assert src[pos..r.pos] == [c] + src[pos + 1..r.pos];
    }
  }

  /** Every newline consumed by a call is counted, and nothing else is. */
  lemma {:induction false} ScanCountsLines(src: string, pos: nat, line: int)
    requires pos <= |src|
    ensures var r := ScanFrom(src, pos, line);
      r.next.line == line + Newlines(src[pos..r.next.pos])
  {
    var t := SkipTrivia(src, pos, line);
    var r := ScanFrom(src, pos, line);
    SkipTriviaCountsLines(src, pos, line);
    if !AtEnd(src, t.pos) {
      LexemeCountsLines(src, t.pos, t.line);
      assert src[pos..r.next.pos] == src[pos..t.pos] + src[t.pos..r.next.pos];
    }
  }

  lemma {:induction false} LexemeCountsLines(src: string, start: nat, line: int)
    requires start <= |src| && !AtEnd(src, start) && !StartsTrivia(src, start)
    ensures var r := ScanLexeme(src, start, line);
      r.next.line == line + Newlines(src[start..r.next.pos])
  {
    var c := src[start];
    if IsAlpha(c) || IsDigit(c) {
      WordCountsNoLines(src, start, line);
    } else if c == '"' {
      StringCountsLines(src, start, line);
    } else {
      SymbolCountsNoLines(src, start, line);
    }
  }

  lemma WordCountsNoLines(src: string, start: nat, line: int)
    requires start <= |src| && !AtEnd(src, start) && (IsAlpha(src[start]) || IsDigit(src[start]))
    ensures var r := ScanLexeme(src, start, line);
      r.next.line == line + Newlines(src[start..r.next.pos])
  {
    var c := src[start];
    var end := if IsAlpha(c) then IdentEnd(src, start + 1) else NumberEnd(src, start + 1);
    assert ScanLexeme(src, start, line).next == Cursor(end, line);
    NoNewlines(src, start, end);
  }

  lemma StringCountsLines(src: string, start: nat, line: int)
    requires start <= |src| && !AtEnd(src, start) && src[start] == '"'
    ensures var r := ScanLexeme(src, start, line);
      r.next.line == line + Newlines(src[start..r.next.pos])
  {
    var close := StringEnd(src, start + 1, line);
    StringEndCountsLines(src, start + 1, line);
    var r := ScanString(src, start, line);
    assert ScanLexeme(src, start, line) == r;
    QuotesCountNoLines(src, start, close.pos, r.next.pos);
  }

  /** The quotes around a string body add no newlines to it. */
  lemma QuotesCountNoLines(src: string, start: nat, end: nat, stop: nat)
    requires start < end <= stop <= |src| && src[start] == '"'
    requires stop == end || (stop == end + 1 && src[end] == '"')
    ensures Newlines(src[start..stop]) == Newlines(src[start + 1..end])
  {
    var body := src[start + 1..end];
    NewlinesSplit([src[start]], body);
    if stop == end {
      assert src[start..stop] == [src[start]] + body;
    } else {
      assert src[start..stop] == ([src[start]] + body) + [src[end]];
      NewlinesSplit([src[start]] + body, [src[end]]);
    }
  }

  /** Newlines are counted piecewise. */
  lemma NewlinesSplit(a: string, b: string)
    ensures Newlines(a + b) == Newlines(a) + Newlines(b)
  {
    assert multiset(a + b) == multiset(a) + multiset(b);
  }

  lemma SymbolCountsNoLines(src: string, start: nat, line: int)
    requires start <= |src| && !AtEnd(src, start) && !StartsTrivia(src, start)
    requires !IsAlpha(src[start]) && !IsDigit(src[start]) && src[start] != '"'
    ensures var r := ScanLexeme(src, start, line);
      r.next.line == line + Newlines(src[start..r.next.pos])
  {
    var r := ScanLexeme(src, start, line);
    assert r.next.line == line;
    assert r.next.pos == start + 1 || (r.next.pos == start + 2 && src[start + 1] == '=');
    NoNewlines(src, start, r.next.pos);
  }

  lemma NoNewlines(src: string, from: nat, to: nat)
    requires from <= to <= |src|
    requires forall k | from <= k < to :: src[k] != '\n'
    ensures Newlines(src[from..to]) == 0
  {
    assert '\n' !in src[from..to];
  }

  /**
   * A number token is scanned exactly when the first character after the
   * trivia is a digit; its lexeme is a number literal, and the longest one
   * there: no longer stretch of the input is one.
   */
  lemma NumberTokens(src: string, pos: nat, line: int)
    requires pos <= |src|
    ensures var t := SkipTrivia(src, pos, line);
      var r := ScanFrom(src, pos, line);
      && (r.token.kind == Number <==> IsDigit(Peek(src, t.pos)))
      && (r.token.kind == Number ==>
            && IsNumberLexeme(src[t.pos..r.next.pos])
            && forall e | r.next.pos < e <= |src| :: !IsNumberLexeme(src[t.pos..e]))
  {
    var t := SkipTrivia(src, pos, line);
    if IsDigit(Peek(src, t.pos)) {
      NumberIsLongest(src, t.pos);
    }
  }

  lemma {:induction false} NumberIsLongest(src: string, start: nat)
    requires start < |src| && IsDigit(src[start])
    ensures var end := NumberEnd(src, start + 1);
      && IsNumberLexeme(src[start..end])
      && forall e | end < e <= |src| :: !IsNumberLexeme(src[start..e])
  {
    var end := NumberEnd(src, start + 1);
    var d := DigitsEnd(src, start + 1);
    if Peek(src, d) == '.' && IsDigit(Peek(src, d + 1)) {
      var s := src[start..end];
      var k := d - start;
      assert s[k] == '.';
      assert s[..k] == src[start..d];
      assert s[k + 1..] == src[d + 1..end];
      DigitsSlice(src, start, d);
      DigitsSlice(src, d + 1, end);
    } else {
      DigitsSlice(src, start, end);
    }
    forall e | end < e <= |src|
      ensures !IsNumberLexeme(src[start..e])
    {
      NumberNotLonger(src, start, e);
    }
  }

  /** A stretch of digits of the input is, as a string, all digits. */
  lemma DigitsSlice(src: string, from: nat, to: nat)
    requires from <= to <= |src|
    requires forall k | from <= k < to :: IsDigit(src[k])
    ensures AllDigits(src[from..to])
  {
    forall i | 0 <= i < to - from
      ensures IsDigit(src[from..to][i])
    {
      assert src[from..to][i] == src[from + i];
    }
  }

  /** A stretch of input reaching past the scanned number is not a number literal. */
  lemma {:induction false} NumberNotLonger(src: string, start: nat, e: nat)
    requires start < |src| && IsDigit(src[start])
    requires NumberEnd(src, start + 1) < e <= |src|
    ensures !IsNumberLexeme(src[start..e])
  {
    var end := NumberEnd(src, start + 1);
    var d := DigitsEnd(src, start + 1);
    var fraction := Peek(src, d) == '.' && IsDigit(Peek(src, d + 1));
    assert end == if fraction then DigitsEnd(src, d + 1) else d;
    var t := src[start..e];
    assert t[end - start] == src[end] && !IsDigit(src[end]);
    forall k | 0 < k < |t| - 1
      ensures !(t[k] == '.' && AllDigits(t[..k]) && AllDigits(t[k + 1..]))
    {
      if start + k < d {
        assert t[k] == src[start + k] && IsDigit(src[start + k]);
      } else if start + k > d {
        assert t[..k][d - start] == src[d];
      } else if !fraction {
        assert t[k] == src[d] && t[k + 1..][0] == src[d + 1];
      } else {
        assert t[k + 1..][end - d - 1] == src[end];
      }
    }
  }

  /**
   * A string token runs from the opening to the closing quote, both
   * included, with no quote between; a quote with no closing quote before
   * the end gives an error token instead. Only a quote starts either.
   */
  lemma StringTokens(src: string, pos: nat, line: int)
    requires pos <= |src|
    ensures var t := SkipTrivia(src, pos, line);
      var r := ScanFrom(src, pos, line);
      && (r.token.kind == String || r.token.lexeme == Message(UnterminatedString) <==> Peek(src, t.pos) == '"')
      && (r.token.kind == String ==>
            var lexeme := src[t.pos..r.next.pos];
            && |lexeme| >= 2 && lexeme[0] == '"' && lexeme[|lexeme| - 1] == '"'
            && forall k | 0 < k < |lexeme| - 1 :: lexeme[k] != '"')
      && (r.token.lexeme == Message(UnterminatedString) ==>
            && r.token.kind == Error
            && AtEnd(src, r.next.pos)
            && forall k | t.pos < k < r.next.pos :: src[k] != '"')
  {
    var t := SkipTrivia(src, pos, line);
    var r := ScanFrom(src, pos, line);
    if Peek(src, t.pos) == '"' {
      assert r == ScanString(src, t.pos, t.line);
      if r.token.kind == String {
        var lexeme := src[t.pos..r.next.pos];
        forall k | 0 < k < |lexeme| - 1
          ensures lexeme[k] != '"'
        {
          assert lexeme[k] == src[t.pos + k];
        }
      }
    }
  }

  /**
   * A letter or underscore starts an identifier or keyword token, and
   * nothing else does; the lexeme is the longest run of letters, digits and
   * underscores, and it is a keyword exactly when the whole of it is one.
   */
  lemma IdentifierTokens(src: string, pos: nat, line: int)
    requires pos <= |src|
    ensures var t := SkipTrivia(src, pos, line);
      var r := ScanFrom(src, pos, line);
      && (r.token.kind == Identifier || IsKeywordType(r.token.kind) <==> IsAlpha(Peek(src, t.pos)))
      && (IsAlpha(Peek(src, t.pos)) ==>
            var lexeme := src[t.pos..r.next.pos];
            && r.token.kind == (if lexeme in Keywords then Keywords[lexeme] else Identifier)
            && (forall k | 0 <= k < |lexeme| :: IsAlpha(lexeme[k]) || IsDigit(lexeme[k]))
            && !IsAlpha(Peek(src, r.next.pos)) && !IsDigit(Peek(src, r.next.pos)))
  {
    var t := SkipTrivia(src, pos, line);
    var r := ScanFrom(src, pos, line);
    if IsAlpha(Peek(src, t.pos)) {
      assert r == ScanWord(src, t.pos, t.line);
      var lexeme := src[t.pos..r.next.pos];
      IdentifierTypeIsKeywordLookup(lexeme);
      WordCharacters(src, t.pos, r.next.pos);
    }
  }

  /** Every character of a scanned word is a letter, a digit or an underscore. */
  lemma WordCharacters(src: string, start: nat, end: nat)
    requires start < |src| && IsAlpha(src[start]) && end == IdentEnd(src, start + 1)
    ensures forall k | 0 <= k < end - start :: IsAlpha(src[start..end][k]) || IsDigit(src[start..end][k])
  {
    forall k | 0 <= k < end - start
      ensures IsAlpha(src[start..end][k]) || IsDigit(src[start..end][k])
    {
      assert src[start..end][k] == src[start + k];
    }
  }

  /**
   * `!`, `=`, `<` and `>` scan to their two-character form exactly when
   * the next character is `=`, and to their one-character form otherwise.
   */
  lemma OperatorTokens(src: string, pos: nat, line: int)
    requires pos <= |src|
    ensures var t := SkipTrivia(src, pos, line);
      var r := ScanFrom(src, pos, line);
      var c := Peek(src, t.pos);
      c in "!=<>" ==>
        var withEqual := Peek(src, t.pos + 1) == '=';
        r.token.kind == OperatorType(c, withEqual) && r.token.Length() == if withEqual then 2 else 1
  {
    var t := SkipTrivia(src, pos, line);
    if Peek(src, t.pos) in "!=<>" {
      assert ScanFrom(src, pos, line) == ScanSymbol(src, t.pos, t.line);
    }
  }

  /** Each single-character punctuation mark scans to its own one-character token. */
  lemma PunctuationTokens(src: string, pos: nat, line: int)
    requires pos <= |src|
    ensures var t := SkipTrivia(src, pos, line);
      var r := ScanFrom(src, pos, line);
      var c := Peek(src, t.pos);
      PunctuationType(c).Some? ==> r.token.kind == PunctuationType(c).value && r.token.Length() == 1
  {
    var t := SkipTrivia(src, pos, line);
    var c := Peek(src, t.pos);
    if PunctuationType(c).Some? {
      assert !IsAlpha(c) && !IsDigit(c) && c != '"' && c !in "!=<>";
      assert ScanFrom(src, pos, line) == ScanSymbol(src, t.pos, t.line);
    }
  }

  /**
   * A character that starts no token gives the "Unexpected character."
   * error token, consuming just that character; scanning goes on after it.
   */
  lemma UnexpectedCharacterTokens(src: string, pos: nat, line: int)
    requires pos <= |src|
    ensures var t := SkipTrivia(src, pos, line);
      var r := ScanFrom(src, pos, line);
      var c := Peek(src, t.pos);
      && (r.token.lexeme == Message(UnexpectedCharacter) <==>
            && !AtEnd(src, t.pos) && !IsAlpha(c) && !IsDigit(c) && c != '"'
            && c !in "!=<>" && PunctuationType(c).None?)
      && (r.token.lexeme == Message(UnexpectedCharacter) ==>
            r.token.kind == Error && r.next.pos == t.pos + 1)
  {
    var t := SkipTrivia(src, pos, line);
    var c := Peek(src, t.pos);
    if !AtEnd(src, t.pos) && !IsAlpha(c) && !IsDigit(c) && c != '"' {
      assert ScanFrom(src, pos, line) == ScanSymbol(src, t.pos, t.line);
    }
  }

  /** Once the end is reached, every further call gives the same end-of-source token. */
  lemma EofRepeats(src: string, pos: nat, line: int)
    requires pos <= |src|
    ensures var r := ScanFrom(src, pos, line);
      r.token.kind == Eof ==> ScanFrom(src, r.next.pos, r.next.line) == r
  {
    var r := ScanFrom(src, pos, line);
    if r.token.kind == Eof {
      assert SkipTrivia(src, r.next.pos, r.next.line) == r.next;
    }
  }
}
