/**
 * The scanner: a pull-based lexer over a source string (initScanner,
 * scanToken). The pure functions below say what one call of scanToken
 * yields from a cursor position and a line number; the class Scanner holds
 * that cursor and line and advances them the way the interpreter does.
 */
module Scanning {
  import opened Wrappers

  datatype TokenType =
    // Single-character punctuation.
    | LeftParen | RightParen | LeftBrace | RightBrace
    | Comma | Dot | Minus | Plus | Semicolon | Slash | Star
    // One- or two-character operators.
    | Bang | BangEqual | Equal | EqualEqual
    | Greater | GreaterEqual | Less | LessEqual
    // Literals.
    | Identifier | String | Number
    // Keywords.
    | And | Class | Else | False | For | Fun | If | Nil
    | Or | Print | Return | Super | This | True | Var | While
    // Sentinels.
    | Error | Eof

  /**
   * What a token's text is: a span of the source, or, for an error token,
   * a message in place of source text.
   */
  datatype Lexeme = Span(start: nat, length: nat) | Message(text: string)

  datatype Token = Token(kind: TokenType, lexeme: Lexeme, line: int)
  {
    /** The length the interpreter reports: of the span, or of the message. */
    function Length(): nat
    {
      match lexeme
      case Span(_, n) => n
      case Message(text) => |text|
    }
  }

  /** A scanner position: the cursor offset and the current line. */
  datatype Cursor = Cursor(pos: nat, line: int)

  /** One scanToken call: the token and where the scanner stands afterwards. */
  datatype Scanned = Scanned(token: Token, next: Cursor)

  const UnexpectedCharacter: string := "Unexpected character."
  const UnterminatedString: string := "Unterminated string."

  // ---------------------------------------------------------------------
  // Characters

  /** The character at `i`, or the terminating NUL at and past the end. */
  function Peek(src: string, i: nat): (c: char)
    ensures c != '\0' ==> i < |src| && c == src[i]
    ensures i >= |src| ==> c == '\0'
  {
    if i < |src| then src[i] else '\0'
  }

  /** isAtEnd: the scanner has reached the end of the source or a NUL in it. */
  predicate AtEnd(src: string, i: nat)
    ensures AtEnd(src, i) <==> i >= |src| || src[i] == '\0'
  {
    Peek(src, i) == '\0'
  }

  /** isDigit: the ten ASCII digits, none of which starts an identifier. */
  predicate IsDigit(c: char)
    ensures IsDigit(c) ==> !IsAlpha(c) && c != '\0' && c != '.'
  {
    '0' <= c <= '9'
  }

  /** isAlpha: ASCII letters and the underscore; never NUL, a quote or white space. */
  predicate IsAlpha(c: char)
    ensures IsAlpha(c) ==> c != '\0' && c != '"' && c != ' ' && c != '\n' && c != '/'
    ensures c == '_' ==> IsAlpha(c)
  {
    ('a' <= c <= 'z') || ('A' <= c <= 'Z') || c == '_'
  }

  /** Number of newline characters in `s`. */
  function Newlines(s: string): nat
  {
    multiset(s)['\n']
  }

  /** Whether the text at `i` is skipped before a token: blank, newline or `//`. */
  predicate StartsTrivia(src: string, i: nat)
  {
    var c := Peek(src, i);
    c == ' ' || c == '\r' || c == '\t' || c == '\n' || (c == '/' && Peek(src, i + 1) == '/')
  }

  predicate AllDigits(s: string)
  {
    forall k | 0 <= k < |s| :: IsDigit(s[k])
  }

  /** A number literal: digits, then optionally a dot and more digits. */
  predicate IsNumberLexeme(s: string)
  {
    && |s| > 0
    && (|| AllDigits(s)
        || exists k | 0 < k < |s| - 1 :: s[k] == '.' && AllDigits(s[..k]) && AllDigits(s[k + 1..]))
  }

  // ---------------------------------------------------------------------
  // Runs of characters

  /** Where a `//` comment starting at `pos` ends: at the next newline or the end. */
  function CommentEnd(src: string, pos: nat): (end: nat)
    requires pos <= |src|
    ensures pos <= end <= |src|
    ensures Peek(src, end) == '\n' || AtEnd(src, end)
    ensures forall k | pos <= k < end :: src[k] != '\n' && src[k] != '\0'
    ensures Peek(src, pos) != '\n' && !AtEnd(src, pos) ==> pos < end
    decreases |src| - pos
  {
    if Peek(src, pos) == '\n' || AtEnd(src, pos) then pos else CommentEnd(src, pos + 1)
  }

  /**
   * skipWhitespace: skips blanks, newlines and comments, counting each
   * newline; stops at the first character that starts none of them.
   */
  function SkipTrivia(src: string, pos: nat, line: int): (r: Cursor)
    requires pos <= |src|
    ensures pos <= r.pos <= |src|
    ensures !StartsTrivia(src, r.pos)
    decreases |src| - pos
  {
    var c := Peek(src, pos);
    if c == ' ' || c == '\r' || c == '\t' then SkipTrivia(src, pos + 1, line)
    else if c == '\n' then SkipTrivia(src, pos + 1, line + 1)
    else if c == '/' && Peek(src, pos + 1) == '/' then SkipTrivia(src, CommentEnd(src, pos), line)
    else
      Cursor(pos, line)
  }

  /** The end of the run of digits starting at `pos`. */
  function DigitsEnd(src: string, pos: nat): (end: nat)
    requires pos <= |src|
    ensures pos <= end <= |src|
    ensures forall k | pos <= k < end :: IsDigit(src[k])
    ensures !IsDigit(Peek(src, end))
    decreases |src| - pos
  {
    if IsDigit(Peek(src, pos)) then DigitsEnd(src, pos + 1) else pos
  }

  /** The end of the run of letters, digits and underscores starting at `pos`. */
  function IdentEnd(src: string, pos: nat): (end: nat)
    requires pos <= |src|
    ensures pos <= end <= |src|
    ensures forall k | pos <= k < end :: IsAlpha(src[k]) || IsDigit(src[k])
    ensures !IsAlpha(Peek(src, end)) && !IsDigit(Peek(src, end))
    decreases |src| - pos
  {
    var c := Peek(src, pos);
    if IsAlpha(c) || IsDigit(c) then IdentEnd(src, pos + 1) else pos
  }

  /**
   * The end of a number whose first digit is before `pos`: the rest of the
   * digits, then a fraction only when the dot is followed by a digit.
   */
  function NumberEnd(src: string, pos: nat): (end: nat)
    requires pos <= |src|
    ensures pos <= end <= |src|
    ensures forall k | pos <= k < end :: IsDigit(src[k]) || src[k] == '.'
  {
    var d := DigitsEnd(src, pos);
    if Peek(src, d) == '.' && IsDigit(Peek(src, d + 1)) then DigitsEnd(src, d + 1) else d
  }

  /**
   * The body of a string literal from `pos`: up to the closing quote or the
   * end, counting the newlines inside.
   */
  function StringEnd(src: string, pos: nat, line: int): (r: Cursor)
    requires pos <= |src|
    ensures pos <= r.pos <= |src|
    ensures Peek(src, r.pos) == '"' || AtEnd(src, r.pos)
    ensures forall k | pos <= k < r.pos :: src[k] != '"' && src[k] != '\0'
    decreases |src| - pos
  {
    var c := Peek(src, pos);
    if c == '"' || AtEnd(src, pos) then Cursor(pos, line)
    else StringEnd(src, pos + 1, if c == '\n' then line + 1 else line)
  }

  // ---------------------------------------------------------------------
  // Classification

  /** The single-character punctuation tokens. */
  function PunctuationType(c: char): (r: Option<TokenType>)
    ensures r.Some? ==> IsPunctuationType(r.value)
  {
    match c
    case '(' => Some(LeftParen)
    case ')' => Some(RightParen)
    case '{' => Some(LeftBrace)
    case '}' => Some(RightBrace)
    case ';' => Some(Semicolon)
    case ',' => Some(Comma)
    case '.' => Some(Dot)
    case '-' => Some(Minus)
    case '+' => Some(Plus)
    case '/' => Some(Slash)
    case '*' => Some(Star)
    case _ => None
  }

  /** `!`, `=`, `>` and `<`, alone or followed by `=`. */
  function OperatorType(c: char, withEqual: bool): (r: TokenType)
    requires c in "!=<>"
    ensures IsOperatorType(r)
  {
    match c
    case '!' => if withEqual then BangEqual else Bang
    case '=' => if withEqual then EqualEqual else Equal
    case '<' => if withEqual then LessEqual else Less
    case '>' => if withEqual then GreaterEqual else Greater
  }

  /** Whether `s` from offset `start` on is exactly `rest`. */
  predicate MatchesRest(s: string, start: nat, rest: string)
  {
    |s| == start + |rest| && s[start..] == rest
  }

  /** checkKeyword: `kind` if the rest of the lexeme is exactly `rest`. */
  function CheckKeyword(s: string, start: nat, rest: string, kind: TokenType): (r: TokenType)
    ensures r == kind || r == Identifier
    ensures kind != Identifier ==> (r == kind <==> start <= |s| && s == s[..start] + rest)
  {
    if MatchesRest(s, start, rest) then
      assert s == s[..start] + s[start..];
      kind
    else
      Identifier
  }

  /**
   * identifierType: the keyword trie. It branches on the first letter, and
   * for `f` and `t` on the second, then compares the rest of the lexeme.
   */
  function IdentifierType(s: string): (r: TokenType)
    requires |s| > 0
    ensures r == Identifier || IsKeywordType(r)
  {
    match s[0]
    case 'a' => CheckKeyword(s, 1, "nd", And)
    case 'c' => CheckKeyword(s, 1, "lass", Class)
    case 'e' => CheckKeyword(s, 1, "lse", Else)
    case 'f' =>
      if |s| > 1 then
        match s[1]
        case 'a' => CheckKeyword(s, 2, "lse", False)
        case 'o' => CheckKeyword(s, 2, "r", For)
        case 'u' => CheckKeyword(s, 2, "n", Fun)
        case _ => Identifier
      else Identifier
    case 'i' => CheckKeyword(s, 1, "f", If)
    case 'n' => CheckKeyword(s, 1, "il", Nil)
    case 'o' => CheckKeyword(s, 1, "r", Or)
    case 'p' => CheckKeyword(s, 1, "rint", Print)
    case 'r' => CheckKeyword(s, 1, "eturn", Return)
    case 's' => CheckKeyword(s, 1, "uper", Super)
    case 't' =>
      if |s| > 1 then
        match s[1]
        case 'h' => CheckKeyword(s, 2, "is", This)
        case 'r' => CheckKeyword(s, 2, "ue", True)
        case _ => Identifier
      else Identifier
    case 'v' => CheckKeyword(s, 1, "ar", Var)
    case 'w' => CheckKeyword(s, 1, "hile", While)
    case _ => Identifier
  }

  predicate IsPunctuationType(kind: TokenType)
  {
    || kind == LeftParen || kind == RightParen || kind == LeftBrace || kind == RightBrace
    || kind == Comma || kind == Dot || kind == Minus || kind == Plus
    || kind == Semicolon || kind == Slash || kind == Star
  }

  predicate IsOperatorType(kind: TokenType)
  {
    || kind == Bang || kind == BangEqual || kind == Equal || kind == EqualEqual
    || kind == Greater || kind == GreaterEqual || kind == Less || kind == LessEqual
  }

  predicate IsKeywordType(kind: TokenType)
  {
    || kind == And || kind == Class || kind == Else || kind == False
    || kind == For || kind == Fun || kind == If || kind == Nil
    || kind == Or || kind == Print || kind == Return || kind == Super
    || kind == This || kind == True || kind == Var || kind == While
  }

  /** The reserved words of the language and their token types. */
  const Keywords: map<string, TokenType> := map[
    "and" := And, "class" := Class, "else" := Else, "false" := False,
    "for" := For, "fun" := Fun, "if" := If, "nil" := Nil,
    "or" := Or, "print" := Print, "return" := Return, "super" := Super,
    "this" := This, "true" := True, "var" := Var, "while" := While]

  // ---------------------------------------------------------------------
  // One call of scanToken

  /**
   * scanToken from cursor `pos` on line `line`: skip trivia, then scan one
   * token starting at the first remaining character.
   */
  function ScanFrom(src: string, pos: nat, line: int): (r: Scanned)
    requires pos <= |src|
    ensures pos <= r.next.pos <= |src|
    ensures r.token.kind == Eof <==> AtEnd(src, SkipTrivia(src, pos, line).pos)
    ensures r.token.kind != Eof ==> pos < r.next.pos
    ensures r.token.kind == Error <==> r.token.lexeme.Message?
    ensures r.token.lexeme.Span? ==>
      && r.token.lexeme.start == SkipTrivia(src, pos, line).pos
      && r.token.lexeme.start + r.token.lexeme.length == r.next.pos
    ensures r.token.line == r.next.line
  {
    var t := SkipTrivia(src, pos, line);
    if AtEnd(src, t.pos) then
      Scanned(Token(Eof, Span(t.pos, 0), t.line), t)
    else
      ScanLexeme(src, t.pos, t.line)
  }

  /**
   * The token that starts at `start`, a character that is neither the end
   * nor trivia, dispatched on that character.
   */
  function ScanLexeme(src: string, start: nat, line: int): (r: Scanned)
    requires start <= |src| && !AtEnd(src, start)
    ensures start < r.next.pos <= |src|
    ensures r.token.kind != Eof
    ensures r.token.kind == Error <==> r.token.lexeme.Message?
    ensures r.token.lexeme.Span? ==>
      r.token.lexeme.start == start && start + r.token.lexeme.length == r.next.pos
    ensures r.token.line == r.next.line
  {
    var c := src[start];
    if IsAlpha(c) then ScanWord(src, start, line)
    else if IsDigit(c) then ScanNumber(src, start, line)
    else if c == '"' then ScanString(src, start, line)
    else ScanSymbol(src, start, line)
  }

  /** identifier: the run of letters, digits and underscores, classified by the keyword trie. */
  function ScanWord(src: string, start: nat, line: int): (r: Scanned)
    requires start < |src| && IsAlpha(src[start])
    ensures start < r.next.pos <= |src| && r.next.line == line
    ensures r.token.kind == Identifier || IsKeywordType(r.token.kind)
    ensures r.token.kind == Error <==> r.token.lexeme.Message?
    ensures r.token.lexeme.Span? ==>
      r.token.lexeme.start == start && start + r.token.lexeme.length == r.next.pos
    ensures r.token.line == r.next.line
    ensures r.token.kind != Eof
  {
    var end := IdentEnd(src, start + 1);
    Scanned(Token(IdentifierType(src[start..end]), Span(start, end - start), line), Cursor(end, line))
  }

  /** number: the digits and an optional fraction. */
  function ScanNumber(src: string, start: nat, line: int): (r: Scanned)
    requires start < |src| && IsDigit(src[start])
    ensures start < r.next.pos <= |src| && r.next.line == line
    ensures r.token.kind == Error <==> r.token.lexeme.Message?
    ensures r.token.lexeme.Span? ==>
      r.token.lexeme.start == start && start + r.token.lexeme.length == r.next.pos
    ensures r.token.line == r.next.line
    ensures r.token.kind != Eof
  {
    var end := NumberEnd(src, start + 1);
    Scanned(Token(Number, Span(start, end - start), line), Cursor(end, line))
  }

  /** string: up to and including the closing quote, or an error at the end of input. */
  function ScanString(src: string, start: nat, line: int): (r: Scanned)
    requires start < |src| && src[start] == '"'
    ensures start < r.next.pos <= |src|
    ensures r.token.kind == String || r.token.lexeme == Message(UnterminatedString)
    ensures r.token.kind == Error <==> r.token.lexeme.Message?
    ensures r.token.lexeme.Span? ==>
      r.token.lexeme.start == start && start + r.token.lexeme.length == r.next.pos
    ensures r.token.line == r.next.line
    ensures r.token.kind != Eof
  {
    var close := StringEnd(src, start + 1, line);
    if AtEnd(src, close.pos) then
      Scanned(Token(Error, Message(UnterminatedString), close.line), close)
    else
      Scanned(Token(String, Span(start, close.pos + 1 - start), close.line), Cursor(close.pos + 1, close.line))
  }

  /** The switch on punctuation and operators, and the unexpected-character error. */
  function ScanSymbol(src: string, start: nat, line: int): (r: Scanned)
    requires start < |src| && !AtEnd(src, start)
    ensures start < r.next.pos <= |src| && r.next.line == line
    ensures r.next.pos == start + 1 || (r.next.pos == start + 2 && src[start + 1] == '=')
    ensures r.token.kind != Number && r.token.kind != String
    ensures r.token.kind != Identifier && !IsKeywordType(r.token.kind)
    ensures r.token.lexeme != Message(UnterminatedString)
    ensures r.token.kind == Error <==> r.token.lexeme.Message?
    ensures r.token.lexeme.Span? ==>
      r.token.lexeme.start == start && start + r.token.lexeme.length == r.next.pos
    ensures r.token.line == r.next.line
    ensures r.token.kind != Eof
  {
    var c := src[start];
    if c in "!=<>" then
      var withEqual := Peek(src, start + 1) == '=';
      var end := if withEqual then start + 2 else start + 1;
      Scanned(Token(OperatorType(c, withEqual), Span(start, end - start), line), Cursor(end, line))
    else
      match PunctuationType(c)
      case Some(kind) => Scanned(Token(kind, Span(start, 1), line), Cursor(start + 1, line))
      case None => Scanned(Token(Error, Message(UnexpectedCharacter), line), Cursor(start + 1, line))
  }

  /** The three ways the symbol switch ends: an operator, a punctuation mark, an error. */
  lemma ScanSymbolCases(src: string, start: nat, line: int)
    requires start < |src| && !AtEnd(src, start)
    ensures var c := src[start];
      && (c in "!=<>" ==>
            var withEqual := Peek(src, start + 1) == '=';
            var end := if withEqual then start + 2 else start + 1;
            ScanSymbol(src, start, line) == Scanned(Token(OperatorType(c, withEqual), Span(start, end - start), line), Cursor(end, line)))
      && (c !in "!=<>" && PunctuationType(c).Some? ==>
            ScanSymbol(src, start, line) == Scanned(Token(PunctuationType(c).value, Span(start, 1), line), Cursor(start + 1, line)))
      && (c !in "!=<>" && PunctuationType(c).None? ==>
            ScanSymbol(src, start, line) == Scanned(Token(Error, Message(UnexpectedCharacter), line), Cursor(start + 1, line)))
  {
  }

  /**
   * The tokens successive scanToken calls give from a position, up to and
   * including the first end-of-source token, which every input reaches.
   */
  function Tokenize(src: string, pos: nat, line: int): (tokens: seq<Token>)
    requires pos <= |src|
    ensures |tokens| > 0 && tokens[|tokens| - 1].kind == Eof
    ensures forall i | 0 <= i < |tokens| - 1 :: tokens[i].kind != Eof
    decreases |src| - pos
  {
    var r := ScanFrom(src, pos, line);
    if r.token.kind == Eof then [r.token]
    else [r.token] + Tokenize(src, r.next.pos, r.next.line)
  }

  /** One step of skipWhitespace leaves the trivia-skipping result unchanged. */
  lemma SkipTriviaStep(src: string, pos: nat, line: int)
    requires pos < |src| && StartsTrivia(src, pos)
    ensures var c := src[pos];
      && (c == ' ' || c == '\r' || c == '\t' ==> SkipTrivia(src, pos, line) == SkipTrivia(src, pos + 1, line))
      && (c == '\n' ==> SkipTrivia(src, pos, line) == SkipTrivia(src, pos + 1, line + 1))
      && (c == '/' ==> SkipTrivia(src, pos, line) == SkipTrivia(src, CommentEnd(src, pos), line))
  {
  }

  /** skipWhitespace stops at once where no trivia starts. */
  lemma SkipTriviaStops(src: string, pos: nat, line: int)
    requires pos <= |src| && !StartsTrivia(src, pos)
    ensures SkipTrivia(src, pos, line) == Cursor(pos, line)
  {
  }

  /** One step of the comment loop. */
  lemma CommentEndStep(src: string, pos: nat)
    requires pos <= |src|
    ensures Peek(src, pos) != '\n' && !AtEnd(src, pos) ==> CommentEnd(src, pos) == CommentEnd(src, pos + 1)
    ensures Peek(src, pos) == '\n' || AtEnd(src, pos) ==> CommentEnd(src, pos) == pos
  {
  }

  /** One step of the digit loop. */
  lemma DigitsEndStep(src: string, pos: nat)
    requires pos <= |src|
    ensures IsDigit(Peek(src, pos)) ==> DigitsEnd(src, pos) == DigitsEnd(src, pos + 1)
    ensures !IsDigit(Peek(src, pos)) ==> DigitsEnd(src, pos) == pos
  {
  }

  /** One step of the identifier loop. */
  lemma IdentEndStep(src: string, pos: nat)
    requires pos <= |src|
    ensures IsAlpha(Peek(src, pos)) || IsDigit(Peek(src, pos)) ==> IdentEnd(src, pos) == IdentEnd(src, pos + 1)
    ensures !IsAlpha(Peek(src, pos)) && !IsDigit(Peek(src, pos)) ==> IdentEnd(src, pos) == pos
  {
  }

  /** One step of the string loop. */
  lemma StringEndStep(src: string, pos: nat, line: int)
    requires pos <= |src|
    ensures var c := Peek(src, pos);
      c != '"' && !AtEnd(src, pos) ==>
        StringEnd(src, pos, line) == StringEnd(src, pos + 1, if c == '\n' then line + 1 else line)
    ensures Peek(src, pos) == '"' || AtEnd(src, pos) ==> StringEnd(src, pos, line) == Cursor(pos, line)
  {
  }

  // ---------------------------------------------------------------------
  // The scanner state

  /**
   * The scanner: the source, the start of the token being scanned, the
   * cursor, and the current line. initScanner is the constructor.
   */
  class Scanner {
    const source: string
    var start: nat
    var current: nat
    var line: int

    predicate Valid()
      reads this
    {
      start <= current <= |source|
    }

    /** initScanner: both offsets at the beginning, on line 1. */
    constructor (src: string)
      ensures Valid()
      ensures source == src && start == 0 && current == 0 && line == 1
    {
      source := src;
      start := 0;
      current := 0;
      line := 1;
    }

    /** The token of the given type spanning from `start` to the cursor. */
    function MakeToken(kind: TokenType): (t: Token)
      reads this
      requires start <= current
      ensures t.lexeme.Span? && t.lexeme.start == start && t.lexeme.start + t.Length() == current
      ensures t.kind == kind && t.line == line
    {
      Token(kind, Span(start, current - start), line)
    }

    /** An error token carrying `message` in place of source text. */
    function ErrorToken(message: string): (t: Token)
      reads this
      ensures t.kind == Error && t.lexeme == Message(message) && t.line == line
    {
      Token(Error, Message(message), line)
    }

    /** advance: consumes and returns the character at the cursor. */
    method Advance() returns (c: char)
      requires current < |source|
      modifies this`current
      ensures c == source[old(current)] && current == old(current) + 1
    {
      current := current + 1;
      c := source[current - 1];
    }

    /** match: consumes the character at the cursor only when it is `expected`. */
    method Match(expected: char) returns (matched: bool)
      requires current <= |source| && expected != '\0'
      modifies this`current
      ensures matched <==> Peek(source, old(current)) == expected
      ensures current == if matched then old(current) + 1 else old(current)
    {
      if AtEnd(source, current) {
        return false;
      }
      if source[current] != expected {
        return false;
      }
      current := current + 1;
      return true;
    }

    /** skipWhitespace: moves the cursor past blanks, newlines and comments. */
    method SkipWhitespace()
      requires current <= |source|
      modifies this`current, this`line
      ensures Cursor(current, line) == SkipTrivia(source, old(current), old(line))
    {
      while true
        invariant current <= |source|
        invariant SkipTrivia(source, current, line) == SkipTrivia(source, old(current), old(line))
        decreases |source| - current
      {
        var c := Peek(source, current);
        if c == ' ' || c == '\r' || c == '\t' {
          SkipTriviaStep(source, current, line);
          current := current + 1;
        } else if c == '\n' {
          SkipTriviaStep(source, current, line);
          line := line + 1;
          current := current + 1;
        } else if c == '/' && Peek(source, current + 1) == '/' {
          // A comment runs up to the end of the line.
          SkipTriviaStep(source, current, line);
          SkipComment();
        } else {
          SkipTriviaStops(source, current, line);
          return;
        }
      }
    }

    /** The loop of skipWhitespace that consumes a comment up to its newline. */
    method SkipComment()
      requires current <= |source|
      modifies this`current
      ensures current == CommentEnd(source, old(current))
    {
      ghost var end := CommentEnd(source, current);
      while Peek(source, current) != '\n' && !AtEnd(source, current)
        invariant current <= |source|
        invariant CommentEnd(source, current) == end
        decreases |source| - current
      {
        CommentEndStep(source, current);
        current := current + 1;
      }
      CommentEndStep(source, current);
    }

    /** identifier: the rest of the word after its first character. */
    method IdentifierToken() returns (token: Token)
      requires start < |source| && current == start + 1 && IsAlpha(source[start])
      modifies this`current
      ensures Valid()
      ensures Scanned(token, Cursor(current, line)) == ScanWord(source, start, line)
    {
      while IsAlpha(Peek(source, current)) || IsDigit(Peek(source, current))
        invariant start < current <= |source|
        invariant IdentEnd(source, current) == IdentEnd(source, start + 1)
        decreases |source| - current
      {
        IdentEndStep(source, current);
        current := current + 1;
      }
      IdentEndStep(source, current);
      token := MakeToken(IdentifierType(source[start..current]));
    }

    /** The loop `while (isDigit(peek())) advance();` of number. */
    method SkipDigits()
      requires current <= |source|
      modifies this`current
      ensures current == DigitsEnd(source, old(current))
    {
      ghost var end := DigitsEnd(source, current);
      while IsDigit(Peek(source, current))
        invariant current <= |source|
        invariant DigitsEnd(source, current) == end
        decreases |source| - current
      {
        DigitsEndStep(source, current);
        current := current + 1;
      }
      DigitsEndStep(source, current);
    }

    /** number: the rest of the digits, then a fraction when a digit follows the dot. */
    method NumberToken() returns (token: Token)
      requires start < |source| && current == start + 1 && IsDigit(source[start])
      modifies this`current
      ensures Valid()
      ensures Scanned(token, Cursor(current, line)) == ScanNumber(source, start, line)
    {
      ghost var digits := DigitsEnd(source, start + 1);
      ghost var end := NumberEnd(source, start + 1);
      SkipDigits();
      assert current == digits;
      if Peek(source, current) == '.' && IsDigit(Peek(source, current + 1)) {
        // Consume the dot, then the fractional digits.
        current := current + 1;
        SkipDigits();
      }
      assert current == end;
      assert ScanNumber(source, start, line) == Scanned(Token(Number, Span(start, end - start), line), Cursor(end, line));
      token := MakeToken(Number);
    }

    /** The loop of string up to the closing quote, counting newlines. */
    method SkipStringBody()
      requires current <= |source|
      modifies this`current, this`line
      ensures Cursor(current, line) == StringEnd(source, old(current), old(line))
    {
      ghost var close := StringEnd(source, current, line);
      while Peek(source, current) != '"' && !AtEnd(source, current)
        invariant current <= |source|
        invariant StringEnd(source, current, line) == close
        decreases |source| - current
      {
        StringEndStep(source, current, line);
        if Peek(source, current) == '\n' {
          line := line + 1;
        }
        current := current + 1;
      }
      StringEndStep(source, current, line);
    }

    /** string: up to and including the closing quote, or an error at the end. */
    method StringToken() returns (token: Token)
      requires start < |source| && current == start + 1 && source[start] == '"'
      modifies this`current, this`line
      ensures Valid()
      ensures Scanned(token, Cursor(current, line)) == ScanString(source, start, old(line))
    {
      SkipStringBody();
      if AtEnd(source, current) {
        return ErrorToken(UnterminatedString);
      }
      // The closing quote.
      current := current + 1;
      token := MakeToken(String);
    }

    /** The switch of scanToken on punctuation and operators. */
    method SymbolToken(c: char) returns (token: Token)
      requires start < |source| && current == start + 1 && c == source[start] && c != '\0'
      requires !IsAlpha(c) && !IsDigit(c) && c != '"'
      modifies this`current
      ensures Valid()
      ensures Scanned(token, Cursor(current, line)) == ScanSymbol(source, start, line)
    {
      ScanSymbolCases(source, start, line);
      match c
      case '!' | '=' | '<' | '>' =>
        // Each of these takes a following '=' into the token.
        var equal := Match('=');
        token := MakeToken(OperatorType(c, equal));
      case _ =>
        // The single-character cases of the switch, and its default.
        match PunctuationType(c)
        case Some(kind) => token := MakeToken(kind);
        case None => token := ErrorToken(UnexpectedCharacter);
    }

    /**
     * scanToken: the next token, with the cursor and line moved past it;
     * `start` is left at the token's first character.
     */
    method ScanToken() returns (token: Token)
      requires Valid()
      modifies this
      ensures Valid()
      ensures Scanned(token, Cursor(current, line)) == ScanFrom(source, old(current), old(line))
      ensures start == SkipTrivia(source, old(current), old(line)).pos
    {
      SkipWhitespace();
      start := current;
      if AtEnd(source, current) {
        return MakeToken(Eof);
      }
      var c := Advance();
      if IsAlpha(c) {
        token := IdentifierToken();
      } else if IsDigit(c) {
        token := NumberToken();
      } else if c == '"' {
        token := StringToken();
      } else {
        token := SymbolToken(c);
      }
    }
  }

  /**
   * A client of the scanner: initScanner, then scanToken until the
   * end-of-source token, collecting every token.
   */
  method ScanSource(src: string) returns (tokens: seq<Token>)
    ensures tokens == Tokenize(src, 0, 1)
  {
    var scanner := new Scanner(src);
    tokens := [];
    while true
      invariant scanner.Valid() && scanner.source == src
      invariant tokens + Tokenize(src, scanner.current, scanner.line) == Tokenize(src, 0, 1)
      decreases |src| - scanner.current
    {
      ghost var rest := Tokenize(src, scanner.current, scanner.line);
      TokenizeStep(src, scanner.current, scanner.line);
      var token := scanner.ScanToken();
      if token.kind == Eof {
        tokens := tokens + [token];
        return;
      }
      ghost var after := Tokenize(src, scanner.current, scanner.line);
      assert rest == [token] + after;
      AppendAssociates(tokens, [token], after);
      tokens := tokens + [token];
    }
  }

  lemma AppendAssociates<T>(a: seq<T>, b: seq<T>, c: seq<T>)
    ensures (a + b) + c == a + (b + c)
  {
  }

  /** One scanToken call contributes the first token of the rest. */
  lemma TokenizeStep(src: string, pos: nat, line: int)
    requires pos <= |src|
    ensures var r := ScanFrom(src, pos, line);
      Tokenize(src, pos, line) ==
        if r.token.kind == Eof then [r.token] else [r.token] + Tokenize(src, r.next.pos, r.next.line)
  {
  }
}
