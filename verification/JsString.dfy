/**
  Text placed in single-quoted JavaScript literals, and the part of the ECMAScript lexical grammar
  (ECMA-262, 2023, section 12.9.4) that reads such literals back.
 */
module JsString {
  import opened Common

  const CR: char := '\r'

  // ---- the escapers ----

  function SelectorEscape(c: char): string {
    if c == '\\' then ['\\', '\\'] else if c == '\'' then ['\\', '\''] else [c]
  }

  function TextEscape(c: char): string {
    if c == LF then ['\\', 'n'] else if c == CR then ['\\', 'r'] else SelectorEscape(c)
  }

  function EscapeSelector(s: string): string {
    if s == [] then [] else SelectorEscape(s[0]) + EscapeSelector(s[1..])
  }

  function EscapeText(s: string): string {
    if s == [] then [] else TextEscape(s[0]) + EscapeText(s[1..])
  }

  lemma SelectorStep(s: string, i: nat, r: string)
    requires i < |s|
    ensures r + EscapeSelector(s[i..]) == r + SelectorEscape(s[i]) + EscapeSelector(s[i + 1..])
  {
    assert s[i..][1..] == s[i + 1..];
    hide SelectorEscape;
  }

  lemma TextStep(s: string, i: nat, r: string)
    requires i < |s|
    ensures r + EscapeText(s[i..]) == r + TextEscape(s[i]) + EscapeText(s[i + 1..])
  {
    assert s[i..][1..] == s[i + 1..];
    hide TextEscape;
  }

  method JsSelector(s: string) returns (r: string)
    ensures r == EscapeSelector(s)
  {
    r := [];
    for i := 0 to |s|
      invariant EscapeSelector(s) == r + EscapeSelector(s[i..])
    {
      var c := s[i];
      SelectorStep(s, i, r);
      hide EscapeSelector;
      if c == '\\' {
        r := r + ['\\', '\\'];
      } else if c == '\'' {
        r := r + ['\\', '\''];
      } else {
        r := r + [c];
      }
    }
  }

  method JsText(text: string) returns (r: string)
    ensures r == EscapeText(text)
  {
    r := [];
    for i := 0 to |text|
      invariant EscapeText(text) == r + EscapeText(text[i..])
    {
      var c := text[i];
      TextStep(text, i, r);
      hide EscapeText;
      if c == '\\' {
        r := r + ['\\', '\\'];
      } else if c == '\'' {
        r := r + ['\\', '\''];
      } else if c == LF {
        r := r + ['\\', 'n'];
      } else if c == CR {
        r := r + ['\\', 'r'];
      } else {
        r := r + [c];
      }
    }
  }

  const BEFORE := "(()=>{const e=document.querySelector("
  const MIDDLE := ");if(!e)return false;e.focus();e.value="
  const INPUT := ";e.dispatchEvent(new Event("
  const CHANGE := ",{bubbles:true}));e.dispatchEvent(new Event("
  const AFTER := ",{bubbles:true}));return true;})()"

  function Quoted(body: string): string {
    "'" + body + "'"
  }

  function Script(css: string, text: string): string {
    BEFORE + (Quoted(EscapeSelector(css)) + (MIDDLE + (Quoted(EscapeText(text)) +
      (INPUT + (Quoted("input") + (CHANGE + (Quoted("change") + AFTER)))))))
  }

  /** The script that type() evaluates. */
  method TypeScript(css: string, text: string) returns (js: string)
    ensures js == Script(css, text)
  {
    var sel := JsSelector(css);
    var escaped := JsText(text);
    js := BEFORE + "'" + sel + "'" + MIDDLE + "'" + escaped + "'" + INPUT + "'input'" + CHANGE + "'change'" + AFTER;
    Reassociate(BEFORE, sel, MIDDLE, escaped, INPUT, "input", CHANGE, "change", AFTER);
    assert "'input'" == "'" + "input" + "'" && "'change'" == "'" + "change" + "'";
  }

  lemma Reassociate(a: string, b: string, c: string, d: string, e: string, f: string, g: string, h: string, i: string)
    ensures a + "'" + b + "'" + c + "'" + d + "'" + e + ("'" + f + "'") + g + ("'" + h + "'") + i
         == a + (Quoted(b) + (c + (Quoted(d) + (e + (Quoted(f) + (g + (Quoted(h) + i)))))))
  {
    var q, r, s, t := Quoted(b), Quoted(d), Quoted(f), Quoted(h);
    assert a + "'" + b + "'" == a + q;
    assert a + q + c + "'" + d + "'" == a + q + c + r;
    hide Quoted;
    FlattenLeft(a, q, c, r, e + (s + (g + (t + i))));
    FlattenLeft(a + q + c + r, e, s, g, t + i);
    assert a + q + c + r + e + s + g + t + i == a + q + c + r + e + s + g + (t + i);
  }

  lemma FlattenLeft(a: string, b: string, c: string, d: string, e: string)
    ensures a + (b + (c + (d + e))) == a + b + c + d + e
  {
    assert a + (b + (c + (d + e))) == a + b + (c + (d + e));
    assert a + b + (c + (d + e)) == a + b + c + (d + e);
  }

  // ---- the lexical grammar ----

  predicate LineTerminator(c: char) {
    c == LF || c == CR || c == '\U{2028}' || c == '\U{2029}'
  }

  /** SingleEscapeCharacter, and NonEscapeCharacter standing for itself. */
  function EscapeValue(c: char): char {
    match c
    case 'b' => 8 as char
    case 't' => 9 as char
    case 'n' => LF
    case 'v' => 11 as char
    case 'f' => 12 as char
    case 'r' => CR
    case _ => c
  }

  datatype Lexed = Lexed(text: string, rest: string)

  /** The literal whose opening quote has been read: its value and the text after its closing quote.
      Escapes that begin with a digit, x or u are outside this grammar. */
  function Lex(s: string): (r: Option<Lexed>)
    ensures r.Some? ==> |r.value.rest| < |s|
    decreases |s|
  {
    if s == [] then None
    else if s[0] == '\'' then Some(Lexed([], s[1..]))
    else if s[0] == LF || s[0] == CR then None
    else if s[0] != '\\' then Prepend([s[0]], Lex(s[1..]))
    else if |s| == 1 || '0' <= s[1] <= '9' || s[1] == 'x' || s[1] == 'u' then None
    else if LineTerminator(s[1]) then Lex(if s[1] == CR && |s| > 2 && s[2] == LF then s[3..] else s[2..])
    else Prepend([EscapeValue(s[1])], Lex(s[2..]))
  }

  function Prepend(front: string, l: Option<Lexed>): Option<Lexed> {
    match l
    case None => None
    case Some(Lexed(text, rest)) => Some(Lexed(front + text, rest))
  }

  /** A script as characters outside literals and values of literals. */
  datatype Token = Code(c: char) | Literal(text: string)

  /** Scripts with other quotes, comments or regular expressions are outside this grammar. */
  function Scan(s: string): Option<seq<Token>>
    decreases |s|
  {
    if s == [] then Some([])
    else if s[0] == '\'' then
      match Lex(s[1..])
      case None => None
      case Some(Lexed(text, rest)) => Cons(Literal(text), Scan(rest))
    else if s[0] in {'"', '`', '/'} then None
    else Cons(Code(s[0]), Scan(s[1..]))
  }

  function Cons(t: Token, ts: Option<seq<Token>>): Option<seq<Token>> {
    match ts
    case None => None
    case Some(tokens) => Some([t] + tokens)
  }

  predicate OneLine(s: string) {
    LF !in s && CR !in s
  }

  /** The escapes of the grammar, by code: BS, HT, LF, VT, FF, CR; a backslash and both quotes stand for
      themselves; a raw line feed or carriage return is malformed. */
  lemma SingleEscapes(s: string)
    ensures Lex("\\b" + s) == Prepend([8 as char], Lex(s)) && Lex("\\t" + s) == Prepend([9 as char], Lex(s))
    ensures Lex("\\n" + s) == Prepend([10 as char], Lex(s)) && Lex("\\v" + s) == Prepend([11 as char], Lex(s))
    ensures Lex("\\f" + s) == Prepend([12 as char], Lex(s)) && Lex("\\r" + s) == Prepend([13 as char], Lex(s))
    ensures Lex("\\\\" + s) == Prepend([92 as char], Lex(s)) && Lex("\\'" + s) == Prepend([39 as char], Lex(s))
    ensures Lex([10 as char] + s) == None && Lex([13 as char] + s) == None
  {
    ShortEscape('b', s);
    ShortEscape('t', s);
    ShortEscape('n', s);
    ShortEscape('v', s);
    ShortEscape('f', s);
    ShortEscape('r', s);
    ShortEscape('\\', s);
    ShortEscape('\'', s);
  }

  lemma ShortEscape(c: char, s: string)
    requires c in {'b', 't', 'n', 'v', 'f', 'r', '\\', '\''}
    ensures Lex(['\\', c] + s) == Prepend([EscapeValue(c)], Lex(s))
  {
    assert (['\\', c] + s)[2..] == s;
  }

  // ---- escaping is undone by the lexer ----

  lemma LexOne(c: char, s: string)
    requires c != '\'' && c != '\\'
    ensures Lex([c] + s) == if c == LF || c == CR then None else Prepend([c], Lex(s))
  {
    assert ([c] + s)[1..] == s;
  }

  lemma SelectorChar(c: char, s: string)
    ensures Lex(SelectorEscape(c) + s) == if c == LF || c == CR then None else Prepend([c], Lex(s))
  {
    hide Lex;
    if c == '\'' || c == '\\' { ShortEscape(c, s); } else { LexOne(c, s); }
  }

  lemma TextChar(c: char, s: string)
    ensures Lex(TextEscape(c) + s) == Prepend([c], Lex(s))
  {
    hide Lex;
    if c == LF { ShortEscape('n', s); } else if c == CR { ShortEscape('r', s); } else { SelectorChar(c, s); }
  }

  /** For every text, the literal that type() builds has that text as its value and ends exactly at
      the closing quote that type() wrote. */
  lemma {:induction false} TextRoundTrip(text: string, rest: string)
    ensures Lex(EscapeText(text) + ("'" + rest)) == Some(Lexed(text, rest))
  {
    hide Lex;
    if text == [] {
      QuoteEnds(rest);
      assert [] + ("'" + rest) == "'" + rest;
    } else {
      TextRoundTrip(text[1..], rest);
      TextFirst(text, "'" + rest);
      hide EscapeText;
      assert [text[0]] + text[1..] == text;
    }
  }

  lemma QuoteEnds(rest: string)
    ensures Lex("'" + rest) == Some(Lexed([], rest))
  {
    assert ("'" + rest)[1..] == rest;
  }

  lemma TextFirst(text: string, q: string)
    requires text != []
    ensures Lex(EscapeText(text) + q) == Prepend([text[0]], Lex(EscapeText(text[1..]) + q))
  {
    TextChar(text[0], EscapeText(text[1..]) + q);
    hide Lex, TextEscape;
    assert EscapeText(text) + q == TextEscape(text[0]) + (EscapeText(text[1..]) + q);
  }

  /** js_selector does the same for selectors on one line; on any other the literal is malformed. */
  lemma {:induction false} SelectorRoundTrip(s: string, rest: string)
    ensures Lex(EscapeSelector(s) + ("'" + rest)) == if OneLine(s) then Some(Lexed(s, rest)) else None
  {
    if s == [] {
      assert EscapeSelector(s) + ("'" + rest) == "'" + rest;
      assert ("'" + rest)[1..] == rest;
    } else {
      SelectorRoundTrip(s[1..], rest);
      var tail := EscapeSelector(s[1..]) + ("'" + rest);
      SelectorChar(s[0], tail);
      assert EscapeSelector(s) + ("'" + rest) == SelectorEscape(s[0]) + tail;
      assert s == [s[0]] + s[1..];
      assert OneLine(s) <==> OneLine(s[1..]) && s[0] != LF && s[0] != CR;
    }
  }

  // ---- the whole script ----

  predicate Plain(code: string) {
    forall i :: 0 <= i < |code| ==> code[i] != '\'' && code[i] != '"' && code[i] != '`' && code[i] != '/'
  }

  function Codes(code: string): seq<Token> {
    seq(|code|, i requires 0 <= i < |code| => Code(code[i]))
  }

  function Append(front: seq<Token>, ts: Option<seq<Token>>): Option<seq<Token>> {
    match ts
    case None => None
    case Some(tokens) => Some(front + tokens)
  }

  lemma {:induction false} ScanCode(code: string, rest: string)
    requires Plain(code)
    ensures Scan(code + rest) == Append(Codes(code), Scan(rest))
    decreases code
  {
    if code == [] {
      assert code + rest == rest;
      assert Scan(rest).Some? ==> Codes(code) + Scan(rest).value == Scan(rest).value;
    } else {
      ScanCode(code[1..], rest);
      assert (code + rest)[1..] == code[1..] + rest;
      assert Codes(code) == [Code(code[0])] + Codes(code[1..]);
      if Scan(rest).Some? {
        assert [Code(code[0])] + (Codes(code[1..]) + Scan(rest).value) == Codes(code) + Scan(rest).value;
      }
    }
  }

  lemma ScanText(text: string, rest: string)
    ensures Scan(Quoted(EscapeText(text)) + rest) == Cons(Literal(text), Scan(rest))
  {
    hide EscapeText, Lex;
    TextRoundTrip(text, rest);
    ScanQuoted(EscapeText(text), rest);
  }

  lemma ScanQuoted(body: string, rest: string)
    ensures Scan(Quoted(body) + rest) ==
            match Lex(body + ("'" + rest))
            case None => None
            case Some(Lexed(text, after)) => Cons(Literal(text), Scan(after))
  {
    hide Lex;
    var s := Quoted(body) + rest;
    assert s[1..] == body + ("'" + rest);
    assert s[0] == '\'';
  }

  lemma ScanSelector(s: string, rest: string)
    ensures Scan(Quoted(EscapeSelector(s)) + rest) == if OneLine(s) then Cons(Literal(s), Scan(rest)) else None
  {
    hide EscapeSelector, Lex, OneLine;
    SelectorRoundTrip(s, rest);
    ScanQuoted(EscapeSelector(s), rest);
  }

  lemma {:induction false} Unescaped(s: string)
    requires forall i :: 0 <= i < |s| ==> 'a' <= s[i] <= 'z'
    ensures EscapeText(s) == s
  {
    if s != [] {
      Unescaped(s[1..]);
      assert s == [s[0]] + s[1..];
    }
  }

  lemma EventNames()
    ensures EscapeText("input") == "input" && EscapeText("change") == "change"
  {
    Unescaped("input");
    Unescaped("change");
  }

  lemma PlainBefore()
    ensures Plain(BEFORE)
  {
  }

  lemma PlainMiddle()
    ensures Plain(MIDDLE)
  {
  }

  lemma PlainInput()
    ensures Plain(INPUT)
  {
  }

  lemma PlainChange()
    ensures Plain(CHANGE)
  {
  }

  lemma PlainAfter()
    ensures Plain(AFTER)
  {
  }

  /** The tokens of the script after the selector and after the text. */
  function TailTokens(): seq<Token> {
    Codes(INPUT) + ([Literal("input")] + (Codes(CHANGE) + ([Literal("change")] + Codes(AFTER))))
  }

  lemma ScanTail()
    ensures Scan(INPUT + (Quoted("input") + (CHANGE + (Quoted("change") + AFTER)))) == Some(TailTokens())
  {
    PlainInput();
    PlainChange();
    PlainAfter();
    EventNames();
    hide Plain, EscapeText, Quoted, Codes, Scan;
    ScanTwo(INPUT, "input", CHANGE, "change", AFTER);
  }

  lemma ScanTwo(a: string, t: string, b: string, u: string, c: string)
    requires Plain(a) && Plain(b) && Plain(c)
    ensures Scan(a + (Quoted(EscapeText(t)) + (b + (Quoted(EscapeText(u)) + c))))
         == Some(Codes(a) + ([Literal(t)] + (Codes(b) + ([Literal(u)] + Codes(c)))))
  {
    hide Plain, Codes, Quoted;
    assert c + [] == c && Codes(c) + [] == Codes(c);
    ScanCode(c, []);
    ScanText(u, c);
    ScanCode(b, Quoted(EscapeText(u)) + c);
    ScanText(t, b + (Quoted(EscapeText(u)) + c));
    ScanCode(a, Quoted(EscapeText(t)) + (b + (Quoted(EscapeText(u)) + c)));
  }

  /** Whatever selector on one line and whatever text type() is given, its script has the same code,
      with the selector and the text as the values of two literals; with a selector that contains a
      line break it is not a script at all. */
  lemma ScriptTokens(css: string, text: string)
    ensures Scan(Script(css, text)) ==
            if !OneLine(css) then None
            else Some(Codes(BEFORE) + ([Literal(css)] + (Codes(MIDDLE) + ([Literal(text)] + TailTokens()))))
  {
    PlainBefore();
    PlainMiddle();
    ScanTail();
    hide Plain, Codes, Quoted, TailTokens, OneLine;
    var tail := INPUT + (Quoted("input") + (CHANGE + (Quoted("change") + AFTER)));
    ScanText(text, tail);
    ScanCode(MIDDLE, Quoted(EscapeText(text)) + tail);
    var rest := MIDDLE + (Quoted(EscapeText(text)) + tail);
    ScanSelector(css, rest);
    ScanCode(BEFORE, Quoted(EscapeSelector(css)) + rest);
  }
}
