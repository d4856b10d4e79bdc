/** The plugin setting for additional arguments: one line of text, split at
    blanks, with single and double quotes. */
module ExtraArgs {

  import opened Text

  datatype Quote = NoQuote | In(mark: char)

  /** What has been read: finished arguments, the current one, the quote it is
      in, and whether there is a current one at all. */
  datatype Lexer = Lexer(out: seq<string>, cur: string, quote: Quote, has: bool)

  const START := Lexer([], "", NoQuote, false)

  predicate IsBlank(c: char) {
    c == ' ' || c == '\t' || c == '\n' || c == '\r'
  }

  predicate IsMark(c: char) {
    c == '"' || c == '\''
  }

  function Finish(l: Lexer): seq<string> {
    if l.has then l.out + [l.cur] else l.out
  }

  /** A backslash in a quote stands for the mark or the backslash behind it. */
  predicate Escapes(s: string, mark: char) {
    |s| > 1 && s[0] == '\\' && (s[1] == mark || s[1] == '\\')
  }

  function Scan(s: string, l: Lexer): Lexer {
    if s == "" then l
    else
      var c := s[0];
      match l.quote
      case In(mark) =>
        if Escapes(s, mark) then Scan(s[2..], l.(cur := l.cur + [s[1]]))
        else if c == mark then Scan(s[1..], l.(quote := NoQuote))
        else Scan(s[1..], l.(cur := l.cur + [c]))
      case NoQuote =>
        if IsMark(c) then Scan(s[1..], l.(quote := In(c), has := true))
        else if IsBlank(c) then Scan(s[1..], if l.has then Lexer(Finish(l), "", NoQuote, false) else l)
        else Scan(s[1..], l.(cur := l.cur + [c], has := true))
  }

  function Tokens(s: string): seq<string> {
    Finish(Scan(s, START))
  }

  function Parse(raw: string): seq<string> {
    Tokens(JsTrim(raw))
  }

  method ParseExtraArgs(raw: string) returns (out: seq<string>)
    ensures out == Parse(raw)
  {
    var s := JsTrim(raw);
    if s == "" {
      return [];
    }
    out := [];
    var cur, quote, has := "", NoQuote, false;
    var i := 0;
    while i < |s|
      invariant i <= |s| && Scan(s[i..], Lexer(out, cur, quote, has)) == Scan(s, START)
    {
      var c := s[i];
      if quote.In? {
        if c == '\\' && i + 1 < |s| && (s[i + 1] == quote.mark || s[i + 1] == '\\') {
          assert s[i..][2..] == s[i + 2..];
          i := i + 1;
          cur := cur + [s[i]];
        } else if c == quote.mark {
          quote := NoQuote;
        } else {
          cur := cur + [c];
        }
      } else if IsMark(c) {
        quote := In(c);
        has := true;
      } else if IsBlank(c) {
        if has {
          out := out + [cur];
          cur := "";
          has := false;
        }
      } else {
        cur := cur + [c];
        has := true;
      }
      i := i + 1;
    }
    assert s[i..] == "";
    if has {
      out := out + [cur];
    }
  }

  // ---- splitting ---------------------------------------------------------------------

  /** Text whose quotes are all closed is read independently of what follows. */
  lemma {:induction false} ScanConcat(a: string, b: string, l: Lexer)
    requires Scan(a, l).quote == NoQuote && (l.quote.In? ==> IsMark(l.quote.mark))
    ensures Scan(a + b, l) == Scan(b, Scan(a, l))
    decreases |a|
  {
    if a == "" {
      assert a + b == b;
    } else {
      var c := a[0];
      assert (a + b)[1..] == a[1..] + b;
      match l.quote
      case In(mark) =>
        if Escapes(a, mark) {
          assert (a + b)[2..] == a[2..] + b;
          ScanConcat(a[2..], b, l.(cur := l.cur + [a[1]]));
        } else if c == mark {
          ScanConcat(a[1..], b, l.(quote := NoQuote));
        } else {
          ScanConcat(a[1..], b, l.(cur := l.cur + [c]));
        }
      case NoQuote =>
        if IsMark(c) {
          ScanConcat(a[1..], b, l.(quote := In(c), has := true));
        } else if IsBlank(c) {
          ScanConcat(a[1..], b, if l.has then Lexer(Finish(l), "", NoQuote, false) else l);
        } else {
          ScanConcat(a[1..], b, l.(cur := l.cur + [c], has := true));
        }
    }
  }

  /** Arguments already finished do not influence the rest. */
  lemma {:induction false} ScanAfter(s: string, l: Lexer, before: seq<string>)
    ensures Scan(s, l.(out := before + l.out)) == Scan(s, l).(out := before + Scan(s, l).out)
    decreases |s|
  {
    if s != "" {
      var c := s[0];
      match l.quote
      case In(mark) =>
        if Escapes(s, mark) {
          ScanAfter(s[2..], l.(cur := l.cur + [s[1]]), before);
        } else if c == mark {
          ScanAfter(s[1..], l.(quote := NoQuote), before);
        } else {
          ScanAfter(s[1..], l.(cur := l.cur + [c]), before);
        }
      case NoQuote =>
        if IsMark(c) {
          ScanAfter(s[1..], l.(quote := In(c), has := true), before);
        } else if IsBlank(c) {
          assert before + l.out + [l.cur] == before + (l.out + [l.cur]);
          ScanAfter(s[1..], if l.has then Lexer(Finish(l), "", NoQuote, false) else l, before);
        } else {
          ScanAfter(s[1..], l.(cur := l.cur + [c], has := true), before);
        }
    }
  }

  /** With no current argument there is no text left over either. */
  lemma {:induction false} StaysComplete(s: string, l: Lexer)
    requires !l.has ==> l.cur == "" && l.quote == NoQuote
    ensures !Scan(s, l).has ==> Scan(s, l).cur == ""
    decreases |s|
  {
    if s != "" {
      var c := s[0];
      match l.quote
      case In(mark) =>
        if Escapes(s, mark) {
          StaysComplete(s[2..], l.(cur := l.cur + [s[1]]));
        } else if c == mark {
          StaysComplete(s[1..], l.(quote := NoQuote));
        } else {
          StaysComplete(s[1..], l.(cur := l.cur + [c]));
        }
      case NoQuote =>
        if IsMark(c) {
          StaysComplete(s[1..], l.(quote := In(c), has := true));
        } else if IsBlank(c) {
          StaysComplete(s[1..], if l.has then Lexer(Finish(l), "", NoQuote, false) else l);
        } else {
          StaysComplete(s[1..], l.(cur := l.cur + [c], has := true));
        }
    }
  }

  /** A blank outside quotes separates: the arguments of the whole are those of
      the left part followed by those of the right part. */
  lemma SplitsAtBlank(a: string, blank: char, b: string)
    requires Scan(a, START).quote == NoQuote && IsBlank(blank)
    ensures Tokens(a + [blank] + b) == Tokens(a) + Tokens(b)
  {
    var l := Scan(a, START);
    StaysComplete(a, START);
    assert a + [blank] + b == a + ([blank] + b);
    ScanConcat(a, [blank] + b, START);
    assert ([blank] + b)[1..] == b;
    ScanAfter(b, START, Finish(l));
    assert Finish(l) + START.out == Finish(l);
    var r := Scan(b, START);
    assert Finish(l) + (r.out + [r.cur]) == (Finish(l) + r.out) + [r.cur];
  }

  // ---- quoting and reading back ------------------------------------------------------------

  function Escaped(mark: char, s: string): string {
    if s == "" then ""
    else (if s[0] == mark || s[0] == '\\' then ['\\', s[0]] else [s[0]]) + Escaped(mark, s[1..])
  }

  lemma {:induction false} ScanEscaped(mark: char, s: string, l: Lexer)
    requires IsMark(mark) && l.quote == In(mark)
    ensures Scan(Escaped(mark, s) + [mark], l) == l.(cur := l.cur + s, quote := NoQuote)
    decreases |s|
  {
    var e := Escaped(mark, s) + [mark];
    if s == "" {
      assert e[1..] == "";
      assert l.cur + s == l.cur;
    } else {
      var rest := Escaped(mark, s[1..]) + [mark];
      ScanEscaped(mark, s[1..], l.(cur := l.cur + [s[0]]));
      assert l.cur + [s[0]] + s[1..] == l.cur + s;
      if s[0] == mark || s[0] == '\\' {
        assert e == ['\\', s[0]] + rest && e[2..] == rest;
      } else {
        assert e == [s[0]] + rest && e[1..] == rest;
      }
    }
  }

  /** A word that needs no quotes, also at the ends of the line. */
  predicate Plain(s: string) {
    s != "" && !IsJsSpace(s[0]) && !IsJsSpace(s[|s| - 1])
    && forall i | 0 <= i < |s| :: !IsBlank(s[i]) && !IsMark(s[i])
  }

  lemma {:induction false} ScanPlain(s: string, l: Lexer)
    requires l.quote == NoQuote && forall i | 0 <= i < |s| :: !IsBlank(s[i]) && !IsMark(s[i])
    ensures Scan(s, l) == l.(cur := l.cur + s, has := l.has || s != "")
    decreases |s|
  {
    if s == "" {
      assert l.cur + s == l.cur;
    } else {
      ScanPlain(s[1..], l.(cur := l.cur + [s[0]], has := true));
      assert l.cur + [s[0]] + s[1..] == l.cur + s;
    }
  }

  /** How an argument is written down: bare, or between marks. */
  predicate Writable(arg: string, q: Quote) {
    match q
    case NoQuote => Plain(arg)
    case In(mark) => IsMark(mark)
  }

  function Written(arg: string, q: Quote): string {
    match q
    case NoQuote => arg
    case In(mark) => [mark] + Escaped(mark, arg) + [mark]
  }

  lemma ReadsOne(arg: string, q: Quote)
    requires Writable(arg, q)
    ensures Scan(Written(arg, q), START) == Lexer([], arg, NoQuote, true)
    ensures Written(arg, q) != ""
    ensures !IsJsSpace(Written(arg, q)[0]) && !IsJsSpace(Written(arg, q)[|Written(arg, q)| - 1])
  {
    match q
    case NoQuote =>
      ScanPlain(arg, START);
      assert "" + arg == arg;
    case In(mark) =>
      assert Written(arg, q)[1..] == Escaped(mark, arg) + [mark];
      ScanEscaped(mark, arg, START.(quote := In(mark), has := true));
      assert "" + arg == arg;
  }

  /** Arguments in a row, each followed by its blanks except the last. */
  function Line(args: seq<string>, quotes: seq<Quote>, gaps: seq<string>): string
    requires |args| == |quotes| == |gaps|
  {
    if args == [] then ""
    else if |args| == 1 then Written(args[0], quotes[0])
    else Written(args[0], quotes[0]) + gaps[0] + Line(args[1..], quotes[1..], gaps[1..])
  }

  predicate AllBlank(s: string) {
    s != "" && forall i | 0 <= i < |s| :: IsBlank(s[i])
  }

  lemma {:induction false} BlanksSeparate(a: string, gap: string, b: string)
    requires AllBlank(gap) && Scan(a, START).quote == NoQuote
    ensures Tokens(a + gap + b) == Tokens(a) + Tokens(b)
    decreases |gap|
  {
    if |gap| == 1 {
      assert gap == [gap[0]];
      SplitsAtBlank(a, gap[0], b);
    } else {
      assert a + gap + b == a + [gap[0]] + ("" + gap[1..] + b);
      SplitsAtBlank(a, gap[0], "" + gap[1..] + b);
      BlanksSeparate("", gap[1..], b);
    }
  }

  lemma {:induction false} ReadsLine(args: seq<string>, quotes: seq<Quote>, gaps: seq<string>)
    requires |args| == |quotes| == |gaps| && forall i | 0 <= i < |args| :: AllBlank(gaps[i])
    requires forall i | 0 <= i < |args| :: Writable(args[i], quotes[i])
    ensures Tokens(Line(args, quotes, gaps)) == args
    ensures args != [] ==> var s := Line(args, quotes, gaps);
              s != "" && !IsJsSpace(s[0]) && !IsJsSpace(s[|s| - 1])
    decreases |args|
  {
    if args != [] {
      ReadsOne(args[0], quotes[0]);
      assert Tokens(Written(args[0], quotes[0])) == [args[0]];
      if |args| > 1 {
        ReadsLine(args[1..], quotes[1..], gaps[1..]);
        BlanksSeparate(Written(args[0], quotes[0]), gaps[0], Line(args[1..], quotes[1..], gaps[1..]));
        assert args == [args[0]] + args[1..];
      } else {
        assert args == [args[0]];
      }
    }
  }

  /** Every list of arguments, written down with any mixture of marks, bare
      words and blanks, is read back as that list: empty arguments, marks,
      backslashes and blanks inside included. */
  lemma RoundTrip(args: seq<string>, quotes: seq<Quote>, gaps: seq<string>)
    requires |args| == |quotes| == |gaps| && forall i | 0 <= i < |args| :: AllBlank(gaps[i])
    requires forall i | 0 <= i < |args| :: Writable(args[i], quotes[i])
    ensures Parse(Line(args, quotes, gaps)) == args
  {
    ReadsLine(args, quotes, gaps);
    JsTrimFixed(Line(args, quotes, gaps));
  }

  /** In particular with double quotes and single spaces throughout. */
  lemma DoubleQuotedRoundTrip(args: seq<string>)
    ensures Parse(Line(args, seq(|args|, _ => In('"')), seq(|args|, _ => " "))) == args
  {
    RoundTrip(args, seq(|args|, _ => In('"')), seq(|args|, _ => " "));
  }

  // ---- what is not written that way -----------------------------------------------------------

  lemma {:induction false} ScanOpen(mark: char, s: string, l: Lexer)
    requires IsMark(mark) && l.quote == In(mark)
    ensures Scan(Escaped(mark, s), l) == l.(cur := l.cur + s)
    decreases |s|
  {
    var e := Escaped(mark, s);
    if s == "" {
      assert l.cur + s == l.cur;
    } else {
      ScanOpen(mark, s[1..], l.(cur := l.cur + [s[0]]));
      assert l.cur + [s[0]] + s[1..] == l.cur + s;
      if s[0] == mark || s[0] == '\\' {
        assert e[2..] == Escaped(mark, s[1..]);
      } else {
        assert e[1..] == Escaped(mark, s[1..]);
      }
    }
  }

  /** A quote that is never closed reaches to the end of the line. */
  lemma OpenQuoteReadsOn(mark: char, s: string)
    requires IsMark(mark)
    ensures Tokens([mark] + Escaped(mark, s)) == [s]
  {
    assert ([mark] + Escaped(mark, s))[1..] == Escaped(mark, s);
    ScanOpen(mark, s, START.(quote := In(mark), has := true));
    assert "" + s == s;
  }

  /** Text without its mark, in which no backslash stands before a backslash or at
      the end. */
  predicate Tame(mark: char, s: string) {
    && (forall i | 0 <= i < |s| :: s[i] != mark)
    && (forall i | 0 <= i < |s| && s[i] == '\\' :: i + 1 < |s| && s[i + 1] != '\\')
  }

  lemma {:induction false} ScanTame(mark: char, s: string, l: Lexer)
    requires IsMark(mark) && l.quote == In(mark) && Tame(mark, s)
    ensures Scan(s + [mark], l) == l.(cur := l.cur + s, quote := NoQuote)
    decreases |s|
  {
    if s == "" {
      assert l.cur + s == l.cur && (s + [mark])[1..] == "";
    } else {
      assert (s + [mark])[1..] == s[1..] + [mark];
      ScanTame(mark, s[1..], l.(cur := l.cur + [s[0]]));
      assert l.cur + [s[0]] + s[1..] == l.cur + s;
    }
  }

  /** A backslash before any other character is just a backslash, in quotes as
      outside of them, so paths need no escapes. */
  lemma BackslashStays(mark: char, s: string)
    requires IsMark(mark) && Tame(mark, s)
    ensures Tokens([mark] + s + [mark]) == [s]
    ensures s != "" && (forall i | 0 <= i < |s| :: !IsBlank(s[i]) && !IsMark(s[i])) ==> Tokens(s) == [s]
  {
    assert ([mark] + s + [mark])[1..] == s + [mark];
    ScanTame(mark, s, START.(quote := In(mark), has := true));
    assert "" + s == s;
    if s != "" && forall i | 0 <= i < |s| :: !IsBlank(s[i]) && !IsMark(s[i]) {
      ScanPlain(s, START);
    }
  }

  lemma ReadsMore(b: string, q: Quote, a: string)
    requires Writable(b, q)
    ensures Scan(Written(b, q), Lexer([], a, NoQuote, true)) == Lexer([], a + b, NoQuote, true)
  {
    match q
    case NoQuote => ScanPlain(b, Lexer([], a, NoQuote, true));
    case In(mark) =>
      assert Written(b, q)[1..] == Escaped(mark, b) + [mark];
      ScanEscaped(mark, b, Lexer([], a, In(mark), true));
  }

  /** Pieces with no blank between them are one argument, however each is quoted. */
  lemma PiecesJoin(a: string, p: Quote, b: string, q: Quote)
    requires Writable(a, p) && Writable(b, q)
    ensures Tokens(Written(a, p) + Written(b, q)) == [a + b]
  {
    ReadsOne(a, p);
    ReadsMore(b, q, a);
    ScanConcat(Written(a, p), Written(b, q), START);
  }
}
