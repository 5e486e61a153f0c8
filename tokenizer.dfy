/** The command-line tokenizer: one left-to-right scan with two quote flags,
    a current-token buffer and the list of finished tokens.

    `Scan` is the scan as a function over the unread rest of the line; the
    method `Tokenize` is the loop of the source, proved to compute the same
    thing, and the lemmas state what the scan does with quotes, escapes and
    whitespace. */
module Tokenizer {
  import opened Wrappers
  import opened CType

  const MismatchedQuotes: string := "Mismatched quotes in command line"

  /** The scanner state: finished tokens, the token being built, and the
      single- and double-quote flags. */
  datatype Lexer = Lexer(tokens: seq<string>, cur: string, inSingle: bool, inDouble: bool)

  const Start: Lexer := Lexer([], [], false, false)

  /** `push_token`: a non-empty buffer becomes a token and is cleared. */
  function PushToken(st: Lexer): (r: Lexer)
    ensures r.cur == [] && r.inSingle == st.inSingle && r.inDouble == st.inDouble
    ensures |st.tokens| <= |r.tokens| <= |st.tokens| + 1 && r.tokens[..|st.tokens|] == st.tokens
    ensures |r.tokens| == |st.tokens| + 1 <==> st.cur != []
    ensures st.cur != [] ==> r.tokens[|st.tokens|] == st.cur
  {
    if st.cur != [] then st.(tokens := st.tokens + [st.cur], cur := []) else st
  }

  /** The scan over the unread rest of the line. */
  function Scan(st: Lexer, rest: string): Lexer
    decreases |rest|
  {
    if rest == [] then st
    else if rest[0] == '\\' then
      if |rest| > 1 then Scan(st.(cur := st.cur + [rest[1]]), rest[2..])
      else Scan(st.(cur := st.cur + ['\\']), rest[1..])
    else if rest[0] == '\'' && !st.inDouble then Scan(st.(inSingle := !st.inSingle), rest[1..])
    else if rest[0] == '"' && !st.inSingle then Scan(st.(inDouble := !st.inDouble), rest[1..])
    else if IsSpace(rest[0]) && !st.inSingle && !st.inDouble then Scan(PushToken(st), rest[1..])
    else Scan(st.(cur := st.cur + [rest[0]]), rest[1..])
  }

  /** What `tokenize` returns for a line. */
  function Tokenized(line: string): Result<seq<string>, string>
  {
    var st := Scan(Start, line);
    if st.inSingle || st.inDouble then Failure(MismatchedQuotes)
    else Success(PushToken(st).tokens)
  }

  /** `tokenize`: the scan loop of the source, with the index advanced a
      second time after a backslash. */
  method Tokenize(line: string) returns (r: Result<seq<string>, string>)
    ensures r == Tokenized(line)
  {
    var tokens: seq<string> := [];
    var cur: string := [];
    var inSingle := false;
    var inDouble := false;
    var i := 0;
    while i < |line|
      invariant 0 <= i <= |line|
      invariant Scan(Lexer(tokens, cur, inSingle, inDouble), line[i..]) == Scan(Start, line)
    {
      var c := line[i];
      assert line[i..][0] == c && line[i..][1..] == line[i + 1..];
      if c == '\\' {
        if i + 1 < |line| {
          assert line[i..][1] == line[i + 1] && line[i..][2..] == line[i + 2..];
          i := i + 1;
          cur := cur + [line[i]];
        } else {
          cur := cur + ['\\'];
        }
      } else if c == '\'' && !inDouble {
        inSingle := !inSingle;
      } else if c == '"' && !inSingle {
        inDouble := !inDouble;
      } else if IsSpace(c) && !inSingle && !inDouble {
        if cur != [] {
          tokens := tokens + [cur];
          cur := [];
        }
      } else {
        cur := cur + [c];
      }
      i := i + 1;
    }
    if inSingle || inDouble {
      return Failure(MismatchedQuotes);
    }
    if cur != [] {
      tokens := tokens + [cur];
      cur := [];
    }
    r := Success(tokens);
  }

  // ---------------------------------------------------------------------
  // Quote balance
  // ---------------------------------------------------------------------

  /** The two quote flags alone, run over the rest of a line: a backslash
      skips the next character, a quote of one kind toggles its flag unless
      the other kind is open. No tokens are tracked. */
  function QuoteFlags(inSingle: bool, inDouble: bool, rest: string): (bool, bool)
    decreases |rest|
  {
    if rest == [] then (inSingle, inDouble)
    else if rest[0] == '\\' then
      if |rest| > 1 then QuoteFlags(inSingle, inDouble, rest[2..]) else (inSingle, inDouble)
    else if rest[0] == '\'' && !inDouble then QuoteFlags(!inSingle, inDouble, rest[1..])
    else if rest[0] == '"' && !inSingle then QuoteFlags(inSingle, !inDouble, rest[1..])
    else QuoteFlags(inSingle, inDouble, rest[1..])
  }

  /** The scanner's quote flags at the end are those of the flag machine,
      and a scan that starts with at most one quote open never has both
      open. */
  lemma {:induction false} ScanFlags(st: Lexer, rest: string)
    ensures var e := Scan(st, rest);
      (e.inSingle, e.inDouble) == QuoteFlags(st.inSingle, st.inDouble, rest)
    ensures var e := Scan(st, rest);
      !(st.inSingle && st.inDouble) ==> !(e.inSingle && e.inDouble)
    decreases |rest|
  {
    if rest == [] {
    } else if rest[0] == '\\' {
      if |rest| > 1 {
        ScanFlags(st.(cur := st.cur + [rest[1]]), rest[2..]);
      } else {
        ScanFlags(st.(cur := st.cur + ['\\']), rest[1..]);
      }
    } else if rest[0] == '\'' && !st.inDouble {
      ScanFlags(st.(inSingle := !st.inSingle), rest[1..]);
    } else if rest[0] == '"' && !st.inSingle {
      ScanFlags(st.(inDouble := !st.inDouble), rest[1..]);
    } else if IsSpace(rest[0]) && !st.inSingle && !st.inDouble {
      ScanFlags(PushToken(st), rest[1..]);
    } else {
      ScanFlags(st.(cur := st.cur + [rest[0]]), rest[1..]);
    }
  }

  /** `tokenize` fails exactly when a single or a double quote is still open
      at the end of the line, and then with the mismatched-quotes message. */
  lemma FailsIffQuoteOpen(line: string)
    ensures Tokenized(line).Failure? <==> QuoteFlags(false, false, line) != (false, false)
    ensures Tokenized(line).Failure? ==> Tokenized(line).error == MismatchedQuotes
  {
    ScanFlags(Start, line);
  }

  // ---------------------------------------------------------------------
  // Tokens are never empty
  // ---------------------------------------------------------------------

  predicate NoEmptyToken(tokens: seq<string>)
  {
    forall k :: 0 <= k < |tokens| ==> tokens[k] != []
  }

  lemma {:induction false} ScanKeepsTokensNonEmpty(st: Lexer, rest: string)
    requires NoEmptyToken(st.tokens)
    ensures NoEmptyToken(Scan(st, rest).tokens)
    decreases |rest|
  {
    if rest == [] {
    } else if rest[0] == '\\' {
      if |rest| > 1 {
        ScanKeepsTokensNonEmpty(st.(cur := st.cur + [rest[1]]), rest[2..]);
      } else {
        ScanKeepsTokensNonEmpty(st.(cur := st.cur + ['\\']), rest[1..]);
      }
    } else if rest[0] == '\'' && !st.inDouble {
      ScanKeepsTokensNonEmpty(st.(inSingle := !st.inSingle), rest[1..]);
    } else if rest[0] == '"' && !st.inSingle {
      ScanKeepsTokensNonEmpty(st.(inDouble := !st.inDouble), rest[1..]);
    } else if IsSpace(rest[0]) && !st.inSingle && !st.inDouble {
      ScanKeepsTokensNonEmpty(PushToken(st), rest[1..]);
    } else {
      ScanKeepsTokensNonEmpty(st.(cur := st.cur + [rest[0]]), rest[1..]);
    }
  }

  /** `tokenize` never produces an empty token. */
  lemma TokensNonEmpty(line: string)
    ensures Tokenized(line).Success? ==> NoEmptyToken(Tokenized(line).value)
  {
    ScanKeepsTokensNonEmpty(Start, line);
  }

  // ---------------------------------------------------------------------
  // Blank lines
  // ---------------------------------------------------------------------

  lemma {:induction false} ScanBlank(tokens: seq<string>, rest: string)
    requires AllSpace(rest)
    ensures Scan(Lexer(tokens, [], false, false), rest) == Lexer(tokens, [], false, false)
    decreases |rest|
  {
    if rest != [] {
      assert AllSpace(rest[1..]) by {
        assert forall k :: 0 <= k < |rest[1..]| ==> rest[1..][k] == rest[k + 1];
      }
      ScanBlank(tokens, rest[1..]);
    }
  }

  /** An empty or whitespace-only line yields no tokens. */
  lemma BlankLineNoTokens(line: string)
    requires AllSpace(line)
    ensures Tokenized(line) == Success([])
  {
    ScanBlank([], line);
  }

  // ---------------------------------------------------------------------
  // Escapes and quoted segments
  // ---------------------------------------------------------------------

  /** A backslash appends the next character literally whatever it is and in
      any quote state; a backslash at the very end is kept as '\'. */
  lemma EscapeIsLiteral(st: Lexer, c: char, rest: string)
    ensures Scan(st, ['\\', c] + rest) == Scan(st.(cur := st.cur + [c]), rest)
    ensures Scan(st, ['\\']) == st.(cur := st.cur + ['\\'])
  {
    assert (['\\', c] + rest)[2..] == rest;
  }

  /** Characters with no meaning to the scanner outside quotes. */
  predicate PlainChar(c: char)
  {
    !IsSpace(c) && c != '\'' && c != '"' && c != '\\'
  }

  predicate PlainWord(w: string)
  {
    w != [] && forall k :: 0 <= k < |w| ==> PlainChar(w[k])
  }

  /** Inside single quotes, any text without a single quote or a backslash
      (whitespace and double quotes included) goes into the token verbatim. */
  lemma {:induction false} ScanInSingle(st: Lexer, q: string, rest: string)
    requires st.inSingle && !st.inDouble
    requires forall k :: 0 <= k < |q| ==> q[k] != '\'' && q[k] != '\\'
    ensures Scan(st, q + rest) == Scan(st.(cur := st.cur + q), rest)
    decreases |q|
  {
    if q != [] {
      assert (q + rest)[0] == q[0] && (q + rest)[1..] == q[1..] + rest;
      assert st.cur + q == (st.cur + [q[0]]) + q[1..];
      ScanInSingle(st.(cur := st.cur + [q[0]]), q[1..], rest);
    } else {
      assert q + rest == rest && st.cur + q == st.cur;
    }
  }

  /** Inside double quotes, any text without a double quote or a backslash
      (whitespace and single quotes included) goes into the token verbatim. */
  lemma {:induction false} ScanInDouble(st: Lexer, q: string, rest: string)
    requires st.inDouble && !st.inSingle
    requires forall k :: 0 <= k < |q| ==> q[k] != '"' && q[k] != '\\'
    ensures Scan(st, q + rest) == Scan(st.(cur := st.cur + q), rest)
    decreases |q|
  {
    if q != [] {
      assert (q + rest)[0] == q[0] && (q + rest)[1..] == q[1..] + rest;
      assert st.cur + q == (st.cur + [q[0]]) + q[1..];
      ScanInDouble(st.(cur := st.cur + [q[0]]), q[1..], rest);
    } else {
      assert q + rest == rest && st.cur + q == st.cur;
    }
  }

  /** A quoted segment outside quotes adds its contents to the current token
      without the delimiters and without splitting at whitespace; a quote of
      the other kind inside it is literal. */
  lemma QuotedSegment(st: Lexer, quote: char, q: string, rest: string)
    requires !st.inSingle && !st.inDouble
    requires quote == '\'' || quote == '"'
    requires forall k :: 0 <= k < |q| ==> q[k] != quote && q[k] != '\\'
    ensures Scan(st, [quote] + q + [quote] + rest) == Scan(st.(cur := st.cur + q), rest)
  {
    var line := [quote] + q + [quote] + rest;
    assert line[0] == quote && line[1..] == q + ([quote] + rest);
    var inner := if quote == '\'' then st.(inSingle := true) else st.(inDouble := true);
    assert Scan(st, line) == Scan(inner, q + ([quote] + rest));
    if quote == '\'' {
      ScanInSingle(inner, q, [quote] + rest);
    } else {
      ScanInDouble(inner, q, [quote] + rest);
    }
    assert ([quote] + rest)[1..] == rest;
  }

  // ---------------------------------------------------------------------
  // Round trip with joining by single spaces
  // ---------------------------------------------------------------------

  /** The words joined by single spaces (as `echo` prints its arguments). */
  function Join(words: seq<string>): string
  {
    if words == [] then []
    else if |words| == 1 then words[0]
    else words[0] + " " + Join(words[1..])
  }

  /** Outside quotes, a plain word just extends the current token. */
  lemma {:induction false} ScanPlain(st: Lexer, w: string, rest: string)
    requires !st.inSingle && !st.inDouble
    requires forall k :: 0 <= k < |w| ==> PlainChar(w[k])
    ensures Scan(st, w + rest) == Scan(st.(cur := st.cur + w), rest)
    decreases |w|
  {
    if w != [] {
      assert (w + rest)[0] == w[0] && (w + rest)[1..] == w[1..] + rest;
      assert st.cur + w == (st.cur + [w[0]]) + w[1..];
      ScanPlain(st.(cur := st.cur + [w[0]]), w[1..], rest);
    } else {
      assert w + rest == rest && st.cur + w == st.cur;
    }
  }

  /** Scanning plain words joined by spaces finishes all but the last word
      and leaves the last one in the buffer. */
  lemma {:induction false} ScanJoined(tokens: seq<string>, words: seq<string>, rest: string)
    requires |words| >= 1
    requires forall k :: 0 <= k < |words| ==> PlainWord(words[k])
    ensures Scan(Lexer(tokens, [], false, false), Join(words) + rest)
         == Scan(Lexer(tokens + words[..|words| - 1], words[|words| - 1], false, false), rest)
    decreases |words|
  {
    var st := Lexer(tokens, [], false, false);
    var w := words[0];
    if |words| == 1 {
      assert Join(words) == w;
      ScanPlain(st, w, rest);
      assert st.(cur := st.cur + w) == Lexer(tokens, w, false, false) by {
        assert st.cur + w == w;
      }
      assert tokens + words[..|words| - 1] == tokens by {
        assert words[..|words| - 1] == [];
      }
    } else {
      var more := words[1..];
      var after := Join(more) + rest;
      assert Join(words) + rest == w + (" " + after);
      ScanPlain(st, w, " " + after);
      assert st.(cur := st.cur + w) == st.(cur := w) by {
        assert st.cur + w == w;
      }
      assert (" " + after)[0] == ' ' && (" " + after)[1..] == after;
      assert PushToken(st.(cur := w)) == Lexer(tokens + [w], [], false, false);
      assert Scan(st.(cur := w), " " + after) == Scan(Lexer(tokens + [w], [], false, false), after);
      ScanJoined(tokens + [w], more, rest);
      assert more[|more| - 1] == words[|words| - 1];
      assert tokens + [w] + more[..|more| - 1] == tokens + words[..|words| - 1];
    }
  }

  /** Tokenizing plain words joined by single spaces gives the words back. */
  lemma {:induction false} JoinRoundTrip(words: seq<string>)
    requires forall k :: 0 <= k < |words| ==> PlainWord(words[k])
    ensures Tokenized(Join(words)) == Success(words)
  {
    if words == [] {
      BlankLineNoTokens([]);
    } else {
      var j := Join(words);
      var last := Lexer(words[..|words| - 1], words[|words| - 1], false, false);
      ScanJoined([], words, []);
      assert j + [] == j && [] + words[..|words| - 1] == words[..|words| - 1];
      assert Scan(last, []) == last;
      var e := Scan(Start, j);
      assert e == last;
      assert PushToken(e).tokens == words[..|words| - 1] + [words[|words| - 1]];
      assert words[..|words| - 1] + [words[|words| - 1]] == words;
    }
  }

  // ---------------------------------------------------------------------
  // The shapes of the tokenizer's tests
  // ---------------------------------------------------------------------

  /** After plain words and a space the scanner is between tokens with all
      the words finished. */
  lemma {:induction false} ScanWordsThenSpace(words: seq<string>, rest: string)
    requires |words| >= 1
    requires forall k :: 0 <= k < |words| ==> PlainWord(words[k])
    ensures Scan(Start, Join(words) + " " + rest) == Scan(Lexer(words, [], false, false), rest)
  {
    var init, last := words[..|words| - 1], words[|words| - 1];
    var st := Lexer(init, last, false, false);
    assert Join(words) + " " + rest == Join(words) + (" " + rest);
    ScanJoined([], words, " " + rest);
    assert [] + init == init;
    assert (" " + rest)[0] == ' ' && (" " + rest)[1..] == rest;
    assert PushToken(st) == Lexer(init + [last], [], false, false);
    assert init + [last] == words;
  }

  /** When what follows the words and a space scans to one more token, the
      line tokenizes to the words and that token. */
  lemma TokenizedAfterWords(words: seq<string>, rest: string, token: string)
    requires |words| >= 1
    requires forall k :: 0 <= k < |words| ==> PlainWord(words[k])
    requires token != []
    requires Scan(Lexer(words, [], false, false), rest) == Lexer(words, token, false, false)
    ensures Tokenized(Join(words) + " " + rest) == Success(words + [token])
  {
    ScanWordsThenSpace(words, rest);
  }

  /** A quoted argument after plain words is one token holding the text
      between the quotes: spaces and the other kind of quote inside it are
      kept, the delimiters are dropped. */
  lemma QuotedArgument(words: seq<string>, quote: char, q: string)
    requires |words| >= 1
    requires forall k :: 0 <= k < |words| ==> PlainWord(words[k])
    requires quote == '\'' || quote == '"'
    requires q != [] && forall k :: 0 <= k < |q| ==> q[k] != quote && q[k] != '\\'
    ensures Tokenized(Join(words) + " " + ([quote] + q + [quote])) == Success(words + [q])
  {
    var st := Lexer(words, [], false, false);
    ScanWordsThenSpace(words, [quote] + q + [quote]);
    assert [quote] + q + [quote] == [quote] + q + [quote] + [];
    QuotedSegment(st, quote, q, []);
    assert st.cur + q == q;
  }

  /** An empty pair of quotes produces no token at all. */
  lemma EmptyQuotesVanish(words: seq<string>, quote: char)
    requires |words| >= 1
    requires forall k :: 0 <= k < |words| ==> PlainWord(words[k])
    requires quote == '\'' || quote == '"'
    ensures Tokenized(Join(words) + " " + [quote, quote]) == Success(words)
  {
    var st := Lexer(words, [], false, false);
    ScanWordsThenSpace(words, [quote, quote]);
    assert [quote, quote] == [quote] + [] + [quote] + [];
    QuotedSegment(st, quote, [], []);
    assert st.cur + [] == [];
  }

  /** Outside quotes, an escaped character followed by plain text, at the
      end of the line, extends the current token by that character and the
      text. */
  lemma ScanEscapeThenPlain(st: Lexer, c: char, b: string)
    requires !st.inSingle && !st.inDouble
    requires forall k :: 0 <= k < |b| ==> PlainChar(b[k])
    ensures Scan(st, ['\\', c] + b) == st.(cur := st.cur + [c] + b)
  {
    var st1 := st.(cur := st.cur + [c]);
    EscapeIsLiteral(st, c, b);
    ScanPlain(st1, b, []);
    assert b + [] == b;
  }

  /** Outside quotes, a word with one escaped character in it, at the end of
      the line, extends the current token by the word with the backslash
      removed. */
  lemma ScanEscapedWord(st: Lexer, a: string, c: char, b: string)
    requires !st.inSingle && !st.inDouble
    requires forall k :: 0 <= k < |a| ==> PlainChar(a[k])
    requires forall k :: 0 <= k < |b| ==> PlainChar(b[k])
    ensures Scan(st, a + (['\\', c] + b)) == st.(cur := st.cur + a + [c] + b)
  {
    ScanPlain(st, a, ['\\', c] + b);
    ScanEscapeThenPlain(st.(cur := st.cur + a), c, b);
  }

  /** A backslash inside an argument puts the next character into the token
      whatever it is (a space, a quote or another backslash). */
  lemma EscapedCharacter(words: seq<string>, a: string, c: char, b: string)
    requires |words| >= 1
    requires forall k :: 0 <= k < |words| ==> PlainWord(words[k])
    requires forall k :: 0 <= k < |a| ==> PlainChar(a[k])
    requires forall k :: 0 <= k < |b| ==> PlainChar(b[k])
    ensures Tokenized(Join(words) + " " + (a + (['\\', c] + b))) == Success(words + [a + [c] + b])
  {
    var st := Lexer(words, [], false, false);
    ScanEscapedWord(st, a, c, b);
    assert [] + a == a;
    TokenizedAfterWords(words, a + (['\\', c] + b), a + [c] + b);
  }

  /** A backslash at the very end of the line is kept in the last token. */
  lemma TrailingBackslash(words: seq<string>)
    requires |words| >= 1
    requires forall k :: 0 <= k < |words| ==> PlainWord(words[k])
    ensures Tokenized(Join(words) + "\\")
         == Success(words[..|words| - 1] + [words[|words| - 1] + "\\"])
  {
    var init, last := words[..|words| - 1], words[|words| - 1];
    ScanJoined([], words, "\\");
    assert [] + init == init;
    EscapeIsLiteral(Lexer(init, last, false, false), '\\', []);
  }

  /** A quote opened after plain words and never closed makes the whole
      line fail. */
  lemma UnclosedQuote(words: seq<string>, quote: char, q: string)
    requires |words| >= 1
    requires forall k :: 0 <= k < |words| ==> PlainWord(words[k])
    requires quote == '\'' || quote == '"'
    requires forall k :: 0 <= k < |q| ==> q[k] != quote && q[k] != '\\'
    ensures Tokenized(Join(words) + " " + ([quote] + q)) == Failure(MismatchedQuotes)
  {
    var st := Lexer(words, [], false, false);
    ScanWordsThenSpace(words, [quote] + q);
    assert ([quote] + q)[0] == quote && ([quote] + q)[1..] == q + [];
    if quote == '\'' {
      ScanInSingle(st.(inSingle := true), q, []);
    } else {
      ScanInDouble(st.(inDouble := true), q, []);
    }
  }
}
