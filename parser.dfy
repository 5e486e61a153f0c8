/** The classifier: recognises operator tokens and splits a token list into
    arguments and operators. Every token is tested on its own, wherever it
    stands in the line. */
module Parser {
  import opened Commands

  /** `parse_operator`: an exact-match table; any other token is `None`. */
  function ParseOperator(token: string): (op: Op)
    ensures op == None <==> token !in {"!", "?", "$?", "$??"}
    ensures op != None ==> Spelling(op) == token
  {
    if token == "!" then ForceOutput
    else if token == "?" then DiscardOutput
    else if token == "$?" then PrintRC
    else if token == "$??" then PrintRCHuman
    else None
  }

  /** The token that spells each operator; `None` has no spelling. */
  function Spelling(op: Op): string
    requires op != None
  {
    match op
    case ForceOutput => "!"
    case DiscardOutput => "?"
    case PrintRC => "$?"
    case PrintRCHuman => "$??"
  }

  predicate IsOperator(token: string)
  {
    ParseOperator(token) != None
  }

  /** Exactly the four spellings are operators, each reads back as the
      operator it spells, and every operator token is the spelling of what
      it parses to. */
  lemma OperatorTable(token: string, op: Op)
    ensures IsOperator(token) <==> token in {"!", "?", "$?", "$??"}
    ensures op != None ==> ParseOperator(Spelling(op)) == op
    ensures IsOperator(token) ==> Spelling(ParseOperator(token)) == token
  {
  }

  /** The tokens that are not operators, in order. */
  function Arguments(tokens: seq<string>): seq<string>
    decreases |tokens|
  {
    if tokens == [] then []
    else
      var last := tokens[|tokens| - 1];
      Arguments(tokens[..|tokens| - 1]) + (if IsOperator(last) then [] else [last])
  }

  /** The operators the operator tokens stand for, in order. */
  function Operators(tokens: seq<string>): seq<Op>
    decreases |tokens|
  {
    if tokens == [] then []
    else
      var last := tokens[|tokens| - 1];
      Operators(tokens[..|tokens| - 1]) + (if IsOperator(last) then [ParseOperator(last)] else [])
  }

  /** `parse_command`: one pass over the tokens, pushing each operator onto
      `ops` and every other token onto `args`. */
  method ParseCommand(tokens: seq<string>) returns (cmd: Command)
    ensures cmd.args == Arguments(tokens)
    ensures cmd.ops == Operators(tokens)
  {
    cmd := Command([], []);
    for i := 0 to |tokens|
      invariant cmd.args == Arguments(tokens[..i])
      invariant cmd.ops == Operators(tokens[..i])
    {
      assert tokens[..i + 1][..i] == tokens[..i];
      var token := tokens[i];
      var op := ParseOperator(token);
      if op != None {
        cmd := cmd.(ops := cmd.ops + [op]);
      } else {
        cmd := cmd.(args := cmd.args + [token]);
      }
    }
    assert tokens[..|tokens|] == tokens;
  }

  /** Splitting distributes over concatenation, so an operator token is
      recognised wherever it stands, not only at the end of the line. */
  lemma {:induction false} SplitAppend(a: seq<string>, b: seq<string>)
    ensures Arguments(a + b) == Arguments(a) + Arguments(b)
    ensures Operators(a + b) == Operators(a) + Operators(b)
    decreases |b|
  {
    if b == [] {
      assert a + b == a;
    } else {
      var b' := b[..|b| - 1];
      assert (a + b)[..|a + b| - 1] == a + b';
      assert (a + b)[|a + b| - 1] == b[|b| - 1];
      SplitAppend(a, b');
    }
  }

  /** Every token lands in exactly one of the two lists, no `None` is ever
      listed, and each listed argument is a non-operator token. */
  lemma {:induction false} SplitShape(tokens: seq<string>)
    ensures |Arguments(tokens)| + |Operators(tokens)| == |tokens|
    ensures None !in Operators(tokens)
    ensures forall a :: a in Arguments(tokens) ==> a in tokens && !IsOperator(a)
    decreases |tokens|
  {
    if tokens != [] {
      var init := tokens[..|tokens| - 1];
      var last := tokens[|tokens| - 1];
      SplitShape(init);
      assert forall a :: a in init ==> a in tokens;
      assert Arguments(tokens) == Arguments(init) + (if IsOperator(last) then [] else [last]);
    }
  }

  /** With no operator tokens the arguments are the whole input and no
      operator is listed: no default operator is added. */
  lemma {:induction false} NoOperatorTokens(tokens: seq<string>)
    requires forall k :: 0 <= k < |tokens| ==> !IsOperator(tokens[k])
    ensures Arguments(tokens) == tokens && Operators(tokens) == []
    decreases |tokens|
  {
    if tokens != [] {
      var init := tokens[..|tokens| - 1];
      NoOperatorTokens(init);
      assert init + [tokens[|tokens| - 1]] == tokens;
    }
  }

  /** One more token extends exactly one of the two lists. */
  lemma Snoc(tokens: seq<string>, token: string)
    ensures Arguments(tokens + [token]) == Arguments(tokens) + (if IsOperator(token) then [] else [token])
    ensures Operators(tokens + [token]) == Operators(tokens) + (if IsOperator(token) then [ParseOperator(token)] else [])
  {
    assert (tokens + [token])[..|tokens|] == tokens;
  }

  /** The shape of the parser test with a trailing "!": the words stay in
      `args` and the "!" becomes the only operator. */
  lemma ParseTrailingForce(w1: string, w2: string, w3: string)
    requires !IsOperator(w1) && !IsOperator(w2) && !IsOperator(w3)
    ensures Arguments([w1, w2, w3, "!"]) == [w1, w2, w3]
    ensures Operators([w1, w2, w3, "!"]) == [ForceOutput]
  {
    Snoc([], w1);
    assert [] + [w1] == [w1];
    Snoc([w1], w2);
    assert [w1] + [w2] == [w1, w2];
    Snoc([w1, w2], w3);
    assert [w1, w2] + [w3] == [w1, w2, w3];
    Snoc([w1, w2, w3], "!");
    assert [w1, w2, w3] + ["!"] == [w1, w2, w3, "!"];
  }

  /** The shape of the parser test with two trailing operators: both are
      listed, in order. */
  lemma ParseTwoOperators(w1: string, w2: string)
    requires !IsOperator(w1) && !IsOperator(w2)
    ensures Arguments([w1, w2, "?", "$?"]) == [w1, w2]
    ensures Operators([w1, w2, "?", "$?"]) == [DiscardOutput, PrintRC]
  {
    Snoc([], w1);
    assert [] + [w1] == [w1];
    Snoc([w1], w2);
    assert [w1] + [w2] == [w1, w2];
    Snoc([w1, w2], "?");
    assert [w1, w2] + ["?"] == [w1, w2, "?"];
    Snoc([w1, w2, "?"], "$?");
    assert [w1, w2, "?"] + ["$?"] == [w1, w2, "?", "$?"];
  }

  /** The shape of the parser test with no operator: nothing is added. */
  lemma ParseNoOperator(w1: string, w2: string)
    requires !IsOperator(w1) && !IsOperator(w2)
    ensures Arguments([w1, w2]) == [w1, w2]
    ensures Operators([w1, w2]) == []
  {
    Snoc([], w1);
    assert [] + [w1] == [w1];
    Snoc([w1], w2);
    assert [w1] + [w2] == [w1, w2];
  }

  /** An operator in the middle of the line is still an operator, and the
      words around it stay in order. */
  lemma ParseMidLineOperator(w1: string, w2: string)
    requires !IsOperator(w1) && !IsOperator(w2)
    ensures Arguments([w1, "?", w2]) == [w1, w2]
    ensures Operators([w1, "?", w2]) == [DiscardOutput]
  {
    Snoc([], w1);
    assert [] + [w1] == [w1];
    Snoc([w1], "?");
    assert [w1] + ["?"] == [w1, "?"];
    Snoc([w1, "?"], w2);
    assert [w1, "?"] + [w2] == [w1, "?", w2];
  }

  /** The token vectors of the parser's tests split as those tests
      expect. */
  lemma ParserTestVectors()
    ensures ParseOperator("unknown") == None
    ensures Arguments(["echo", "Hello", "World", "!"]) == ["echo", "Hello", "World"]
    ensures Operators(["echo", "Hello", "World", "!"]) == [ForceOutput]
    ensures Arguments(["ls", "-l", "?", "$?"]) == ["ls", "-l"]
    ensures Operators(["ls", "-l", "?", "$?"]) == [DiscardOutput, PrintRC]
    ensures Arguments(["cat", "file.txt"]) == ["cat", "file.txt"]
    ensures Operators(["cat", "file.txt"]) == []
  {
    ParseTrailingForce("echo", "Hello", "World");
    ParseTwoOperators("ls", "-l");
    ParseNoOperator("cat", "file.txt");
  }
}
