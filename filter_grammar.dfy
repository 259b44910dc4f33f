/** The PT-referential filter language (the select_r grammar and parse in
    ptreferential/ptreferential.cpp), as recursive-descent functions over positions in the
    request. Every parser takes the request `s` and a start position and either does not match
    or yields a value and the position after it. As with a Spirit skipper rule, a token first
    skips white space (isspace); escaped and bracketed strings skip it only before their opening
    character, never inside. Alternatives are tried in order and a failing one consumes nothing. */
module FilterGrammar {
  import opened Wrappers
  import opened Text

  datatype Operator = EQ | NEQ | LT | GT | LEQ | GEQ | DWITHIN

  /** The four clause shapes: `object.attribute OP value`, `object HAVING (value)`,
      `AFTER(value)` and `object.method(args)`. */
  datatype Filter =
    | Compare(objectName: string, attribute: string, op: Operator, value: string)
    | Having(objectName: string, value: string)
    | After(value: string)
    | Method(objectName: string, methodName: string, args: seq<string>)

  /** The outcome of one parser: no match, or a value and the position after it. */
  datatype Step<+T> = NoMatch | Match(value: T, next: nat)

  /** A parser: from a position in the request, no match or a value and the position after it. */
  type Parser<T> = (string, nat) -> Step<T>

  /** A parser that, when it matches, consumes at least one character of the request. */
  ghost predicate Consumes<T>(p: Parser<T>) {
    forall s: string, i: nat :: p(s, i).Match? ==> i < p(s, i).next <= |s|
  }

  /** The list operator `item % sep`: one item, then as many separator-item pairs as match. */
  function List<T>(s: string, i: nat, item: Parser<T>, sep: Parser<()>): (r: Step<seq<T>>)
    requires Consumes(item) && Consumes(sep)
    ensures r.Match? ==> i < r.next <= |s| && |r.value| >= 1
  {
    match item(s, i)
    case NoMatch => NoMatch
    case Match(x, a) =>
      var rest := ListTail(s, a, item, sep);
      Match([x] + rest.value, rest.next)
  }

  /** The repetitions `(sep item)*` of a list; a separator that no item follows is not consumed. */
  function ListTail<T>(s: string, i: nat, item: Parser<T>, sep: Parser<()>): (r: Step<seq<T>>)
    requires Consumes(item) && Consumes(sep)
    ensures r.Match? && i <= r.next && (i < r.next ==> r.next <= |s|)
    decreases |s| - i
  {
    match sep(s, i)
    case NoMatch => Match([], i)
    case Match(_, a) =>
      match item(s, a)
      case NoMatch => Match([], i)
      case Match(x, b) =>
        var rest := ListTail(s, b, item, sep);
        Match([x] + rest.value, rest.next)
  }

  /** parsing_error as thrown by parse: global when no prefix parses, partial with the text left
      unparsed. */
  datatype ParseError = GlobalError(request: string) | PartialError(unparsed: string)

  function ErrorMessage(e: ParseError): string
  {
    match e
    case GlobalError(request) => "Filter: unable to parse " + request
    case PartialError(unparsed) => "Filter: Unable to parse the whole string. Not parsed: >>" + unparsed + "<<"
  }

  /** `word`: alphanumerics and `_ : | -`. */
  predicate WordChar(c: char) { IsAlnum(c) || c == '_' || c == ':' || c == '|' || c == '-' }

  /** `text` (inside AFTER(...)): a word character, or one of `= . < >` and space. */
  predicate TextChar(c: char) { WordChar(c) || c == '=' || c == '.' || c == '<' || c == '>' || c == ' ' }

  /** The body of a bracketed string: a text character or a comma. */
  predicate BracketChar(c: char) { TextChar(c) || c == ',' }

  datatype CharClass = WordClass | TextClass | BracketClass

  predicate InClass(c: char, k: CharClass) {
    match k
    case WordClass => WordChar(c)
    case TextClass => TextChar(c)
    case BracketClass => BracketChar(c)
  }

  /** A text is a word that may also hold `= . < >` and spaces. */
  lemma {:induction false} WordCharsAreTextChars(c: char)
    ensures WordChar(c) ==> TextChar(c) && BracketChar(c)
    ensures TextChar(c) && !WordChar(c) <==> c in "=.<> "
  {
  }

  /** The position of the first non-white-space character at or after `i` (SkipsSpaces). */
  function SkipSpaces(s: string, i: nat): (j: nat)
    ensures i <= j && (i < j ==> j <= |s|)
    decreases |s| - i
  {
    if i < |s| && IsSpace(s[i]) then SkipSpaces(s, i + 1) else i
  }

  lemma {:induction false} SkipsSpaces(s: string, i: nat)
    requires i <= |s|
    ensures forall k :: i <= k < SkipSpaces(s, i) ==> IsSpace(s[k])
    ensures SkipSpaces(s, i) == |s| || !IsSpace(s[SkipSpaces(s, i)])
    decreases |s| - i
  {
    if i < |s| && IsSpace(s[i]) {
      SkipsSpaces(s, i + 1);
    }
  }

  /** The end of the longest run of characters of class `k` starting at `i` (LongestRun). */
  function RunEnd(s: string, i: nat, k: CharClass): (j: nat)
    ensures i <= j && (i < j ==> j <= |s|)
    decreases |s| - i
  {
    if i < |s| && InClass(s[i], k) then RunEnd(s, i + 1, k) else i
  }

  lemma {:induction false} LongestRun(s: string, i: nat, k: CharClass)
    requires i <= |s|
    ensures forall p :: i <= p < RunEnd(s, i, k) ==> InClass(s[p], k)
    ensures RunEnd(s, i, k) == |s| || !InClass(s[RunEnd(s, i, k)], k)
    decreases |s| - i
  {
    if i < |s| && InClass(s[i], k) {
      LongestRun(s, i + 1, k);
    }
  }

  /** `lexeme[+(class)]`: skip white space, then take the longest non-empty run of the class
      (LexemeIsLongestRun). */
  function Lexeme(s: string, i: nat, k: CharClass): (r: Step<string>)
    ensures r.Match? ==> i < r.next <= |s|
  {
    var j := SkipSpaces(s, i);
    var e := RunEnd(s, j, k);
    if e == j then NoMatch else Match(s[j..e], e)
  }

  /** A lexeme is a non-empty run of its class after white space, and the run is maximal; no
      lexeme is found when the first character after the white space is not of the class. */
  lemma {:induction false} LexemeIsLongestRun(s: string, i: nat, k: CharClass)
    requires i <= |s|
    ensures var r := Lexeme(s, i, k);
            r.Match? ==> 1 <= |r.value| <= r.next - i && r.value == s[r.next - |r.value|..r.next]
                         && (forall p :: 0 <= p < |r.value| ==> InClass(r.value[p], k))
                         && (r.next == |s| || !InClass(s[r.next], k))
                         && (forall p :: i <= p < r.next - |r.value| ==> IsSpace(s[p]))
    ensures Lexeme(s, i, k).NoMatch? <==> SkipSpaces(s, i) == |s| || !InClass(s[SkipSpaces(s, i)], k)
  {
    SkipsSpaces(s, i);
    LongestRun(s, SkipSpaces(s, i), k);
  }

  function Word(s: string, i: nat): (r: Step<string>)
    ensures r.Match? ==> i < r.next <= |s|
  {
    Lexeme(s, i, WordClass)
  }

  function TextToken(s: string, i: nat): (r: Step<string>)
    ensures r.Match? ==> i < r.next <= |s|
  {
    Lexeme(s, i, TextClass)
  }

  /** `lit` occurs in `s` at position `j`. */
  predicate At(s: string, j: nat, lit: string) {
    j + |lit| <= |s| && MatchesFrom(s, j, lit, 0)
  }

  /** The characters of `lit` from offset `k` on agree with those of `s` from `j + k` on. */
  predicate MatchesFrom(s: string, j: nat, lit: string, k: nat)
    requires j + |lit| <= |s|
    decreases |s| - (j + k)
  {
    k >= |lit| || (s[j + k] == lit[k] && MatchesFrom(s, j, lit, k + 1))
  }

  lemma {:induction false} MatchesFromChars(s: string, j: nat, lit: string, k: nat)
    requires j + |lit| <= |s|
    ensures MatchesFrom(s, j, lit, k) <==> forall m :: k <= m < |lit| ==> s[j + m] == lit[m]
    decreases |s| - (j + k)
  {
    if k < |lit| {
      MatchesFromChars(s, j, lit, k + 1);
    }
  }

  /** At compares character by character. */
  lemma {:induction false} AtChars(s: string, j: nat, lit: string)
    ensures At(s, j, lit) <==> j + |lit| <= |s| && forall m :: 0 <= m < |lit| ==> s[j + m] == lit[m]
  {
    if j + |lit| <= |s| {
      MatchesFromChars(s, j, lit, 0);
    }
  }

  /** At is the slice comparison. */
  lemma {:induction false} AtIsSlice(s: string, j: nat, lit: string)
    ensures At(s, j, lit) <==> j + |lit| <= |s| && s[j..j + |lit|] == lit
  {
    AtChars(s, j, lit);
    if j + |lit| <= |s| {
      var piece := s[j..j + |lit|];
      assert forall k :: 0 <= k < |piece| ==> piece[k] == s[j + k];
    }
  }

  /** A literal of the grammar: skip white space, then the exact characters. */
  function Lit(s: string, i: nat, lit: string): (r: Step<()>)
    ensures r.Match? ==> i + |lit| <= r.next <= |s|
  {
    var j := SkipSpaces(s, i);
    if At(s, j, lit) then Match((), j + |lit|) else NoMatch
  }

  /** The rest of an escaped string after its opening quote, up to and including the first quote
      that no backslash escapes; a backslash keeps the next character and is itself dropped. */
  function EscapedBody(s: string, k: nat): (r: Step<string>)
    ensures r.Match? ==> k < r.next <= |s|
    decreases |s| - k
  {
    if k >= |s| then NoMatch
    else if s[k] == '"' then Match("", k + 1)
    else if s[k] == '\\' then
      if k + 1 < |s| then
        match EscapedBody(s, k + 2)
        case NoMatch => NoMatch
        case Match(t, n) => Match([s[k + 1]] + t, n)
      else NoMatch
    else
      match EscapedBody(s, k + 1)
      case NoMatch => NoMatch
      case Match(t, n) => Match([s[k]] + t, n)
  }

  /** `escaped_string`: '"', escaped characters, '"'. */
  function EscapedString(s: string, i: nat): (r: Step<string>)
    ensures r.Match? ==> i < r.next <= |s|
  {
    var j := SkipSpaces(s, i);
    if j < |s| && s[j] == '"' then EscapedBody(s, j + 1) else NoMatch
  }

  /** `bracket_string`: '(', one or more bracket characters, ')'. */
  function BracketString(s: string, i: nat): (r: Step<string>)
    ensures r.Match? ==> i < r.next <= |s|
  {
    var j := SkipSpaces(s, i);
    if j < |s| && s[j] == '(' then
      var e := RunEnd(s, j + 1, BracketClass);
      if e > j + 1 && e < |s| && s[e] == ')' then Match(s[j + 1..e], e + 1) else NoMatch
    else NoMatch
  }

  /** `word | escaped_string | bracket_string`. */
  function Value(s: string, i: nat): (r: Step<string>)
    ensures r.Match? ==> i < r.next <= |s|
  {
    match Word(s, i)
    case Match(w, n) => Match(w, n)
    case NoMatch =>
      match EscapedString(s, i)
      case Match(w, n) => Match(w, n)
      case NoMatch => BracketString(s, i)
  }

  /** `bin_op`: the two-character operators are tried before the one-character ones. */
  function BinOp(s: string, i: nat): (r: Step<Operator>)
    ensures r.Match? ==> i < r.next <= |s|
  {
    var j := SkipSpaces(s, i);
    if At(s, j, "<=") then Match(LEQ, j + 2)
    else if At(s, j, ">=") then Match(GEQ, j + 2)
    else if At(s, j, "<>") then Match(NEQ, j + 2)
    else if At(s, j, "<") then Match(LT, j + 1)
    else if At(s, j, ">") then Match(GT, j + 1)
    else if At(s, j, "=") then Match(EQ, j + 1)
    else if At(s, j, "DWITHIN") then Match(DWITHIN, j + 7)
    else NoMatch
  }

  /** `single_clause`: word "." word bin_op value. */
  function SingleClause(s: string, i: nat): (r: Step<Filter>)
    ensures r.Match? ==> i < r.next <= |s|
  {
    match Word(s, i)
    case NoMatch => NoMatch
    case Match(objectName, a) =>
      match Lit(s, a, ".")
      case NoMatch => NoMatch
      case Match(_, b) =>
        match Word(s, b)
        case NoMatch => NoMatch
        case Match(attribute, c) =>
          match BinOp(s, c)
          case NoMatch => NoMatch
          case Match(op, d) =>
            match Value(s, d)
            case NoMatch => NoMatch
            case Match(value, e) => Match(Compare(objectName, attribute, op, value), e)
  }

  /** `having_clause`: word "HAVING" bracket_string. */
  function HavingClause(s: string, i: nat): (r: Step<Filter>)
    ensures r.Match? ==> i < r.next <= |s|
  {
    match Word(s, i)
    case NoMatch => NoMatch
    case Match(objectName, a) =>
      match Lit(s, a, "HAVING")
      case NoMatch => NoMatch
      case Match(_, b) =>
        match BracketString(s, b)
        case NoMatch => NoMatch
        case Match(value, c) => Match(Having(objectName, value), c)
  }

  /** `after_clause`: "AFTER(" text ')'. */
  function AfterClause(s: string, i: nat): (r: Step<Filter>)
    ensures r.Match? ==> i < r.next <= |s|
  {
    match Lit(s, i, "AFTER(")
    case NoMatch => NoMatch
    case Match(_, a) =>
      match TextToken(s, a)
      case NoMatch => NoMatch
      case Match(value, b) =>
        match Lit(s, b, ")")
        case NoMatch => NoMatch
        case Match(_, c) => Match(After(value), c)
  }

  /** `','`, the separator of arguments. */
  function Comma(s: string, i: nat): (r: Step<()>)
    ensures r.Match? ==> i < r.next <= |s|
  {
    Lit(s, i, ",")
  }

  /** `args_clause`: value % ','. */
  function Args(s: string, i: nat): (r: Step<seq<string>>)
    ensures r.Match? ==> i < r.next <= |s| && |r.value| >= 1
  {
    List(s, i, Value, Comma)
  }

  /** `method_clause`: word "." word "(" args_clause? ")". */
  function MethodClause(s: string, i: nat): (r: Step<Filter>)
    ensures r.Match? ==> i < r.next <= |s|
  {
    match Word(s, i)
    case NoMatch => NoMatch
    case Match(objectName, a) =>
      match Lit(s, a, ".")
      case NoMatch => NoMatch
      case Match(_, b) =>
        match Word(s, b)
        case NoMatch => NoMatch
        case Match(name, c) =>
          match Lit(s, c, "(")
          case NoMatch => NoMatch
          case Match(_, d) =>
            var (args, e) := match Args(s, d)
                             case NoMatch => ([], d)
                             case Match(xs, n) => (xs, n);
            match Lit(s, e, ")")
            case NoMatch => NoMatch
            case Match(_, f) => Match(Method(objectName, name, args), f)
  }

  /** One clause: the four shapes, tried in this order. */
  function Clause(s: string, i: nat): (r: Step<Filter>)
    ensures r.Match? ==> i < r.next <= |s|
  {
    match SingleClause(s, i)
    case Match(f, n) => Match(f, n)
    case NoMatch =>
      match HavingClause(s, i)
      case Match(f, n) => Match(f, n)
      case NoMatch =>
        match AfterClause(s, i)
        case Match(f, n) => Match(f, n)
        case NoMatch => MethodClause(s, i)
  }

  /** `lexeme["and"] | lexeme["AND"]`. */
  function Separator(s: string, i: nat): (r: Step<()>)
    ensures r.Match? ==> i < r.next <= |s|
  {
    match Lit(s, i, "and")
    case Match(u, n) => Match(u, n)
    case NoMatch => Lit(s, i, "AND")
  }

  /** `filter`: clause % separator, one Filter per clause in input order. */
  function Clauses(s: string, i: nat): (r: Step<seq<Filter>>)
    ensures r.Match? ==> i < r.next <= |s| && |r.value| >= 1
  {
    List(s, i, Clause, Separator)
  }

  /** The parsers the lists are built from consume what they match. */
  lemma {:induction false} ParsersConsume()
    ensures Consumes(Clause) && Consumes(Separator) && Consumes(Value) && Consumes(Comma)
  {
  }

  /** parse: the filters of a request, a global error when no clause parses, a partial error
      holding what is left when the clauses (and trailing white space) stop before the end. */
  function Parse(request: string): (r: Result<seq<Filter>, ParseError>)
    ensures r.Ok? ==> |r.value| >= 1
    ensures r.Err? && r.error.GlobalError? ==> r.error.request == request
    ensures r.Err? && r.error.PartialError? ==>
              var u := r.error.unparsed;
              0 < |u| < |request| && u == request[|request| - |u|..] && !IsSpace(u[0])
  {
    match Clauses(request, 0)
    case NoMatch => Err(GlobalError(request))
    case Match(filters, n) =>
      var e := SkipSpaces(request, n);
      SkipsSpaces(request, n);
      if e != |request| then Err(PartialError(request[e..])) else Ok(filters)
  }

  /** A one-character word, not preceded by white space. */
  lemma OneCharWord(s: string, i: nat)
    requires i < |s| && WordChar(s[i]) && (i + 1 == |s| || !WordChar(s[i + 1]))
    ensures Word(s, i) == Match([s[i]], i + 1) && Value(s, i) == Word(s, i)
  {
    assert !IsSpace(s[i]) && SkipSpaces(s, i) == i;
    assert RunEnd(s, i + 1, WordClass) == i + 1;
    assert RunEnd(s, i, WordClass) == i + 1;
    assert s[i..i + 1] == [s[i]];
  }

  /** The operator choice is ordered: "<=" is one operator, never "<" followed by a value "=c". */
  lemma OperatorOrderIsLongestFirst()
    ensures Parse("a.b<=c") == Ok([Compare("a", "b", LEQ, "c")])
  {
    var s := "a.b<=c";
    OneCharWord(s, 0);
    assert SkipSpaces(s, 1) == 1 && At(s, 1, ".");
    assert Lit(s, 1, ".") == Match((), 2);
    OneCharWord(s, 2);
    assert SkipSpaces(s, 3) == 3 && At(s, 3, "<=");
    assert BinOp(s, 3) == Match(LEQ, 5);
    OneCharWord(s, 5);
    assert SingleClause(s, 0) == Match(Compare("a", "b", LEQ, "c"), 6);
    assert Clause(s, 0) == Match(Compare("a", "b", LEQ, "c"), 6);
    assert SkipSpaces(s, 6) == 6;
    assert Separator(s, 6).NoMatch?;
    ParsersConsume();
    assert ListTail(s, 6, Clause, Separator) == Match([], 6);
    assert [Compare("a", "b", LEQ, "c")] + [] == [Compare("a", "b", LEQ, "c")];
    assert Clauses(s, 0) == Match([Compare("a", "b", LEQ, "c")], 6);
  }

  /** A backslash keeps the next character, a quote included, and is itself dropped; the string
      ends at the first quote no backslash escapes. */
  lemma EscapedQuoteIsKept()
    ensures EscapedString("\"a\\\"b\" x\"", 0) == Match("a\"b", 6)
  {
    var s := "\"a\\\"b\" x\"";
    assert s[1] == 'a' && s[2] == '\\' && s[3] == '"' && s[4] == 'b' && s[5] == '"';
    assert EscapedBody(s, 5) == Match("", 6);
    assert [s[4]] + "" == "b";
    assert EscapedBody(s, 4) == Match("b", 6);
    assert [s[3]] + "b" == "\"b";
    assert EscapedBody(s, 2) == Match("\"b", 6);
    assert [s[1]] + "\"b" == "a\"b";
    assert EscapedBody(s, 1) == Match("a\"b", 6);
    assert SkipSpaces(s, 0) == 0;
  }

  /** Text left after the last clause is a partial error holding it. */
  lemma TrailingTextIsPartialError()
    ensures Parse("a.b=c d") == Err(PartialError("d"))
  {
    var s := "a.b=c d";
    OneCharWord(s, 0);
    assert SkipSpaces(s, 1) == 1 && At(s, 1, ".");
    assert Lit(s, 1, ".") == Match((), 2);
    OneCharWord(s, 2);
    assert SkipSpaces(s, 3) == 3 && At(s, 3, "=") && !At(s, 3, "<=") && !At(s, 3, ">=") && !At(s, 3, "<>");
    assert BinOp(s, 3) == Match(EQ, 4);
    OneCharWord(s, 4);
    assert SingleClause(s, 0) == Match(Compare("a", "b", EQ, "c"), 5);
    assert Clause(s, 0) == Match(Compare("a", "b", EQ, "c"), 5);
    assert SkipSpaces(s, 6) == 6;
    assert SkipSpaces(s, 5) == 6;
    assert !At(s, 6, "and") && !At(s, 6, "AND");
    assert Separator(s, 5).NoMatch?;
    ParsersConsume();
    assert ListTail(s, 5, Clause, Separator) == Match([], 5);
    assert [Compare("a", "b", EQ, "c")] + [] == [Compare("a", "b", EQ, "c")];
    assert Clauses(s, 0) == Match([Compare("a", "b", EQ, "c")], 5);
    assert s[6..] == "d";
  }

  /** A request whose first clause does not parse is a global error. */
  lemma NoClauseIsGlobalError()
    ensures Parse("=") == Err(GlobalError("="))
  {
    var t := "=";
    assert SkipSpaces(t, 0) == 0 && RunEnd(t, 0, WordClass) == 0;
    assert Word(t, 0).NoMatch?;
    assert !At(t, 0, "AFTER(");
    assert Lit(t, 0, "AFTER(").NoMatch?;
    assert Clause(t, 0).NoMatch?;
  }
}
