/** A printer for filters, the reference the parser is checked against: printing well-formed
    filters and parsing the text gives the same filters back, in the same order. */
module FilterRender {
  import opened Wrappers
  import opened Text
  import opened FilterGrammar

  function OperatorText(op: Operator): string {
    match op
    case LEQ => "<="
    case GEQ => ">="
    case NEQ => "<>"
    case LT => "<"
    case GT => ">"
    case EQ => "="
    case DWITHIN => "DWITHIN"
  }

  /** A quote and a backslash are preceded by a backslash; every other character stands for itself. */
  function EscapeQuoted(v: string): string {
    if |v| == 0 then ""
    else if v[0] == '"' || v[0] == '\\' then ['\\', v[0]] + EscapeQuoted(v[1..])
    else [v[0]] + EscapeQuoted(v[1..])
  }

  function Quoted(v: string): string {
    "\"" + (EscapeQuoted(v) + "\"")
  }

  /** The items of a list after its first one, each printed after the separator text. */
  function Joined<T>(xs: seq<T>, show: T -> string, sepText: string): string
    decreases |xs|
  {
    if |xs| == 0 then "" else sepText + (show(xs[0]) + Joined(xs[1..], show, sepText))
  }

  /** Method arguments: quoted and separated by commas. */
  function ArgList(args: seq<string>): string {
    if |args| == 0 then "" else Quoted(args[0]) + Joined(args[1..], Quoted, ",")
  }

  function RenderClause(f: Filter): string {
    match f
    case Compare(obj, attr, op, v) => obj + ("." + (attr + (" " + (OperatorText(op) + (" " + Quoted(v))))))
    case Having(obj, v) => obj + (" HAVING (" + (v + ")"))
    case After(v) => "AFTER(" + (v + ")")
    case Method(obj, name, args) => obj + ("." + (name + ("(" + (ArgList(args) + ")"))))
  }

  /** A request: the printed clauses joined by " and ". */
  function Render(fs: seq<Filter>): string
    requires |fs| >= 1
  {
    RenderClause(fs[0]) + Joined(fs[1..], RenderClause, " and ")
  }

  predicate IsWord(w: string) {
    |w| >= 1 && forall p :: 0 <= p < |w| ==> WordChar(w[p])
  }

  /** What the grammar can express: names are words, a HAVING body is a non-empty run of bracket
      characters, an AFTER body a run of text characters that does not start with a space.
      Compared values and method arguments are quoted, so they are unrestricted. */
  predicate WellFormed(f: Filter) {
    match f
    case Compare(obj, attr, _, _) => IsWord(obj) && IsWord(attr)
    case Having(obj, v) => IsWord(obj) && |v| >= 1 && forall p :: 0 <= p < |v| ==> BracketChar(v[p])
    case After(v) => |v| >= 1 && v[0] != ' ' && forall p :: 0 <= p < |v| ==> TextChar(v[p])
    case Method(obj, name, _) => IsWord(obj) && IsWord(name)
  }

  /** Round trip: the parser reads back every list of well-formed filters the printer writes. */
  lemma {:induction false} ParseRender(fs: seq<Filter>)
    requires |fs| >= 1
    requires forall k :: 0 <= k < |fs| ==> WellFormed(fs[k])
    ensures Parse(Render(fs)) == Ok(fs)
  {
    var s := Render(fs);
    RenderedClauses(s, fs);
    ParseWhole(s, fs);
  }

  /** The printed clauses are read back up to the end of the text. */
  lemma {:induction false} RenderedClauses(s: string, fs: seq<Filter>)
    requires |fs| >= 1 && s == Render(fs)
    requires forall k :: 0 <= k < |fs| ==> WellFormed(fs[k])
    ensures Clauses(s, 0) == Match(fs, |s|)
  {
    var first := RenderClause(fs[0]);
    var rest := Joined(fs[1..], RenderClause, " and ");
    FirstClause(s, fs[0], rest);
    ClausesReadEach(s, fs[1..]);
    SeparatorAtEnd(s);
    ParsersConsume();
    JoinedRead(s, |first|, fs[1..], Clause, Separator, RenderClause, " and ");
    ListStep(s, 0, |first|, fs, |s|, Clause, Separator);
  }

  /** The first printed clause is read from the start of the request. */
  lemma {:induction false} FirstClause(s: string, f: Filter, rest: string)
    requires WellFormed(f) && s == RenderClause(f) + rest
    ensures Clause(s, 0) == Match(f, |RenderClause(f)|)
    ensures At(s, |RenderClause(f)|, rest) && |RenderClause(f)| + |rest| == |s|
  {
    FirstText(s, f, rest);
    ClauseAt(s, 0, 0, f);
  }

  /** The request starts with the first printed clause, with no white space before it. */
  lemma {:induction false} FirstText(s: string, f: Filter, rest: string)
    requires WellFormed(f) && s == RenderClause(f) + rest
    ensures At(s, 0, RenderClause(f)) && SkipSpaces(s, 0) == 0
    ensures At(s, |RenderClause(f)|, rest) && |RenderClause(f)| + |rest| == |s|
  {
    var first := RenderClause(f);
    AtIsSlice(s, 0, s);
    assert s[0..|s|] == s;
    AtSplit(s, 0, first, rest);
    ClauseStart(f);
    CharAt(s, 0, first, 0);
    NoSkip(s, 0);
  }

  /** " and " followed by a printed well-formed clause is read as a separator and that clause. */
  lemma {:induction false} ClausesReadEach(s: string, fs: seq<Filter>)
    requires forall k :: 0 <= k < |fs| ==> WellFormed(fs[k])
    ensures ReadsEach(s, fs, Clause, Separator, RenderClause, " and ")
  {
    forall p: nat, f: Filter | f in fs && At(s, p, " and ") && At(s, p + |" and "|, RenderClause(f))
      ensures Separator(s, p).Match? && Clause(s, Separator(s, p).next) == Match(f, p + |" and "| + |RenderClause(f)|)
    {
      SeparatedHead(s, p, f);
    }
  }

  /** No separator at the end of the request. */
  lemma {:induction false} SeparatorAtEnd(s: string)
    ensures Separator(s, |s|).NoMatch?
  {
    assert SkipSpaces(s, |s|) == |s|;
  }

  /** ',' followed by a quoted value is read as a comma and that value. */
  lemma {:induction false} ArgsReadEach(s: string, args: seq<string>)
    ensures ReadsEach(s, args, Value, Comma, Quoted, ",")
  {
    forall p: nat, v: string | v in args && At(s, p, ",") && At(s, p + |","|, Quoted(v))
      ensures Comma(s, p).Match? && Value(s, Comma(s, p).next) == Match(v, p + |","| + |Quoted(v)|)
    {
      CharAt(s, p, ",", 0);
      CharAt(s, p + 1, Quoted(v), 0);
      NoSkip(s, p);
      LitAt(s, p, p, ",");
      NoSkip(s, p + 1);
      ValueQuotedAt(s, p + 1, p + 1, v);
    }
  }

  /** Wherever `sepText` followed by a printed item of `xs` occurs in `s`, the separator parser
      matches there and the item parser then reads that item back, up to the end of its text. */
  ghost predicate ReadsEach<T>(s: string, xs: seq<T>, item: Parser<T>, sep: Parser<()>, show: T -> string, sepText: string) {
    forall p: nat, x: T :: x in xs && At(s, p, sepText) && At(s, p + |sepText|, show(x)) ==>
      sep(s, p).Match? && item(s, sep(s, p).next) == Match(x, p + |sepText| + |show(x)|)
  }

  /** The list ends at `e`: no separator there, or no item after it. */
  ghost predicate StopsAt<T>(s: string, e: nat, item: Parser<T>, sep: Parser<()>) {
    sep(s, e).NoMatch? || item(s, sep(s, e).next).NoMatch?
  }

  /** The repetitions of a list read back the items printed after the first one. */
  lemma {:induction false} JoinedRead<T>(s: string, i: nat, xs: seq<T>, item: Parser<T>, sep: Parser<()>,
                                         show: T -> string, sepText: string)
    requires Consumes(item) && Consumes(sep) && ReadsEach(s, xs, item, sep, show, sepText)
    requires At(s, i, Joined(xs, show, sepText))
    requires StopsAt(s, i + |Joined(xs, show, sepText)|, item, sep)
    ensures ListTail(s, i, item, sep) == Match(xs, i + |Joined(xs, show, sepText)|)
    decreases |xs|
  {
    if |xs| > 0 {
      var w := show(xs[0]);
      var rest := Joined(xs[1..], show, sepText);
      AtSplit(s, i, sepText, w + rest);
      AtSplit(s, i + |sepText|, w, rest);
      var e := i + |sepText| + |w|;
      assert xs[0] in xs;
      ReadsEachTail(s, xs, item, sep, show, sepText);
      JoinedRead(s, e, xs[1..], item, sep, show, sepText);
      HeadTail(xs);
    }
  }

  lemma {:induction false} ReadsEachTail<T>(s: string, xs: seq<T>, item: Parser<T>, sep: Parser<()>,
                                            show: T -> string, sepText: string)
    requires |xs| >= 1 && ReadsEach(s, xs, item, sep, show, sepText)
    ensures ReadsEach(s, xs[1..], item, sep, show, sepText)
  {
    forall x | x in xs[1..] ensures x in xs { }
  }

  /** A list is its first item followed by its repetitions. */
  lemma {:induction false} ListStep<T>(s: string, i: nat, a: nat, xs: seq<T>, e: nat, item: Parser<T>, sep: Parser<()>)
    requires Consumes(item) && Consumes(sep) && |xs| >= 1
    requires item(s, i) == Match(xs[0], a) && ListTail(s, a, item, sep) == Match(xs[1..], e)
    ensures List(s, i, item, sep) == Match(xs, e)
  {
    HeadTail(xs);
  }

  /** A non-empty sequence is its head followed by its tail. */
  lemma {:induction false} HeadTail<T>(xs: seq<T>)
    requires |xs| >= 1
    ensures [xs[0]] + xs[1..] == xs
  {
  }

  /** Clauses that reach the end of the request are its filters. */
  lemma {:induction false} ParseWhole(s: string, fs: seq<Filter>)
    requires Clauses(s, 0) == Match(fs, |s|)
    ensures Parse(s) == Ok(fs)
  {
    assert SkipSpaces(s, |s|) == |s|;
  }

  /** Round trip of a single quoted value. */
  lemma {:induction false} QuotedRoundTrip(v: string)
    ensures Value(Quoted(v), 0) == Match(v, |Quoted(v)|)
  {
    var s := Quoted(v);
    AtIsSlice(s, 0, s);
    assert s[0..|s|] == s;
    ValueQuotedAt(s, 0, 0, v);
  }

  /** " and " and one printed clause are read as a separator and that clause. */
  lemma {:induction false} SeparatedHead(s: string, i: nat, f: Filter)
    requires WellFormed(f) && At(s, i, " and ") && At(s, i + 5, RenderClause(f))
    ensures Separator(s, i) == Match((), i + 4)
    ensures Clause(s, i + 4) == Match(f, i + 5 + |RenderClause(f)|)
  {
    ClauseStart(f);
    CharAt(s, i + 5, RenderClause(f), 0);
    SeparatorAt(s, i);
    ClauseAt(s, i + 4, i + 5, f);
  }

  /** " and " before a clause is a separator, after which the clause begins. */
  lemma {:induction false} SeparatorAt(s: string, i: nat)
    requires At(s, i, " and ") && i + 5 < |s| && !IsSpace(s[i + 5])
    ensures Separator(s, i) == Match((), i + 4)
    ensures SkipSpaces(s, i + 4) == i + 5
  {
    CharAt(s, i, " and ", 0);
    CharAt(s, i, " and ", 1);
    CharAt(s, i, " and ", 4);
    AtPiece(s, i, " and ", 1, 4);
    assert " and "[1..4] == "and";
    SkipOne(s, i);
    LitAt(s, i, i + 1, "and");
    SkipOne(s, i + 4);
  }

  /** A printed clause starts with a character that is not white space. */
  lemma {:induction false} ClauseStart(f: Filter)
    requires WellFormed(f)
    ensures |RenderClause(f)| >= 1 && !IsSpace(RenderClause(f)[0])
  {
    match f
    case Compare(obj, _, _, _) => assert RenderClause(f)[0] == obj[0];
    case Having(obj, _) => assert RenderClause(f)[0] == obj[0];
    case After(_) =>
    case Method(obj, _, _) => assert RenderClause(f)[0] == obj[0];
  }

  /** A printed clause is read back by the alternative for its shape, after the earlier
      alternatives have failed. */
  lemma {:induction false} ClauseAt(s: string, i: nat, j: nat, f: Filter)
    requires WellFormed(f)
    requires i <= j <= |s| && SkipSpaces(s, i) == j && At(s, j, RenderClause(f))
    ensures Clause(s, i) == Match(f, j + |RenderClause(f)|)
  {
    match f {
      case Compare(_, _, _, _) =>
        CompareAt(s, i, j, f);
      case Having(_, _) =>
        HavingAt(s, i, j, f);
      case After(_) =>
        AfterAt(s, i, j, f);
      case Method(obj, name, args) =>
        MethodAt(s, i, j, obj, name, args);
        MethodLength(obj, name, args);
    }
  }

  lemma {:induction false} CompareAt(s: string, i: nat, j: nat, f: Filter)
    requires f.Compare? && WellFormed(f)
    requires i <= j <= |s| && SkipSpaces(s, i) == j && At(s, j, RenderClause(f))
    ensures SingleClause(s, i) == Match(f, j + |RenderClause(f)|)
  {
    var Compare(obj, attr, op, v) := f;
    var tail := " " + (OperatorText(op) + (" " + Quoted(v)));
    assert RenderClause(f) == obj + ("." + (attr + tail));
    DottedParts(s, j, obj, attr, tail);
    CompareRead(s, i, j, obj, attr, op, v, tail);
  }

  /** `object.attribute OP "value"` read as word "." word bin_op value. */
  lemma {:induction false} CompareRead(s: string, i: nat, j: nat, obj: string, attr: string, op: Operator, v: string,
                    tail: string)
    requires IsWord(obj) && IsWord(attr) && tail == " " + (OperatorText(op) + (" " + Quoted(v)))
    requires i <= j <= |s| && SkipSpaces(s, i) == j
    requires At(s, j, obj) && At(s, j + |obj|, ".") && At(s, j + |obj| + 1, attr)
    requires At(s, j + |obj| + 1 + |attr|, tail)
    ensures SingleClause(s, i) == Match(Compare(obj, attr, op, v), j + |obj| + 1 + |attr| + |tail|)
  {
    var a := j + |obj|;
    var b := a + 1;
    var c := b + |attr|;
    var d := c + 1 + |OperatorText(op)|;
    var e := c + |tail|;
    CompareTail(s, c, op, v, tail);
    DottedAt(s, i, j, a, b, c, obj, attr);
    OperatorValueAt(s, c, d, e, op, v);
    SingleClauseSteps(s, i, obj, a, b, attr, c, op, d, v, e);
  }

  /** The text after `object.attribute` starts with a space. */
  lemma {:induction false} CompareTail(s: string, c: nat, op: Operator, v: string, tail: string)
    requires tail == " " + (OperatorText(op) + (" " + Quoted(v))) && At(s, c, tail)
    ensures c < |s| && s[c] == ' ' && !WordChar(s[c])
    ensures |tail| == 2 + |OperatorText(op)| + |Quoted(v)|
  {
    CharAt(s, c, tail, 0);
  }

  lemma {:induction false} SingleClauseSteps(s: string, i: nat, obj: string, a: nat, b: nat, attr: string, c: nat,
                          op: Operator, d: nat, v: string, e: nat)
    requires i <= |s| && Word(s, i) == Match(obj, a) && Lit(s, a, ".") == Match((), b)
    requires b <= |s| && Word(s, b) == Match(attr, c)
    requires c <= |s| && BinOp(s, c) == Match(op, d)
    requires d <= |s| && Value(s, d) == Match(v, e)
    ensures SingleClause(s, i) == Match(Compare(obj, attr, op, v), e)
  {
  }

  /** The pieces of `object.name` followed by more text. */
  lemma {:induction false} DottedParts(s: string, j: nat, obj: string, name: string, rest: string)
    requires At(s, j, obj + ("." + (name + rest)))
    ensures At(s, j, obj) && At(s, j + |obj|, ".") && At(s, j + |obj| + 1, name)
    ensures At(s, j + |obj| + 1 + |name|, rest)
  {
    AtSplit(s, j, obj, "." + (name + rest));
    AtSplit(s, j + |obj|, ".", name + rest);
    AtSplit(s, j + |obj| + 1, name, rest);
  }

  /** `object.name` read as word "." word. */
  lemma {:induction false} DottedAt(s: string, i: nat, j: nat, a: nat, b: nat, c: nat, obj: string, name: string)
    requires IsWord(obj) && IsWord(name)
    requires i <= j <= |s| && SkipSpaces(s, i) == j && a == j + |obj| && b == a + 1 && c == b + |name|
    requires At(s, j, obj) && At(s, a, ".") && At(s, b, name)
    requires c < |s| && !WordChar(s[c])
    ensures Word(s, i) == Match(obj, a)
    ensures Lit(s, a, ".") == Match((), b)
    ensures Word(s, b) == Match(name, c)
  {
    CharAt(s, a, ".", 0);
    CharAt(s, b, name, 0);
    WordAt(s, i, j, obj);
    NoSkip(s, a);
    LitAt(s, a, a, ".");
    NoSkip(s, b);
    WordAt(s, b, b, name);
  }

  /** ` OP "value"` read as bin_op and value. */
  lemma {:induction false} OperatorValueAt(s: string, c: nat, d: nat, e: nat, op: Operator, v: string)
    requires At(s, c, " " + (OperatorText(op) + (" " + Quoted(v))))
    requires d == c + 1 + |OperatorText(op)| && e == d + 1 + |Quoted(v)|
    ensures BinOp(s, c) == Match(op, d)
    ensures Value(s, d) == Match(v, e)
  {
    var ot := OperatorText(op);
    var q := Quoted(v);
    AtSplit(s, c, " ", ot + (" " + q));
    AtSplit(s, c + 1, ot, " " + q);
    AtSplit(s, d, " ", q);
    CharAt(s, c, " ", 0);
    CharAt(s, c + 1, ot, 0);
    CharAt(s, d, " ", 0);
    CharAt(s, d + 1, q, 0);
    OperatorStart(op);
    SkipOne(s, c);
    AtJoin(s, c + 1, ot, " ");
    BinOpAt(s, c, c + 1, op);
    SkipOne(s, d);
    ValueQuotedAt(s, d, d + 1, v);
  }

  lemma {:induction false} HavingAt(s: string, i: nat, j: nat, f: Filter)
    requires f.Having? && WellFormed(f)
    requires i <= j <= |s| && SkipSpaces(s, i) == j && At(s, j, RenderClause(f))
    ensures SingleClause(s, i).NoMatch?
    ensures HavingClause(s, i) == Match(f, j + |RenderClause(f)|)
  {
    var Having(obj, v) := f;
    assert RenderClause(f) == obj + (" HAVING (" + (v + ")"));
    HavingRead(s, i, j, obj, v);
  }

  /** `object HAVING (value)`: the object is not followed by '.', so the comparison shape fails
      and the HAVING shape reads the clause. */
  lemma {:induction false} HavingRead(s: string, i: nat, j: nat, obj: string, v: string)
    requires IsWord(obj) && |v| >= 1 && forall p :: 0 <= p < |v| ==> BracketChar(v[p])
    requires i <= j <= |s| && SkipSpaces(s, i) == j && At(s, j, obj + (" HAVING (" + (v + ")")))
    ensures SingleClause(s, i).NoMatch?
    ensures HavingClause(s, i) == Match(Having(obj, v), j + |obj| + 10 + |v|)
  {
    var a := j + |obj|;
    var b := a + 9;
    AtSplit(s, j, obj, " HAVING (" + (v + ")"));
    AtSplit(s, a, " HAVING (", v + ")");
    AtSplit(s, b, v, ")");
    HavingKeyword(s, a);
    WordAt(s, i, j, obj);
    BracketAt(s, a + 7, v);
    WordThenMiss(s, i, obj, a, ".");
    HavingSteps(s, i, obj, a, a + 7, v, b + |v| + 1);
  }

  /** " HAVING (" read as the keyword, and the bracket opening after it. */
  lemma {:induction false} HavingKeyword(s: string, a: nat)
    requires At(s, a, " HAVING (") && a + 9 < |s|
    ensures s[a] == ' ' && SkipSpaces(s, a) == a + 1
    ensures Lit(s, a, ".").NoMatch? && Lit(s, a, "HAVING") == Match((), a + 7)
    ensures SkipSpaces(s, a + 7) == a + 8 && s[a + 8] == '('
  {
    CharAt(s, a, " HAVING (", 0);
    CharAt(s, a, " HAVING (", 1);
    CharAt(s, a, " HAVING (", 7);
    CharAt(s, a, " HAVING (", 8);
    AtPiece(s, a, " HAVING (", 1, 7);
    assert " HAVING ("[1..7] == "HAVING";
    SkipOne(s, a);
    LitMiss(s, a, a + 1, ".");
    LitAt(s, a, a + 1, "HAVING");
    SkipOne(s, a + 7);
  }

  /** A bracket string after one space: "(", a run of bracket characters, ")". */
  lemma {:induction false} BracketAt(s: string, k: nat, v: string)
    requires |v| >= 1 && forall p :: 0 <= p < |v| ==> BracketChar(v[p])
    requires k + 1 < |s| && SkipSpaces(s, k) == k + 1 && s[k + 1] == '('
    requires At(s, k + 2, v) && At(s, k + 2 + |v|, ")")
    ensures BracketString(s, k) == Match(v, k + 3 + |v|)
  {
    CharAt(s, k + 2 + |v|, ")", 0);
    RunAt(s, k + 2, v, BracketClass);
    AtIsSlice(s, k + 2, v);
  }

  lemma {:induction false} HavingSteps(s: string, i: nat, obj: string, a: nat, b: nat, v: string, e: nat)
    requires i <= |s| && Word(s, i) == Match(obj, a) && Lit(s, a, "HAVING") == Match((), b)
    requires b <= |s| && BracketString(s, b) == Match(v, e)
    ensures HavingClause(s, i) == Match(Having(obj, v), e)
  {
  }

  lemma {:induction false} AfterAt(s: string, i: nat, j: nat, f: Filter)
    requires f.After? && WellFormed(f)
    requires i <= j <= |s| && SkipSpaces(s, i) == j && At(s, j, RenderClause(f))
    ensures SingleClause(s, i).NoMatch? && HavingClause(s, i).NoMatch?
    ensures AfterClause(s, i) == Match(f, j + |RenderClause(f)|)
  {
    var After(v) := f;
    assert RenderClause(f) == "AFTER(" + (v + ")");
    AfterTokens(s, i, j, v);
    WordThenMiss(s, i, "AFTER", j + 5, ".");
    WordThenMiss(s, i, "AFTER", j + 5, "HAVING");
    AfterSteps(s, i, j + 6, v, j + 6 + |v|, j + 7 + |v|);
  }

  /** The tokens of `AFTER(value)`; read as a word, "AFTER" is followed by neither '.' nor
      "HAVING". */
  lemma {:induction false} AfterTokens(s: string, i: nat, j: nat, v: string)
    requires |v| >= 1 && v[0] != ' ' && forall p :: 0 <= p < |v| ==> TextChar(v[p])
    requires i <= j <= |s| && SkipSpaces(s, i) == j && At(s, j, "AFTER(" + (v + ")"))
    ensures Word(s, i) == Match("AFTER", j + 5) && j + 5 <= |s|
    ensures Lit(s, j + 5, ".").NoMatch? && Lit(s, j + 5, "HAVING").NoMatch?
    ensures Lit(s, i, "AFTER(") == Match((), j + 6) && j + 6 + |v| < |s|
    ensures TextToken(s, j + 6) == Match(v, j + 6 + |v|)
    ensures Lit(s, j + 6 + |v|, ")") == Match((), j + 7 + |v|)
  {
    var b := j + 6;
    AtSplit(s, j, "AFTER(", v + ")");
    AtSplit(s, b, v, ")");
    AtPiece(s, j, "AFTER(", 0, 5);
    assert "AFTER("[0..5] == "AFTER";
    CharAt(s, j, "AFTER(", 5);
    CharAt(s, b, v, 0);
    CharAt(s, b + |v|, ")", 0);
    WordAt(s, i, j, "AFTER");
    LitMiss(s, j + 5, j + 5, ".");
    LitMiss(s, j + 5, j + 5, "HAVING");
    LitAt(s, i, j, "AFTER(");
    NoSkip(s, b);
    RunAt(s, b, v, TextClass);
    AtIsSlice(s, b, v);
    LitAt(s, b + |v|, b + |v|, ")");
  }

  lemma {:induction false} AfterSteps(s: string, i: nat, a: nat, v: string, b: nat, e: nat)
    requires i <= |s| && Lit(s, i, "AFTER(") == Match((), a)
    requires a <= |s| && TextToken(s, a) == Match(v, b)
    requires b <= |s| && Lit(s, b, ")") == Match((), e)
    ensures AfterClause(s, i) == Match(After(v), e)
  {
  }

  lemma {:induction false} MethodAt(s: string, i: nat, j: nat, obj: string, name: string, args: seq<string>)
    requires IsWord(obj) && IsWord(name)
    requires i <= j <= |s| && SkipSpaces(s, i) == j && At(s, j, RenderClause(Method(obj, name, args)))
    ensures SingleClause(s, i).NoMatch? && HavingClause(s, i).NoMatch? && AfterClause(s, i).NoMatch?
    ensures MethodClause(s, i) == Match(Method(obj, name, args), j + |obj| + 3 + |name| + |ArgList(args)|)
  {
    MethodText(s, j, obj, name, args);
    MethodMisses(s, i, j, obj, name);
    MethodReads(s, i, j, obj, name, args);
  }

  lemma {:induction false} MethodLength(obj: string, name: string, args: seq<string>)
    ensures |RenderClause(Method(obj, name, args))| == |obj| + 3 + |name| + |ArgList(args)|
  {
  }

  /** The pieces of a printed method clause found at `j`. */
  lemma {:induction false} MethodText(s: string, j: nat, obj: string, name: string, args: seq<string>)
    requires At(s, j, RenderClause(Method(obj, name, args)))
    ensures At(s, j, obj) && At(s, j + |obj|, ".") && At(s, j + |obj| + 1, name)
    ensures At(s, j + |obj| + 1 + |name|, "(" + (ArgList(args) + ")"))
    ensures j + |obj| + 1 + |name| < |s| && s[j + |obj| + 1 + |name|] == '('
  {
    var rest := "(" + (ArgList(args) + ")");
    assert RenderClause(Method(obj, name, args)) == obj + ("." + (name + rest));
    DottedParts(s, j, obj, name, rest);
    CharAt(s, j + |obj| + 1 + |name|, rest, 0);
  }

  /** `object.name(`: the word after '.' is followed by no operator, the object by no "HAVING",
      and the clause does not start with "AFTER(". */
  lemma {:induction false} MethodMisses(s: string, i: nat, j: nat, obj: string, name: string)
    requires IsWord(obj) && IsWord(name) && i <= j <= |s| && SkipSpaces(s, i) == j
    requires At(s, j, obj) && At(s, j + |obj|, ".") && At(s, j + |obj| + 1, name)
    requires j + |obj| + 1 + |name| < |s| && s[j + |obj| + 1 + |name|] == '('
    ensures SingleClause(s, i).NoMatch? && HavingClause(s, i).NoMatch? && AfterClause(s, i).NoMatch?
  {
    var a := j + |obj|;
    var c := a + 1 + |name|;
    CharAt(s, a, ".", 0);
    DottedAt(s, i, j, a, a + 1, c, obj, name);
    NoSkip(s, a);
    LitMiss(s, a, a, "HAVING");
    WordThenMiss(s, i, obj, a, "HAVING");
    BinOpMiss(s, c);
    SingleClauseMiss(s, i, obj, a, a + 1, name, c);
    NotAfter(s, j, obj);
    AfterMiss(s, i, j);
  }

  /** A clause that does not start with "AFTER(" is not an AFTER clause. */
  lemma {:induction false} AfterMiss(s: string, i: nat, j: nat)
    requires i <= j <= |s| && SkipSpaces(s, i) == j && !At(s, j, "AFTER(")
    ensures AfterClause(s, i).NoMatch?
  {
  }

  /** `object.name(args)` read by the method shape. */
  lemma {:induction false} MethodReads(s: string, i: nat, j: nat, obj: string, name: string, args: seq<string>)
    requires IsWord(obj) && IsWord(name) && i <= j <= |s| && SkipSpaces(s, i) == j
    requires At(s, j, obj) && At(s, j + |obj|, ".") && At(s, j + |obj| + 1, name)
    requires At(s, j + |obj| + 1 + |name|, "(" + (ArgList(args) + ")"))
    ensures MethodClause(s, i) == Match(Method(obj, name, args), j + |obj| + 3 + |name| + |ArgList(args)|)
  {
    var a := j + |obj|;
    var b := a + 1;
    var c := b + |name|;
    var d := c + 1;
    var e := d + |ArgList(args)|;
    MethodParens(s, c, d, e, args);
    DottedAt(s, i, j, a, b, c, obj, name);
    ArgsAt(s, d, e, args);
    MethodClauseSteps(s, i, obj, a, b, name, c, d, args, e);
  }

  /** The parentheses around the arguments are read as the literals "(" and ")". */
  lemma {:induction false} MethodParens(s: string, c: nat, d: nat, e: nat, args: seq<string>)
    requires At(s, c, "(" + (ArgList(args) + ")")) && d == c + 1 && e == d + |ArgList(args)|
    ensures c < |s| && !WordChar(s[c]) && Lit(s, c, "(") == Match((), d)
    ensures At(s, d, ArgList(args) + ")")
    ensures e < |s| && Lit(s, e, ")") == Match((), e + 1)
  {
    var al := ArgList(args);
    AtSplit(s, c, "(", al + ")");
    AtSplit(s, d, al, ")");
    CharAt(s, c, "(", 0);
    CharAt(s, e, ")", 0);
    NoSkip(s, c);
    LitAt(s, c, c, "(");
    NoSkip(s, e);
    LitAt(s, e, e, ")");
  }

  lemma {:induction false} NoSkip(s: string, i: nat)
    requires i < |s| && !IsSpace(s[i])
    ensures SkipSpaces(s, i) == i
  {
  }

  lemma {:induction false} SingleClauseMiss(s: string, i: nat, obj: string, a: nat, b: nat, attr: string, c: nat)
    requires i <= a <= |s| && a <= b <= |s| && b <= c <= |s|
    requires Word(s, i) == Match(obj, a) && Lit(s, a, ".") == Match((), b) && Word(s, b) == Match(attr, c)
    requires BinOp(s, c).NoMatch?
    ensures SingleClause(s, i).NoMatch?
  {
  }

  lemma {:induction false} MethodClauseSteps(s: string, i: nat, obj: string, a: nat, b: nat, name: string, c: nat,
                          d: nat, args: seq<string>, e: nat)
    requires i <= a <= |s| && a <= b <= |s| && b <= c <= |s| && c <= d <= e < |s|
    requires Word(s, i) == Match(obj, a) && Lit(s, a, ".") == Match((), b) && Word(s, b) == Match(name, c)
    requires Lit(s, c, "(") == Match((), d)
    requires if |args| == 0 then Args(s, d).NoMatch? && e == d else Args(s, d) == Match(args, e)
    requires Lit(s, e, ")") == Match((), e + 1)
    ensures MethodClause(s, i) == Match(Method(obj, name, args), e + 1)
  {
  }

  /** A word followed by something other than `lit` is not the start of `word lit ...`. */
  lemma {:induction false} WordThenMiss(s: string, i: nat, w: string, a: nat, lit: string)
    requires i <= |s| && Word(s, i) == Match(w, a) && Lit(s, a, lit).NoMatch?
    ensures lit == "." ==> SingleClause(s, i).NoMatch?
    ensures lit == "HAVING" ==> HavingClause(s, i).NoMatch?
  {
  }

  /** No operator starts with '('. */
  lemma {:induction false} BinOpMiss(s: string, c: nat)
    requires c < |s| && s[c] == '('
    ensures BinOp(s, c).NoMatch?
  {
    assert SkipSpaces(s, c) == c;
    AtMiss(s, c, "<=", 0);
    AtMiss(s, c, ">=", 0);
    AtMiss(s, c, "<>", 0);
    AtMiss(s, c, "<", 0);
    AtMiss(s, c, ">", 0);
    AtMiss(s, c, "=", 0);
    AtMiss(s, c, "DWITHIN", 0);
  }

  lemma {:induction false} OperatorStart(op: Operator)
    ensures |OperatorText(op)| >= 1 && !IsSpace(OperatorText(op)[0])
  {
  }

  lemma {:induction false} LitAt(s: string, i: nat, j: nat, lit: string)
    requires i <= j <= |s| && SkipSpaces(s, i) == j && At(s, j, lit)
    ensures Lit(s, i, lit) == Match((), j + |lit|)
  {
  }

  lemma {:induction false} LitMiss(s: string, i: nat, j: nat, lit: string)
    requires i <= j < |s| && SkipSpaces(s, i) == j && |lit| >= 1 && s[j] != lit[0]
    ensures Lit(s, i, lit).NoMatch?
  {
    AtMiss(s, j, lit, 0);
  }

  lemma {:induction false} CharAt(s: string, i: nat, w: string, k: nat)
    requires At(s, i, w) && k < |w|
    ensures s[i + k] == w[k]
  {
    AtChars(s, i, w);
  }

  /** A text that differs from `lit` at one position does not hold `lit` there. */
  lemma {:induction false} AtMiss(s: string, j: nat, lit: string, k: nat)
    requires k < |lit| && j + k < |s| && s[j + k] != lit[k]
    ensures !At(s, j, lit)
  {
    AtChars(s, j, lit);
  }

  lemma {:induction false} AtJoin(s: string, i: nat, a: string, b: string)
    requires At(s, i, a) && At(s, i + |a|, b)
    ensures At(s, i, a + b)
  {
    AtChars(s, i, a);
    AtChars(s, i + |a|, b);
    AtChars(s, i, a + b);
    forall k | 0 <= k < |a + b|
      ensures s[i + k] == (a + b)[k]
    {
      if k >= |a| {
        assert s[i + |a| + (k - |a|)] == b[k - |a|];
      }
    }
  }

  /** "AFTER(" does not start a word followed by '.'. */
  lemma {:induction false} NotAfter(s: string, j: nat, obj: string)
    requires IsWord(obj) && At(s, j, obj) && j + |obj| < |s| && s[j + |obj|] == '.'
    ensures !At(s, j, "AFTER(")
  {
    if |obj| <= 5 {
      AtMiss(s, j, "AFTER(", |obj|);
    } else {
      CharAt(s, j, obj, 5);
      AtMiss(s, j, "AFTER(", 5);
    }
  }

  /** The optional argument list of a method clause, followed by its closing parenthesis. */
  lemma {:induction false} ArgsAt(s: string, d: nat, e: nat, args: seq<string>)
    requires At(s, d, ArgList(args) + ")") && e == d + |ArgList(args)|
    ensures |args| == 0 ==> Args(s, d).NoMatch? && e == d
    ensures |args| >= 1 ==> Args(s, d) == Match(args, e)
  {
    if |args| == 0 {
      assert ArgList(args) + ")" == ")";
      CharAt(s, d, ")", 0);
      ValueMiss(s, d);
    } else {
      var a := d + |Quoted(args[0])|;
      ArgsText(s, d, args);
      FirstArg(s, d, args[0]);
      MoreArgsAt(s, a, args[1..]);
      ParsersConsume();
      ListStep(s, d, a, args, e, Value, Comma);
    }
  }

  /** The first argument and the rest of a non-empty argument list. */
  lemma {:induction false} ArgsText(s: string, d: nat, args: seq<string>)
    requires |args| >= 1 && At(s, d, ArgList(args) + ")")
    ensures At(s, d, Quoted(args[0]))
    ensures At(s, d + |Quoted(args[0])|, Joined(args[1..], Quoted, ",") + ")")
    ensures |ArgList(args)| == |Quoted(args[0])| + |Joined(args[1..], Quoted, ",")|
  {
    var q := Quoted(args[0]);
    var rest := Joined(args[1..], Quoted, ",");
    assert ArgList(args) == q + rest;
    AtSplit(s, d, q + rest, ")");
    AtSplit(s, d, q, rest);
    AtJoin(s, d + |q|, rest, ")");
  }

  /** A quoted value at `d` is read by the value parser. */
  lemma {:induction false} FirstArg(s: string, d: nat, v: string)
    requires At(s, d, Quoted(v))
    ensures Value(s, d) == Match(v, d + |Quoted(v)|)
  {
    CharAt(s, d, Quoted(v), 0);
    NoSkip(s, d);
    ValueQuotedAt(s, d, d, v);
  }

  /** The arguments after the first one, followed by the closing parenthesis. */
  lemma {:induction false} MoreArgsAt(s: string, a: nat, xs: seq<string>)
    requires At(s, a, Joined(xs, Quoted, ",") + ")")
    ensures ListTail(s, a, Value, Comma) == Match(xs, a + |Joined(xs, Quoted, ",")|)
  {
    var rest := Joined(xs, Quoted, ",");
    var e := a + |rest|;
    AtSplit(s, a, rest, ")");
    CharAt(s, e, ")", 0);
    LitMiss(s, e, e, ",");
    ArgsReadEach(s, xs);
    ParsersConsume();
    JoinedRead(s, a, xs, Value, Comma, Quoted, ",");
  }

  /** A closing parenthesis is not a value. */
  lemma {:induction false} ValueMiss(s: string, d: nat)
    requires d < |s| && s[d] == ')'
    ensures Value(s, d).NoMatch?
  {
    assert SkipSpaces(s, d) == d;
    assert RunEnd(s, d, WordClass) == d;
  }

  /** Every operator is read back from its text followed by a space. */
  lemma {:induction false} BinOpAt(s: string, i: nat, j: nat, op: Operator)
    requires i <= j <= |s| && SkipSpaces(s, i) == j && At(s, j, OperatorText(op) + " ")
    ensures BinOp(s, i) == Match(op, j + |OperatorText(op)|)
  {
    var ot := OperatorText(op);
    AtSplit(s, j, ot, " ");
    CharAt(s, j + |ot|, " ", 0);
    CharAt(s, j, ot, 0);
    match op {
      case LEQ =>
      case GEQ =>
        AtMiss(s, j, "<=", 0);
      case NEQ =>
        AtMiss(s, j, ">=", 0);
        CharAt(s, j, ot, 1);
        AtMiss(s, j, "<=", 1);
      case LT =>
        AtMiss(s, j, "<=", 1);
        AtMiss(s, j, ">=", 0);
        AtMiss(s, j, "<>", 1);
      case GT =>
        AtMiss(s, j, "<=", 0);
        AtMiss(s, j, ">=", 1);
        AtMiss(s, j, "<>", 0);
        AtMiss(s, j, "<", 0);
      case EQ =>
        AtMiss(s, j, "<=", 0);
        AtMiss(s, j, ">=", 0);
        AtMiss(s, j, "<>", 0);
        AtMiss(s, j, "<", 0);
        AtMiss(s, j, ">", 0);
      case DWITHIN =>
        AtMiss(s, j, "<=", 0);
        AtMiss(s, j, ">=", 0);
        AtMiss(s, j, "<>", 0);
        AtMiss(s, j, "<", 0);
        AtMiss(s, j, ">", 0);
        AtMiss(s, j, "=", 0);
    }
  }

  /** A quoted value is read by `escaped_string`, the word alternative failing on the quote. */
  lemma {:induction false} ValueQuotedAt(s: string, i: nat, j: nat, v: string)
    requires i <= j <= |s| && SkipSpaces(s, i) == j && At(s, j, Quoted(v))
    ensures Value(s, i) == Match(v, j + |Quoted(v)|)
  {
    assert Quoted(v) == "\"" + (EscapeQuoted(v) + "\"");
    assert At(s, j, "\"" + (EscapeQuoted(v) + "\""));
    AtSplit(s, j, "\"", EscapeQuoted(v) + "\"");
    CharAt(s, j, "\"", 0);
    assert Word(s, i).NoMatch?;
    EscapedBodyAt(s, j + 1, v);
  }

  lemma {:induction false} EscapedBodyAt(s: string, k: nat, v: string)
    requires At(s, k, EscapeQuoted(v) + "\"")
    ensures EscapedBody(s, k) == Match(v, k + |EscapeQuoted(v)| + 1)
    decreases |v|
  {
    if |v| == 0 {
      assert EscapeQuoted(v) + "\"" == "\"";
      CharAt(s, k, "\"", 0);
    } else {
      var rest := EscapeQuoted(v[1..]) + "\"";
      if v[0] == '"' || v[0] == '\\' {
        assert EscapeQuoted(v) + "\"" == ['\\', v[0]] + rest;
        AtSplit(s, k, ['\\', v[0]], rest);
        CharAt(s, k, ['\\', v[0]], 0);
        CharAt(s, k, ['\\', v[0]], 1);
        EscapedBodyAt(s, k + 2, v[1..]);
      } else {
        assert EscapeQuoted(v) + "\"" == [v[0]] + rest;
        AtSplit(s, k, [v[0]], rest);
        CharAt(s, k, [v[0]], 0);
        EscapedBodyAt(s, k + 1, v[1..]);
      }
      assert [v[0]] + v[1..] == v;
    }
  }

  /** A word at `j`, after white space from `i`, ending where a non-word character begins. */
  lemma {:induction false} WordAt(s: string, i: nat, j: nat, w: string)
    requires IsWord(w) && i <= j <= |s| && SkipSpaces(s, i) == j && At(s, j, w)
    requires j + |w| == |s| || !WordChar(s[j + |w|])
    ensures Word(s, i) == Match(w, j + |w|)
  {
    RunAt(s, j, w, WordClass);
    AtIsSlice(s, j, w);
  }

  /** The longest run of a class is exactly a piece of text made of that class. */
  lemma {:induction false} RunAt(s: string, j: nat, w: string, k: CharClass)
    requires At(s, j, w) && forall p :: 0 <= p < |w| ==> InClass(w[p], k)
    requires j + |w| == |s| || !InClass(s[j + |w|], k)
    ensures RunEnd(s, j, k) == j + |w|
    decreases |w|
  {
    if |w| > 0 {
      assert forall p :: 0 <= p < |w[1..]| ==> w[1..][p] == w[p + 1];
      CharAt(s, j, w, 0);
      AtPiece(s, j, w, 1, |w|);
      assert w[1..|w|] == w[1..];
      RunAt(s, j + 1, w[1..], k);
    }
  }

  lemma {:induction false} SkipOne(s: string, i: nat)
    requires i + 1 < |s| && IsSpace(s[i]) && !IsSpace(s[i + 1])
    ensures SkipSpaces(s, i) == i + 1
  {
    NoSkip(s, i + 1);
  }

  /** A piece of a text found at `i` is found at the matching offset. */
  lemma {:induction false} AtPiece(s: string, i: nat, w: string, p: nat, q: nat)
    requires At(s, i, w) && p <= q <= |w|
    ensures At(s, i + p, w[p..q])
  {
    AtChars(s, i, w);
    AtChars(s, i + p, w[p..q]);
    forall k | 0 <= k < q - p
      ensures s[i + p + k] == w[p..q][k]
    {
      assert s[i + (p + k)] == w[p + k];
    }
  }

  lemma {:induction false} AtSplit(s: string, i: nat, a: string, b: string)
    requires At(s, i, a + b)
    ensures At(s, i, a) && At(s, i + |a|, b)
  {
    AtChars(s, i, a + b);
    AtChars(s, i, a);
    AtChars(s, i + |a|, b);
    forall k | 0 <= k < |a|
      ensures s[i + k] == a[k]
    {
      assert (a + b)[k] == a[k];
    }
    forall k | 0 <= k < |b|
      ensures s[i + |a| + k] == b[k]
    {
      assert (a + b)[|a| + k] == b[k];
    }
  }

}

