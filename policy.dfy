/** The policy engine (internal/policy/policy.go): rules of the form
    `<metric> <op> <number>`, a lint pass that rejects the first bad rule, and
    an evaluation that reports every rule whose comparison holds. */
module Policy {
  import opened Common

  datatype Rule = Rule(id: string, when: string, severity: string)

  datatype Finding = Finding(ruleID: string, severity: string, when: string, evidenceKey: string, evidenceValue: real)

  /** A parsed `when` clause. */
  datatype Expression = Expression(variable: string, operator: Operator, value: real)

  /** The six comparison operators; NoOperator is the empty operator of a zero expression. */
  datatype Operator = Le | Ge | Eq | Ne | Gt | Lt | NoOperator

  function OperatorText(op: Operator): string {
    match op
    case Le => "<="
    case Ge => ">="
    case Eq => "=="
    case Ne => "!="
    case Gt => ">"
    case Lt => "<"
    case NoOperator => ""
  }

  const ZeroExpression := Expression("", NoOperator, 0.0)

  const AllowedMetrics: set<string> := {"monthly_cost_usd", "waste_percentage", "fail_rate", "total_runs", "total_cost_usd"}

  /** isValidSeverity. */
  predicate IsValidSeverity(s: string) {
    s == "error" || s == "warn" || s == "info"
  }

  // ---------------------------------------------------------------------------
  // The expression grammar
  // ---------------------------------------------------------------------------

  /** `\s` of the expression pattern: ASCII white space without the vertical tab. */
  predicate PatternSpace(c: char) {
    c == ' ' || c == '\t' || c == '\n' || c == '\U{0C}' || c == '\r'
  }

  predicate IdentStart(c: char) {
    'a' <= c <= 'z' || 'A' <= c <= 'Z' || c == '_'
  }

  predicate IdentChar(c: char) {
    IdentStart(c) || IsDigit(c)
  }

  predicate IsIdentifier(s: string) {
    |s| >= 1 && IdentStart(s[0]) && forall i :: 0 <= i < |s| ==> IdentChar(s[i])
  }

  /** The length of the longest prefix whose characters all satisfy p. */
  function Span(s: string, p: char -> bool): (n: nat)
    ensures n <= |s|
    ensures forall i :: 0 <= i < n ==> p(s[i])
    ensures n < |s| ==> !p(s[n])
  {
    if s != [] && p(s[0]) then 1 + Span(s[1..], p) else 0
  }

  lemma {:induction false} SpanAppend(a: string, b: string, p: char -> bool)
    requires forall i :: 0 <= i < |a| ==> p(a[i])
    ensures Span(a + b, p) == |a| + Span(b, p)
  {
    if a != [] {
      assert (a + b)[0] == a[0];
      assert (a + b)[1..] == a[1..] + b;
      assert forall i :: 0 <= i < |a[1..]| ==> p(a[1..][i]) by {
        forall i | 0 <= i < |a[1..]| ensures p(a[1..][i]) {
          assert a[1..][i] == a[i + 1];
        }
      }
      SpanAppend(a[1..], b, p);
    } else {
      assert a + b == b;
    }
  }

  function SkipSpaces(s: string): (r: string)
    ensures |r| <= |s|
  {
    s[Span(s, PatternSpace)..]
  }

  /** The value of the digits after a decimal point. */
  function FractionValue(fraction: string): (v: real)
    requires AllDigits(fraction)
    ensures 0.0 <= v < 1.0
  {
    if fraction == [] then 0.0 else (DigitValue(fraction[0]) as real + FractionValue(fraction[1..])) / 10.0
  }

  /** The value of digits "." digits. */
  function DecimalValue(whole: string, fraction: string): (v: real)
    requires AllDigits(whole) && AllDigits(fraction)
    ensures v >= 0.0
  {
    ParseNat(whole) as real + FractionValue(fraction)
  }

  predicate AllPatternSpace(s: string) {
    forall i :: 0 <= i < |s| ==> PatternSpace(s[i])
  }

  /** Reads the rest of `[0-9]+(?:\.[0-9]+)?\s*$` once at least one digit is
      read, with acc the value of the digits so far. */
  function ScanNumber(t: string, acc: nat): (r: Option<real>)
    ensures r.Some? ==> r.value >= 0.0
  {
    if t != [] && IsDigit(t[0]) then ScanNumber(t[1..], acc * 10 + DigitValue(t[0]))
    else if t != [] && t[0] == '.' then
      var more := t[1..];
      var f := Span(more, IsDigit);
      var fraction := more[..f];
      assert AllDigits(fraction);
      if f == 0 || !AllPatternSpace(more[f..]) then None
      else Some(acc as real + FractionValue(fraction))
    else if AllPatternSpace(t) then Some(acc as real)
    else None
  }

  /** An unsigned decimal, then only white space. */
  function ParseNumber(t: string): (r: Option<real>)
    ensures r.Some? ==> r.value >= 0.0
  {
    if t != [] && IsDigit(t[0]) then ScanNumber(t, 0) else None
  }

  /** The value of acc followed by the digits of w. */
  function Accumulate(acc: nat, w: string): nat
    requires AllDigits(w)
    decreases |w|
  {
    if w == [] then acc else Accumulate(acc * 10 + DigitValue(w[0]), w[1..])
  }

  lemma {:induction false} AccumulateLast(acc: nat, w: string, d: char)
    requires AllDigits(w) && IsDigit(d)
    ensures Accumulate(acc, w + [d]) == Accumulate(acc, w) * 10 + DigitValue(d)
    decreases |w|
  {
    if w != [] {
      assert (w + [d])[1..] == w[1..] + [d];
      AccumulateLast(acc * 10 + DigitValue(w[0]), w[1..], d);
    } else {
      assert [] + [d] == [d];
    }
  }

  /** Digits read from nothing give the digits' value. */
  lemma {:induction false} AccumulateFromZero(w: string)
    requires AllDigits(w)
    ensures Accumulate(0, w) == ParseNat(w)
  {
    if w != [] {
      var pre := w[..|w| - 1];
      assert w == pre + [w[|w| - 1]];
      AccumulateFromZero(pre);
      AccumulateLast(0, pre, w[|w| - 1]);
    }
  }

  lemma {:induction false} ScanDigits(w: string, rest: string, acc: nat)
    requires AllDigits(w) && (rest == [] || !IsDigit(rest[0]))
    ensures ScanNumber(w + rest, acc) == ScanNumber(rest, Accumulate(acc, w))
    decreases |w|
  {
    if w != [] {
      assert (w + rest)[0] == w[0];
      assert (w + rest)[1..] == w[1..] + rest;
      ScanDigits(w[1..], rest, acc * 10 + DigitValue(w[0]));
    } else {
      assert w + rest == rest;
    }
  }

  /** The operator at the head of s: a two-character one first, then < or >. */
  function OperatorAt(s: string): (op: Operator)
    ensures op != NoOperator ==> HasPrefix(s, OperatorText(op))
  {
    if |s| >= 2 && s[1] == '=' && s[0] in "<>=!" then
      (if s[0] == '<' then Le else if s[0] == '>' then Ge else if s[0] == '=' then Eq else Ne)
    else if |s| >= 1 && s[0] == '<' then Lt
    else if |s| >= 1 && s[0] == '>' then Gt
    else NoOperator
  }

  /** parseExpression: after trimming, an identifier, an operator and an
      unsigned decimal, with optional white space between them. */
  function ParseExpression(input: string): (r: Option<Expression>)
    ensures r.Some? ==> IsIdentifier(r.value.variable) && r.value.operator != NoOperator && r.value.value >= 0.0
  {
    MatchExpression(TrimSpace(input))
  }

  /** The pattern's match on the trimmed text. */
  function MatchExpression(s: string): (r: Option<Expression>)
    ensures r.Some? ==> IsIdentifier(r.value.variable) && r.value.operator != NoOperator && r.value.value >= 0.0
  {
    if s == [] || !IdentStart(s[0]) then None
    else
      var n := Span(s, IdentChar);
      ParseOperation(s[..n], SkipSpaces(s[n..]))
  }

  /** What follows the identifier (and the spaces after it): an operator, then
      an unsigned decimal. */
  function ParseOperation(name: string, rest: string): (r: Option<Expression>)
    ensures r.Some? ==> r.value.variable == name && r.value.operator != NoOperator && r.value.value >= 0.0
  {
    var op := OperatorAt(rest);
    if op == NoOperator then None
    else
      match ParseNumber(SkipSpaces(rest[|OperatorText(op)|..]))
      case None => None
      case Some(v) => Some(Expression(name, op, v))
  }

  /** The canonical text of a number: the whole digits, then "." and the fraction digits if any. */
  function NumberText(whole: string, fraction: string): string {
    whole + (if fraction == "" then "" else "." + fraction)
  }

  /** The canonical text of an expression: single spaces around the operator. */
  function Render(variable: string, op: Operator, whole: string, fraction: string): string {
    variable + " " + OperatorText(op) + " " + NumberText(whole, fraction)
  }

  /** Every unsigned decimal parses to its value. */
  lemma ParseNumberText(whole: string, fraction: string)
    requires |whole| >= 1 && AllDigits(whole) && AllDigits(fraction)
    ensures ParseNumber(NumberText(whole, fraction)) == Some(DecimalValue(whole, fraction))
  {
    var rest := if fraction == "" then "" else "." + fraction;
    assert NumberText(whole, fraction) == whole + rest;
    assert (whole + rest)[0] == whole[0];
    ScanDigits(whole, rest, 0);
    AccumulateFromZero(whole);
    if fraction != "" {
      assert rest[1..] == fraction + "";
      SpanAppend(fraction, "", IsDigit);
      assert rest[1..][..|fraction|] == fraction;
      assert rest[1..][|fraction|..] == "";
    }
  }

  /** A trimmed text that starts with an identifier parses as that identifier
      followed by the operation after it. */
  lemma ParseIdentified(s: string, name: string, tail: string)
    requires TrimSpace(s) == s && s == name + tail
    requires IsIdentifier(name) && tail != [] && !IdentChar(tail[0])
    ensures ParseExpression(s) == ParseOperation(name, SkipSpaces(tail))
  {
    SpanAppend(name, tail, IdentChar);
    assert s[0] == name[0];
    assert s[..|name|] == name && s[|name|..] == tail;
  }

  lemma SkipOneSpace(t: string)
    requires t != [] && !PatternSpace(t[0])
    ensures SkipSpaces(" " + t) == t
  {
    SpanAppend(" ", t, PatternSpace);
    assert (" " + t)[1..] == t;
  }

  /** A rule text: identifier, operator and number, with any pattern white
      space around the operator. */
  function Padded(variable: string, p1: string, op: Operator, p2: string, whole: string, fraction: string): string {
    variable + p1 + OperatorText(op) + p2 + NumberText(whole, fraction)
  }

  /** Every well-formed rule text parses, to its own parts, whatever white
      space surrounds its operator. */
  lemma ParsePadded(variable: string, p1: string, op: Operator, p2: string, whole: string, fraction: string)
    requires IsIdentifier(variable) && AllPatternSpace(p1) && op != NoOperator && AllPatternSpace(p2)
    requires |whole| >= 1 && AllDigits(whole) && AllDigits(fraction)
    ensures ParseExpression(Padded(variable, p1, op, p2, whole, fraction))
         == Some(Expression(variable, op, DecimalValue(whole, fraction)))
  {
    var num := NumberText(whole, fraction);
    var rest := OperatorText(op) + p2 + num;
    assert Padded(variable, p1, op, p2, whole, fraction) == variable + p1 + rest;
    OperatorTextStart(op);
    assert rest[0] == OperatorText(op)[0];
    assert IsDigit(num[|num| - 1]);
    assert rest[|rest| - 1] == num[|num| - 1];
    PaddedName(variable, p1, rest);
    OperationPadded(variable, op, p2, whole, fraction);
  }

  /** A trimmed rule text is read as its identifier, then, past the white
      space after it, the operation. */
  lemma PaddedName(variable: string, p1: string, rest: string)
    requires IsIdentifier(variable) && AllPatternSpace(p1)
    requires rest != [] && !PatternSpace(rest[0]) && !IdentChar(rest[0]) && !IsSpace(rest[|rest| - 1])
    ensures ParseExpression(variable + p1 + rest) == ParseOperation(variable, rest)
  {
    var tail := p1 + rest;
    var s := variable + tail;
    assert variable + p1 + rest == s;
    assert s[0] == variable[0];
    assert s[|s| - 1] == rest[|rest| - 1];
    TrimSpaceKeeps(s);
    assert tail[0] == if p1 == [] then rest[0] else p1[0];
    ParseIdentified(s, variable, tail);
    SpanAppend(p1, rest, PatternSpace);
    assert tail[|p1|..] == rest;
  }

  /** An operator, white space and a number read as that operation. */
  lemma OperationPadded(variable: string, op: Operator, p2: string, whole: string, fraction: string)
    requires op != NoOperator && AllPatternSpace(p2)
    requires |whole| >= 1 && AllDigits(whole) && AllDigits(fraction)
    ensures ParseOperation(variable, OperatorText(op) + p2 + NumberText(whole, fraction))
         == Some(Expression(variable, op, DecimalValue(whole, fraction)))
  {
    var t := p2 + NumberText(whole, fraction);
    var text := OperatorText(op);
    NumberPadded(p2, whole, fraction);
    OperatorAtText(op, t);
    assert text + p2 + NumberText(whole, fraction) == text + t;
    assert (text + t)[|text|..] == t;
  }

  /** White space, then a number: the number's value. */
  lemma NumberPadded(p2: string, whole: string, fraction: string)
    requires AllPatternSpace(p2) && |whole| >= 1 && AllDigits(whole) && AllDigits(fraction)
    ensures var t := p2 + NumberText(whole, fraction);
      && t != [] && t[0] != '='
      && ParseNumber(SkipSpaces(t)) == Some(DecimalValue(whole, fraction))
  {
    var num := NumberText(whole, fraction);
    assert num[0] == whole[0];
    SkipToText(p2, num);
    ParseNumberText(whole, fraction);
  }

  /** SkipSpaces drops white space up to a character that is not white space. */
  lemma SkipToText(p: string, t: string)
    requires AllPatternSpace(p) && t != [] && !PatternSpace(t[0]) && t[0] != '='
    ensures (p + t)[0] != '=' && SkipSpaces(p + t) == t
  {
    assert (p + t)[0] == if p == [] then t[0] else p[0];
    SpanAppend(p, t, PatternSpace);
    assert (p + t)[|p|..] == t;
  }

  /** An operator's text followed by something that does not start with '=' reads as that operator. */
  lemma OperatorAtText(op: Operator, t: string)
    requires op != NoOperator && (t == [] || t[0] != '=')
    ensures OperatorAt(OperatorText(op) + t) == op
  {
    var s := OperatorText(op) + t;
    if op == Lt || op == Gt {
      assert |s| >= 2 ==> s[1] == t[0];
    }
  }

  /** The canonical rendering parses back to its parts. */
  lemma ParseRendered(variable: string, op: Operator, whole: string, fraction: string)
    requires IsIdentifier(variable) && op != NoOperator
    requires |whole| >= 1 && AllDigits(whole) && AllDigits(fraction)
    ensures ParseExpression(Render(variable, op, whole, fraction))
         == Some(Expression(variable, op, DecimalValue(whole, fraction)))
  {
    assert Render(variable, op, whole, fraction) == Padded(variable, " ", op, " ", whole, fraction);
    ParsePadded(variable, " ", op, " ", whole, fraction);
  }

  /** Every operator's text starts with a character that is neither white
      space nor part of an identifier. */
  lemma OperatorTextStart(op: Operator)
    requires op != NoOperator
    ensures OperatorText(op) != [] && !PatternSpace(OperatorText(op)[0]) && !IdentChar(OperatorText(op)[0])
  {
  }

  /** What ScanNumber accepts: digits, optionally a point and digits, then
      white space; its value is that of the digits read after acc. */
  lemma {:induction false} ScanSound(t: string, acc: nat) returns (w: string, f: string, p3: string)
    requires ScanNumber(t, acc).Some?
    ensures AllDigits(w) && AllDigits(f) && AllPatternSpace(p3)
    ensures t == NumberText(w, f) + p3
    ensures ScanNumber(t, acc).value == Accumulate(acc, w) as real + FractionValue(f)
    decreases |t|
  {
    if t != [] && IsDigit(t[0]) {
      var acc' := acc * 10 + DigitValue(t[0]);
      assert ScanNumber(t, acc) == ScanNumber(t[1..], acc');
      var w', f', p3' := ScanSound(t[1..], acc');
      w, f, p3 := DigitSound(t, w', f', p3', acc);
    } else if t != [] && t[0] == '.' {
      w, f, p3 := FractionSound(t, acc);
    } else {
      w, f, p3 := [], [], t;
    }
  }

  /** One more leading digit joins the whole digits. */
  lemma DigitSound(t: string, w': string, f: string, p3: string, acc: nat) returns (w: string, f2: string, p: string)
    requires t != [] && IsDigit(t[0]) && AllDigits(w') && AllDigits(f) && AllPatternSpace(p3)
    requires t[1..] == NumberText(w', f) + p3
    ensures AllDigits(w) && f2 == f && p == p3
    ensures t == NumberText(w, f) + p3
    ensures Accumulate(acc, w) == Accumulate(acc * 10 + DigitValue(t[0]), w')
  {
    w, f2, p := [t[0]] + w', f, p3;
    assert w[0] == t[0] && w[1..] == w';
    assert t == [t[0]] + t[1..];
  }

  /** A point, digits, then white space. */
  lemma FractionSound(t: string, acc: nat) returns (w: string, f: string, p3: string)
    requires t != [] && t[0] == '.' && ScanNumber(t, acc).Some?
    ensures w == [] && AllDigits(f) && AllPatternSpace(p3)
    ensures t == NumberText(w, f) + p3
    ensures ScanNumber(t, acc).value == acc as real + FractionValue(f)
  {
    var more := t[1..];
    var n := Span(more, IsDigit);
    w, f, p3 := [], more[..n], more[n..];
    assert t == "." + f + p3;
  }

  /** What ParseNumber accepts: at least one digit, optionally a point and
      digits, then white space; its value is their decimal value. */
  lemma ParseNumberSound(t: string) returns (w: string, f: string, p3: string)
    requires ParseNumber(t).Some?
    ensures |w| >= 1 && AllDigits(w) && AllDigits(f) && AllPatternSpace(p3)
    ensures t == NumberText(w, f) + p3
    ensures ParseNumber(t).value == DecimalValue(w, f)
  {
    w, f, p3 := ScanSound(t, 0);
    if w == [] {
      assert false;
    }
    AccumulateFromZero(w);
  }

  /** What ParseOperation accepts: the operator, white space, then a number
      and white space. */
  lemma ParseOperationSound(name: string, rest: string) returns (p2: string, w: string, f: string, p3: string)
    requires ParseOperation(name, rest).Some?
    ensures var e := ParseOperation(name, rest).value;
      && AllPatternSpace(p2) && AllPatternSpace(p3) && |w| >= 1 && AllDigits(w) && AllDigits(f)
      && rest == OperatorText(e.operator) + p2 + NumberText(w, f) + p3
      && e.value == DecimalValue(w, f)
  {
    var x := OperationSplit(name, rest);
    p2 := SplitSpaces(x);
    w, f, p3 := ParseNumberSound(SkipSpaces(x));
    JoinFour(OperatorText(ParseOperation(name, rest).value.operator), p2, NumberText(w, f), p3);
  }

  lemma JoinFour(a: string, b: string, c: string, d: string)
    ensures a + (b + (c + d)) == a + b + c + d
  {
  }

  /** An accepted operation is its operator followed by an accepted number. */
  lemma OperationSplit(name: string, rest: string) returns (x: string)
    requires ParseOperation(name, rest).Some?
    ensures var e := ParseOperation(name, rest).value;
      && rest == OperatorText(e.operator) + x
      && ParseNumber(SkipSpaces(x)) == Some(e.value)
  {
    var op := OperatorAt(rest);
    x := rest[|OperatorText(op)|..];
  }

  /** A string is its leading white space followed by what SkipSpaces leaves. */
  lemma SplitSpaces(x: string) returns (p: string)
    ensures AllPatternSpace(p) && x == p + SkipSpaces(x)
  {
    p := x[..Span(x, PatternSpace)];
  }

  /** Soundness of parseExpression: an accepted text, once trimmed, is its
      identifier, white space, its operator, white space and an unsigned
      decimal whose value it carries, and nothing else. */
  lemma ParseExpressionSound(input: string, e: Expression)
    requires ParseExpression(input) == Some(e)
    ensures exists p1, p2, w, f ::
      && AllPatternSpace(p1) && AllPatternSpace(p2) && |w| >= 1 && AllDigits(w) && AllDigits(f)
      && TrimSpace(input) == e.variable + p1 + OperatorText(e.operator) + p2 + NumberText(w, f)
      && e.value == DecimalValue(w, f)
  {
    var p1, p2, w, f := ParseParts(input, e);
  }

  lemma ParseParts(input: string, e: Expression) returns (p1: string, p2: string, w: string, f: string)
    requires ParseExpression(input) == Some(e)
    ensures AllPatternSpace(p1) && AllPatternSpace(p2) && |w| >= 1 && AllDigits(w) && AllDigits(f)
    ensures TrimSpace(input) == e.variable + p1 + OperatorText(e.operator) + p2 + NumberText(w, f)
    ensures e.value == DecimalValue(w, f)
  {
    var s := TrimSpace(input);
    var n := MatchedName(s, e);
    var x := s[n..];
    SplitAt(s, n);
    p1 := SplitSpaces(x);
    var p3;
    p2, w, f, p3 := ParseOperationSound(e.variable, SkipSpaces(x));
    TrimSpaceSpec(input);
    Reassemble(s, e.variable, x, p1, SkipSpaces(x), OperatorText(e.operator), p2, NumberText(w, f), p3);
  }

  /** The pieces found by the parser, put back together; white space after the
      number cannot remain in a text that does not end in white space. */
  lemma Reassemble(s: string, v: string, x: string, p1: string, y: string, op: string, p2: string, num: string, p3: string)
    requires s == v + x && x == p1 + y && y == op + p2 + num + p3
    requires AllPatternSpace(p3) && (s == [] || !IsSpace(s[|s| - 1]))
    ensures s == v + p1 + op + p2 + num
  {
    JoinFour(op, p2, num, p3);
    JoinFour(v, p1, op + p2 + num, p3);
    JoinFour(v, p1, op + p2, num);
    JoinFour(v, p1, op, p2);
    EndsClean(s, v + p1 + op + p2 + num, p3);
  }

  /** The identifier of an accepted text is its longest identifier prefix. */
  lemma MatchedName(s: string, e: Expression) returns (n: nat)
    requires MatchExpression(s) == Some(e)
    ensures n <= |s| && e.variable == s[..n]
    ensures ParseOperation(s[..n], SkipSpaces(s[n..])) == Some(e)
  {
    n := Span(s, IdentChar);
  }

  lemma SplitAt(s: string, n: nat)
    requires n <= |s|
    ensures s == s[..n] + s[n..]
  {
  }

  /** Nothing of white space can follow the last part of a text that does not
      end in white space. */
  lemma EndsClean(s: string, body: string, p3: string)
    requires s == body + p3 && AllPatternSpace(p3) && (s == [] || !IsSpace(s[|s| - 1]))
    ensures p3 == []
  {
    if p3 != [] {
      assert false;
    }
  }

  /** A doubled operator is not an operator: "monthly_cost_usd >> 200" does not parse. */
  lemma DoubledOperatorRejected(variable: string, whole: string)
    requires IsIdentifier(variable) && |whole| >= 1 && AllDigits(whole)
    ensures ParseExpression(variable + " >> " + whole) == None
  {
    var tail := ">> " + whole;
    var s := variable + " >> " + whole;
    assert s == variable + (" " + tail);
    assert s[|s| - 1] == whole[|whole| - 1];
    TrimSpaceKeeps(s);
    ParseIdentified(s, variable, " " + tail);
    SkipOneSpace(tail);
    DoubledOperation(variable, whole);
  }

  lemma DoubledOperation(name: string, whole: string)
    ensures ParseOperation(name, ">> " + whole) == None
  {
    var rest := ">> " + whole;
    var t := "> " + whole;
    assert OperatorAt(rest) == Gt;
    assert rest[|OperatorText(Gt)|..] == t;
    assert t[0] == '>';
    assert Span(t, PatternSpace) == 0;
    assert SkipSpaces(t) == t;
    assert ParseNumber(t) == None;
  }

  /** compare: the six relations; the empty operator never holds. */
  predicate Compare(left: real, op: Operator, right: real) {
    match op
    case Gt => left > right
    case Ge => left >= right
    case Lt => left < right
    case Le => left <= right
    case Eq => left == right
    case Ne => left != right
    case NoOperator => false
  }

  /** The operators come in complementary pairs. */
  lemma CompareComplements(left: real, right: real)
    ensures Compare(left, Lt, right) <==> !Compare(left, Ge, right)
    ensures Compare(left, Gt, right) <==> !Compare(left, Le, right)
    ensures Compare(left, Ne, right) <==> !Compare(left, Eq, right)
    ensures !Compare(left, NoOperator, right)
  {
  }

  // ---------------------------------------------------------------------------
  // Lint
  // ---------------------------------------------------------------------------

  datatype LintError =
    | NoRules
    | MissingID(index: nat)
    | MissingWhen(id: string)
    | InvalidSeverity(id: string, severity: string)
    | InvalidExpression(id: string)
    | UnsupportedVariable(id: string, variable: string)

  /** The checks on one rule, in the order the source makes them. */
  function RuleError(index: nat, rule: Rule): (e: Option<LintError>)
    ensures e.None? <==>
      && !IsBlank(rule.id) && !IsBlank(rule.when) && IsValidSeverity(rule.severity)
      && ParseExpression(rule.when).Some? && ParseExpression(rule.when).value.variable in AllowedMetrics
  {
    if IsBlank(rule.id) then Some(MissingID(index))
    else if IsBlank(rule.when) then Some(MissingWhen(rule.id))
    else if !IsValidSeverity(rule.severity) then Some(InvalidSeverity(rule.id, rule.severity))
    else match ParseExpression(rule.when)
      case None => Some(InvalidExpression(rule.id))
      case Some(e) => if e.variable !in AllowedMetrics then Some(UnsupportedVariable(rule.id, e.variable)) else None
  }

  /** The first error a check reports along xs from position i, checking in order. */
  function FirstError<T, E>(xs: seq<T>, check: (nat, T) -> Option<E>, i: nat): Option<E>
    requires i <= |xs|
    decreases |xs| - i
  {
    if i == |xs| then None
    else match check(i, xs[i])
      case Some(e) => Some(e)
      case None => FirstError(xs, check, i + 1)
  }

  /** No error is reported exactly when every element passes. */
  lemma {:induction false} FirstErrorNone<T, E>(xs: seq<T>, check: (nat, T) -> Option<E>, i: nat)
    requires i <= |xs|
    ensures FirstError(xs, check, i).None? <==> forall k :: i <= k < |xs| ==> check(k, xs[k]).None?
    decreases |xs| - i
  {
    if i < |xs| {
      FirstErrorNone(xs, check, i + 1);
    }
  }

  /** A reported error is that of the first element to fail. */
  lemma {:induction false} FirstErrorIsFirst<T, E>(xs: seq<T>, check: (nat, T) -> Option<E>, i: nat)
    requires i <= |xs| && FirstError(xs, check, i).Some?
    ensures exists k ::
              && i <= k < |xs| && check(k, xs[k]) == FirstError(xs, check, i)
              && (forall j :: i <= j < k ==> check(j, xs[j]).None?)
    decreases |xs| - i
  {
    if check(i, xs[i]).None? {
      FirstErrorIsFirst(xs, check, i + 1);
      var k :| && i + 1 <= k < |xs| && check(k, xs[k]) == FirstError(xs, check, i + 1)
               && (forall j :: i + 1 <= j < k ==> check(j, xs[j]).None?);
      assert forall j :: i <= j < k ==> check(j, xs[j]).None?;
    }
  }

  /** Lint: None when the policy is valid, else the first problem. */
  function Lint(rules: seq<Rule>): Option<LintError> {
    if |rules| == 0 then Some(NoRules) else FirstError(rules, RuleError, 0)
  }

  /** A policy passes lint exactly when it has rules and each rule passes every
      check; otherwise the error is that of the first rule to fail one. */
  lemma LintValid(rules: seq<Rule>)
    ensures Lint(rules).None? <==> |rules| > 0 && forall k :: 0 <= k < |rules| ==> RuleError(k, rules[k]).None?
    ensures Lint(rules).Some? && |rules| > 0 ==>
      exists k ::
        && 0 <= k < |rules| && RuleError(k, rules[k]) == Lint(rules)
        && (forall j :: 0 <= j < k ==> RuleError(j, rules[j]).None?)
  {
    FirstErrorNone(rules, RuleError, 0);
    if Lint(rules).Some? && |rules| > 0 {
      FirstErrorIsFirst(rules, RuleError, 0);
    }
  }

  // ---------------------------------------------------------------------------
  // Evaluate
  // ---------------------------------------------------------------------------

  datatype EvalError = LintFailed(cause: LintError) | MissingMetric(variable: string, ruleID: string)

  /** The rule's expression; a rule that does not parse stands for the zero expression. */
  function ExprOf(rule: Rule): Expression {
    match ParseExpression(rule.when)
    case Some(e) => e
    case None => ZeroExpression
  }

  /** A rule paired with its parsed expression. */
  datatype Check = Check(rule: Rule, expr: Expression)

  function ChecksOf(rules: seq<Rule>): (cs: seq<Check>)
    ensures |cs| == |rules|
  {
    if rules == [] then [] else ChecksOf(rules[..|rules| - 1]) + [Check(rules[|rules| - 1], ExprOf(rules[|rules| - 1]))]
  }

  lemma {:induction false} ChecksOfAt(rules: seq<Rule>, i: nat)
    requires i < |rules|
    ensures ChecksOf(rules)[i] == Check(rules[i], ExprOf(rules[i]))
  {
    if i < |rules| - 1 {
      ChecksOfAt(rules[..|rules| - 1], i);
    }
  }

  predicate Fires(c: Check, metrics: map<string, real>) {
    c.expr.variable in metrics && Compare(metrics[c.expr.variable], c.expr.operator, c.expr.value)
  }

  function FindingOf(c: Check, metrics: map<string, real>): Finding
    requires c.expr.variable in metrics
  {
    Finding(c.rule.id, c.rule.severity, c.rule.when, c.expr.variable, metrics[c.expr.variable])
  }

  /** The findings of the rules that fire, in rule order. */
  function Findings(cs: seq<Check>, metrics: map<string, real>): seq<Finding> {
    if cs == [] then []
    else
      var last := cs[|cs| - 1];
      Findings(cs[..|cs| - 1], metrics) + (if Fires(last, metrics) then [FindingOf(last, metrics)] else [])
  }

  /** The first rule whose metric is missing, if any. */
  function FirstMissing(cs: seq<Check>, metrics: map<string, real>): (k: Option<nat>)
    ensures k.None? <==> forall i :: 0 <= i < |cs| ==> cs[i].expr.variable in metrics
    ensures k.Some? ==>
      && k.value < |cs| && cs[k.value].expr.variable !in metrics
      && (forall i :: 0 <= i < k.value ==> cs[i].expr.variable in metrics)
  {
    if cs == [] then None
    else if cs[0].expr.variable !in metrics then Some(0)
    else
      var k := FirstMissing(cs[1..], metrics);
      assert forall i :: 1 <= i < |cs| ==> cs[i] == cs[1..][i - 1];
      match k
      case None => None
      case Some(k) => Some(k + 1)
  }

  /** What Evaluate returns. */
  function Evaluation(rules: seq<Rule>, metrics: map<string, real>): Result<seq<Finding>, EvalError> {
    if Lint(rules).Some? then Err(LintFailed(Lint(rules).value))
    else
      var cs := ChecksOf(rules);
      match FirstMissing(cs, metrics)
      case Some(k) => Err(MissingMetric(cs[k].expr.variable, cs[k].rule.id))
      case None => Ok(Findings(cs, metrics))
  }

  /** Evaluate: lint first, then check each rule against the metrics, failing on
      the first missing metric. */
  method Evaluate(rules: seq<Rule>, metrics: map<string, real>) returns (r: Result<seq<Finding>, EvalError>)
    ensures r == Evaluation(rules, metrics)
  {
    var lint := Lint(rules);
    if lint.Some? {
      return Err(LintFailed(lint.value));
    }
    ghost var cs := ChecksOf(rules);
    var out := [];
    for i := 0 to |rules|
      invariant forall j :: 0 <= j < i ==> cs[j].expr.variable in metrics
      invariant out == Findings(cs[..i], metrics)
    {
      var expr := ExprOf(rules[i]);
      ChecksOfAt(rules, i);
      assert cs[i].expr == expr && cs[i].rule == rules[i];
      if expr.variable !in metrics {
        MissingAt(cs, metrics, i);
        return Err(MissingMetric(expr.variable, rules[i].id));
      }
      FindingsStep(cs, i, metrics);
      assert Fires(cs[i], metrics) == Compare(metrics[expr.variable], expr.operator, expr.value);
      if Compare(metrics[expr.variable], expr.operator, expr.value) {
        var finding := Finding(rules[i].id, rules[i].severity, rules[i].when, expr.variable, metrics[expr.variable]);
        assert finding == FindingOf(cs[i], metrics);
        out := out + [finding];
      }
      assert forall j :: 0 <= j < i + 1 ==> cs[j].expr.variable in metrics;
    }
    assert cs[..|rules|] == cs;
    return Ok(out);
  }

  /** The first missing metric is the one of the first check whose variable is missing. */
  lemma MissingAt(cs: seq<Check>, metrics: map<string, real>, i: nat)
    requires i < |cs| && cs[i].expr.variable !in metrics
    requires forall j :: 0 <= j < i ==> cs[j].expr.variable in metrics
    ensures FirstMissing(cs, metrics) == Some(i)
  {
    assert FirstMissing(cs, metrics).Some?;
  }

  lemma FindingsStep(cs: seq<Check>, i: nat, metrics: map<string, real>)
    requires i < |cs|
    ensures Findings(cs[..i + 1], metrics)
         == Findings(cs[..i], metrics) + (if Fires(cs[i], metrics) then [FindingOf(cs[i], metrics)] else [])
  {
    assert cs[..i + 1][..i] == cs[..i];
  }

  /** The findings are exactly the rules that fire: each finding comes from a
      firing rule, every firing rule has its finding, and there are no more
      findings than rules. */
  lemma {:induction false} FindingsExact(cs: seq<Check>, metrics: map<string, real>)
    ensures |Findings(cs, metrics)| <= |cs|
    ensures forall f :: f in Findings(cs, metrics) ==>
      exists i :: 0 <= i < |cs| && Fires(cs[i], metrics) && f == FindingOf(cs[i], metrics)
    ensures forall i :: 0 <= i < |cs| && Fires(cs[i], metrics) ==> FindingOf(cs[i], metrics) in Findings(cs, metrics)
  {
    if cs != [] {
      var pre := cs[..|cs| - 1];
      FindingsExact(pre, metrics);
      assert forall i :: 0 <= i < |pre| ==> pre[i] == cs[i];
    }
  }

  /** Evaluation never succeeds past an invalid policy or a missing metric, and
      a success holds the findings of the rules that fire. */
  lemma EvaluationErrors(rules: seq<Rule>, metrics: map<string, real>)
    ensures Lint(rules).Some? ==> Evaluation(rules, metrics) == Err(LintFailed(Lint(rules).value))
    ensures (exists i :: 0 <= i < |rules| && ExprOf(rules[i]).variable !in metrics) ==> Evaluation(rules, metrics).Err?
    ensures Evaluation(rules, metrics).Ok? ==> Evaluation(rules, metrics).value == Findings(ChecksOf(rules), metrics)
  {
    var cs := ChecksOf(rules);
    if exists i :: 0 <= i < |rules| && ExprOf(rules[i]).variable !in metrics {
      var i :| 0 <= i < |rules| && ExprOf(rules[i]).variable !in metrics;
      ChecksOfAt(rules, i);
    }
  }

  /** A monthly budget rule at 200 (error) and a waste rule at 25 (warn), with
      spend 300 and waste 10: one finding, the budget rule's, at severity error. */
  lemma ExampleEvaluation(budget: Rule, waste: Rule, metrics: map<string, real>)
    requires budget == Rule("budget_monthly", "monthly_cost_usd > 200", "error")
    requires waste == Rule("waste_ratio", "waste_percentage > 25", "warn")
    requires metrics == map["monthly_cost_usd" := 300.0, "waste_percentage" := 10.0]
    ensures Evaluation([budget, waste], metrics)
         == Ok([Finding("budget_monthly", "error", "monthly_cost_usd > 200", "monthly_cost_usd", 300.0)])
  {
    BudgetRulePasses(budget);
    WasteRulePasses(waste);
    var c0 := Check(budget, Expression("monthly_cost_usd", Gt, 200.0));
    var c1 := Check(waste, Expression("waste_percentage", Gt, 25.0));
    assert Fires(c0, metrics) && c1.expr.variable in metrics && !Fires(c1, metrics) by {
      assert metrics["monthly_cost_usd"] == 300.0 && metrics["waste_percentage"] == 10.0;
    }
    EvaluationOfPair(budget, waste, c0, c1, metrics);
  }

  /** Two rules that pass lint, the first firing and the second not: the
      first rule's finding alone. */
  lemma EvaluationOfPair(r0: Rule, r1: Rule, c0: Check, c1: Check, metrics: map<string, real>)
    requires RuleError(0, r0).None? && RuleError(1, r1).None?
    requires c0 == Check(r0, ExprOf(r0)) && c1 == Check(r1, ExprOf(r1))
    requires Fires(c0, metrics) && c1.expr.variable in metrics && !Fires(c1, metrics)
    ensures Evaluation([r0, r1], metrics) == Ok([FindingOf(c0, metrics)])
  {
    PairLint(r0, r1);
    PairChecks(r0, r1);
    PairFindings(c0, c1, metrics);
    EvaluationOk([r0, r1], metrics);
  }

  lemma PairLint(r0: Rule, r1: Rule)
    requires RuleError(0, r0).None? && RuleError(1, r1).None?
    ensures Lint([r0, r1]).None?
  {
    var rules := [r0, r1];
    assert rules[0] == r0 && rules[1] == r1;
    assert FirstError(rules, RuleError, 2).None?;
    assert FirstError(rules, RuleError, 1).None?;
  }

  lemma PairChecks(r0: Rule, r1: Rule)
    ensures ChecksOf([r0, r1]) == [Check(r0, ExprOf(r0)), Check(r1, ExprOf(r1))]
  {
    ChecksOfAt([r0, r1], 0);
    ChecksOfAt([r0, r1], 1);
  }

  lemma PairFindings(c0: Check, c1: Check, metrics: map<string, real>)
    requires Fires(c0, metrics) && c1.expr.variable in metrics && !Fires(c1, metrics)
    ensures FirstMissing([c0, c1], metrics).None?
    ensures Findings([c0, c1], metrics) == [FindingOf(c0, metrics)]
  {
    assert Findings([c0], metrics) == [FindingOf(c0, metrics)] by {
      assert [c0][..0] == [];
    }
    assert [c0, c1][..1] == [c0];
  }

  /** With a valid policy and every metric present, evaluation succeeds with the findings. */
  lemma EvaluationOk(rules: seq<Rule>, metrics: map<string, real>)
    requires Lint(rules).None? && FirstMissing(ChecksOf(rules), metrics).None?
    ensures Evaluation(rules, metrics) == Ok(Findings(ChecksOf(rules), metrics))
  {
  }

  /** The budget rule of the example passes lint and parses to its threshold. */
  lemma BudgetRulePasses(rule: Rule)
    requires rule == Rule("budget_monthly", "monthly_cost_usd > 200", "error")
    ensures RuleError(0, rule).None?
    ensures ExprOf(rule) == Expression("monthly_cost_usd", Gt, 200.0)
  {
    assert !IsBlank(rule.id) by { TrimSpaceKeeps(rule.id); }
    assert !IsBlank(rule.when) by { TrimSpaceKeeps(rule.when); }
    assert ParseExpression(rule.when) == Some(Expression("monthly_cost_usd", Gt, 200.0)) by { BudgetRuleParses(); }
    assert "monthly_cost_usd" in AllowedMetrics;
    assert IsValidSeverity(rule.severity);
  }

  /** The waste rule of the example passes lint and parses to its threshold. */
  lemma WasteRulePasses(rule: Rule)
    requires rule == Rule("waste_ratio", "waste_percentage > 25", "warn")
    ensures RuleError(1, rule).None?
    ensures ExprOf(rule) == Expression("waste_percentage", Gt, 25.0)
  {
    assert !IsBlank(rule.id) by { TrimSpaceKeeps(rule.id); }
    assert !IsBlank(rule.when) by { TrimSpaceKeeps(rule.when); }
    assert ParseExpression(rule.when) == Some(Expression("waste_percentage", Gt, 25.0)) by { WasteRuleParses(); }
    assert "waste_percentage" in AllowedMetrics;
    assert IsValidSeverity(rule.severity);
  }

  lemma BudgetRuleParses()
    ensures ParseExpression("monthly_cost_usd > 200") == Some(Expression("monthly_cost_usd", Gt, 200.0))
  {
    assert ParseNat("200") == 200 by {
      assert "200"[..2] == "20" && "20"[..1] == "2" && "2"[..0] == "";
    }
    assert "monthly_cost_usd > 200" == Render("monthly_cost_usd", Gt, "200", "");
    ParseRendered("monthly_cost_usd", Gt, "200", "");
  }

  lemma WasteRuleParses()
    ensures ParseExpression("waste_percentage > 25") == Some(Expression("waste_percentage", Gt, 25.0))
  {
    assert ParseNat("25") == 25 by {
      assert "25"[..1] == "2" && "2"[..0] == "";
    }
    assert "waste_percentage > 25" == Render("waste_percentage", Gt, "25", "");
    ParseRendered("waste_percentage", Gt, "25", "");
  }
}
