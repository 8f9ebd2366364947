/** SQL expressions: the precedence-climbing parser (src/sql/parser/parser.rs) inverts the
    printer that writes as few parentheses as possible (src/sql/parser/verified_minparen.rs). */
module SqlParser {
  import opened Basics

  datatype Prefix = Not | Negate | Identity

  datatype Infix =
    | Or | And
    | Equal | NotEqual | Like
    | GreaterThan | GreaterThanOrEqual | LessThan | LessThanOrEqual
    | Add | Subtract
    | Multiply | Divide | Remainder
    | Exponentiate

  /** Floats are opaque. */
  datatype Literal =
    | NullLiteral
    | BooleanLiteral(bool)
    | IntegerLiteral(nat)
    | FloatLiteral(nat)
    | InfinityLiteral
    | NaNLiteral
    | StringLiteral(string)

  datatype Expr =
    | All
    | Column(table: Option<string>, column: string)
    | Literal(literal: Literal)
    | Function(name: string, args: seq<Expr>)
    | Unary(prefix: Prefix, operand: Expr)
    | Factorial(base: Expr)
    | Is(subject: Expr, nan: bool)
    | Binary(infix: Infix, left: Expr, right: Expr)

  datatype Token =
    | Ident(name: string)
    | Digits(value: nat)
    | Decimal(float: nat)
    | Quoted(text: string)
    | KwTrue | KwFalse | KwInfinity | KwNaN | KwNull | KwNot | KwIs | KwAnd | KwOr | KwLike
    | Asterisk | Caret | Exclamation | Minus | Percent | Plus | Slash
    | EqualSign | GreaterSign | GreaterOrEqualSign | LessSign | LessOrEqualSign | LessOrGreaterSign | NotEqualSign
    | OpenParen | CloseParen | Comma | Period

  const INTEGER_LIMIT: nat := 0x8000_0000_0000_0000

  // ---------------------------------------------------------------- tables

  function PrefixPrecedence(p: Prefix): nat {
    match p
    case Not => 3
    case Negate => 10
    case Identity => 10
  }

  function InfixPrecedence(i: Infix): nat {
    match i
    case Or => 1
    case And => 2
    case Equal => 4
    case NotEqual => 4
    case Like => 4
    case GreaterThan => 5
    case GreaterThanOrEqual => 5
    case LessThan => 5
    case LessThanOrEqual => 5
    case Add => 6
    case Subtract => 6
    case Multiply => 7
    case Divide => 7
    case Remainder => 7
    case Exponentiate => 8
  }

  /** Left-associative operators parse their right operand one level tighter. */
  function Associativity(i: Infix): nat {
    if i.Exponentiate? then 0 else 1
  }

  const FACTORIAL_PRECEDENCE: nat := 9
  const IS_PRECEDENCE: nat := 4

  function PrefixOf(t: Token): Option<Prefix> {
    match t
    case KwNot => Some(Not)
    case Minus => Some(Negate)
    case Plus => Some(Identity)
    case _ => None
  }

  function InfixOf(t: Token): Option<Infix> {
    match t
    case Asterisk => Some(Multiply)
    case Caret => Some(Exponentiate)
    case EqualSign => Some(Equal)
    case GreaterSign => Some(GreaterThan)
    case GreaterOrEqualSign => Some(GreaterThanOrEqual)
    case KwAnd => Some(And)
    case KwLike => Some(Like)
    case KwOr => Some(Or)
    case LessOrGreaterSign => Some(NotEqual)
    case LessSign => Some(LessThan)
    case LessOrEqualSign => Some(LessThanOrEqual)
    case Minus => Some(Subtract)
    case NotEqualSign => Some(NotEqual)
    case Percent => Some(Remainder)
    case Plus => Some(Add)
    case Slash => Some(Divide)
    case _ => None
  }

  // ---------------------------------------------------------------- parsing

  /** What parsing gives: an expression and the tokens after it. */
  datatype Parsed = Parsed(expr: Expr, rest: seq<Token>) | Failed

  predicate Consumes(r: Parsed, input: seq<Token>) {
    r.Parsed? ==> |r.rest| < |input|
  }

  function Parse(input: seq<Token>, min: nat): (r: Parsed)
    ensures Consumes(r, input)
    decreases |input|, 4
  {
    var p := Primary(input, min);
    if p.Failed? then Failed
    else
      var a := Postfixes(p.expr, p.rest, min);
      if a.Failed? then Failed
      else
        var b := Infixes(a.expr, a.rest, min);
        if b.Failed? then Failed else Postfixes(b.expr, b.rest, min)
  }

  /** A prefix operator with its operand, or an atom. */
  function Primary(input: seq<Token>, min: nat): (r: Parsed)
    ensures Consumes(r, input)
    decreases |input|, 3
  {
    if input != [] && PrefixOf(input[0]).Some? && PrefixPrecedence(PrefixOf(input[0]).value) >= min then
      var op := PrefixOf(input[0]).value;
      var rhs := Parse(input[1..], PrefixPrecedence(op));
      if rhs.Failed? then Failed else Parsed(Unary(op, rhs.expr), rhs.rest)
    else Atom(input)
  }

  function Atom(input: seq<Token>): (r: Parsed)
    ensures Consumes(r, input)
    decreases |input|, 2
  {
    if input == [] then Failed
    else
      var rest := input[1..];
      match input[0]
      case Asterisk => Parsed(All, rest)
      case Digits(n) => if n < INTEGER_LIMIT then Parsed(Literal(IntegerLiteral(n)), rest) else Failed
      case Decimal(f) => Parsed(Literal(FloatLiteral(f)), rest)
      case Quoted(s) => Parsed(Literal(StringLiteral(s)), rest)
      case KwTrue => Parsed(Literal(BooleanLiteral(true)), rest)
      case KwFalse => Parsed(Literal(BooleanLiteral(false)), rest)
      case KwInfinity => Parsed(Literal(InfinityLiteral), rest)
      case KwNaN => Parsed(Literal(NaNLiteral), rest)
      case KwNull => Parsed(Literal(NullLiteral), rest)
      case Ident(name) =>
        if rest != [] && rest[0] == OpenParen then Arguments(name, [], rest[1..])
        else if rest != [] && rest[0] == Period then
          if |rest| > 1 && rest[1].Ident? then Parsed(Column(Some(name), rest[1].name), rest[2..]) else Failed
        else Parsed(Column(None, name), rest)
      case OpenParen =>
        var e := Parse(rest, 0);
        if e.Parsed? && e.rest != [] && e.rest[0] == CloseParen then Parsed(e.expr, e.rest[1..]) else Failed
      case _ => Failed
  }

  /** The arguments of a call, after the ones already read, up to the closing parenthesis. */
  function Arguments(name: string, args: seq<Expr>, input: seq<Token>): (r: Parsed)
    ensures r.Parsed? ==> |r.rest| < |input|
    decreases |input|, 5
  {
    if input != [] && input[0] == CloseParen then Parsed(Function(name, args), input[1..])
    else if args != [] && (input == [] || input[0] != Comma) then Failed
    else
      var next := if args != [] then input[1..] else input;
      var e := Parse(next, 0);
      if e.Failed? then Failed else Arguments(name, args + [e.expr], e.rest)
  }

  /** Postfix operators of at least the minimum precedence. */
  function Postfixes(lhs: Expr, input: seq<Token>, min: nat): (r: Parsed)
    ensures r.Parsed? ==> |r.rest| <= |input|
    decreases |input|, 0
  {
    if input == [] then Parsed(lhs, input)
    else if input[0] == KwIs then
      if IS_PRECEDENCE < min then Parsed(lhs, input)
      else
        var negated := |input| > 1 && input[1] == KwNot;
        var rest := if negated then input[2..] else input[1..];
        if rest == [] || (rest[0] != KwNaN && rest[0] != KwNull) then Failed
        else
          var e := Is(lhs, rest[0] == KwNaN);
          Postfixes(if negated then Unary(Not, e) else e, rest[1..], min)
    else if input[0] == Exclamation && FACTORIAL_PRECEDENCE >= min then Postfixes(Factorial(lhs), input[1..], min)
    else Parsed(lhs, input)
  }

  /** Infix operators of at least the minimum precedence, with their right operands. */
  function Infixes(lhs: Expr, input: seq<Token>, min: nat): (r: Parsed)
    ensures r.Parsed? ==> |r.rest| <= |input|
    decreases |input|, 1
  {
    if input != [] && InfixOf(input[0]).Some? && InfixPrecedence(InfixOf(input[0]).value) >= min then
      var op := InfixOf(input[0]).value;
      var rhs := Parse(input[1..], InfixPrecedence(op) + Associativity(op));
      if rhs.Failed? then Failed else Infixes(Binary(op, lhs, rhs.expr), rhs.rest, min)
    else Parsed(lhs, input)
  }

  /** A whole input is one expression. */
  function ParseAll(input: seq<Token>): Option<Expr> {
    var r := Parse(input, 0);
    if r.Parsed? && r.rest == [] then Some(r.expr) else None
  }

  // ---------------------------------------------------------------- printing

  function PrefixToken(p: Prefix): (t: Token)
    ensures PrefixOf(t) == Some(p)
  {
    match p
    case Not => KwNot
    case Negate => Minus
    case Identity => Plus
  }

  function InfixToken(i: Infix): (t: Token)
    ensures InfixOf(t) == Some(i)
  {
    match i
    case Or => KwOr
    case And => KwAnd
    case Equal => EqualSign
    case NotEqual => NotEqualSign
    case Like => KwLike
    case GreaterThan => GreaterSign
    case GreaterThanOrEqual => GreaterOrEqualSign
    case LessThan => LessSign
    case LessThanOrEqual => LessOrEqualSign
    case Add => Plus
    case Subtract => Minus
    case Multiply => Asterisk
    case Divide => Slash
    case Remainder => Percent
    case Exponentiate => Caret
  }

  function LiteralToken(l: Literal): Token {
    match l
    case NullLiteral => KwNull
    case BooleanLiteral(b) => if b then KwTrue else KwFalse
    case IntegerLiteral(n) => Digits(n)
    case FloatLiteral(f) => Decimal(f)
    case InfinityLiteral => KwInfinity
    case NaNLiteral => KwNaN
    case StringLiteral(s) => Quoted(s)
  }

  /** How tightly an expression holds together when printed without parentheses. */
  function Precedence(e: Expr): nat {
    match e
    case Unary(p, _) => PrefixPrecedence(p)
    case Factorial(_) => FACTORIAL_PRECEDENCE
    case Is(_, _) => IS_PRECEDENCE
    case Binary(i, _, _) => InfixPrecedence(i)
    case _ => 11
  }

  /** What the left operand of an operator is printed for. */
  function LeftContext(i: Infix): nat {
    InfixPrecedence(i) + 1 - Associativity(i)
  }

  /** Prints an expression where at least `ctx` is needed, with parentheses if it is less. */
  function Print(e: Expr, ctx: nat): seq<Token>
    decreases e, 1
  {
    if Precedence(e) < ctx then [OpenParen] + Body(e) + [CloseParen] else Body(e)
  }

  function Body(e: Expr): seq<Token>
    decreases e, 0
  {
    match e
    case All => [Asterisk]
    case Column(None, column) => [Ident(column)]
    case Column(Some(table), column) => [Ident(table), Period, Ident(column)]
    case Literal(l) => [LiteralToken(l)]
    case Function(name, args) => [Ident(name), OpenParen] + PrintArgs(args) + [CloseParen]
    case Unary(p, operand) => [PrefixToken(p)] + Print(operand, PrefixPrecedence(p))
    case Factorial(base) => Print(base, 10) + [Exclamation]
    case Is(subject, nan) => Print(subject, 10) + [KwIs, if nan then KwNaN else KwNull]
    case Binary(i, left, right) =>
      Print(left, LeftContext(i)) + [InfixToken(i)]
      + Print(right, InfixPrecedence(i) + Associativity(i))
  }

  function PrintArgs(args: seq<Expr>): seq<Token>
    decreases args, 0
  {
    if args == [] then []
    else if |args| == 1 then Print(args[0], 0)
    else Print(args[0], 0) + [Comma] + PrintArgs(args[1..])
  }

  /** Integers that a token can hold. */
  predicate Printable(e: Expr) {
    match e
    case Literal(IntegerLiteral(n)) => n < INTEGER_LIMIT
    case Function(_, args) => forall i :: 0 <= i < |args| ==> Printable(args[i])
    case Unary(_, operand) => Printable(operand)
    case Factorial(base) => Printable(base)
    case Is(subject, _) => Printable(subject)
    case Binary(_, left, right) => Printable(left) && Printable(right)
    case _ => true
  }

  // ---------------------------------------------------------------- the parser inverts the printer

  /** What follows cannot be taken as part of an expression parsed at this level. */
  predicate Inert(tail: seq<Token>, level: nat) {
    tail != [] ==>
      && (InfixOf(tail[0]).Some? ==> InfixPrecedence(InfixOf(tail[0]).value) < level)
      && (tail[0] == Exclamation ==> FACTORIAL_PRECEDENCE < level)
      && (tail[0] == KwIs ==> IS_PRECEDENCE < level)
      && tail[0] != OpenParen && tail[0] != Period
  }

  lemma InertHigher(tail: seq<Token>, level: nat, level': nat)
    requires Inert(tail, level) && level <= level'
    ensures Inert(tail, level')
  {
  }

  lemma InertStops(lhs: Expr, tail: seq<Token>, level: nat)
    requires Inert(tail, level)
    ensures Postfixes(lhs, tail, level) == Parsed(lhs, tail) && Infixes(lhs, tail, level) == Parsed(lhs, tail)
  {
  }

  /** No postfix operator of this level follows. */
  predicate NoPostfix(tail: seq<Token>, level: nat) {
    tail == [] || ((tail[0] == Exclamation ==> FACTORIAL_PRECEDENCE < level) &&
        (tail[0] == KwIs ==> IS_PRECEDENCE < level))
  }

  lemma NoPostfixStops(lhs: Expr, tail: seq<Token>, level: nat)
    requires NoPostfix(tail, level)
    ensures Postfixes(lhs, tail, level) == Parsed(lhs, tail)
  {
  }

  /** The level at which the rightmost operand of an expression is parsed. */
  function RightLevel(e: Expr): nat {
    match e
    case Unary(p, _) => PrefixPrecedence(p)
    case Binary(i, _, _) => InfixPrecedence(i) + Associativity(i)
    case _ => 11
  }

  /** Parsing up to the final postfix operators. */
  function Head(input: seq<Token>, min: nat): Parsed {
    var p := Primary(input, min);
    if p.Failed? then Failed
    else
      var a := Postfixes(p.expr, p.rest, min);
      if a.Failed? then Failed else Infixes(a.expr, a.rest, min)
  }

  lemma ParseIsHead(input: seq<Token>, min: nat)
    ensures Parse(input, min) == var b := Head(input, min); if b.Failed? then Failed else Postfixes(b.expr, b.rest, min)
  {
  }

  lemma HeadFrom(input: seq<Token>, min: nat, e: Expr, tail: seq<Token>)
    requires Primary(input, min) == Parsed(e, tail) && NoPostfix(tail, min)
    ensures Head(input, min) == Infixes(e, tail, min)
  {
    NoPostfixStops(e, tail, min);
  }

  // ---------------------------------------------------------------- first tokens

  predicate IsAtom(e: Expr) {
    e.All? || e.Column? || e.Literal? || e.Function?
  }

  lemma {:induction false} FirstToken(e: Expr)
    ensures Body(e) != [] && Body(e)[0] != CloseParen
    ensures IsAtom(e) ==> PrefixOf(Body(e)[0]).None?
  {
    match e
    case Factorial(base) => FirstToken(base);
    case Is(subject, _) => FirstToken(subject);
    case Binary(i, left, _) => FirstToken(left);
    case _ =>
  }

  lemma PrintFirst(e: Expr, ctx: nat)
    ensures Print(e, ctx) != [] && Print(e, ctx)[0] != CloseParen
  {
    FirstToken(e);
  }

  // ---------------------------------------------------------------- the round trip

  /** Parsing what was printed for a level, at that level, gives it back and stops there. */
  lemma {:induction false} ParsePrinted(e: Expr, m: nat, tail: seq<Token>)
    requires Printable(e) && Inert(tail, m)
    ensures Parse(Print(e, m) + tail, m) == Parsed(e, tail)
    decreases e, 3, if Precedence(e) < m then 1 else 0
  {
    var input := Print(e, m) + tail;
    InertStops(e, tail, m);
    ParseIsHead(input, m);
    if Precedence(e) < m {
      ParenPrinted(e, m, tail);
      hide *;
      InertNoPostfix(tail, m);
      HeadFrom(input, m, e, tail);
    } else {
      RightLevels(e);
      InertHigher(tail, m, RightLevel(e));
      InertNoPostfix(tail, m);
      BodyPrinted(e, m, tail);
    }
  }

  lemma InertNoPostfix(tail: seq<Token>, m: nat)
    requires Inert(tail, m)
    ensures NoPostfix(tail, m)
  {
  }

  lemma RightLevels(e: Expr)
    ensures Precedence(e) <= RightLevel(e)
  {
  }

  /** A parenthesized expression is an atom. */
  lemma {:induction false} ParenPrinted(e: Expr, m: nat, tail: seq<Token>)
    requires Printable(e)
    ensures Primary([OpenParen] + Body(e) + [CloseParen] + tail, m) == Parsed(e, tail)
    decreases e, 3, 1, 0
  {
    hide *;
    var input := [OpenParen] + Body(e) + [CloseParen] + tail;
    var rest := [CloseParen] + tail;
    PrintAtZero(e);
    CloseInert(tail);
    ParsePrinted(e, 0, rest);
    assert input[1..] == Print(e, 0) + rest;
    ParenRule(input, m, e, tail);
  }

  lemma PrintAtZero(e: Expr)
    ensures Print(e, 0) == Body(e) && !(Precedence(e) < 0)
  {
  }

  lemma CloseInert(tail: seq<Token>)
    ensures Inert([CloseParen] + tail, 0)
  {
  }

  lemma ParenRule(input: seq<Token>, m: nat, e: Expr, tail: seq<Token>)
    requires input != [] && input[0] == OpenParen && Parse(input[1..], 0) == Parsed(e, [CloseParen] + tail)
    ensures Primary(input, m) == Parsed(e, tail)
  {
    assert ([CloseParen] + tail)[1..] == tail;
  }

  /** A body is parsed up to the operators that follow it. */
  lemma {:induction false} BodyPrinted(e: Expr, m: nat, tail: seq<Token>)
    requires Printable(e) && Precedence(e) >= m && Inert(tail, RightLevel(e)) && NoPostfix(tail, m)
    ensures Head(Body(e) + tail, m) == Infixes(e, tail, m)
    decreases e, 2
  {
    match e
    case Binary(i, left, right) => BinaryPrinted(i, left, right, m, tail);
    case Factorial(base) => FactorialPrinted(base, m, tail);
    case Is(subject, nan) => IsPrinted(subject, nan, m, tail);
    case Unary(p, operand) =>
      UnaryPrinted(p, operand, m, tail);
      HeadFrom(Body(e) + tail, m, e, tail);
    case _ =>
      AtomPrinted(e, tail);
      AtomPrimary(e, m, tail);
      HeadFrom(Body(e) + tail, m, e, tail);
  }

  lemma AtomPrimary(e: Expr, m: nat, tail: seq<Token>)
    requires IsAtom(e)
    ensures Primary(Body(e) + tail, m) == Atom(Body(e) + tail)
  {
    FirstToken(e);
    assert (Body(e) + tail)[0] == Body(e)[0];
  }

  lemma {:induction false} UnaryPrinted(p: Prefix, operand: Expr, m: nat, tail: seq<Token>)
    requires Printable(operand) && PrefixPrecedence(p) >= m && Inert(tail, PrefixPrecedence(p))
    ensures Primary(Body(Unary(p, operand)) + tail, m) == Parsed(Unary(p, operand), tail)
    decreases operand, 4
  {
    hide *;
    var input := Body(Unary(p, operand)) + tail;
    BodyOfUnary(p, operand);
    ParsePrinted(operand, PrefixPrecedence(p), tail);
    assert input[1..] == Print(operand, PrefixPrecedence(p)) + tail;
    UnaryRule(input, m, p, operand, tail);
  }

  lemma BodyOfUnary(p: Prefix, operand: Expr)
    ensures Body(Unary(p, operand)) == [PrefixToken(p)] + Print(operand, PrefixPrecedence(p))
  {
  }

  lemma UnaryRule(input: seq<Token>, m: nat, p: Prefix, operand: Expr, tail: seq<Token>)
    requires input != [] && input[0] == PrefixToken(p) && PrefixPrecedence(p) >= m
    requires Parse(input[1..], PrefixPrecedence(p)) == Parsed(operand, tail)
    ensures Primary(input, m) == Parsed(Unary(p, operand), tail)
  {
  }

  /** What is printed at the tightest operator level is a prefix operation or an atom. */
  lemma {:induction false} PrimaryPrinted(e: Expr, m: nat, tail: seq<Token>)
    requires Printable(e) && m <= 10 && Inert(tail, 10)
    ensures Primary(Print(e, 10) + tail, m) == Parsed(e, tail)
    decreases e, 4
  {
    if Precedence(e) < 10 {
      ParenPrinted(e, m, tail);
    } else if e.Unary? {
      UnaryPrinted(e.prefix, e.operand, m, tail);
    } else {
      AtomPrinted(e, tail);
      AtomPrimary(e, m, tail);
    }
  }

  lemma {:induction false} FactorialPrinted(base: Expr, m: nat, tail: seq<Token>)
    requires Printable(base) && m <= FACTORIAL_PRECEDENCE && NoPostfix(tail, m)
    ensures Head(Body(Factorial(base)) + tail, m) == Infixes(Factorial(base), tail, m)
    decreases base, 5
  {
    hide *;
    var rest := [Exclamation] + tail;
    BodyOfFactorial(base);
    PostfixInert(rest);
    PrimaryPrinted(base, m, rest);
    NoPostfixStops(Factorial(base), tail, m);
    FactorialRule(base, m, tail);
    assert Body(Factorial(base)) + tail == Print(base, 10) + rest;
    PostfixRule(Body(Factorial(base)) + tail, m, base, rest, Factorial(base), tail);
  }

  lemma FactorialRule(base: Expr, m: nat, tail: seq<Token>)
    requires m <= FACTORIAL_PRECEDENCE
    ensures Postfixes(base, [Exclamation] + tail, m) == Postfixes(Factorial(base), tail, m)
  {
    assert ([Exclamation] + tail)[1..] == tail;
  }

  lemma {:induction false} IsPrinted(subject: Expr, nan: bool, m: nat, tail: seq<Token>)
    requires Printable(subject) && m <= IS_PRECEDENCE && NoPostfix(tail, m)
    ensures Head(Body(Is(subject, nan)) + tail, m) == Infixes(Is(subject, nan), tail, m)
    decreases subject, 5
  {
    hide *;
    var word := if nan then KwNaN else KwNull;
    var rest := [KwIs, word] + tail;
    BodyOfIs(subject, nan);
    PostfixInert(rest);
    PrimaryPrinted(subject, m, rest);
    NoPostfixStops(Is(subject, nan), tail, m);
    IsRule(subject, nan, m, tail);
    assert Body(Is(subject, nan)) + tail == Print(subject, 10) + rest;
    PostfixRule(Body(Is(subject, nan)) + tail, m, subject, rest, Is(subject, nan), tail);
  }

  lemma BodyOfIs(subject: Expr, nan: bool)
    ensures Body(Is(subject, nan)) == Print(subject, 10) + [KwIs, if nan then KwNaN else KwNull]
  {
  }

  lemma BodyOfFactorial(base: Expr)
    ensures Body(Factorial(base)) == Print(base, 10) + [Exclamation]
  {
  }

  lemma PostfixInert(rest: seq<Token>)
    requires rest != [] && (rest[0] == KwIs || rest[0] == Exclamation)
    ensures Inert(rest, 10)
  {
  }

  lemma IsRule(subject: Expr, nan: bool, m: nat, tail: seq<Token>)
    requires m <= IS_PRECEDENCE
    ensures Postfixes(subject, [KwIs, if nan then KwNaN else KwNull] + tail, m) == Postfixes(Is(subject, nan), tail, m)
  {
    var word := if nan then KwNaN else KwNull;
    var rest := [KwIs, word] + tail;
    assert rest[1..] == [word] + tail && rest[1..][1..] == tail;
  }

  lemma PostfixRule(input: seq<Token>, m: nat, e: Expr, rest: seq<Token>, e': Expr, tail: seq<Token>)
    requires Primary(input, m) == Parsed(e, rest) && Postfixes(e, rest, m) == Parsed(e', tail)
    ensures Head(input, m) == Infixes(e', tail, m)
  {
  }

  lemma {:induction false} BinaryPrinted(i: Infix, left: Expr, right: Expr, m: nat, tail: seq<Token>)
    requires Printable(left) && Printable(right) && InfixPrecedence(i) >= m
    requires Inert(tail, InfixPrecedence(i) + Associativity(i))
    ensures Head(Body(Binary(i, left, right)) + tail, m) == Infixes(Binary(i, left, right), tail, m)
    decreases Binary(i, left, right), 1
  {
    hide *;
    var lc, rc := LeftContext(i), InfixPrecedence(i) + Associativity(i);
    var more := Print(right, rc) + tail;
    var rest := [InfixToken(i)] + more;
    BodyOfBinary(i, left, right);
    assert Body(Binary(i, left, right)) + tail == Print(left, lc) + rest;
    LeftPrinted(i, left, m, rest);
    ParsePrinted(right, rc, tail);
    assert rest[1..] == more;
    InfixRule(i, left, rest, m, right, tail);
  }

  lemma BodyOfBinary(i: Infix, left: Expr, right: Expr)
    ensures Body(Binary(i, left, right))
         == Print(left, LeftContext(i)) + [InfixToken(i)] + Print(right, InfixPrecedence(i) + Associativity(i))
  {
  }

  lemma InfixRule(i: Infix, lhs: Expr, input: seq<Token>, m: nat, rhs: Expr, tail: seq<Token>)
    requires input != [] && input[0] == InfixToken(i) && InfixPrecedence(i) >= m
    requires Parse(input[1..], InfixPrecedence(i) + Associativity(i)) == Parsed(rhs, tail)
    ensures Infixes(lhs, input, m) == Infixes(Binary(i, lhs, rhs), tail, m)
  {
  }

  /** The left operand leaves its operator to be applied to it. */
  lemma {:induction false} LeftPrinted(i: Infix, left: Expr, m: nat, rest: seq<Token>)
    requires Printable(left) && InfixPrecedence(i) >= m && rest != [] && rest[0] == InfixToken(i)
    ensures Head(Print(left, LeftContext(i)) + rest, m) == Infixes(left, rest, m)
    decreases left, 5
  {
    var lc := LeftContext(i);
    OperatorNext(i, rest, m);
    if Precedence(left) < lc {
      ParenPrinted(left, m, rest);
      HeadFrom(Print(left, lc) + rest, m, left, rest);
    } else {
      LeftLevel(i, left, rest);
      BodyPrinted(left, m, rest);
    }
  }

  lemma OperatorNext(i: Infix, rest: seq<Token>, m: nat)
    requires rest != [] && rest[0] == InfixToken(i)
    ensures NoPostfix(rest, m)
  {
  }

  /** An operator cannot be taken into the right end of its left operand. */
  lemma LeftLevel(i: Infix, left: Expr, rest: seq<Token>)
    requires rest != [] && rest[0] == InfixToken(i) && Precedence(left) >= LeftContext(i)
    ensures Inert(rest, RightLevel(left))
  {
  }

  lemma {:induction false} AtomPrinted(e: Expr, tail: seq<Token>)
    requires Printable(e) && IsAtom(e) && Ends(tail)
    ensures Atom(Body(e) + tail) == Parsed(e, tail)
    decreases e, 1
  {
    if e.Function? {
      CallPrinted(e.name, e.args, tail);
    } else {
      LeafPrinted(e, tail);
    }
  }

  /** A name before this is a whole name, not a call or a table. */
  predicate Ends(tail: seq<Token>) {
    tail == [] || (tail[0] != OpenParen && tail[0] != Period)
  }

  lemma LeafPrinted(e: Expr, tail: seq<Token>)
    requires Printable(e) && IsAtom(e) && !e.Function? && Ends(tail)
    ensures Atom(Body(e) + tail) == Parsed(e, tail)
  {
    match e
    case Column(Some(table), column) => QualifiedRule(table, column, tail);
    case Column(None, column) => NameRule(column, tail);
    case Literal(l) => LiteralRule(l, tail);
    case All => assert ([Asterisk] + tail)[1..] == tail;
  }

  lemma QualifiedRule(table: string, column: string, tail: seq<Token>)
    ensures Atom([Ident(table), Period, Ident(column)] + tail) == Parsed(Column(Some(table), column), tail)
  {
    hide Parse, Postfixes, Infixes, Primary, Arguments;
    var input := [Ident(table), Period, Ident(column)] + tail;
    assert input[1..] == [Period, Ident(column)] + tail && input[1..][2..] == tail;
  }

  lemma NameRule(column: string, tail: seq<Token>)
    requires Ends(tail)
    ensures Atom([Ident(column)] + tail) == Parsed(Column(None, column), tail)
  {
    hide Parse, Postfixes, Infixes, Primary, Arguments;
    assert ([Ident(column)] + tail)[1..] == tail;
  }

  lemma LiteralRule(l: Literal, tail: seq<Token>)
    requires Printable(Literal(l))
    ensures Atom([LiteralToken(l)] + tail) == Parsed(Literal(l), tail)
  {
    hide Parse, Postfixes, Infixes, Primary, Arguments;
    assert ([LiteralToken(l)] + tail)[1..] == tail;
  }

  lemma {:induction false} CallPrinted(name: string, args: seq<Expr>, tail: seq<Token>)
    requires forall i :: 0 <= i < |args| ==> Printable(args[i])
    ensures Atom(Body(Function(name, args)) + tail) == Parsed(Function(name, args), tail)
    decreases args, 1
  {
    hide *;
    ArgumentsPrinted(name, [], args, tail);
    BodyOfCall(name, args);
    assert Body(Function(name, args)) + tail == [Ident(name), OpenParen] + (RestOfArgs([], args) + tail);
    assert [] + args == args;
    CallRule(name, RestOfArgs([], args) + tail);
  }

  lemma BodyOfCall(name: string, args: seq<Expr>)
    ensures Body(Function(name, args)) == [Ident(name), OpenParen] + RestOfArgs([], args)
  {
  }

  lemma CallRule(name: string, rest: seq<Token>)
    ensures Atom([Ident(name), OpenParen] + rest) == Arguments(name, [], rest)
  {
    var input := [Ident(name), OpenParen] + rest;
    hide Postfixes, Infixes, Primary, Arguments;
    assert input[1..] == [OpenParen] + rest && input[1..][1..] == rest;
  }

  /** The text of the remaining arguments. */
  function RestOfArgs(done: seq<Expr>, args: seq<Expr>): seq<Token> {
    (if done != [] && args != [] then [Comma] else []) + PrintArgs(args) + [CloseParen]
  }

  lemma {:induction false} ArgumentsPrinted(name: string, done: seq<Expr>, args: seq<Expr>, tail: seq<Token>)
    requires forall i :: 0 <= i < |args| ==> Printable(args[i])
    ensures Arguments(name, done, RestOfArgs(done, args) + tail) == Parsed(Function(name, done + args), tail)
    decreases args, 0
  {
    hide *;
    if args == [] {
      NoArguments(name, done, tail);
      assert done + args == done;
    } else {
      var input := RestOfArgs(done, args) + tail;
      var e, more := args[0], RestOfArgs(done + [args[0]], args[1..]) + tail;
      FirstArg(done, args, tail);
      MoreInert(done + [e], args[1..], tail);
      PrintFirst(e, 0);
      ParsePrinted(e, 0, more);
      ArgumentsPrinted(name, done + [e], args[1..], tail);
      assert (done + [e]) + args[1..] == done + args;
      ArgumentRule(name, done, input, e, more);
    }
  }

  lemma NoArguments(name: string, done: seq<Expr>, tail: seq<Token>)
    ensures Arguments(name, done, RestOfArgs(done, []) + tail) == Parsed(Function(name, done), tail)
  {
    hide Parse;
    assert RestOfArgs(done, []) + tail == [CloseParen] + tail;
    assert ([CloseParen] + tail)[1..] == tail;
  }

  lemma FirstArg(done: seq<Expr>, args: seq<Expr>, tail: seq<Token>)
    requires args != []
    ensures RestOfArgs(done, args) + tail
         == (if done != [] then [Comma] else []) +
             (Print(args[0], 0) + (RestOfArgs(done + [args[0]], args[1..]) + tail))
  {
    var printed := PrintArgs(args);
    var more := RestOfArgs(done + [args[0]], args[1..]);
    assert printed + [CloseParen] == Print(args[0], 0) + more by {
      if |args| > 1 {
        assert more == [Comma] + PrintArgs(args[1..]) + [CloseParen];
      } else {
        assert more == [CloseParen];
      }
    }
    hide *;
  }

  lemma MoreInert(done: seq<Expr>, args: seq<Expr>, tail: seq<Token>)
    requires done != []
    ensures Inert(RestOfArgs(done, args) + tail, 0)
  {
  }

  lemma ArgumentRule(name: string, done: seq<Expr>, input: seq<Token>, e: Expr, more: seq<Token>)
    requires Print(e, 0) != [] && Print(e, 0)[0] != CloseParen && Parse(Print(e, 0) + more, 0) == Parsed(e, more)
    requires input == (if done != [] then [Comma] else []) + (Print(e, 0) + more)
    ensures Arguments(name, done, input) == Arguments(name, done + [e], more)
  {
    var next := Print(e, 0) + more;
    hide Parse, Print;
    assert done != [] ==> input[1..] == next;
    assert done == [] ==> input == next;
  }

  /** The parser inverts the printer: the printed tokens of an expression are consumed whole
      and give that expression. */
  lemma ParserInvertsPrinter(e: Expr)
    requires Printable(e)
    ensures ParseAll(Print(e, 0)) == Some(e)
  {
    ParsePrinted(e, 0, []);
    assert Print(e, 0) + [] == Print(e, 0);
  }

  /** So different expressions print differently. */
  lemma PrinterInjective(a: Expr, b: Expr)
    requires Printable(a) && Printable(b) && Print(a, 0) == Print(b, 0)
    ensures a == b
  {
    ParserInvertsPrinter(a);
    ParserInvertsPrinter(b);
  }

  // ---------------------------------------------------------------- normal forms

  /** A parse, if there is one, gives a printable expression. */
  predicate GivesPrintable(r: Parsed) {
    r.Parsed? ==> Printable(r.expr)
  }

  lemma {:induction false} ParsesPrintable(input: seq<Token>, min: nat)
    ensures GivesPrintable(Parse(input, min))
    decreases |input|, 4
  {
    var p := Primary(input, min);
    PrimaryPrintable(input, min);
    if p.Parsed? {
      PostfixesPrintable(p.expr, p.rest, min);
      var a := Postfixes(p.expr, p.rest, min);
      if a.Parsed? {
        InfixesPrintable(a.expr, a.rest, min);
        var b := Infixes(a.expr, a.rest, min);
        if b.Parsed? { PostfixesPrintable(b.expr, b.rest, min); }
      }
    }
  }

  lemma {:induction false} PrimaryPrintable(input: seq<Token>, min: nat)
    ensures GivesPrintable(Primary(input, min))
    decreases |input|, 3
  {
    hide Parse, Atom;
    if input != [] && PrefixOf(input[0]).Some? && PrefixPrecedence(PrefixOf(input[0]).value) >= min {
      ParsesPrintable(input[1..], PrefixPrecedence(PrefixOf(input[0]).value));
    } else {
      AtomPrintable(input);
    }
  }

  lemma {:induction false} AtomPrintable(input: seq<Token>)
    ensures GivesPrintable(Atom(input))
    decreases |input|, 2
  {
    hide Parse, Arguments;
    if input != [] {
      if input[0] == OpenParen { ParsesPrintable(input[1..], 0); }
      if input[0].Ident? && |input| > 1 && input[1] == OpenParen {
        ArgumentsPrintable(input[0].name, [], input[1..][1..]);
      }
    }
  }

  lemma {:induction false} ArgumentsPrintable(name: string, args: seq<Expr>, input: seq<Token>)
    requires forall i :: 0 <= i < |args| ==> Printable(args[i])
    ensures GivesPrintable(Arguments(name, args, input))
    decreases |input|, 5
  {
    hide Parse;
    if !(input != [] && input[0] == CloseParen) && !(args != [] && (input == [] || input[0] != Comma)) {
      var next := if args != [] then input[1..] else input;
      ParsesPrintable(next, 0);
      var e := Parse(next, 0);
      if e.Parsed? { ArgumentsPrintable(name, args + [e.expr], e.rest); }
    }
  }

  lemma {:induction false} PostfixesPrintable(lhs: Expr, input: seq<Token>, min: nat)
    requires Printable(lhs)
    ensures GivesPrintable(Postfixes(lhs, input, min))
    decreases |input|, 0
  {
    if input != [] && input[0] == KwIs && IS_PRECEDENCE >= min {
      var negated := |input| > 1 && input[1] == KwNot;
      var rest := if negated then input[2..] else input[1..];
      if rest != [] && (rest[0] == KwNaN || rest[0] == KwNull) {
        var e := Is(lhs, rest[0] == KwNaN);
        PostfixesPrintable(if negated then Unary(Not, e) else e, rest[1..], min);
      }
    } else if input != [] && input[0] == Exclamation && FACTORIAL_PRECEDENCE >= min {
      PostfixesPrintable(Factorial(lhs), input[1..], min);
    }
  }

  lemma {:induction false} InfixesPrintable(lhs: Expr, input: seq<Token>, min: nat)
    requires Printable(lhs)
    ensures GivesPrintable(Infixes(lhs, input, min))
    decreases |input|, 1
  {
    hide Parse;
    if input != [] && InfixOf(input[0]).Some? && InfixPrecedence(InfixOf(input[0]).value) >= min {
      var op := InfixOf(input[0]).value;
      var level := InfixPrecedence(op) + Associativity(op);
      ParsesPrintable(input[1..], level);
      var rhs := Parse(input[1..], level);
      if rhs.Parsed? { InfixesPrintable(Binary(op, lhs, rhs.expr), rhs.rest, min); }
    }
  }

  /** Every input that parses has a normal form, which parses to the same expression: printing
      what was parsed loses nothing, and printing it again changes nothing. */
  lemma Normalizes(input: seq<Token>)
    requires ParseAll(input).Some?
    ensures Printable(ParseAll(input).value)
    ensures ParseAll(Print(ParseAll(input).value, 0)) == ParseAll(input)
  {
    ParsesPrintable(input, 0);
    hide Parse, Print;
    ParserInvertsPrinter(ParseAll(input).value);
  }

  // ---------------------------------------------------------------- grouping

  /** Of two operators in a row the tighter one comes first; of two equally tight ones the
      left one, unless they are right-associative. */
  lemma GroupsByPrecedence(i: Infix, j: Infix, x: string, y: string, z: string)
    ensures var a, b, c := Column(None, x), Column(None, y), Column(None, z);
            var tighter := InfixPrecedence(i) > InfixPrecedence(j)
              || (InfixPrecedence(i) == InfixPrecedence(j) && !i.Exponentiate?);
            ParseAll([Ident(x), InfixToken(i), Ident(y), InfixToken(j), Ident(z)])
            == Some(if tighter then Binary(j, Binary(i, a, b), c) else Binary(i, a, Binary(j, b, c)))
  {
    var a, b, c := Column(None, x), Column(None, y), Column(None, z);
    var e := if InfixPrecedence(i) >= LeftContext(j) then Binary(j, Binary(i, a, b), c)
             else Binary(i, a, Binary(j, b, c));
    PrintsThree(i, j, x, y, z);
    hide Print, Parse;
    ParserInvertsPrinter(e);
  }

  /** Exponentiation groups to the right and binds tighter than multiplication, which binds
      tighter than subtraction, which groups to the left. */
  lemma DocumentedGrouping(x: string, y: string, z: string)
    ensures var a, b, c := Column(None, x), Column(None, y), Column(None, z);
            && ParseAll([Ident(x), Caret, Ident(y), Caret, Ident(z)])
               == Some(Binary(Exponentiate, a, Binary(Exponentiate, b, c)))
            && ParseAll([Ident(x), Caret, Ident(y), Asterisk, Ident(z)])
               == Some(Binary(Multiply, Binary(Exponentiate, a, b), c))
            && ParseAll([Ident(x), Minus, Ident(y), Asterisk, Ident(z)])
               == Some(Binary(Subtract, a, Binary(Multiply, b, c)))
            && ParseAll([Ident(x), Minus, Ident(y), Minus, Ident(z)])
               == Some(Binary(Subtract, Binary(Subtract, a, b), c))
  {
    hide ParseAll;
    GroupsByPrecedence(Exponentiate, Exponentiate, x, y, z);
    GroupsByPrecedence(Exponentiate, Multiply, x, y, z);
    GroupsByPrecedence(Subtract, Multiply, x, y, z);
    GroupsByPrecedence(Subtract, Subtract, x, y, z);
  }

  lemma PrintsThree(i: Infix, j: Infix, x: string, y: string, z: string)
    ensures var a, b, c := Column(None, x), Column(None, y), Column(None, z);
            var tokens := [Ident(x), InfixToken(i), Ident(y), InfixToken(j), Ident(z)];
            if InfixPrecedence(i) >= LeftContext(j) then Print(Binary(j, Binary(i, a, b), c), 0) == tokens
            else Print(Binary(i, a, Binary(j, b, c)), 0) == tokens
  {
    var a, b, c := Column(None, x), Column(None, y), Column(None, z);
    BodyOfBinary(i, a, b);
    BodyOfBinary(j, b, c);
    BodyOfBinary(j, Binary(i, a, b), c);
    BodyOfBinary(i, a, Binary(j, b, c));
    hide InfixToken;
  }

  // ---------------------------------------------------------------- the parser in place

  datatype Postfix = FactorialOp | IsOp(nan: bool) | IsNotOp(nan: bool)

  function Apply(op: Postfix, lhs: Expr): Expr {
    match op
    case FactorialOp => Factorial(lhs)
    case IsOp(nan) => Is(lhs, nan)
    case IsNotOp(nan) => Unary(Not, Is(lhs, nan))
  }

  /** What a parse should give is what it gave. */
  predicate Gave(expected: Parsed, r: Option<Expr>, rest: seq<Token>) {
    match expected
    case Failed => r.None?
    case Parsed(e, tail) => r == Some(e) && rest == tail
  }

  /** Consumes a stream of tokens. */
  class Parser {
    var tokens: seq<Token>

    constructor (tokens: seq<Token>)
      ensures this.tokens == tokens
    {
      this.tokens := tokens;
    }

    /** Consumes the next token if it is this one. */
    method NextIs(token: Token) returns (found: bool)
      modifies this
      ensures found == (old(tokens) != [] && old(tokens)[0] == token)
      ensures tokens == if found then old(tokens)[1..] else old(tokens)
    {
      found := tokens != [] && tokens[0] == token;
      if found { tokens := tokens[1..]; }
    }

    method ParseExpressionAt(min: nat) returns (r: Option<Expr>)
      modifies this
      ensures Gave(Parse(old(tokens), min), r, tokens)
      decreases |tokens|, 4
    {
      hide Primary, Postfixes, Infixes;
      r := ParsePrimaryAt(min);
      if r.None? { return; }
      r := ParsePostfixesAt(r.value, min);
      if r.None? { return; }
      r := ParseInfixesAt(r.value, min);
      if r.None? { return; }
      r := ParsePostfixesAt(r.value, min);
    }

    method ParsePrimaryAt(min: nat) returns (r: Option<Expr>)
      modifies this
      ensures Gave(Primary(old(tokens), min), r, tokens)
      decreases |tokens|, 3
    {
      hide Parse, Atom;
      if tokens != [] && PrefixOf(tokens[0]).Some? && PrefixPrecedence(PrefixOf(tokens[0]).value) >= min {
        var op := PrefixOf(tokens[0]).value;
        tokens := tokens[1..];
        r := ParseExpressionAt(PrefixPrecedence(op));
        if r.Some? { r := Some(Unary(op, r.value)); }
      } else {
        r := ParseAtom();
      }
    }

    method ParseAtom() returns (r: Option<Expr>)
      modifies this
      ensures Gave(Atom(old(tokens)), r, tokens)
      decreases |tokens|, 2
    {
      hide Parse, Arguments;
      if tokens == [] { return None; }
      var token := tokens[0];
      tokens := tokens[1..];
      match token
      case Asterisk => r := Some(All);
      case Digits(n) => r := if n < INTEGER_LIMIT then Some(Literal(IntegerLiteral(n))) else None;
      case Decimal(f) => r := Some(Literal(FloatLiteral(f)));
      case Quoted(text) => r := Some(Literal(StringLiteral(text)));
      case KwTrue => r := Some(Literal(BooleanLiteral(true)));
      case KwFalse => r := Some(Literal(BooleanLiteral(false)));
      case KwInfinity => r := Some(Literal(InfinityLiteral));
      case KwNaN => r := Some(Literal(NaNLiteral));
      case KwNull => r := Some(Literal(NullLiteral));
      case Ident(name) => r := ParseName(name);
      case OpenParen => r := ParseParenthesized();
      case _ => r := None;
    }

    /** What follows a name: the arguments of a call, a column of a table, or nothing. */
    method ParseName(name: string) returns (r: Option<Expr>)
      modifies this
      ensures Gave(Atom([Ident(name)] + old(tokens)), r, tokens)
      decreases |tokens|, 6
    {
      hide Parse, Arguments;
      assert ([Ident(name)] + tokens)[1..] == tokens;
      var call := NextIs(OpenParen);
      if call {
        r := ParseArguments(name);
        return;
      }
      var qualified := NextIs(Period);
      if !qualified { return Some(Column(None, name)); }
      if tokens == [] || !tokens[0].Ident? { return None; }
      r := Some(Column(Some(name), tokens[0].name));
      tokens := tokens[1..];
    }

    method ParseParenthesized() returns (r: Option<Expr>)
      modifies this
      ensures Gave(Atom([OpenParen] + old(tokens)), r, tokens)
      decreases |tokens|, 6
    {
      hide Parse;
      assert ([OpenParen] + tokens)[1..] == tokens;
      r := ParseExpressionAt(0);
      if r.None? { return; }
      var closed := NextIs(CloseParen);
      if !closed { r := None; }
    }

    method ParseArguments(name: string) returns (r: Option<Expr>)
      modifies this
      ensures Gave(Arguments(name, [], old(tokens)), r, tokens)
      decreases |tokens|, 5
    {
      hide Parse;
      var args := [];
      var done := NextIs(CloseParen);
      while !done
        invariant |tokens| <= |old(tokens)|
        invariant if done then Arguments(name, [], old(tokens)) == Parsed(Function(name, args), tokens)
                  else Arguments(name, [], old(tokens)) == Arguments(name, args, tokens)
                       && (tokens == [] || tokens[0] != CloseParen)
        decreases !done, |tokens|
      {
        if args != [] {
          var comma := NextIs(Comma);
          if !comma { return None; }
        }
        var arg := ParseExpressionAt(0);
        if arg.None? { return None; }
        args := args + [arg.value];
        done := NextIs(CloseParen);
      }
      return Some(Function(name, args));
    }

    /** Applies postfix operators of at least the minimum precedence. */
    method ParsePostfixesAt(first: Expr, min: nat) returns (r: Option<Expr>)
      modifies this
      ensures Gave(Postfixes(first, old(tokens), min), r, tokens)
      decreases |tokens|, 0
    {
      hide Postfixes;
      var lhs := first;
      while true
        invariant |tokens| <= |old(tokens)| && Postfixes(first, old(tokens), min) == Postfixes(lhs, tokens, min)
        decreases |tokens|
      {
        var ok, op := ParsePostfixOperatorAt(min);
        if !ok { return None; }
        if op.None? { return Some(lhs); }
        lhs := Apply(op.value, lhs);
      }
    }

    /** The next postfix operator of at least the minimum precedence, if any. */
    method ParsePostfixOperatorAt(min: nat) returns (ok: bool, op: Option<Postfix>)
      modifies this
      ensures !ok ==> forall lhs :: Postfixes(lhs, old(tokens), min).Failed?
      ensures ok && op.None? ==>
          tokens == old(tokens) && forall lhs :: Postfixes(lhs, tokens, min) == Parsed(lhs, tokens)
      ensures ok && op.Some? ==>
                && |tokens| < |old(tokens)|
                && forall lhs :: Postfixes(lhs, old(tokens), min) == Postfixes(Apply(op.value, lhs), tokens, min)
    {
      if tokens != [] && tokens[0] == KwIs {
        if IS_PRECEDENCE < min { return true, None; }
        tokens := tokens[1..];
        var negated := NextIs(KwNot);
        if tokens == [] || (tokens[0] != KwNaN && tokens[0] != KwNull) { return false, None; }
        var nan := tokens[0] == KwNaN;
        tokens := tokens[1..];
        return true, Some(if negated then IsNotOp(nan) else IsOp(nan));
      }
      if tokens != [] && tokens[0] == Exclamation && FACTORIAL_PRECEDENCE >= min {
        tokens := tokens[1..];
        return true, Some(FactorialOp);
      }
      return true, None;
    }

    /** Applies infix operators of at least the minimum precedence to their right operands. */
    method ParseInfixesAt(first: Expr, min: nat) returns (r: Option<Expr>)
      modifies this
      ensures Gave(Infixes(first, old(tokens), min), r, tokens)
      decreases |tokens|, 1
    {
      hide Parse;
      var lhs := first;
      while tokens != [] && InfixOf(tokens[0]).Some? && InfixPrecedence(InfixOf(tokens[0]).value) >= min
        invariant |tokens| <= |old(tokens)|
        invariant Infixes(first, old(tokens), min) == Infixes(lhs, tokens, min)
        decreases |tokens|
      {
        var op := InfixOf(tokens[0]).value;
        tokens := tokens[1..];
        var rhs := ParseExpressionAt(InfixPrecedence(op) + Associativity(op));
        if rhs.None? { return None; }
        lhs := Binary(op, lhs, rhs.value);
      }
      return Some(lhs);
    }
  }

  /** Parses a whole input as one expression. */
  method ParseInput(tokens: seq<Token>) returns (r: Option<Expr>)
    ensures r == ParseAll(tokens)
  {
    var parser := new Parser(tokens);
    r := parser.ParseExpressionAt(0);
    if r.Some? && parser.tokens != [] { r := None; }
  }
}
