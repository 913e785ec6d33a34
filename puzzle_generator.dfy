/**
 * The puzzle generator: for a tier and two random draws, a question text and
 * its integer answer. The draws of the random number generator are
 * parameters, constrained to the ranges the generator draws from.
 */
module PuzzleGenerator {
  import opened Wrappers
  import opened Levels
  import opened Decimal

  datatype Op = Plus | Minus | Times

  /** An arithmetic question: two operands and an operator. */
  datatype Expr = Expr(lhs: nat, op: Op, rhs: nat)

  datatype Puzzle = Puzzle(question: string, answer: int)

  datatype GeneratorError = InvalidTier(level: string)

  function Symbol(op: Op): char
  {
    match op
    case Plus => '+'
    case Minus => '-'
    case Times => 'x'
  }

  function OpOfSymbol(c: char): (r: Option<Op>)
    ensures r.Some? ==> Symbol(r.value) == c
  {
    if c == '+' then Some(Plus) else if c == '-' then Some(Minus) else if c == 'x' then Some(Times) else None
  }

  /** The value of the question's arithmetic. */
  function Eval(e: Expr): int
  {
    match e.op
    case Plus => e.lhs + e.rhs
    case Minus => e.lhs - e.rhs
    case Times => e.lhs * e.rhs
  }

  const Prefix: string := "What is "

  /** The text "What is {lhs} {op} {rhs}?". */
  function FormatQuestion(e: Expr): string
  {
    Prefix + NatToString(e.lhs) + " " + [Symbol(e.op)] + " " + NatToString(e.rhs) + "?"
  }

  /** Splits `s` at its first space. */
  function SplitAtSpace(s: string): (r: Option<(string, string)>)
    ensures r.None? <==> ' ' !in s
    ensures r.Some? ==> s == r.value.0 + " " + r.value.1 && ' ' !in r.value.0
  {
    if s == [] then None
    else if s[0] == ' ' then Some(([], s[1..]))
    else
      match SplitAtSpace(s[1..])
      case None => None
      case Some((l, rest)) => Some(([s[0]] + l, rest))
  }

  /** Reads "{lhs} {op} {rhs}", the part of a question between its prefix and the question mark. */
  function ParseBody(body: string): Option<Expr>
  {
    match SplitAtSpace(body)
    case None => None
    case Some((left, rest)) =>
      if |rest| < 2 || rest[1] != ' ' then None
      else
        match (OpOfSymbol(rest[0]), ParseNat(left), ParseNat(rest[2..]))
        case (Some(op), Some(a), Some(b)) => Some(Expr(a, op, b))
        case _ => None
  }

  /** Reads a question text back into the arithmetic it asks for. */
  function ParseQuestion(q: string): Option<Expr>
  {
    if |q| < |Prefix| + 1 || q[..|Prefix|] != Prefix || q[|q| - 1] != '?' then None
    else ParseBody(q[|Prefix|..|q| - 1])
  }

  lemma {:induction false} SplitBeforeFirstSpace(x: string, y: string)
    requires ' ' !in x
    ensures SplitAtSpace(x + " " + y) == Some((x, y))
  {
    var s := x + " " + y;
    if x == [] {
      assert s[0] == ' ' && s[1..] == y;
    } else {
      assert x[0] != ' ' && ' ' !in x[1..];
      SplitBeforeFirstSpace(x[1..], y);
      assert s[0] == x[0] && s[1..] == x[1..] + " " + y;
      assert [x[0]] + x[1..] == x;
    }
  }

  /** The question text determines the question: reading it back gives it unchanged. */
  lemma ParseFormatQuestion(e: Expr)
    ensures ParseQuestion(FormatQuestion(e)) == Some(e)
  {
    var body := NatToString(e.lhs) + " " + ([Symbol(e.op)] + " " + NatToString(e.rhs));
    var q := FormatQuestion(e);
    assert q == Prefix + body + "?";
    assert q[..|Prefix|] == Prefix;
    assert q[|Prefix|..|q| - 1] == body;
    ParseBodyOfFormat(e);
  }

  lemma ParseBodyOfFormat(e: Expr)
    ensures ParseBody(NatToString(e.lhs) + " " + ([Symbol(e.op)] + " " + NatToString(e.rhs))) == Some(e)
  {
    var ls, rs := NatToString(e.lhs), NatToString(e.rhs);
    var rest := [Symbol(e.op)] + " " + rs;
    assert ' ' !in ls;
    SplitBeforeFirstSpace(ls, rest);
    assert rest[0] == Symbol(e.op) && rest[1] == ' ' && rest[2..] == rs;
    assert OpOfSymbol(Symbol(e.op)) == Some(e.op);
    ParseNatToString(e.lhs);
    ParseNatToString(e.rhs);
  }

  /** The operator asked about at each tier. */
  function TierOp(t: Tier): Op
  {
    match t
    case Easy => Plus
    case Medium => Minus
    case Hard => Times
  }

  /** The ranges the two operands are drawn from at each tier. */
  predicate DrawsInRange(t: Tier, draw1: int, draw2: int)
  {
    match t
    case Easy => 1 <= draw1 <= 9 && 1 <= draw2 <= 9
    case Medium => 10 <= draw1 <= 50 && 10 <= draw2 <= 50
    case Hard => 11 <= draw1 <= 20 && 2 <= draw2 <= 20
  }

  /** The subtraction operands, larger first; the swap only reorders the pair. */
  function MediumOperands(draw1: int, draw2: int): (r: (int, int))
    ensures r.0 >= r.1
    ensures multiset{r.0, r.1} == multiset{draw1, draw2}
  {
    if draw1 < draw2 then (draw2, draw1) else (draw1, draw2)
  }

  lemma HardAnswerRange(draw1: int, draw2: int)
    requires DrawsInRange(Hard, draw1, draw2)
    ensures 22 <= draw1 * draw2 <= 400
  {
    assert 11 * draw2 <= draw1 * draw2 <= 20 * draw2;
  }

  /** The puzzle for a tier and its two draws. */
  function Generate(t: Tier, draw1: int, draw2: int): (p: Puzzle)
    requires DrawsInRange(t, draw1, draw2)
    ensures t == Easy ==> 2 <= p.answer <= 18
    ensures t == Medium ==> 0 <= p.answer <= 40
    ensures t == Hard ==> 22 <= p.answer <= 400
  {
    match t
    case Easy =>
      Puzzle(FormatQuestion(Expr(draw1, Plus, draw2)), draw1 + draw2)
    case Medium =>
      var (num1, num2) := MediumOperands(draw1, draw2);
      Puzzle(FormatQuestion(Expr(num1, Minus, num2)), num1 - num2)
    case Hard =>
      HardAnswerRange(draw1, draw2);
      Puzzle(FormatQuestion(Expr(draw1, Times, draw2)), draw1 * draw2)
  }

  /**
   * The answer is what the question asks: the question reads back as the
   * tier's operator applied to exactly the two drawn operands (in drawn
   * order, or larger first for subtraction), and evaluates to the answer.
   */
  lemma GeneratedQuestionMatchesAnswer(t: Tier, draw1: int, draw2: int)
    requires DrawsInRange(t, draw1, draw2)
    ensures var p := Generate(t, draw1, draw2); var e := ParseQuestion(p.question);
      && e.Some?
      && Eval(e.value) == p.answer
      && e.value.op == TierOp(t)
      && multiset{e.value.lhs as int, e.value.rhs as int} == multiset{draw1, draw2}
      && (t != Medium ==> e.value.lhs == draw1 && e.value.rhs == draw2)
      && (t == Medium ==> e.value.lhs >= e.value.rhs)
  {
    match t
    case Easy => ParseFormatQuestion(Expr(draw1, Plus, draw2));
    case Medium =>
      var (num1, num2) := MediumOperands(draw1, draw2);
      ParseFormatQuestion(Expr(num1, Minus, num2));
    case Hard => ParseFormatQuestion(Expr(draw1, Times, draw2));
  }

  /** The draw ranges for a level given by its label. */
  predicate LevelDrawsInRange(level: string, draw1: int, draw2: int)
  {
    && (level == "Easy" ==> DrawsInRange(Easy, draw1, draw2))
    && (level == "Medium" ==> DrawsInRange(Medium, draw1, draw2))
    && (level == "Hard" ==> DrawsInRange(Hard, draw1, draw2))
  }

  /**
   * The puzzle for a level given by its label. A label that is none of the
   * three levels matches no branch: an error, never a default puzzle.
   */
  function GeneratePuzzle(level: string, draw1: int, draw2: int): (r: Result<Puzzle, GeneratorError>)
    requires LevelDrawsInRange(level, draw1, draw2)
    ensures r.Failure? <==> level !in DifficultyLevels
    ensures r.Failure? ==> r.error == InvalidTier(level)
    ensures r.Success? ==> ParseTier(level).Some? && r.value == Generate(ParseTier(level).value, draw1, draw2)
  {
    if level == "Easy" then Success(Generate(Easy, draw1, draw2))
    else if level == "Medium" then Success(Generate(Medium, draw1, draw2))
    else if level == "Hard" then Success(Generate(Hard, draw1, draw2))
    else Failure(InvalidTier(level))
  }
}
