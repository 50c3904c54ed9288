// Model of util/operator.rs: the arithmetic and comparison operators.

module Operators {
  import opened Wrappers

  datatype Operation =
    | Addition | Subtraction | Multiplication | Division | Modulo
    | Equals | NotEquals | LessThan | LessThanOrEqual | GreaterThan | GreaterThanOrEqual

  /** Declaration order, which is the order `Operation::iter()` visits. */
  const AllOperations: seq<Operation> :=
    [Addition, Subtraction, Multiplication, Division, Modulo,
     Equals, NotEquals, LessThan, LessThanOrEqual, GreaterThan, GreaterThanOrEqual]

  /** The symbol an operation is written as (`AsRef<str>`): one character,
      or two characters ending in `=`, starting with one of the operator
      characters. */
  function Symbol(op: Operation): (r: string)
    ensures |r| == 1 || (|r| == 2 && r[1] == '=')
    ensures r[0] in "+-*/%=!<>"
  {
    match op
    case Addition => "+"
    case Subtraction => "-"
    case Multiplication => "*"
    case Division => "/"
    case Modulo => "%"
    case Equals => "=="
    case NotEquals => "!="
    case LessThan => "<"
    case LessThanOrEqual => "<="
    case GreaterThan => ">"
    case GreaterThanOrEqual => ">="
  }

  /** `is_boolean`: an operation with a boolean result is a commutative
      comparison, which binds weakest. */
  predicate IsBoolean(op: Operation): (r: bool)
    ensures r ==> IsCommutative(op) && OperationOrder(op) == 0
  {
    op == Equals
  }

  /** `get_operation_order`: the binding strength used by the expression
      parser. Comparisons, whose symbols start with one of `= ! < >`, bind
      weakest. */
  function OperationOrder(op: Operation): (r: nat)
    ensures r <= 2
  {
    match op
    case Addition | Subtraction => 1
    case Multiplication | Division | Modulo => 2
    case _ => 0
  }

  /** `is_commutative`: operands of a commutative operation can be
      swapped. */
  predicate IsCommutative(op: Operation): (r: bool)
    ensures r ==> forall x: int, y: int :: Apply(op, x, y) == Apply(op, y, x)
  {
    op in {Addition, Equals, Multiplication, NotEquals}
  }

  /** The error cases of `get_identity`. */
  datatype IdentityError = NotCommutative | NotSpecified

  datatype IdentityResult = Identity(value: int) | IdentityFailed(error: IdentityError)

  /** `get_identity`: refused for every non-commutative operation, 0 for
      addition, 1 for multiplication, and refused for the commutative
      comparisons. */
  function GetIdentity(op: Operation): (r: IdentityResult)
    ensures r.Identity? ==> IsCommutative(op)
    ensures r.Identity? ==> forall x: int :: Apply(op, x, r.value) == Some(x) && Apply(op, r.value, x) == Some(x)
  {
    if !IsCommutative(op) then IdentityFailed(NotCommutative)
    else match op
      case Addition => Identity(0)
      case Multiplication => Identity(1)
      case _ => IdentityFailed(NotSpecified)
  }

  /** The first operation, in declaration order, whose symbol is `text`: the
      lookup the tokenizer performs on operator text. */
  function FromSymbol(text: string): (r: Option<Operation>)
    ensures r.Some? ==> Symbol(r.value) == text
    ensures r.None? ==> forall op :: Symbol(op) != text
  {
    FromSymbolIn(AllOperations, text)
  }

  function FromSymbolIn(ops: seq<Operation>, text: string): (r: Option<Operation>)
    ensures r.Some? ==> r.value in ops && Symbol(r.value) == text
    ensures r.None? ==> forall op :: op in ops ==> Symbol(op) != text
  {
    if ops == [] then None
    else if Symbol(ops[0]) == text then Some(ops[0])
    else FromSymbolIn(ops[1..], text)
  }

  /** Integer division and remainder as Rust computes them on `i64`:
      truncating toward zero. */
  function TruncDiv(x: int, y: int): int
    requires y != 0
  {
    var q := (if x < 0 then -x else x) / (if y < 0 then -y else y);
    if (x < 0) == (y < 0) then q else -q
  }

  function TruncRem(x: int, y: int): int
    requires y != 0
  {
    x - y * TruncDiv(x, y)
  }

  /** A reference meaning for each operation on integers, comparisons giving
      1 for true and 0 for false; `None` for a division by zero. It is the
      meaning that `is_commutative` and `get_identity` describe. */
  function Apply(op: Operation, x: int, y: int): Option<int> {
    match op
    case Addition => Some(x + y)
    case Subtraction => Some(x - y)
    case Multiplication => Some(x * y)
    case Division => if y == 0 then None else Some(TruncDiv(x, y))
    case Modulo => if y == 0 then None else Some(TruncRem(x, y))
    case Equals => Some(if x == y then 1 else 0)
    case NotEquals => Some(if x != y then 1 else 0)
    case LessThan => Some(if x < y then 1 else 0)
    case LessThanOrEqual => Some(if x <= y then 1 else 0)
    case GreaterThan => Some(if x > y then 1 else 0)
    case GreaterThanOrEqual => Some(if x >= y then 1 else 0)
  }

  /** Operator symbols are pairwise distinct: looking up an operation's own
      symbol finds that operation. */
  lemma FromSymbolOfSymbol(op: Operation)
    ensures FromSymbol(Symbol(op)) == Some(op)
  {
    var r := FromSymbol(Symbol(op));
    assert r.Some?;
    SymbolInjective(r.value, op);
  }

  /** A symbol's length and first character tell the operations apart. */
  lemma SymbolInjective(a: Operation, b: Operation)
    requires Symbol(a) == Symbol(b)
    ensures a == b
  {
    assert |Symbol(a)| == |Symbol(b)| && Symbol(a)[0] == Symbol(b)[0];
  }

  /** Symbols outside the table, such as the `<<` the lexer lets through, are
      not operations. */
  lemma ShiftIsNotAnOperation()
    ensures FromSymbol("<<") == None
  {
    forall op: Operation ensures Symbol(op) != "<<" {
      assert "<<"[1] == '<';
    }
  }

  /** The precedence table: additive operations bind with 1, multiplicative
      ones with 2, and order 0 is given exactly to the truth-valued
      comparisons, whose symbols start with `=`, `!`, `<` or `>`. */
  lemma OrderLevels(op: Operation)
    ensures OperationOrder(op) <= 2
    ensures OperationOrder(op) == 2 <==> op in {Multiplication, Division, Modulo}
    ensures OperationOrder(op) == 1 <==> op in {Addition, Subtraction}
    ensures OperationOrder(op) == 0 <==> forall x: int, y: int :: Apply(op, x, y) in {Some(0), Some(1)}
    ensures OperationOrder(op) == 0 <==> Symbol(op)[0] in "=!<>"
  {
    if OperationOrder(op) != 0 {
      var x, y := ValueWitness(op);
      assert Apply(op, x, y) !in {Some(0), Some(1)};
    }
  }

  /** Operands on which an arithmetic operation gives neither 0 nor 1. */
  lemma ValueWitness(op: Operation) returns (x: int, y: int)
    requires OperationOrder(op) != 0
    ensures Apply(op, x, y) !in {Some(0), Some(1)}
  {
    match op
    case Addition => x, y := 1, 1;
    case Subtraction => x, y := 0, 2;
    case Multiplication => x, y := 2, 2;
    case Division =>
      x, y := 4, 1;
      assert TruncDiv(4, 1) == 4;
    case Modulo =>
      x, y := 2, 3;
      assert TruncDiv(2, 3) == 0;
  }

  /** `is_commutative` holds exactly for the operations whose operands can be
      swapped without changing the result. */
  lemma CommutativeMeansSwappable(op: Operation)
    ensures IsCommutative(op) <==> forall x: int, y: int :: Apply(op, x, y) == Apply(op, y, x)
  {
    if IsCommutative(op) {
      forall x: int, y: int ensures Apply(op, x, y) == Apply(op, y, x) {
        if op == Multiplication {
          assert x * y == y * x;
        }
      }
    } else {
      var x, y := SwapWitness(op);
      assert Apply(op, x, y) != Apply(op, y, x);
    }
  }

  /** Operands whose order matters for a non-commutative operation. */
  lemma SwapWitness(op: Operation) returns (x: int, y: int)
    requires !IsCommutative(op)
    ensures Apply(op, x, y) != Apply(op, y, x)
  {
    match op
    case Division =>
      x, y := 2, 1;
      assert TruncDiv(2, 1) == 2;
      assert TruncDiv(1, 2) == 0;
    case Modulo =>
      x, y := 2, 1;
      assert TruncDiv(2, 1) == 2;
      assert TruncDiv(1, 2) == 0;
    case _ =>
      x, y := 1, 0;
  }

  /** `get_identity` gives a value exactly for addition (0) and
      multiplication (1); the comparisons `==` and `!=` are commutative but
      refused. */
  lemma IdentityCases(op: Operation)
    ensures GetIdentity(op).Identity? <==> op in {Addition, Multiplication}
    ensures GetIdentity(op) == IdentityFailed(NotSpecified) <==> op in {Equals, NotEquals}
    ensures GetIdentity(op) == IdentityFailed(NotCommutative) <==> !IsCommutative(op)
  {
  }

  /** Only `==` has a boolean result. */
  lemma BooleanOnlyEquals(op: Operation)
    ensures IsBoolean(op) <==> Symbol(op) == "=="
  {
    FromSymbolOfSymbol(op);
    FromSymbolOfSymbol(Equals);
  }
}
