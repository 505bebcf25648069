/** What a formula evaluates to. Python floats, bumps Parameters, the bumps
    Operator objects that Parameter arithmetic builds, and PDParameters are
    kept symbolically: no floating-point arithmetic is carried out. */
module Values {
  import opened Errors
  import opened Cells

  /** A plain Python number, kept as the arithmetic that produced it. */
  datatype Num = Lit(x: real) | Arith(op: string, a: Num, b: Num)

  /** Name, range and fixed flag that the loader sets on a derived parameter. */
  datatype Label = Unlabelled | Labelled(name: Cell, lo: Bound, hi: Bound, fixed: bool)

  datatype Value =
    | Float(n: Num)                                                     // a Python float
    | Param(name: Cell, value: real, lo: Bound, hi: Bound, fixed: bool) // a bumps Parameter
    | Operator(op: string, left: Value, right: Value, attrs: Label)     // a bumps Operator
    | PD(name: Cell, tag: string)                                       // a PDParameter

  /** The operator symbols, in the order in which they are reduced. */
  const Operators: seq<string> := ["^", "/", "*", "+", "-"]

  /** What ParameterSet.add accepts: a bumps Parameter or Operator. */
  predicate ParameterLike(v: Value) {
    v.Param? || v.Operator?
  }

  function Power(x: real, n: nat): (p: real)
    ensures x != 0.0 ==> p != 0.0
  {
    if n == 0 then 1.0 else x * Power(x, n - 1)
  }

  /** The arithmetic of two Python floats. Division by zero (which raises
      ZeroDivisionError) has no value here; a non-integral power has one
      only when its base is 0.0, where it is 0.0. */
  function Combine(op: string, x: real, y: real): Option<real> {
    if op == "+" then Some(x + y)
    else if op == "-" then Some(x - y)
    else if op == "*" then Some(x * y)
    else if op == "/" then (if y == 0.0 then None else Some(x / y))
    else if op == "^" && y == y.Floor as real then
      (if y >= 0.0 then Some(Power(x, y.Floor))
       else if x == 0.0 then None
       else Some(1.0 / Power(x, -y.Floor)))
    else if op == "^" && x == 0.0 && y > 0.0 then Some(0.0)
    else None
  }

  /** The number a plain-number term stands for. */
  function NumValue(n: Num): Option<real> {
    match n
    case Lit(x) => Some(x)
    case Arith(op, a, b) =>
      match (NumValue(a), NumValue(b))
      case (Some(x), Some(y)) => Combine(op, x, y)
      case _ => None
  }

  /** Python raises ZeroDivisionError for a float divided by zero and for
      0.0 raised to a negative power. Only two plain floats are combined
      eagerly; an expression over a bumps Parameter is only built. */
  predicate ZeroDivides(x1: Value, x2: Value, op: string) {
    && x1.Float? && x2.Float?
    && ((op == "/" && NumValue(x2.n) == Some(0.0))
        || (op == "^" && NumValue(x1.n) == Some(0.0) && NumValue(x2.n).Some? && NumValue(x2.n).value < 0.0))
  }

  /** ParameterSet._perform_single_operation: apply one operator symbol to
      two operands. Two floats give a float; an operand that is a Parameter
      or Operator makes bumps build an Operator over both operands. */
  function Perform(x1: Value, x2: Value, op: string): (r: Result<Value>)
    ensures op !in Operators ==> r == Err(UnknownOperation(op))
    ensures op in Operators && (x1.PD? || x2.PD?) ==> r == Err(TypeError(UnsupportedOperand))
    ensures op in Operators && ZeroDivides(x1, x2, op) ==> r == Err(ZeroDivisionError)
    ensures op in Operators && !x1.PD? && !x2.PD? && !ZeroDivides(x1, x2, op) ==> r.Ok?
    ensures r.Ok? ==> (r.value.Float? <==> x1.Float? && x2.Float?) && !r.value.PD?
    ensures r.Ok? && r.value.Float? ==>
              NumValue(r.value.n) == match (NumValue(x1.n), NumValue(x2.n))
                                     case (Some(x), Some(y)) => Combine(op, x, y)
                                     case _ => None
    ensures r.Ok? && r.value.Float? && op != "^" && NumValue(x1.n).Some? && NumValue(x2.n).Some? ==>
              NumValue(r.value.n).Some?
    ensures r.Ok? && !r.value.Float? ==>
              r.value == Operator(op, x1, x2, Unlabelled)
  {
    if op !in Operators then Err(UnknownOperation(op))
    else if x1.PD? || x2.PD? then Err(TypeError(UnsupportedOperand))
    else if ZeroDivides(x1, x2, op) then Err(ZeroDivisionError)
    else if x1.Float? && x2.Float? then Ok(Float(Arith(op, x1.n, x2.n)))
    else Ok(Operator(op, x1, x2, Unlabelled))
  }

  function NameOf(v: Value): Option<Cell> {
    match v
    case Float(_) => None
    case Param(name, _, _, _, _) => Some(name)
    case Operator(_, _, _, attrs) => if attrs.Labelled? then Some(attrs.name) else None
    case PD(name, _) => Some(name)
  }

  /** Lines 131-133: name a formula's result, give it the range (-inf, inf)
      and fix it. A plain number has no name attribute; a PDParameter has no
      range method. */
  function Rename(v: Value, name: Cell): (r: Result<Value>)
    ensures r.Ok? <==> ParameterLike(v)
    ensures v.Float? ==> r == Err(AttributeError(NumberHasNoName))
    ensures v.PD? ==> r == Err(AttributeError(NoRangeMethod))
    ensures r.Ok? ==> NameOf(r.value) == Some(name)
    ensures r.Ok? && r.value.Param? ==>
              && v.Param? && r.value.value == v.value
              && r.value.lo == NegInf && r.value.hi == PosInf && r.value.fixed
    ensures r.Ok? && r.value.Operator? ==>
              && v.Operator? && r.value.op == v.op && r.value.left == v.left && r.value.right == v.right
              && r.value.attrs.lo == NegInf && r.value.attrs.hi == PosInf && r.value.attrs.fixed
  {
    match v
    case Float(_) => Err(AttributeError(NumberHasNoName))
    case PD(_, _) => Err(AttributeError(NoRangeMethod))
    case Param(_, x, _, _, _) => Ok(Param(name, x, NegInf, PosInf, true))
    case Operator(op, l, r, _) => Ok(Operator(op, l, r, Labelled(name, NegInf, PosInf, true)))
  }
}
