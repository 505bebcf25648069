/** Worked cases of bracket-free formulas: how the per-symbol passes of
    ParameterSet._parse_simple_string (fitter/configloader.py:71-86) group
    the operands, including the cases where the mask computed once per
    symbol makes it drop an operand. */
module FormulaCases {
  import opened Errors
  import opened Dicts
  import opened Cells
  import opened Values
  import opened FlatFormula

  function Digit(d: char): real
    requires IsDigit(d)
  {
    (d as int - '0' as int) as real
  }

  /** A one-digit token is a number and is read as its digit. */
  lemma DigitToken(d: char)
    requires IsDigit(d)
    ensures IsNumber([d]) && ParseNumber([d]) == Digit(d)
  {
    assert DotIndex([d]) == 1;
    assert [d][..1] == [d];
    assert DigitsValue([d]) == 10 * DigitsValue([]) + (d as int - '0' as int);
  }

  /** A formula of three one-digit operands splits into them and its two
      signs, and every operand resolves to a float whatever the dict. */
  lemma ThreeDigits(env: Env, a: char, s1: char, b: char, s2: char, c: char)
    requires IsDigit(a) && IsDigit(b) && IsDigit(c)
    requires [s1] in Operators && [s2] in Operators
    ensures StringSplit([a, s1, b, s2, c]) == ([[a], [b], [c]], [[s1], [s2]])
    ensures ResolveAll(env, [[a], [b], [c]]) ==
              Ok([Float(Lit(Digit(a))), Float(Lit(Digit(b))), Float(Lit(Digit(c)))])
  {
    var tokens := [[a], [b], [c]];
    var signs := [[s1], [s2]];
    assert tokens[1..] == [[b], [c]] && signs[1..] == [[s2]];
    assert tokens[1..][1..] == [[c]] && signs[1..][1..] == [];
    assert Join([[c]], []) == [c];
    assert Join([[b], [c]], [[s2]]) == [b, s2, c];
    assert Join(tokens, signs) == [a, s1, b, s2, c];
    forall k | 0 <= k < 3 ensures OperatorFree(tokens[k]) {
      assert |tokens[k]| == 1 && IsDigit(tokens[k][0]);
    }
    SplitJoin(tokens, [[s1], [s2]]);
    DigitToken(a);
    DigitToken(b);
    DigitToken(c);
    var va, vb, vc := Float(Lit(Digit(a))), Float(Lit(Digit(b))), Float(Lit(Digit(c)));
    assert FindPar(env, [a]) == Ok(va) && FindPar(env, [b]) == Ok(vb) && FindPar(env, [c]) == Ok(vc);
    assert [[a]][..0] == [];
    assert ResolveAll(env, []) == Ok([]);
    assert [] + [va] == [va];
    assert ResolveAll(env, [[a]]) == Ok([va]);
    assert [[a], [b]][..1] == [[a]];
    assert [va] + [vb] == [va, vb];
    assert ResolveAll(env, [[a], [b]]) == Ok([va] + [vb]);
    assert tokens[..2] == [[a], [b]];
    assert [va, vb] + [vc] == [va, vb, vc];
    assert ResolveAll(env, tokens) == Ok([va, vb] + [vc]);
  }

  /** A token starting with a letter is a name, never a number. */
  lemma NameToken(t: string)
    requires t != [] && !IsDigit(t[0]) && t[0] != '.'
    ensures !IsNumber(t)
  {
    var k := DotIndex(t);
    if k > 0 {
      assert t[..k][0] == t[0];
    }
  }

  lemma {:induction false} PassesNoSigns(g: Flat, j: nat)
    requires g.Valid() && g.signs == []
    ensures Passes(g, j) == Ok(g)
    decreases |Operators| - j
  {
    if j < |Operators| {
      assert Mask(g.signs, Operators[j]) == [];
      PassesNoSigns(g, j + 1);
    }
  }

  lemma PassOwnSign(x: Value, y: Value, op: string)
    ensures var r := Perform(x, y, op);
            Pass(Flat([x, y], [op]), op) == if r.Err? then Err(r.error) else Ok(Flat([r.value], []))
  {
    var f := Flat([x, y], [op]);
    var mask := Mask(f.signs, op);
    assert mask == [true];
    var r := Perform(x, y, op);
    if r.Ok? {
      var g := Flat([r.value], []);
      assert ReduceAt(f, 0, r.value) == g;
      assert Sweep(g, mask, 1) == Ok(g);
    }
  }

  lemma PassOtherSign(x: Value, y: Value, op: string, other: string)
    requires other != op
    ensures Pass(Flat([x, y], [op]), other) == Ok(Flat([x, y], [op]))
  {
    assert Mask([op], other) == [false];
  }

  lemma {:induction false} PassesOneSign(x: Value, y: Value, op: string, j: nat)
    requires j <= |Operators| && op in Operators[j..]
    ensures var r := Perform(x, y, op);
            Passes(Flat([x, y], [op]), j) == if r.Err? then Err(r.error) else Ok(Flat([r.value], []))
    decreases |Operators| - j
  {
    var f := Flat([x, y], [op]);
    if Operators[j] == op {
      PassOwnSign(x, y, op);
      var r := Perform(x, y, op);
      if r.Ok? {
        PassesNoSigns(Flat([r.value], []), j + 1);
      }
    } else {
      PassOtherSign(x, y, op, Operators[j]);
      assert Operators[j..] == [Operators[j]] + Operators[j + 1..];
      PassesOneSign(x, y, op, j + 1);
    }
  }

  /** A formula with a single operator applies it to the two operands,
      once both resolve. */
  lemma SingleOperation(env: Env, a: string, op: string, b: string)
    requires OperatorFree(a) && OperatorFree(b) && op in Operators
    requires FindPar(env, a).Ok? && FindPar(env, b).Ok?
    ensures FlatEval(env, a + op + b) == Perform(FindPar(env, a).value, FindPar(env, b).value, op)
  {
    var tokens := [a, b];
    assert tokens[1..] == [b];
    assert Join([b], []) == b;
    assert Join(tokens, [op]) == a + op + b;
    SplitJoin(tokens, [op]);
    var x, y := FindPar(env, a).value, FindPar(env, b).value;
    assert [a][..0] == [] && tokens[..1] == [a];
    assert [] + [x] == [x];
    assert ResolveAll(env, [a]) == Ok([x]);
    assert tokens[|tokens| - 1] == b;
    assert ResolveAll(env, tokens) == Ok([x] + [y]);
    assert [x] + [y] == [x, y];
    assert Operators[0..] == Operators;
    PassesOneSign(x, y, op, 0);
    assert FlatEval(env, a + op + b) == Evaluate(env, tokens, [op]);
  }

  function F(x: real): Value {
    Float(Lit(x))
  }

  /** A formula of three one-digit operands: the passes of both
      evaluation orders run over its three numbers and two signs. */
  lemma ThreeDigitEval(env: Env, a: char, s1: char, b: char, s2: char, c: char)
    requires IsDigit(a) && IsDigit(b) && IsDigit(c)
    requires [s1] in Operators && [s2] in Operators
    ensures var f := Flat([F(Digit(a)), F(Digit(b)), F(Digit(c))], [[s1], [s2]]);
            && FlatEval(env, [a, s1, b, s2, c]) ==
                 (match Passes(f, 0) case Err(e) => Err(e) case Ok(g) => Ok(g.operands[0]))
            && TieredEval(env, [a, s1, b, s2, c]) ==
                 (match TieredPasses(f, 0) case Err(e) => Err(e) case Ok(g) => Ok(g.operands[0]))
  {
    ThreeDigits(env, a, s1, b, s2, c);
  }

  /** The value of a literal combined with a term of known value. */
  lemma ArithValue(op: string, x: real, b: Num, y: real)
    requires op in ["+", "-", "*"] && NumValue(b) == Some(y)
    ensures NumValue(Arith(op, Lit(x), b)) == Some(if op == "+" then x + y else if op == "-" then x - y else x * y)
  {
  }

  /** 1/0: two plain floats divided by zero raise ZeroDivisionError, while
      a bumps Parameter divided by zero only builds an Operator. */
  lemma DivisionByZero(env: Env, t: string, u: string)
    requires t == "1/0" && u == "p/0"
    requires Str("p") in env.m && env.m[Str("p")].Param?
    ensures FlatEval(env, t) == Err(ZeroDivisionError)
    ensures FlatEval(env, u) == Ok(Operator("/", env.m[Str("p")], F(0.0), Unlabelled))
  {
    DigitToken('1');
    DigitToken('0');
    NameToken("p");
    assert t == "1" + "/" + "0" && u == "p" + "/" + "0";
    SingleOperation(env, "1", "/", "0");
    SingleOperation(env, "p", "/", "0");
    assert ZeroDivides(F(1.0), F(0.0), "/");
  }

  /** 1/0^0.5: zero raised to a positive fractional power is 0.0, so
      dividing by it raises ZeroDivisionError as well. */
  lemma DivisionByZeroRoot()
    ensures NumValue(Arith("^", Lit(0.0), Lit(0.5))) == Some(0.0)
    ensures Perform(F(1.0), Float(Arith("^", Lit(0.0), Lit(0.5))), "/") == Err(ZeroDivisionError)
  {
  }

  /** 2+3*4: the product is formed first, so the value is 14. */
  lemma ProductBeforeSum(env: Env, t: string)
    requires t == "2+3*4"
    ensures FlatEval(env, t) == Ok(Float(Arith("+", Lit(2.0), Arith("*", Lit(3.0), Lit(4.0)))))
    ensures NumValue(FlatEval(env, t).value.n) == Some(14.0)
  {
    assert t == [t[0], t[1], t[2], t[3], t[4]];
    ThreeDigitEval(env, t[0], t[1], t[2], t[3], t[4]);
    ProductBeforeSumPasses();
    ArithValue("*", 3.0, Lit(4.0), 4.0);
    ArithValue("+", 2.0, Arith("*", Lit(3.0), Lit(4.0)), 12.0);
  }

  lemma ProductBeforeSumPasses()
    ensures Passes(Flat([F(2.0), F(3.0), F(4.0)], ["+", "*"]), 0) ==
              Ok(Flat([Float(Arith("+", Lit(2.0), Arith("*", Lit(3.0), Lit(4.0))))], []))
  {
    var f := Flat([F(2.0), F(3.0), F(4.0)], ["+", "*"]);
    assert Pass(f, "^") == Ok(f);
    assert Pass(f, "/") == Ok(f);
    var m := Mask(f.signs, "*");
    assert m == [false, true];
    var g := Flat([F(2.0), Float(Arith("*", Lit(3.0), Lit(4.0)))], ["+"]);
    assert ReduceAt(f, 1, g.operands[1]) == g;
    assert Sweep(f, m, 0) == Ok(g);
    var h := Flat([Float(Arith("+", Lit(2.0), Arith("*", Lit(3.0), Lit(4.0))))], []);
    assert ReduceAt(g, 0, h.operands[0]) == h;
    assert Pass(g, "+") == Ok(h);
    assert Pass(h, "-") == Ok(h);
    assert Passes(f, 0) == Ok(h);
  }

  /** 2+3^2: the power is formed first, so the value is 11. */
  lemma PowerBeforeSum(env: Env, t: string)
    requires t == "2+3^2"
    ensures FlatEval(env, t) == Ok(Float(Arith("+", Lit(2.0), Arith("^", Lit(3.0), Lit(2.0)))))
    ensures NumValue(FlatEval(env, t).value.n) == Some(11.0)
  {
    assert t == [t[0], t[1], t[2], t[3], t[4]];
    ThreeDigitEval(env, t[0], t[1], t[2], t[3], t[4]);
    PowerBeforeSumPasses();
    PowerValue();
    ArithValue("+", 2.0, Arith("^", Lit(3.0), Lit(2.0)), 9.0);
  }

  /** 3^2 with an integral exponent is 9. */
  lemma PowerValue()
    ensures NumValue(Arith("^", Lit(3.0), Lit(2.0))) == Some(9.0)
  {
    assert 2.0.Floor == 2;
    assert Power(3.0, 2) == 9.0;
  }

  lemma PowerBeforeSumPasses()
    ensures Passes(Flat([F(2.0), F(3.0), F(2.0)], ["+", "^"]), 0) ==
              Ok(Flat([Float(Arith("+", Lit(2.0), Arith("^", Lit(3.0), Lit(2.0))))], []))
  {
    var f := Flat([F(2.0), F(3.0), F(2.0)], ["+", "^"]);
    var g := Flat([F(2.0), Float(Arith("^", Lit(3.0), Lit(2.0)))], ["+"]);
    PowerPass();
    assert Pass(g, "/") == Ok(g);
    assert Pass(g, "*") == Ok(g);
    var h := Flat([Float(Arith("+", Lit(2.0), Arith("^", Lit(3.0), Lit(2.0))))], []);
    assert Perform(g.operands[0], g.operands[1], "+") == Ok(h.operands[0]);
    assert ReduceAt(g, 0, h.operands[0]) == h;
    assert Pass(g, "+") == Ok(h);
    assert Pass(h, "-") == Ok(h);
    assert Passes(f, 0) == Ok(h);
  }

  lemma PowerPass()
    ensures Pass(Flat([F(2.0), F(3.0), F(2.0)], ["+", "^"]), "^") ==
              Ok(Flat([F(2.0), Float(Arith("^", Lit(3.0), Lit(2.0)))], ["+"]))
  {
    var f := Flat([F(2.0), F(3.0), F(2.0)], ["+", "^"]);
    var m := Mask(f.signs, "^");
    assert m == [false, true];
    var g := Flat([F(2.0), Float(Arith("^", Lit(3.0), Lit(2.0)))], ["+"]);
    assert Perform(f.operands[1], f.operands[2], "^") == Ok(g.operands[1]);
    assert ReduceAt(f, 1, g.operands[1]) == g;
    assert Sweep(f, m, 0) == Ok(g);
  }

  /** 1+2+3: both plus signs are marked, but after the first reduction the
      sign list has shrunk to one entry and the loop stops, so the third
      operand is dropped and the value is 3, where the sum is 6. */
  lemma RepeatedSignDropsOperand(env: Env, t: string)
    requires t == "1+2+3"
    ensures FlatEval(env, t) == Ok(Float(Arith("+", Lit(1.0), Lit(2.0))))
    ensures NumValue(FlatEval(env, t).value.n) == Some(3.0)
    ensures TieredEval(env, t) == Ok(Float(Arith("+", Arith("+", Lit(1.0), Lit(2.0)), Lit(3.0))))
    ensures NumValue(TieredEval(env, t).value.n) == Some(6.0)
  {
    assert t == [t[0], t[1], t[2], t[3], t[4]];
    ThreeDigitEval(env, t[0], t[1], t[2], t[3], t[4]);
    RepeatedSignPasses();
    RepeatedSignTiered();
    ArithValue("+", 1.0, Lit(2.0), 2.0);
  }

  lemma RepeatedSignPasses()
    ensures Passes(Flat([F(1.0), F(2.0), F(3.0)], ["+", "+"]), 0) ==
              Ok(Flat([Float(Arith("+", Lit(1.0), Lit(2.0))), F(3.0)], ["+"]))
  {
    var f := Flat([F(1.0), F(2.0), F(3.0)], ["+", "+"]);
    assert Pass(f, "^") == Ok(f);
    assert Pass(f, "/") == Ok(f);
    assert Pass(f, "*") == Ok(f);
    var m := Mask(f.signs, "+");
    assert m == [true, true];
    var g := Flat([Float(Arith("+", Lit(1.0), Lit(2.0))), F(3.0)], ["+"]);
    assert ReduceAt(f, 0, g.operands[0]) == g;
    assert Sweep(g, m, 1) == Ok(g);
    assert Sweep(f, m, 0) == Ok(g);
    assert Pass(g, "-") == Ok(g);
    assert Passes(f, 0) == Ok(g);
  }

  lemma RepeatedSignTiered()
    ensures TieredPasses(Flat([F(1.0), F(2.0), F(3.0)], ["+", "+"]), 0) ==
              Ok(Flat([Float(Arith("+", Arith("+", Lit(1.0), Lit(2.0)), Lit(3.0)))], []))
  {
    var f := Flat([F(1.0), F(2.0), F(3.0)], ["+", "+"]);
    var h := Flat([Float(Arith("+", Arith("+", Lit(1.0), Lit(2.0)), Lit(3.0)))], []);
    RepeatedSignReduceEvery();
    assert ReduceEvery(f, "^") == Ok(f) && ReduceEvery(f, "/") == Ok(f) && ReduceEvery(f, "*") == Ok(f);
    assert ReduceEvery(h, "-") == Ok(h);
    assert TieredPasses(h, 4) == Ok(h);
    assert TieredPasses(f, 3) == Ok(h);
    assert TieredPasses(f, 2) == Ok(h);
    assert TieredPasses(f, 1) == Ok(h);
  }

  /** Reducing every plus sign of 1+2+3, leftmost first. */
  lemma RepeatedSignReduceEvery()
    ensures ReduceEvery(Flat([F(1.0), F(2.0), F(3.0)], ["+", "+"]), "+") ==
              Ok(Flat([Float(Arith("+", Arith("+", Lit(1.0), Lit(2.0)), Lit(3.0)))], []))
  {
    RepeatedSignFirstPlus();
    RepeatedSignSecondPlus();
  }

  lemma RepeatedSignFirstPlus()
    ensures ReduceEvery(Flat([F(1.0), F(2.0), F(3.0)], ["+", "+"]), "+") ==
              ReduceEvery(Flat([Float(Arith("+", Lit(1.0), Lit(2.0))), F(3.0)], ["+"]), "+")
  {
    var f := Flat([F(1.0), F(2.0), F(3.0)], ["+", "+"]);
    var g := Flat([Float(Arith("+", Lit(1.0), Lit(2.0))), F(3.0)], ["+"]);
    assert "+" in f.signs && FirstIndex(f.signs, "+") == 0;
    assert Perform(f.operands[0], f.operands[1], "+") == Ok(g.operands[0]);
    assert ReduceAt(f, 0, g.operands[0]) == g;
  }

  lemma RepeatedSignSecondPlus()
    ensures ReduceEvery(Flat([Float(Arith("+", Lit(1.0), Lit(2.0))), F(3.0)], ["+"]), "+") ==
              Ok(Flat([Float(Arith("+", Arith("+", Lit(1.0), Lit(2.0)), Lit(3.0)))], []))
  {
    var g := Flat([Float(Arith("+", Lit(1.0), Lit(2.0))), F(3.0)], ["+"]);
    var h := Flat([Float(Arith("+", Arith("+", Lit(1.0), Lit(2.0)), Lit(3.0)))], []);
    assert "+" in g.signs && FirstIndex(g.signs, "+") == 0;
    assert Perform(g.operands[0], g.operands[1], "+") == Ok(h.operands[0]);
    assert ReduceAt(g, 0, h.operands[0]) == h;
  }

  /** 1-2+3: every plus sign is reduced before any minus sign, so this is
      1-(2+3) = -4, not (1-2)+3 = 2. */
  lemma SumBeforeDifference(env: Env, t: string)
    requires t == "1-2+3"
    ensures FlatEval(env, t) == Ok(Float(Arith("-", Lit(1.0), Arith("+", Lit(2.0), Lit(3.0)))))
    ensures NumValue(FlatEval(env, t).value.n) == Some(-4.0)
  {
    assert t == [t[0], t[1], t[2], t[3], t[4]];
    ThreeDigitEval(env, t[0], t[1], t[2], t[3], t[4]);
    SumBeforeDifferencePasses();
    ArithValue("+", 2.0, Lit(3.0), 3.0);
    ArithValue("-", 1.0, Arith("+", Lit(2.0), Lit(3.0)), 5.0);
  }

  lemma SumBeforeDifferencePasses()
    ensures Passes(Flat([F(1.0), F(2.0), F(3.0)], ["-", "+"]), 0) ==
              Ok(Flat([Float(Arith("-", Lit(1.0), Arith("+", Lit(2.0), Lit(3.0))))], []))
  {
    var f := Flat([F(1.0), F(2.0), F(3.0)], ["-", "+"]);
    assert Pass(f, "^") == Ok(f);
    assert Pass(f, "/") == Ok(f);
    assert Pass(f, "*") == Ok(f);
    var m := Mask(f.signs, "+");
    assert m == [false, true];
    var g := Flat([F(1.0), Float(Arith("+", Lit(2.0), Lit(3.0)))], ["-"]);
    assert ReduceAt(f, 1, g.operands[1]) == g;
    assert Sweep(f, m, 0) == Ok(g);
    var h := Flat([Float(Arith("-", Lit(1.0), Arith("+", Lit(2.0), Lit(3.0))))], []);
    assert ReduceAt(g, 0, h.operands[0]) == h;
    assert Pass(g, "-") == Ok(h);
    assert Passes(f, 0) == Ok(h);
  }

  /** A formula of four one-digit operands splits into them and its three
      signs, and every operand resolves to a float whatever the dict. */
  lemma FourDigits(env: Env, a: char, s1: char, b: char, s2: char, c: char, s3: char, d: char)
    requires IsDigit(a) && IsDigit(b) && IsDigit(c) && IsDigit(d)
    requires [s1] in Operators && [s2] in Operators && [s3] in Operators
    ensures StringSplit([a, s1, b, s2, c, s3, d]) == ([[a], [b], [c], [d]], [[s1], [s2], [s3]])
    ensures ResolveAll(env, [[a], [b], [c], [d]]) ==
              Ok([Float(Lit(Digit(a))), Float(Lit(Digit(b))), Float(Lit(Digit(c))), Float(Lit(Digit(d)))])
  {
    var tokens := [[a], [b], [c], [d]];
    var signs := [[s1], [s2], [s3]];
    FourDigitsSplit(a, s1, b, s2, c, s3, d);
    ThreeDigits(env, a, s1, b, s2, c);
    DigitToken(d);
    var vd := Float(Lit(Digit(d)));
    assert FindPar(env, [d]) == Ok(vd);
    assert tokens[..3] == [[a], [b], [c]];
    assert [Float(Lit(Digit(a))), Float(Lit(Digit(b))), Float(Lit(Digit(c)))] + [vd] ==
           [Float(Lit(Digit(a))), Float(Lit(Digit(b))), Float(Lit(Digit(c))), vd];
  }

  lemma FourDigitsSplit(a: char, s1: char, b: char, s2: char, c: char, s3: char, d: char)
    requires IsDigit(a) && IsDigit(b) && IsDigit(c) && IsDigit(d)
    requires [s1] in Operators && [s2] in Operators && [s3] in Operators
    ensures StringSplit([a, s1, b, s2, c, s3, d]) == ([[a], [b], [c], [d]], [[s1], [s2], [s3]])
  {
    var tokens := [[a], [b], [c], [d]];
    var signs := [[s1], [s2], [s3]];
    assert tokens[1..] == [[b], [c], [d]] && signs[1..] == [[s2], [s3]];
    assert tokens[1..][1..] == [[c], [d]] && signs[1..][1..] == [[s3]];
    assert tokens[1..][1..][1..] == [[d]] && signs[1..][1..][1..] == [];
    assert Join([[d]], []) == [d];
    assert Join([[c], [d]], [[s3]]) == [c, s3, d];
    assert Join([[b], [c], [d]], [[s2], [s3]]) == [b, s2, c, s3, d];
    assert Join(tokens, signs) == [a, s1, b, s2, c, s3, d];
    forall k | 0 <= k < 4 ensures OperatorFree(tokens[k]) {
      assert |tokens[k]| == 1 && IsDigit(tokens[k][0]);
    }
    forall k | 0 <= k < 3 ensures signs[k] in Operators {
    }
    SplitJoin(tokens, signs);
  }

  /** 1*2+3*4: the mask for * marks positions 0 and 2, but after the first
      product the sign list has two entries and the loop stops, so the
      second product is never formed; + then reduces 1*2 and 3, and the
      operand 4 is dropped: the value is 5, where the arithmetic gives 14. */
  lemma StaleMaskSkipsProduct(env: Env, t: string)
    requires t == "1*2+3*4"
    ensures FlatEval(env, t) == Ok(Float(Arith("+", Arith("*", Lit(1.0), Lit(2.0)), Lit(3.0))))
    ensures NumValue(FlatEval(env, t).value.n) == Some(5.0)
  {
    assert t == [t[0], t[1], t[2], t[3], t[4], t[5], t[6]];
    FourDigits(env, t[0], t[1], t[2], t[3], t[4], t[5], t[6]);
    var split := StringSplit(t);
    assert FlatEval(env, t) == Evaluate(env, split.0, split.1);
    StaleMaskPasses();
    ArithValue("*", 1.0, Lit(2.0), 2.0);
    ArithValue("+", 3.0, Lit(2.0), 2.0);
  }

  lemma StaleMaskPasses()
    ensures Passes(Flat([F(1.0), F(2.0), F(3.0), F(4.0)], ["*", "+", "*"]), 0) ==
              Ok(Flat([Float(Arith("+", Arith("*", Lit(1.0), Lit(2.0)), Lit(3.0))), F(4.0)], ["*"]))
  {
    var f := Flat([F(1.0), F(2.0), F(3.0), F(4.0)], ["*", "+", "*"]);
    var g := Flat([Float(Arith("*", Lit(1.0), Lit(2.0))), F(3.0), F(4.0)], ["+", "*"]);
    assert Pass(f, "^") == Ok(f);
    assert Pass(f, "/") == Ok(f);
    StaleMaskProductPass();
    StaleMaskLastPasses();
    assert Passes(f, 2) == Passes(g, 3);
  }

  lemma StaleMaskLastPasses()
    ensures Passes(Flat([Float(Arith("*", Lit(1.0), Lit(2.0))), F(3.0), F(4.0)], ["+", "*"]), 3) ==
              Ok(Flat([Float(Arith("+", Arith("*", Lit(1.0), Lit(2.0)), Lit(3.0))), F(4.0)], ["*"]))
  {
    var g := Flat([Float(Arith("*", Lit(1.0), Lit(2.0))), F(3.0), F(4.0)], ["+", "*"]);
    var h := Flat([Float(Arith("+", Arith("*", Lit(1.0), Lit(2.0)), Lit(3.0))), F(4.0)], ["*"]);
    StaleMaskSumPass();
    assert Pass(h, "-") == Ok(h);
    assert Passes(h, 5) == Ok(h);
  }

  lemma StaleMaskProductPass()
    ensures Pass(Flat([F(1.0), F(2.0), F(3.0), F(4.0)], ["*", "+", "*"]), "*") ==
              Ok(Flat([Float(Arith("*", Lit(1.0), Lit(2.0))), F(3.0), F(4.0)], ["+", "*"]))
  {
    var f := Flat([F(1.0), F(2.0), F(3.0), F(4.0)], ["*", "+", "*"]);
    var g := Flat([Float(Arith("*", Lit(1.0), Lit(2.0))), F(3.0), F(4.0)], ["+", "*"]);
    var m := Mask(f.signs, "*");
    assert m == [true, false, true];
    assert Perform(f.operands[0], f.operands[1], "*") == Ok(g.operands[0]);
    assert ReduceAt(f, 0, g.operands[0]) == g;
    assert Sweep(g, m, 2) == Ok(g);
    assert Sweep(g, m, 1) == Ok(g);
    assert Sweep(f, m, 0) == Ok(g);
  }

  lemma StaleMaskSumPass()
    ensures Pass(Flat([Float(Arith("*", Lit(1.0), Lit(2.0))), F(3.0), F(4.0)], ["+", "*"]), "+") ==
              Ok(Flat([Float(Arith("+", Arith("*", Lit(1.0), Lit(2.0)), Lit(3.0))), F(4.0)], ["*"]))
  {
    var g := Flat([Float(Arith("*", Lit(1.0), Lit(2.0))), F(3.0), F(4.0)], ["+", "*"]);
    var h := Flat([Float(Arith("+", Arith("*", Lit(1.0), Lit(2.0)), Lit(3.0))), F(4.0)], ["*"]);
    var m := Mask(g.signs, "+");
    assert m == [true, false];
    assert Perform(g.operands[0], g.operands[1], "+") == Ok(h.operands[0]);
    assert ReduceAt(g, 0, h.operands[0]) == h;
    assert Sweep(h, m, 1) == Ok(h);
    assert Sweep(g, m, 0) == Ok(h);
  }
}
