/** Worked cases of building parameter sets: a Global set holding a
    parameter A, and dataset rows whose formulas read it
    (fitter/configloader.py:89-157). The formula texts are parameters
    pinned by a precondition, so that the verifier evaluates them step by
    step as the proofs direct. */
module ParameterSetCases {
  import opened Errors
  import opened Dicts
  import opened Cells
  import opened Values
  import opened FlatFormula
  import opened Brackets
  import opened ParameterSets
  import opened FormulaCases

  /** A numeric row of a parentless set stores a Parameter with its value,
      bounds and fixed flag. */
  lemma GlobalNumericRow(row: seq<Cell>)
    requires row == [Str("A"), Num(5.0), Num(0.0), Num(10.0), Num(1.0)]
    ensures NewParameter(Frames(Empty(), None), row) ==
              Built(Frames(Put(Empty(), Str("A"), Param(Str("A"), 5.0, Fin(0.0), Fin(10.0), true)), None), None)
  {
  }

  /** name*2 for a name that holds a Parameter or an Operator. */
  lemma TimesTwo(env: Env, name: string, t: string)
    requires name != [] && ('A' <= name[0] <= 'Z' || 'a' <= name[0] <= 'z') && OperatorFree(name) && t == name + "*2"
    requires Str(name) in env.m && ParameterLike(env.m[Str(name)])
    ensures FlatEval(env, t) == Ok(Operator("*", env.m[Str(name)], Float(Lit(2.0)), Unlabelled))
  {
    assert !IsDigit(name[0]) && name[0] != '.';
    NameToken(name);
    DigitToken('2');
    assert t == name + "*" + "2";
    SingleOperation(env, name, "*", "2");
  }

  /** A dataset row B = A*2 is the Operator A*2, named B, unbounded and
      fixed, and the Global set is unchanged. */
  lemma DatasetFormulaRow(g: Env, t: string)
    requires g.Valid() && Str("A") in g.m && ParameterLike(g.m[Str("A")])
    requires t == "A*2"
    ensures NewParameter(Frames(Empty(), Some(g)), [Str("B"), Str(t)]) ==
              Built(Frames(Put(Empty(), Str("B"), Operator("*", g.m[Str("A")], Float(Lit(2.0)), Labelled(Str("B"), NegInf, PosInf, true))),
                           Some(g)), None)
  {
    assert !HasOpening(t);
    assert !IsDistribution(t) && HasOperator(t) by { assert IsOperatorChar(t[1]); }
    TimesTwo(g, "A", t);
    var v := Operator("*", g.m[Str("A")], Float(Lit(2.0)), Unlabelled);
    assert MathEval(t, g, true) == Evaluated(g, Ok(v));
    var w := Operator("*", g.m[Str("A")], Float(Lit(2.0)), Labelled(Str("B"), NegInf, PosInf, true));
    assert Rename(v, Str("B")) == Ok(w);
    FormulaRowStored(Frames(Empty(), Some(g)), Str("B"), t, g, v, w);
  }

  /** A formula row of a set with a parent whose formula evaluates to v,
      renamed to w, stores w under the row's name and leaves the parent as
      the formula left it. */
  lemma FormulaRowStored(fr: Frames, name: Cell, t: string, e: Env, v: Value, w: Value)
    requires fr.Valid() && fr.parent.Some? && !IsDistribution(t) && HasOperator(t)
    requires MathEval(t, fr.Scope(), true) == Evaluated(e, Ok(v)) && Rename(v, name) == Ok(w)
    ensures NewParameter(fr, [name, Str(t)]) == Built(Frames(Put(fr.own, name, w), Some(e)), None)
  {
  }

  /** name+1 for a name that holds a Parameter or an Operator. */
  lemma PlusOne(env: Env, name: string, t: string)
    requires name != [] && ('A' <= name[0] <= 'Z' || 'a' <= name[0] <= 'z') && OperatorFree(name) && t == name + "+1"
    requires Str(name) in env.m && ParameterLike(env.m[Str(name)])
    ensures FlatEval(env, t) == Ok(Operator("+", env.m[Str(name)], Float(Lit(1.0)), Unlabelled))
  {
    assert !IsDigit(name[0]) && name[0] != '.';
    NameToken(name);
    DigitToken('1');
    assert t == name + "+" + "1";
    SingleOperation(env, name, "+", "1");
  }

  /** The dict once name+1 is stored as temp_par1. */
  function WithTemp(g: Env, name: string): (d: Env)
    requires g.Valid() && Str(name) in g.m
    ensures d.Valid()
  {
    Put(g, Str(TempName(1)), Operator("+", g.m[Str(name)], Float(Lit(1.0)), Unlabelled))
  }

  /** (name+1)*2 stores name+1 in the Global dict as temp_par1 and
      evaluates temp_par1*2. */
  lemma PlusOneTimesTwo(g: Env, name: string, t: string)
    requires name != [] && ('A' <= name[0] <= 'Z' || 'a' <= name[0] <= 'z') && OperatorFree(name) && BracketFree(name)
    requires g.Valid() && Str(name) in g.m && ParameterLike(g.m[Str(name)])
    requires t == "(" + name + "+1)*2"
    ensures MathEval(t, g, true) ==
              Evaluated(WithTemp(g, name), Ok(Operator("*", Operator("+", g.m[Str(name)], Float(Lit(1.0)), Unlabelled),
                                                       Float(Lit(2.0)), Unlabelled)))
  {
    PlusOneBracket(g, name, t);
    var temp := TempName(1);
    TempNameIsPlain(1);
    TimesTwo(WithTemp(g, name), temp, temp + "*2");
  }

  /** The bracket of (name+1)*2 becomes temp_par1, leaving temp_par1*2. */
  lemma PlusOneBracket(g: Env, name: string, t: string)
    requires name != [] && ('A' <= name[0] <= 'Z' || 'a' <= name[0] <= 'z') && OperatorFree(name) && BracketFree(name)
    requires g.Valid() && Str(name) in g.m && ParameterLike(g.m[Str(name)])
    requires t == "(" + name + "+1)*2"
    ensures MathEval(t, g, true) == Evaluated(WithTemp(g, name), FlatEval(WithTemp(g, name), TempName(1) + "*2"))
  {
    var body := name + "+1";
    assert t == "" + ['('] + body + [')'] + "*2";
    assert BracketFree("") && BracketFree("*2");
    assert BracketFree(body) by {
      forall i | 0 <= i < |body| ensures !IsOpening(body[i]) && !IsClosing(body[i]) {
        if i < |name| { assert body[i] == name[i]; }
      }
    }
    PlusOne(g, name, body);
    SingleBracket("", '(', body, ')', "*2", g, true);
    assert "" + TempName(1) + "*2" == TempName(1) + "*2";
  }

  /** A dataset row C = (name+1)*2: the bracket is evaluated first and
      stored in the Global set as temp_par1, and C is temp_par1 times 2,
      unbounded and fixed. */
  lemma DatasetBracketRow(g: Env, name: string, t: string)
    requires name != [] && ('A' <= name[0] <= 'Z' || 'a' <= name[0] <= 'z') && OperatorFree(name) && BracketFree(name)
    requires g.Valid() && Str(name) in g.m && ParameterLike(g.m[Str(name)])
    requires t == "(" + name + "+1)*2"
    ensures NewParameter(Frames(Empty(), Some(g)), [Str("C"), Str(t)]) ==
              Built(Frames(Put(Empty(), Str("C"),
                               Operator("*", Operator("+", g.m[Str(name)], Float(Lit(1.0)), Unlabelled),
                                        Float(Lit(2.0)), Labelled(Str("C"), NegInf, PosInf, true))),
                           Some(WithTemp(g, name))), None)
  {
    PlusOneTimesTwo(g, name, t);
    assert !IsDistribution(t) by { assert t[0] == '('; }
    assert HasOperator(t) by { assert IsOperatorChar(t[|name| + 1]); }
    var fr := Frames(Empty(), Some(g));
    assert fr.Scope() == g;
    var ev := MathEval(t, g, true);
    var sum := Operator("+", g.m[Str(name)], Float(Lit(1.0)), Unlabelled);
    assert ev.result == Ok(Operator("*", sum, Float(Lit(2.0)), Unlabelled));
    var w := Operator("*", sum, Float(Lit(2.0)), Labelled(Str("C"), NegInf, PosInf, true));
    assert Rename(ev.result.value, Str("C")) == Ok(w);
    FormulaRowStored(fr, Str("C"), t, ev.env, ev.result.value, w);
  }

  /** A bracket holding only numbers evaluates to a plain number, which
      add refuses: (2+3)*2 raises TypeError even with a parent, and the
      dict is left as it was. */
  lemma AllNumberBracketRefused(env: Env, t: string)
    requires env.Valid() && t == "(2+3)*2"
    ensures MathEval(t, env, true) == Evaluated(env, Err(TypeError(NotAParameter)))
  {
    assert t == "" + ['('] + "2+3" + [')'] + "*2";
    assert BracketFree("") && BracketFree("2+3") && BracketFree("*2");
    DigitToken('2');
    DigitToken('3');
    assert "2+3" == "2" + "+" + "3";
    SingleOperation(env, "2", "+", "3");
    SingleBracket("", '(', "2+3", ')', "*2", env, true);
  }
}
