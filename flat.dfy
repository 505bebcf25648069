/** Evaluation of a bracket-free formula: ParameterSet._find_par and
    ParameterSet._parse_simple_string (fitter/configloader.py:65-86),
    with the splitting helper they call. */
module FlatFormula {
  import opened Errors
  import opened Dicts
  import opened Cells
  import opened Values

  /** What a formula's names are looked up in: a ParameterSet's dict. */
  type Env = Dict<Cell, Value>

  predicate IsOperatorChar(c: char) {
    c == '^' || c == '/' || c == '*' || c == '+' || c == '-'
  }

  /** The text that operands separated by signs spell. */
  function Join(operands: seq<string>, signs: seq<string>): string
    requires |operands| == |signs| + 1
  {
    if signs == [] then operands[0] else operands[0] + signs[0] + Join(operands[1..], signs[1..])
  }

  /** Stand-in for helpers.functions.string_split(s, order_operations):
      the operands between operator characters, and those characters, one
      operand more than signs. */
  function StringSplit(s: string): (r: (seq<string>, seq<string>))
    ensures |r.0| == |r.1| + 1
  {
    if s == [] then ([""], [])
    else
      var rest := StringSplit(s[1..]);
      if IsOperatorChar(s[0]) then ([""] + rest.0, [[s[0]]] + rest.1)
      else ([[s[0]] + rest.0[0]] + rest.0[1..], rest.1)
  }

  predicate OperatorFree(t: string) {
    forall i :: 0 <= i < |t| ==> !IsOperatorChar(t[i])
  }

  predicate AllOperators(signs: seq<string>) {
    forall k :: 0 <= k < |signs| ==> signs[k] in Operators
  }

  predicate AllOperatorFree(operands: seq<string>) {
    forall k :: 0 <= k < |operands| ==> OperatorFree(operands[k])
  }

  /** Every sign of a split is an operator symbol, no operand holds an
      operator character, and together they spell the text again. */
  predicate SplitsBack(s: string, r: (seq<string>, seq<string>))
    requires |r.0| == |r.1| + 1
  {
    AllOperators(r.1) && AllOperatorFree(r.0) && Join(r.0, r.1) == s
  }

  lemma {:induction false} SplitShape(s: string)
    ensures SplitsBack(s, StringSplit(s))
    decreases |s|
  {
    if s != [] {
      SplitShape(s[1..]);
      var rest := StringSplit(s[1..]);
      if IsOperatorChar(s[0]) {
        SignsCons(s[0], rest.1);
        OperandsConsEmpty(rest.0);
        JoinConsSign(rest.0, rest.1, s[0]);
      } else {
        OperandsExtendFirst(s[0], rest.0);
        JoinHead(rest.0, rest.1, [s[0]]);
      }
      assert s == [s[0]] + s[1..];
    }
  }

  lemma SignsCons(c: char, signs: seq<string>)
    requires IsOperatorChar(c) && AllOperators(signs)
    ensures AllOperators([[c]] + signs)
  {
    OperatorCharIsSign(c);
    var r := [[c]] + signs;
    forall k | 0 <= k < |r| ensures r[k] in Operators {
      if k > 0 { assert r[k] == signs[k - 1]; }
    }
  }

  lemma OperandsConsEmpty(operands: seq<string>)
    requires AllOperatorFree(operands)
    ensures AllOperatorFree([""] + operands)
  {
    var r := [""] + operands;
    forall k | 0 <= k < |r| ensures OperatorFree(r[k]) {
      if k > 0 { assert r[k] == operands[k - 1]; }
    }
  }

  lemma OperandsExtendFirst(c: char, operands: seq<string>)
    requires !IsOperatorChar(c) && operands != [] && AllOperatorFree(operands)
    ensures AllOperatorFree([[c] + operands[0]] + operands[1..])
  {
    var r := [[c] + operands[0]] + operands[1..];
    forall k | 0 <= k < |r| ensures OperatorFree(r[k]) {
      if k == 0 {
        forall i | 0 <= i < |r[0]| ensures !IsOperatorChar(r[0][i]) {
          if i > 0 { assert r[0][i] == operands[0][i - 1]; }
        }
      } else {
        assert r[k] == operands[k];
      }
    }
  }

  /** A sign put in front, after an empty operand, comes first in the
      joined text. */
  lemma JoinConsSign(operands: seq<string>, signs: seq<string>, c: char)
    requires |operands| == |signs| + 1
    ensures Join([""] + operands, [[c]] + signs) == [c] + Join(operands, signs)
  {
    var ops := [""] + operands;
    var sg := [[c]] + signs;
    assert ops[1..] == operands && sg[1..] == signs;
  }

  /** An operator character on its own is one of the operator symbols. */
  lemma OperatorCharIsSign(c: char)
    requires IsOperatorChar(c)
    ensures [c] in Operators
  {
    if c == '^' { assert [c] == Operators[0]; }
    else if c == '/' { assert [c] == Operators[1]; }
    else if c == '*' { assert [c] == Operators[2]; }
    else if c == '+' { assert [c] == Operators[3]; }
    else { assert [c] == Operators[4]; }
  }

  /** Text put before the first operand comes first in the joined text. */
  lemma JoinHead(operands: seq<string>, signs: seq<string>, t: string)
    requires |operands| == |signs| + 1
    ensures Join([t + operands[0]] + operands[1..], signs) == t + Join(operands, signs)
  {
    var ops := [t + operands[0]] + operands[1..];
    assert ops[1..] == operands[1..];
    if signs != [] {
      assert ops[0] + signs[0] + Join(ops[1..], signs[1..]) ==
             t + (operands[0] + signs[0] + Join(operands[1..], signs[1..]));
    }
  }

  /** _find_par: a numeric token is a float; any other token is looked up
      in the given dict only (there is no parent chain), KeyError when the
      name is absent. */
  function FindPar(env: Env, token: string): (r: Result<Value>)
    ensures IsNumber(token) ==> r == Ok(Float(Lit(ParseNumber(token))))
    ensures !IsNumber(token) ==> (r.Ok? <==> Str(token) in env.m)
    ensures !IsNumber(token) && r.Ok? ==> r.value == env.m[Str(token)]
    ensures r.Err? ==> r.error == KeyError(Str(token))
  {
    if IsNumber(token) then Ok(Float(Lit(ParseNumber(token))))
    else if Str(token) in env.m then Ok(env.m[Str(token)])
    else Err(KeyError(Str(token)))
  }

  /** The list comprehension at line 76: resolve every operand, left to
      right; the first token that does not resolve raises. */
  function ResolveAll(env: Env, tokens: seq<string>): (r: Result<seq<Value>>)
    ensures r.Ok? ==> |r.value| == |tokens|
  {
    if tokens == [] then Ok([])
    else
      var last := |tokens| - 1;
      match ResolveAll(env, tokens[..last])
      case Err(e) => Err(e)
      case Ok(vs) =>
        match FindPar(env, tokens[last])
        case Err(e) => Err(e)
        case Ok(v) => Ok(vs + [v])
  }

  /** Resolving succeeds with each token's own value, or fails with the
      error of the first token that does not resolve. */
  lemma {:induction false} ResolveAllMeaning(env: Env, tokens: seq<string>)
    ensures var r := ResolveAll(env, tokens);
            && (r.Ok? ==> forall k :: 0 <= k < |tokens| ==> FindPar(env, tokens[k]) == Ok(r.value[k]))
            && (r.Err? ==> exists k :: 0 <= k < |tokens| && FindPar(env, tokens[k]) == Err(r.error) &&
                                       forall j :: 0 <= j < k ==> FindPar(env, tokens[j]).Ok?)
    decreases |tokens|
  {
    if tokens != [] {
      var last := |tokens| - 1;
      ResolveAllMeaning(env, tokens[..last]);
      assert forall k :: 0 <= k < last ==> tokens[..last][k] == tokens[k];
      var r := ResolveAll(env, tokens);
      match ResolveAll(env, tokens[..last])
      case Err(e) =>
        var k :| 0 <= k < last && FindPar(env, tokens[..last][k]) == Err(e) &&
                 forall j :: 0 <= j < k ==> FindPar(env, tokens[..last][j]).Ok?;
        assert FindPar(env, tokens[k]) == Err(r.error);
      case Ok(vs) =>
        match FindPar(env, tokens[last])
        case Err(e) =>
          assert FindPar(env, tokens[last]) == Err(r.error);
        case Ok(v) =>
          assert forall k :: 0 <= k < last ==> r.value[k] == vs[k];
    }
  }

  /** The two lists _parse_simple_string works on. */
  datatype Flat = Flat(operands: seq<Value>, signs: seq<string>) {
    predicate Valid() { |operands| == |signs| + 1 }
  }

  /** Reduce sign k: operand k becomes operand k combined with operand k+1,
      and operand k+1 and sign k are deleted. */
  function ReduceAt(f: Flat, k: nat, v: Value): (g: Flat)
    requires f.Valid() && k < |f.signs|
    ensures g.Valid() && |g.signs| == |f.signs| - 1
  {
    Flat(f.operands[..k] + [v] + f.operands[k + 2..], f.signs[..k] + f.signs[k + 1..])
  }

  /** np.array(signs) == operation, computed once per symbol (line 79). */
  function Mask(signs: seq<string>, op: string): (mask: seq<bool>)
    ensures |mask| == |signs|
    ensures forall k :: 0 <= k < |signs| ==> (mask[k] <==> signs[k] == op)
  {
    seq(|signs|, k requires 0 <= k < |signs| => signs[k] == op)
  }

  /** Lines 81-84 from position ctr on: enumerate the shrinking sign list,
      reducing at every position the stale mask marks, with the sign found
      there now. */
  function Sweep(f: Flat, mask: seq<bool>, ctr: nat): (r: Result<Flat>)
    requires f.Valid() && |f.signs| <= |mask|
    ensures r.Ok? ==> r.value.Valid() && |r.value.signs| <= |f.signs|
    decreases |f.signs| - ctr + 1
  {
    if ctr >= |f.signs| then Ok(f)
    else if !mask[ctr] then Sweep(f, mask, ctr + 1)
    else
      match Perform(f.operands[ctr], f.operands[ctr + 1], f.signs[ctr])
      case Err(e) => Err(e)
      case Ok(v) => Sweep(ReduceAt(f, ctr, v), mask, ctr + 1)
  }

  /** One iteration of the loop at line 78 for the symbol Operators[j]. */
  function Pass(f: Flat, op: string): (r: Result<Flat>)
    requires f.Valid()
    ensures r.Ok? ==> r.value.Valid() && |r.value.signs| <= |f.signs|
  {
    var mask := Mask(f.signs, op);
    if true !in mask then Ok(f) else Sweep(f, mask, 0)
  }

  /** The loop at line 78 from symbol j on. */
  function Passes(f: Flat, j: nat): (r: Result<Flat>)
    requires f.Valid()
    ensures r.Ok? ==> r.value.Valid()
    decreases |Operators| - j
  {
    if j >= |Operators| then Ok(f)
    else
      match Pass(f, Operators[j])
      case Err(e) => Err(e)
      case Ok(g) => Passes(g, j + 1)
  }

  /** Resolve the operands, reduce per symbol in the order ^ / * + -, and
      return operand 0. */
  function Evaluate(env: Env, tokens: seq<string>, signs: seq<string>): Result<Value>
    requires |tokens| == |signs| + 1
  {
    match ResolveAll(env, tokens)
    case Err(e) => Err(e)
    case Ok(operands) =>
      match Passes(Flat(operands, signs), 0)
      case Err(e) => Err(e)
      case Ok(f) => Ok(f.operands[0])
  }

  /** _parse_simple_string: split, then evaluate. */
  function FlatEval(env: Env, s: string): Result<Value> {
    var split := StringSplit(s);
    Evaluate(env, split.0, split.1)
  }

  lemma {:induction false} ResolvePrefixError(env: Env, tokens: seq<string>, n: nat)
    requires n <= |tokens| && ResolveAll(env, tokens[..n]).Err?
    ensures ResolveAll(env, tokens) == ResolveAll(env, tokens[..n])
    decreases |tokens| - n
  {
    if n < |tokens| {
      assert tokens[..n + 1][..n] == tokens[..n];
      ResolvePrefixError(env, tokens, n + 1);
    } else {
      assert tokens[..n] == tokens;
    }
  }

  /** _parse_simple_string, written as the source runs it: the operand
      list is built, then the two lists are popped in place inside the
      nested loops. */
  method ParseSimpleString(toParse: string, env: Env) returns (r: Result<Value>)
    ensures r == FlatEval(env, toParse)
  {
    var split := StringSplit(toParse);
    var resolved := ResolveOperands(split.0, env);
    if resolved.Err? {
      return Err(resolved.error);
    }
    var reduced := ReduceOperands(resolved.value, split.1);
    if reduced.Err? {
      return Err(reduced.error);
    }
    return Ok(reduced.value.operands[0]);
  }

  /** The list comprehension at line 76. */
  method ResolveOperands(tokens: seq<string>, env: Env) returns (r: Result<seq<Value>>)
    ensures r == ResolveAll(env, tokens)
  {
    var operands: seq<Value> := [];
    var i := 0;
    while i < |tokens|
      invariant 0 <= i <= |tokens|
      invariant ResolveAll(env, tokens[..i]) == Ok(operands)
    {
      assert tokens[..i + 1][..i] == tokens[..i];
      var p := FindPar(env, tokens[i]);
      if p.Err? {
        ResolvePrefixError(env, tokens, i + 1);
        return Err(p.error);
      }
      operands := operands + [p.value];
      i := i + 1;
    }
    assert tokens[..i] == tokens;
    return Ok(operands);
  }

  /** Lines 78-84: one pass per symbol, each popping both lists in place. */
  method ReduceOperands(operands0: seq<Value>, signs0: seq<string>) returns (r: Result<Flat>)
    requires |operands0| == |signs0| + 1
    ensures r == Passes(Flat(operands0, signs0), 0)
  {
    var operands, signs := operands0, signs0;
    ghost var start := Flat(operands, signs);
    var j := 0;
    while j < |Operators|
      invariant 0 <= j <= |Operators|
      invariant |operands| == |signs| + 1
      invariant Passes(start, 0) == Passes(Flat(operands, signs), j)
    {
      var operation := Operators[j];
      var occurrences := Mask(signs, operation);
      ghost var before := Flat(operands, signs);
      if true in occurrences {
        var ctr := 0;
        while ctr < |signs|
          invariant |operands| == |signs| + 1 && |signs| <= |occurrences|
          invariant Sweep(before, occurrences, 0) == Sweep(Flat(operands, signs), occurrences, ctr)
          decreases |signs| - ctr
        {
          if occurrences[ctr] {
            var v := Perform(operands[ctr], operands[ctr + 1], signs[ctr]);
            if v.Err? {
              return Err(v.error);
            }
            operands := operands[..ctr] + [v.value] + operands[ctr + 2..];
            signs := signs[..ctr] + signs[ctr + 1..];
          }
          ctr := ctr + 1;
        }
      }
      j := j + 1;
    }
    return Ok(Flat(operands, signs));
  }

  lemma {:induction false} SplitToken(t: string, rest: string)
    requires OperatorFree(t)
    ensures StringSplit(t + rest) ==
              ([t + StringSplit(rest).0[0]] + StringSplit(rest).0[1..], StringSplit(rest).1)
  {
    if t == [] {
      assert t + rest == rest;
      assert t + StringSplit(rest).0[0] == StringSplit(rest).0[0];
      assert StringSplit(rest).0 == [StringSplit(rest).0[0]] + StringSplit(rest).0[1..];
    } else {
      var s := t + rest;
      assert s[0] == t[0] && s[1..] == t[1..] + rest;
      SplitToken(t[1..], rest);
      var inner := StringSplit(rest);
      var r := StringSplit(s[1..]);
      assert r.0[0] == t[1..] + inner.0[0] && r.0[1..] == inner.0[1..] && r.1 == inner.1;
      assert StringSplit(s) == ([[s[0]] + r.0[0]] + r.0[1..], r.1);
      assert [t[0]] + (t[1..] + inner.0[0]) == t + inner.0[0];
    }
  }

  /** Splitting is the inverse of joining: operator-free operands separated
      by operator symbols come back exactly as they were. */
  lemma {:induction false} SplitJoin(operands: seq<string>, signs: seq<string>)
    requires |operands| == |signs| + 1
    requires AllOperatorFree(operands)
    requires AllOperators(signs)
    ensures StringSplit(Join(operands, signs)) == (operands, signs)
  {
    if signs == [] {
      var t := operands[0];
      SplitToken(t, "");
      var e := StringSplit("");
      assert e == ([""], []);
      assert e.0[0] == "" && e.0[1..] == [];
      assert t + "" == t;
      assert StringSplit(t) == ([t + e.0[0]] + e.0[1..], e.1);
      assert [t + e.0[0]] + e.0[1..] == [t];
      assert operands == [operands[0]];
      assert Join(operands, signs) == operands[0];
    } else {
      var rest := Join(operands[1..], signs[1..]);
      SplitJoin(operands[1..], signs[1..]);
      var c := signs[0][0];
      assert signs[0] == [c] && IsOperatorChar(c);
      assert ([c] + rest)[1..] == rest;
      assert StringSplit([c] + rest) == ([""] + operands[1..], [[c]] + signs[1..]);
      assert Join(operands, signs) == operands[0] + ([c] + rest);
      SplitToken(operands[0], [c] + rest);
      assert operands[0] + "" == operands[0];
      assert [operands[0]] + operands[1..] == operands;
      assert [[c]] + signs[1..] == signs;
    }
  }

  // ---------------------------------------------------------------------
  // When evaluation fails

  predicate NoDistribution(operands: seq<Value>) {
    forall k :: 0 <= k < |operands| ==> !operands[k].PD?
  }

  /** No two operands are plain floats, so no float arithmetic is done. */
  predicate FewNumbers(operands: seq<Value>) {
    forall i, j :: 0 <= i < j < |operands| && operands[i].Float? ==> !operands[j].Float?
  }

  /** No sign that can divide by zero. */
  predicate NoQuotient(signs: seq<string>) {
    forall k :: 0 <= k < |signs| ==> signs[k] != "/" && signs[k] != "^"
  }

  /** A formula that cannot raise: no PDParameter, and either no division
      or power at all or never two plain floats to combine. */
  predicate Harmless(f: Flat) {
    NoDistribution(f.operands) && (NoQuotient(f.signs) || FewNumbers(f.operands))
  }

  /** One reduction of a harmless formula succeeds and leaves it harmless. */
  lemma ReduceHarmless(f: Flat, ctr: nat)
    requires f.Valid() && ctr < |f.signs| && f.signs[ctr] in Operators && Harmless(f)
    ensures Perform(f.operands[ctr], f.operands[ctr + 1], f.signs[ctr]).Ok?
    ensures Harmless(ReduceAt(f, ctr, Perform(f.operands[ctr], f.operands[ctr + 1], f.signs[ctr]).value))
  {
    var x1, x2, op := f.operands[ctr], f.operands[ctr + 1], f.signs[ctr];
    assert !x1.PD? && !x2.PD?;
    assert !ZeroDivides(x1, x2, op) by {
      if !NoQuotient(f.signs) {
        assert !(x1.Float? && x2.Float?) by {
          if x1.Float? { assert ctr < ctr + 1; }
        }
      } else {
        assert op != "/" && op != "^";
      }
    }
    var v := Perform(x1, x2, op).value;
    var g := ReduceAt(f, ctr, v);
    assert forall k :: 0 <= k < |g.signs| ==> g.signs[k] == f.signs[if k < ctr then k else k + 1];
    assert forall k :: 0 <= k < |g.operands| && k != ctr ==>
             g.operands[k] == f.operands[if k < ctr then k else k + 1];
    if FewNumbers(f.operands) {
      assert !v.Float?;
      forall i, j | 0 <= i < j < |g.operands| && g.operands[i].Float? ensures !g.operands[j].Float? {
        if j != ctr {
          assert g.operands[i] == f.operands[if i < ctr then i else i + 1];
          assert g.operands[j] == f.operands[if j < ctr then j else j + 1];
        }
      }
    }
  }

  lemma {:induction false} SweepFacts(f: Flat, mask: seq<bool>, ctr: nat)
    requires f.Valid() && |f.signs| <= |mask| && AllOperators(f.signs)
    ensures Sweep(f, mask, ctr).Err? ==>
              Sweep(f, mask, ctr).error in {TypeError(UnsupportedOperand), ZeroDivisionError}
    ensures Sweep(f, mask, ctr).Ok? ==> AllOperators(Sweep(f, mask, ctr).value.signs)
    ensures Harmless(f) ==> Sweep(f, mask, ctr).Ok? && Harmless(Sweep(f, mask, ctr).value)
    decreases |f.signs| - ctr + 1
  {
    if ctr >= |f.signs| {
    } else if !mask[ctr] {
      SweepFacts(f, mask, ctr + 1);
    } else {
      if Harmless(f) {
        ReduceHarmless(f, ctr);
      }
      match Perform(f.operands[ctr], f.operands[ctr + 1], f.signs[ctr])
      case Err(e) =>
      case Ok(v) =>
        var g := ReduceAt(f, ctr, v);
        assert forall k :: 0 <= k < |g.signs| ==> g.signs[k] == f.signs[if k < ctr then k else k + 1];
        SweepFacts(g, mask, ctr + 1);
    }
  }

  lemma {:induction false} PassesFacts(f: Flat, j: nat)
    requires f.Valid() && AllOperators(f.signs)
    ensures Passes(f, j).Err? ==> Passes(f, j).error in {TypeError(UnsupportedOperand), ZeroDivisionError}
    ensures Harmless(f) ==> Passes(f, j).Ok?
    decreases |Operators| - j
  {
    if j < |Operators| {
      var mask := Mask(f.signs, Operators[j]);
      SweepFacts(f, mask, 0);
      match Pass(f, Operators[j])
      case Err(e) =>
      case Ok(g) => PassesFacts(g, j + 1);
    }
  }

  /** A token that is neither a number nor a name in the dict. */
  predicate Unresolved(env: Env, token: string) {
    !IsNumber(token) && Str(token) !in env.m
  }

  /** Some token of the list does not resolve. */
  predicate SomeUnresolved(env: Env, tokens: seq<string>) {
    exists k :: 0 <= k < |tokens| && Unresolved(env, tokens[k])
  }

  /** Evaluation fails with KeyError exactly when some operand does not
      resolve; it never substitutes a default value. */
  lemma EvaluateKeyError(env: Env, tokens: seq<string>, signs: seq<string>)
    requires |tokens| == |signs| + 1 && AllOperators(signs)
    ensures SomeUnresolved(env, tokens) <==>
            (Evaluate(env, tokens, signs).Err? && Evaluate(env, tokens, signs).error.KeyError?)
  {
    ResolveAllMeaning(env, tokens);
    match ResolveAll(env, tokens)
    case Err(e) =>
      var k :| 0 <= k < |tokens| && FindPar(env, tokens[k]) == Err(e);
      assert Unresolved(env, tokens[k]);
    case Ok(operands) =>
      PassesFacts(Flat(operands, signs), 0);
      forall k | 0 <= k < |tokens| ensures !Unresolved(env, tokens[k]) {
        assert FindPar(env, tokens[k]).Ok?;
      }
  }

  /** A token that resolves to a plain float. */
  predicate ResolvesToNumber(env: Env, token: string) {
    FindPar(env, token).Ok? && FindPar(env, token).value.Float?
  }

  /** Every token resolves to something other than a PDParameter, and
      either no sign divides or raises to a power, or at most one token is
      a plain float. */
  predicate HarmlessTokens(env: Env, tokens: seq<string>, signs: seq<string>) {
    && (forall k :: 0 <= k < |tokens| ==> FindPar(env, tokens[k]).Ok? && !FindPar(env, tokens[k]).value.PD?)
    && (NoQuotient(signs) ||
        forall i, j :: 0 <= i < j < |tokens| && ResolvesToNumber(env, tokens[i]) ==> !ResolvesToNumber(env, tokens[j]))
  }

  /** Once every operand resolves, the only failures left are arithmetic
      with a PDParameter and a float division by zero: the unknown-operator
      branch cannot be reached, and a harmless formula succeeds. */
  lemma EvaluateOtherError(env: Env, tokens: seq<string>, signs: seq<string>)
    requires |tokens| == |signs| + 1 && AllOperators(signs)
    ensures ResolveAll(env, tokens).Ok? && Evaluate(env, tokens, signs).Err? ==>
              Evaluate(env, tokens, signs).error in {TypeError(UnsupportedOperand), ZeroDivisionError}
    ensures HarmlessTokens(env, tokens, signs) ==> Evaluate(env, tokens, signs).Ok?
  {
    ResolveAllMeaning(env, tokens);
    match ResolveAll(env, tokens)
    case Err(e) =>
      var k :| 0 <= k < |tokens| && FindPar(env, tokens[k]) == Err(e);
      assert !FindPar(env, tokens[k]).Ok?;
    case Ok(operands) =>
      if HarmlessTokens(env, tokens, signs) {
        forall k | 0 <= k < |operands| ensures !operands[k].PD? {
          assert FindPar(env, tokens[k]) == Ok(operands[k]);
        }
        if !NoQuotient(signs) {
          forall i, j | 0 <= i < j < |operands| && operands[i].Float? ensures !operands[j].Float? {
            assert FindPar(env, tokens[i]) == Ok(operands[i]);
            assert FindPar(env, tokens[j]) == Ok(operands[j]);
            assert ResolvesToNumber(env, tokens[i]);
          }
        }
        assert Harmless(Flat(operands, signs));
      }
      PassesFacts(Flat(operands, signs), 0);
  }

  /** _parse_simple_string fails with KeyError exactly when some operand of
      the formula is neither a number nor a name in the dict. */
  lemma FlatEvalKeyError(env: Env, s: string)
    ensures SomeUnresolved(env, StringSplit(s).0) <==> (FlatEval(env, s).Err? && FlatEval(env, s).error.KeyError?)
  {
    var split := StringSplit(s);
    assert FlatEval(env, s) == Evaluate(env, split.0, split.1);
    SplitShape(s);
    assert AllOperators(split.1);
    EvaluateKeyError(env, split.0, split.1);
  }

  /** Any other failure of _parse_simple_string is the TypeError of a
      PDParameter operand or a float division by zero, and a formula whose
      operands resolve harmlessly succeeds. */
  lemma FlatEvalOtherError(env: Env, s: string)
    ensures FlatEval(env, s).Err? && !FlatEval(env, s).error.KeyError? ==>
              FlatEval(env, s).error in {TypeError(UnsupportedOperand), ZeroDivisionError}
    ensures HarmlessTokens(env, StringSplit(s).0, StringSplit(s).1) ==> FlatEval(env, s).Ok?
  {
    var split := StringSplit(s);
    assert FlatEval(env, s) == Evaluate(env, split.0, split.1);
    SplitShape(s);
    EvaluateKeyError(env, split.0, split.1);
    ResolveAllMeaning(env, split.0);
    EvaluateOtherError(env, split.0, split.1);
  }

  // ---------------------------------------------------------------------
  // A reference reading, and where the source departs from it

  /** The evidently intended reading of lines 78-84: for each symbol in
      turn, reduce its leftmost occurrence until none is left. */
  function FirstIndex(signs: seq<string>, op: string): (k: nat)
    requires op in signs
    ensures k < |signs| && signs[k] == op
    ensures forall i :: 0 <= i < k ==> signs[i] != op
  {
    if signs[0] == op then 0 else 1 + FirstIndex(signs[1..], op)
  }

  function ReduceEvery(f: Flat, op: string): (r: Result<Flat>)
    requires f.Valid()
    ensures r.Ok? ==> r.value.Valid() && op !in r.value.signs
    ensures r.Ok? ==> forall x :: x in r.value.signs ==> x in f.signs
    decreases |f.signs|
  {
    if op !in f.signs then Ok(f)
    else
      var k := FirstIndex(f.signs, op);
      match Perform(f.operands[k], f.operands[k + 1], op)
      case Err(e) => Err(e)
      case Ok(v) =>
        var g := ReduceAt(f, k, v);
        assert forall x :: x in g.signs ==> x in f.signs;
        ReduceEvery(g, op)
  }

  function TieredPasses(f: Flat, j: nat): (r: Result<Flat>)
    requires f.Valid() && j <= |Operators|
    ensures r.Ok? ==> r.value.Valid()
    ensures r.Ok? ==> forall x :: x in r.value.signs ==> x in f.signs && x !in Operators[j..]
    decreases |Operators| - j
  {
    if j == |Operators| then Ok(f)
    else
      match ReduceEvery(f, Operators[j])
      case Err(e) => Err(e)
      case Ok(g) =>
        var r := TieredPasses(g, j + 1);
        assert Operators[j..] == [Operators[j]] + Operators[j + 1..];
        r
  }

  function TieredEval(env: Env, s: string): Result<Value> {
    var split := StringSplit(s);
    match ResolveAll(env, split.0)
    case Err(e) => Err(e)
    case Ok(operands) =>
      match TieredPasses(Flat(operands, split.1), 0)
      case Err(e) => Err(e)
      case Ok(f) => Ok(f.operands[0])
  }

  lemma HeadIn<T>(s: seq<T>)
    ensures s == [] || s[0] in s
  {
  }

  /** The reference reading always combines every operand into one. */
  lemma TieredConsumesAll(f: Flat)
    requires f.Valid() && AllOperators(f.signs)
    ensures TieredPasses(f, 0).Ok? ==> TieredPasses(f, 0).value.operands == [TieredPasses(f, 0).value.operands[0]]
  {
    if TieredPasses(f, 0).Ok? {
      var g := TieredPasses(f, 0).value;
      assert Operators[0..] == Operators;
      HeadIn(g.signs);
    }
  }

  predicate NoRepeats(signs: seq<string>) {
    forall i, j :: 0 <= i < j < |signs| ==> signs[i] != signs[j]
  }

  lemma {:induction false} SweepSkips(f: Flat, mask: seq<bool>, ctr: nat, k: nat)
    requires f.Valid() && |f.signs| <= |mask| && ctr <= k <= |f.signs|
    requires forall i :: ctr <= i < k ==> !mask[i]
    ensures Sweep(f, mask, ctr) == Sweep(f, mask, k)
    decreases k - ctr
  {
    if ctr < k {
      SweepSkips(f, mask, ctr + 1, k);
    }
  }

  /** Deleting one sign keeps the others distinct, and the deleted symbol
      no longer occurs. */
  lemma ReduceAtNoRepeats(f: Flat, k: nat, v: Value)
    requires f.Valid() && k < |f.signs| && NoRepeats(f.signs)
    ensures NoRepeats(ReduceAt(f, k, v).signs) && f.signs[k] !in ReduceAt(f, k, v).signs
  {
    var g := ReduceAt(f, k, v);
    assert forall i :: 0 <= i < |g.signs| ==> g.signs[i] == f.signs[if i < k then i else i + 1];
  }

  /** With each symbol at most once, one pass of the stale mask reduces the
      same occurrence the reference does. */
  lemma PassAgrees(f: Flat, op: string)
    requires f.Valid() && NoRepeats(f.signs)
    ensures Pass(f, op) == ReduceEvery(f, op)
    ensures Pass(f, op).Ok? ==> NoRepeats(Pass(f, op).value.signs)
  {
    if op !in f.signs {
      assert true !in Mask(f.signs, op);
    } else {
      PassReducesFirst(f, op);
    }
  }

  lemma PassReducesFirst(f: Flat, op: string)
    requires f.Valid() && NoRepeats(f.signs) && op in f.signs
    ensures Pass(f, op) == ReduceEvery(f, op)
    ensures Pass(f, op).Ok? ==> NoRepeats(Pass(f, op).value.signs)
  {
    var mask := Mask(f.signs, op);
    var k := FirstIndex(f.signs, op);
    assert mask[k];
    SweepSkips(f, mask, 0, k);
    var p := Perform(f.operands[k], f.operands[k + 1], op);
    if p.Ok? {
      var g := ReduceAt(f, k, p.value);
      ReduceAtNoRepeats(f, k, p.value);
      assert Sweep(f, mask, k) == Sweep(g, mask, k + 1);
      assert forall i :: k + 1 <= i < |g.signs| ==> !mask[i] by {
        forall i | k + 1 <= i < |g.signs| ensures !mask[i] {
          assert f.signs[k] != f.signs[i];
        }
      }
      if k + 1 <= |g.signs| {
        SweepSkips(g, mask, k + 1, |g.signs|);
      }
    }
  }

  lemma {:induction false} PassesAgree(f: Flat, j: nat)
    requires f.Valid() && NoRepeats(f.signs) && j <= |Operators|
    ensures Passes(f, j) == TieredPasses(f, j)
    decreases |Operators| - j
  {
    if j < |Operators| {
      PassAgrees(f, Operators[j]);
      match Pass(f, Operators[j])
      case Err(e) =>
      case Ok(g) => PassesAgree(g, j + 1);
    }
  }

  /** When no operator symbol occurs twice, the source's evaluation is the
      reference one. */
  lemma FlatEvalAgrees(env: Env, s: string)
    requires NoRepeats(StringSplit(s).1)
    ensures FlatEval(env, s) == TieredEval(env, s)
  {
    var split := StringSplit(s);
    match ResolveAll(env, split.0)
    case Err(e) =>
    case Ok(operands) => PassesAgree(Flat(operands, split.1), 0);
  }
}
