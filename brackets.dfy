/** Formulas with brackets: ParameterSet._parse_parameter_math
    (fitter/configloader.py:89-119). Every matched bracket body is
    evaluated flat and stored in parent_set as temp_par1, temp_par2, ...,
    and the bracketed span is replaced by that name. */
module Brackets {
  import opened Errors
  import opened Dicts
  import opened Cells
  import opened Values
  import opened FlatFormula

  predicate IsOpening(c: char) { c == '(' || c == '[' || c == '{' }

  predicate IsClosing(c: char) { c == ')' || c == ']' || c == '}' }

  /** The opening bracket a closing bracket expects. */
  function Partner(c: char): (o: char)
    requires IsClosing(c)
    ensures IsOpening(o)
  {
    if c == ')' then '(' else if c == ']' then '[' else '{'
  }

  predicate HasOpening(s: string) {
    exists i :: 0 <= i < |s| && IsOpening(s[i])
  }

  /** The name under which the n-th closed bracket body is stored. */
  function TempName(n: nat): (t: string)
    ensures |t| > 8 && t[..8] == "temp_par"
  {
    "temp_par" + NatText(n)
  }

  /** The loop state: the text saved at each still-open bracket
      (string_list), the brackets still open (ob_list), the text since the
      last bracket (temp_string), the temporaries made so far
      (temp_par_number), and the dict that lookups and additions go to. */
  datatype Scan = Scan(pending: seq<string>, opens: seq<char>, text: string, count: nat, env: Env) {
    ghost predicate Valid() {
      |pending| == |opens| && env.Valid()
    }
  }

  function Start(env: Env): (st: Scan)
    ensures st.pending == [] && st.opens == [] && st.text == "" && st.count == 0 && st.env == env
  {
    Scan([], [], "", 0, env)
  }

  /** A matched bracket body (lines 111-112): evaluated flat and added to
      parent_set as temporary n. A plain dict has no add method, and add
      refuses anything but a Parameter or an Operator. */
  function AddBody(env: Env, body: string, n: nat, canAdd: bool): (r: Result<Env>)
    requires env.Valid()
    ensures r.Ok? ==> r.value.Valid()
  {
    match FlatEval(env, body)
    case Err(e) => Err(e)
    case Ok(v) =>
      if !canAdd then Err(AttributeError(DictHasNoAdd))
      else if !ParameterLike(v) then Err(TypeError(NotAParameter))
      else Ok(Put(env, Str(TempName(n)), v))
  }

  /** A closing bracket: pop the open bracket, add the body as the next
      temporary, and put its name in place of the bracketed span. */
  function Close(st: Scan, c: char, canAdd: bool): (r: Result<Scan>)
    requires st.Valid() && IsClosing(c)
  {
    if st.opens == [] then Err(IndexError(PopFromEmpty))
    else if st.opens[|st.opens| - 1] != Partner(c) then Err(IndexError(ArrayIndexedByText))
    else
      var n := st.count + 1;
      match AddBody(st.env, st.text, n, canAdd)
      case Err(e) => Err(e)
      case Ok(env) =>
        var top := |st.opens| - 1;
        Ok(Scan(st.pending[..top], st.opens[..top], st.pending[top] + TempName(n), n, env))
  }

  /** One character of the loop at lines 98-114. An opening bracket saves
      the text and is pushed. A closing bracket pops: nothing to pop is an
      IndexError, and so is a bracket of the wrong kind, because building
      the intended KeyError's message indexes a text array by a text array
      (line 110). A matched body is evaluated flat and added; a plain dict
      (no parent) has no add method, and add refuses anything but a
      Parameter or an Operator. */
  function Step(st: Scan, c: char, canAdd: bool): (r: Result<Scan>)
    requires st.Valid()
    ensures r.Ok? ==> r.value.Valid()
    ensures !IsClosing(c) ==> r.Ok? && r.value.count == st.count && r.value.env == st.env
    ensures IsOpening(c) ==> r.value.opens == st.opens + [c] && r.value.pending == st.pending + [st.text]
    ensures IsClosing(c) && st.opens == [] ==> r == Err(IndexError(PopFromEmpty))
    ensures IsClosing(c) && st.opens != [] && st.opens[|st.opens| - 1] != Partner(c) ==>
              r == Err(IndexError(ArrayIndexedByText))
    ensures IsClosing(c) && r.Ok? ==>
              && st.opens != [] && st.opens[|st.opens| - 1] == Partner(c)
              && r.value.opens == st.opens[..|st.opens| - 1]
              && r.value.count == st.count + 1 && canAdd
  {
    if IsOpening(c) then
      Ok(Scan(st.pending + [st.text], st.opens + [c], "", st.count, st.env))
    else if IsClosing(c) then Close(st, c, canAdd)
    else
      Ok(st.(text := st.text + [c]))
  }

  /** A closing bracket that matches the innermost open one: the text
      since that bracket is evaluated flat; an error there, a dict without
      add, or a result add refuses stops the loop, and otherwise the dict
      gains the result as the next temporary, whose name follows the text
      saved at the bracket. */
  lemma StepClosesBody(st: Scan, c: char, canAdd: bool)
    requires st.Valid() && IsClosing(c) && st.opens != [] && st.opens[|st.opens| - 1] == Partner(c)
    ensures var r := Step(st, c, canAdd);
            var n := st.count + 1;
            match FlatEval(st.env, st.text)
            case Err(e) => r == Err(e)
            case Ok(v) =>
              if !canAdd then r == Err(AttributeError(DictHasNoAdd))
              else if !ParameterLike(v) then r == Err(TypeError(NotAParameter))
              else
                r == Ok(Scan(st.pending[..|st.pending| - 1], st.opens[..|st.opens| - 1],
                             st.pending[|st.pending| - 1] + TempName(n), n, Put(st.env, Str(TempName(n)), v)))
  {
    assert Step(st, c, canAdd) == Close(st, c, canAdd);
  }

  /** Where the scan stopped, and the error that stopped it, if any. */
  datatype Scanned = Scanned(last: Scan, error: Option<Error>)

  /** The loop at line 98 from state st over the characters of s. */
  function Run(st: Scan, s: string, canAdd: bool): (r: Scanned)
    requires st.Valid()
    ensures r.last.Valid()
    decreases |s|
  {
    if s == [] then Scanned(st, None)
    else
      match Step(st, s[0], canAdd)
      case Err(e) => Scanned(st, Some(e))
      case Ok(next) => Run(next, s[1..], canAdd)
  }

  /** The result of a formula together with the dict it leaves behind. */
  datatype Evaluated = Evaluated(env: Env, result: Result<Value>)

  /** _parse_parameter_math: with an opening bracket anywhere, scan and
      evaluate the text that is left; otherwise evaluate flat. */
  function MathEval(s: string, env: Env, canAdd: bool): (r: Evaluated)
    requires env.Valid()
    ensures r.env.Valid()
  {
    if HasOpening(s) then
      var scanned := Run(Start(env), s, canAdd);
      match scanned.error
      case Some(e) => Evaluated(scanned.last.env, Err(e))
      case None => Evaluated(scanned.last.env, FlatEval(scanned.last.env, scanned.last.text))
    else
      Evaluated(env, FlatEval(env, s))
  }

  // ---------------------------------------------------------------------
  // Bracket nesting, independently of evaluation

  /** The brackets still open after s, starting from the stack opens, or
      None when a closing bracket has nothing or the wrong kind to match. */
  function Nest(opens: seq<char>, s: string): Option<seq<char>>
    decreases |s|
  {
    if s == [] then Some(opens)
    else if IsOpening(s[0]) then Nest(opens + [s[0]], s[1..])
    else if IsClosing(s[0]) then
      if opens != [] && opens[|opens| - 1] == Partner(s[0]) then Nest(opens[..|opens| - 1], s[1..])
      else None
    else Nest(opens, s[1..])
  }

  /** A scan that gets through the whole text saw properly nested
      brackets, and one that meets a badly nested bracket stops with an
      error. */
  lemma {:induction false} ScanFollowsNesting(st: Scan, s: string, canAdd: bool)
    requires st.Valid()
    ensures Run(st, s, canAdd).error.None? ==> Nest(st.opens, s) == Some(Run(st, s, canAdd).last.opens)
    ensures Nest(st.opens, s).None? ==> Run(st, s, canAdd).error.Some?
    decreases |s|
  {
    if s != [] {
      match Step(st, s[0], canAdd)
      case Err(e) =>
      case Ok(next) =>
        assert next.opens == if IsOpening(s[0]) then st.opens + [s[0]]
                             else if IsClosing(s[0]) then st.opens[..|st.opens| - 1]
                             else st.opens;
        ScanFollowsNesting(next, s[1..], canAdd);
    }
  }

  /** A scan that stops does so at the character after the last state it
      reached, and with the error that character's step raised. */
  lemma {:induction false} ScanStops(st: Scan, s: string, canAdd: bool)
    requires st.Valid()
    ensures var r := Run(st, s, canAdd);
            r.error.Some? ==> Step(r.last, s[ScanLength(st, s, canAdd)], canAdd) == Err(r.error.value)
    decreases |s|
  {
    if s != [] {
      match Step(st, s[0], canAdd)
      case Err(e) =>
      case Ok(next) =>
        ScanStops(next, s[1..], canAdd);
    }
  }

  /** The number of characters a scan consumes before it stops. */
  function ScanLength(st: Scan, s: string, canAdd: bool): (k: nat)
    requires st.Valid()
    ensures Run(st, s, canAdd).error.Some? ==> k < |s|
    ensures Run(st, s, canAdd).error.None? ==> k == |s|
    decreases |s|
  {
    if s == [] then 0
    else
      match Step(st, s[0], canAdd)
      case Err(_) => 0
      case Ok(next) => 1 + ScanLength(next, s[1..], canAdd)
  }

  // ---------------------------------------------------------------------
  // The temporaries

  function CountClosing(s: string): (n: nat)
    ensures n <= |s|
  {
    if s == [] then 0 else (if IsClosing(s[0]) then 1 else 0) + CountClosing(s[1..])
  }

  predicate IsTempKey(key: Cell) {
    key.Str? && |key.s| >= 8 && key.s[..8] == "temp_par"
  }

  /** A scan that gets through the text makes one temporary per closing
      bracket, numbered on from st.count. */
  lemma {:induction false} ScanCount(st: Scan, s: string, canAdd: bool)
    requires st.Valid()
    ensures Run(st, s, canAdd).last.count >= st.count
    ensures Run(st, s, canAdd).error.None? ==> Run(st, s, canAdd).last.count == st.count + CountClosing(s)
    decreases |s|
  {
    if s != [] {
      match Step(st, s[0], canAdd)
      case Err(e) =>
      case Ok(next) =>
        ScanCount(next, s[1..], canAdd);
    }
  }

  /** Two dicts that agree on every name that is not a temporary. */
  ghost predicate SameBeyondTemps(a: Env, b: Env) {
    forall key :: !IsTempKey(key) ==> (key in a.m <==> key in b.m) && (key in a.m ==> a.m[key] == b.m[key])
  }

  lemma SameBeyondTempsTrans(a: Env, b: Env, c: Env)
    requires SameBeyondTemps(a, b) && SameBeyondTemps(b, c)
    ensures SameBeyondTemps(a, c)
  {
  }

  /** The dict holds temporaries 1 .. n. */
  ghost predicate HoldsTemps(env: Env, n: nat) {
    forall k :: 0 < k <= n ==> Str(TempName(k)) in env.m
  }

  /** Storing a temporary changes no other name. */
  lemma PutTempKeepsOthers(env: Env, n: nat, v: Value, after: Env)
    requires n > 0 && after.m == env.m[Str(TempName(n)) := v]
    ensures SameBeyondTemps(env, after)
    ensures HoldsTemps(env, n - 1) ==> HoldsTemps(after, n)
  {
    assert IsTempKey(Str(TempName(n)));
  }

  /** One character adds at most the next temporary and changes nothing
      else. */
  lemma StepOnlyAddsTemporary(st: Scan, c: char, canAdd: bool)
    requires st.Valid() && Step(st, c, canAdd).Ok?
    ensures var next := Step(st, c, canAdd).value;
            && SameBeyondTemps(st.env, next.env)
            && (HoldsTemps(st.env, st.count) ==> HoldsTemps(next.env, next.count))
  {
    var next := Step(st, c, canAdd).value;
    if IsClosing(c) {
      var key := Str(TempName(next.count));
      PutTempKeepsOthers(st.env, next.count, next.env.m[key], next.env);
    }
  }

  /** Whether the scan gets through or stops, the dict holds every
      temporary made so far, and every name that is not a temporary is
      neither added nor changed. */
  lemma {:induction false} ScanOnlyAddsTemporaries(st: Scan, s: string, canAdd: bool)
    requires st.Valid()
    ensures HoldsTemps(st.env, st.count) ==> HoldsTemps(Run(st, s, canAdd).last.env, Run(st, s, canAdd).last.count)
    ensures SameBeyondTemps(st.env, Run(st, s, canAdd).last.env)
    decreases |s|
  {
    if s != [] && Step(st, s[0], canAdd).Ok? {
      var next := Step(st, s[0], canAdd).value;
      StepOnlyAddsTemporary(st, s[0], canAdd);
      ScanOnlyAddsTemporaries(next, s[1..], canAdd);
      SameBeyondTempsTrans(st.env, next.env, Run(next, s[1..], canAdd).last.env);
    }
  }

  /** With no parent set, parent_set is the set's own dict: a formula with
      a closing bracket can never be scanned through, and the dict is left
      as it was. */
  lemma {:induction false} NoParentNoBrackets(st: Scan, s: string)
    requires st.Valid()
    ensures Run(st, s, false).error.None? ==> CountClosing(s) == 0
    ensures Run(st, s, false).last.env == st.env
    decreases |s|
  {
    if s != [] {
      match Step(st, s[0], false)
      case Err(e) =>
      case Ok(next) =>
        NoParentNoBrackets(next, s[1..]);
    }
  }

  /** Without a parent, a formula leaves the dict unchanged, and every
      formula with brackets that closes one fails. */
  lemma NoParentMath(s: string, env: Env)
    requires env.Valid()
    ensures MathEval(s, env, false).env == env
    ensures HasOpening(s) && CountClosing(s) > 0 ==> MathEval(s, env, false).result.Err?
  {
    NoParentNoBrackets(Start(env), s);
  }

  predicate BracketFree(t: string) {
    forall i :: 0 <= i < |t| ==> !IsOpening(t[i]) && !IsClosing(t[i])
  }

  /** Text without brackets is only appended to temp_string. */
  lemma {:induction false} ScanPlain(st: Scan, t: string, canAdd: bool)
    requires st.Valid() && BracketFree(t)
    ensures Run(st, t, canAdd) == Scanned(st.(text := st.text + t), None)
    decreases |t|
  {
    if t == [] {
      assert st.text + t == st.text;
    } else {
      var next := st.(text := st.text + [t[0]]);
      assert Step(st, t[0], canAdd) == Ok(next);
      assert BracketFree(t[1..]) by {
        forall i | 0 <= i < |t[1..]| ensures !IsOpening(t[1..][i]) && !IsClosing(t[1..][i]) {
          assert t[1..][i] == t[i + 1];
        }
      }
      ScanPlain(next, t[1..], canAdd);
      assert next.text + t[1..] == st.text + t;
    }
  }

  lemma {:induction false} RunAppend(st: Scan, s: string, t: string, canAdd: bool)
    requires st.Valid()
    requires Run(st, s, canAdd).error.None?
    ensures Run(st, s + t, canAdd) == Run(Run(st, s, canAdd).last, t, canAdd)
    decreases |s|
  {
    if s == [] {
      assert s + t == t;
    } else {
      assert (s + t)[0] == s[0] && (s + t)[1..] == s[1..] + t;
      match Step(st, s[0], canAdd)
      case Err(e) =>
      case Ok(next) =>
        RunAppend(next, s[1..], t, canAdd);
    }
  }

  /** An opening bracket that is never closed raises nothing: the text
      saved before it is never picked up again, so only the text after it
      is evaluated, and nothing is added. */
  lemma UnclosedBracketDropsPrefix(p: string, o: char, q: string, env: Env, canAdd: bool)
    requires env.Valid() && IsOpening(o) && BracketFree(p) && BracketFree(q)
    ensures MathEval(p + [o] + q, env, canAdd) == Evaluated(env, FlatEval(env, q))
  {
    var s := p + [o] + q;
    assert s[|p|] == o;
    var st0 := Start(env);
    ScanPlain(st0, p, canAdd);
    var st1 := st0.(text := p);
    assert st0.text + p == p;
    var st2 := Scan([p], [o], "", 0, env);
    assert Run(st1, [o], canAdd) == Run(st2, [], canAdd);
    RunAppend(st0, p, [o], canAdd);
    ScanPlain(st2, q, canAdd);
    RunAppend(st0, p + [o], q, canAdd);
    assert "" + q == q;
  }

  /** Plain text, an opening bracket and plain text again: the scan has
      saved the first text and holds the second. */
  lemma ScanToOpenBody(p: string, o: char, body: string, env: Env, canAdd: bool)
    requires env.Valid() && IsOpening(o) && BracketFree(p) && BracketFree(body)
    ensures Run(Start(env), p + [o] + body, canAdd) == Scanned(Scan([p], [o], body, 0, env), None)
  {
    var st0 := Start(env);
    ScanPlain(st0, p, canAdd);
    assert "" + p == p;
    var st1 := st0.(text := p);
    var st2 := Scan([p], [o], "", 0, env);
    assert !IsClosing(o);
    assert st1.pending + [st1.text] == [p] && st1.opens + [o] == [o];
    assert Step(st1, o, canAdd) == Ok(st2);
    assert Run(st1, [o], canAdd) == Run(st2, [], canAdd);
    RunAppend(st0, p, [o], canAdd);
    ScanPlain(st2, body, canAdd);
    assert "" + body == body;
    RunAppend(st0, p + [o], body, canAdd);
  }

  /** Closing the one open bracket and scanning plain text after it: the
      body is added as temp_par1 and its name takes the bracket's place,
      or the scan stops at the bracket with add's error. */
  lemma ScanFromClose(p: string, o: char, body: string, c: char, q: string, env: Env, canAdd: bool)
    requires env.Valid() && IsClosing(c) && o == Partner(c) && BracketFree(q)
    ensures var st := Scan([p], [o], body, 0, env);
            var r := Run(st, [c] + q, canAdd);
            match AddBody(env, body, 1, canAdd)
            case Err(e) => r == Scanned(st, Some(e))
            case Ok(e) => r == Scanned(Scan([], [], p + TempName(1) + q, 1, e), None)
  {
    match AddBody(env, body, 1, canAdd)
    case Err(e) => CloseRefused(p, o, body, c, q, env, canAdd);
    case Ok(e) => CloseAdded(p, o, body, c, q, env, canAdd);
  }

  lemma CloseRefused(p: string, o: char, body: string, c: char, q: string, env: Env, canAdd: bool)
    requires env.Valid() && IsClosing(c) && o == Partner(c) && AddBody(env, body, 1, canAdd).Err?
    ensures var st := Scan([p], [o], body, 0, env);
            Run(st, [c] + q, canAdd) == Scanned(st, Some(AddBody(env, body, 1, canAdd).error))
  {
    var st := Scan([p], [o], body, 0, env);
    assert ([c] + q)[0] == c;
    assert Close(st, c, canAdd) == Err(AddBody(env, body, 1, canAdd).error);
  }

  lemma CloseAdded(p: string, o: char, body: string, c: char, q: string, env: Env, canAdd: bool)
    requires env.Valid() && IsClosing(c) && o == Partner(c) && BracketFree(q)
    requires AddBody(env, body, 1, canAdd).Ok?
    ensures var st := Scan([p], [o], body, 0, env);
            Run(st, [c] + q, canAdd) ==
              Scanned(Scan([], [], p + TempName(1) + q, 1, AddBody(env, body, 1, canAdd).value), None)
  {
    var st := Scan([p], [o], body, 0, env);
    var st' := Scan([], [], p + TempName(1), 1, AddBody(env, body, 1, canAdd).value);
    StepClosesBody(st, c, canAdd);
    assert ([c] + q)[0] == c && ([c] + q)[1..] == q;
    ScanPlain(st', q, canAdd);
  }

  /** A temporary's name is a plain name: it starts with a letter and
      holds neither operators nor brackets, so a later formula can read it. */
  lemma TempNameIsPlain(n: nat)
    ensures TempName(n)[0] == 't'
    ensures OperatorFree(TempName(n)) && BracketFree(TempName(n))
  {
    var t := TempName(n);
    var digits := NatText(n);
    assert t == "temp_par" + digits;
    forall i | 0 <= i < |t| ensures !IsOperatorChar(t[i]) && !IsOpening(t[i]) && !IsClosing(t[i]) {
      if i >= 8 { assert t[i] == digits[i - 8]; assert IsDigit(digits[i - 8]); }
    }
  }

  /** One bracket pair in otherwise plain text: its body is evaluated
      flat and, when add accepts the result, stored as temp_par1 and the
      bracketed span replaced by that name; every failure leaves the dict
      as it was. */
  lemma SingleBracket(p: string, o: char, body: string, c: char, q: string, env: Env, canAdd: bool)
    requires env.Valid() && IsClosing(c) && o == Partner(c)
    requires BracketFree(p) && BracketFree(body) && BracketFree(q)
    ensures var v := FlatEval(env, body);
            MathEval(p + [o] + body + [c] + q, env, canAdd) ==
              if v.Err? then Evaluated(env, Err(v.error))
              else if !canAdd then Evaluated(env, Err(AttributeError(DictHasNoAdd)))
              else if !ParameterLike(v.value) then Evaluated(env, Err(TypeError(NotAParameter)))
              else
                var e := Put(env, Str(TempName(1)), v.value);
                Evaluated(e, FlatEval(e, p + TempName(1) + q))
  {
    var s := p + [o] + body + [c] + q;
    assert s[|p|] == o;
    ScanToOpenBody(p, o, body, env, canAdd);
    RunAppend(Start(env), p + [o] + body, [c] + q, canAdd);
    assert s == p + [o] + body + ([c] + q);
    ScanFromClose(p, o, body, c, q, env, canAdd);
  }

  /** A formula adds nothing to the dict but temporaries, and changes no
      other entry, whether it succeeds or fails. */
  lemma MathEvalOnlyAddsTemporaries(s: string, env: Env, canAdd: bool)
    requires env.Valid()
    ensures SameBeyondTemps(env, MathEval(s, env, canAdd).env)
  {
    if HasOpening(s) {
      ScanOnlyAddsTemporaries(Start(env), s, canAdd);
    }
  }
}
