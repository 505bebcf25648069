/** ParameterSet (fitter/configloader.py:22-166): a named dict of
    parameters built row by row from a sheet, where a row's value cell is a
    distribution tag, a formula, an alias or a number. A set built with a
    parent looks every name up in the parent and stores its formula
    temporaries there; without a parent, names are looked up in the set's
    own dict. */
module ParameterSets {
  import opened Errors
  import opened Dicts
  import opened Cells
  import opened Values
  import opened FlatFormula
  import opened Brackets

  /** The set's own dict, and the parent set's dict when there is one. */
  datatype Frames = Frames(own: Env, parent: Option<Env>) {
    ghost predicate Valid() {
      own.Valid() && (parent.Some? ==> parent.value.Valid())
    }

    /** parent_set: the parent's dict, or the set's own dict. */
    function Scope(): Env {
      if parent.Some? then parent.value else own
    }
  }

  /** The dicts after a row or rows, and the error that stopped them. */
  datatype Built = Built(frames: Frames, error: Option<Error>)

  predicate HasOperator(t: string) {
    exists i :: 0 <= i < |t| && IsOperatorChar(t[i])
  }

  predicate IsDistribution(t: string) {
    t == "lognormal" || t == "gaussian"
  }

  /** _create_new_parameter (lines 121-143) for one row. */
  function NewParameter(fr: Frames, row: seq<Cell>): (r: Built)
    requires fr.Valid()
    ensures r.frames.Valid() && r.frames.parent.Some? == fr.parent.Some?
  {
    match At(row, 0)
    case Err(e) => Built(fr, Some(e))
    case Ok(name) =>
      match At(row, 1)
      case Err(e) => Built(fr, Some(e))
      case Ok(cell) =>
        match cell
        case Str(t) =>
          if IsDistribution(t) then
            Built(fr.(own := Put(fr.own, name, PD(name, t))), None)
          else if HasOperator(t) then
            var ev := MathEval(t, fr.Scope(), fr.parent.Some?);
            var after := if fr.parent.Some? then fr.(parent := Some(ev.env)) else fr;
            (match ev.result
             case Err(e) => Built(after, Some(e))
             case Ok(v) =>
               match Rename(v, name)
               case Err(e) => Built(after, Some(e))
               case Ok(w) => Built(after.(own := Put(after.own, name, w)), None))
          else
            (match Get(fr.Scope(), Str(t))
             case None => Built(fr, Some(KeyError(Str(t))))
             case Some(v) => Built(fr.(own := Put(fr.own, name, v)), None))
        case Missing => Built(fr, None)
        case Num(x) => NumericParameter(fr, row, name, x)
  }

  /** Lines 138-143: bounds from columns 2 and 3 through float(), fixed
      exactly when column 4 equals 1. */
  function NumericParameter(fr: Frames, row: seq<Cell>, name: Cell, x: real): (r: Built)
    requires fr.Valid()
    ensures r.frames.Valid() && r.frames.parent == fr.parent
  {
    match BoundAt(row, 2)
    case Err(e) => Built(fr, Some(e))
    case Ok(lo) =>
      match BoundAt(row, 3)
      case Err(e) => Built(fr, Some(e))
      case Ok(hi) =>
        match At(row, 4)
        case Err(e) => Built(fr, Some(e))
        case Ok(flag) =>
          Built(fr.(own := Put(fr.own, name, Param(name, x, lo, hi, flag == Num(1.0)))), None)
  }

  /** float(row[k]) */
  function BoundAt(row: seq<Cell>, k: nat): (r: Result<Bound>)
    ensures k >= |row| ==> r == Err(IndexError(RowTooShort(k)))
    ensures k < |row| ==> r == ToBound(row[k])
  {
    match At(row, k)
    case Err(e) => Err(e)
    case Ok(c) => ToBound(c)
  }

  /** _create_parameters: every row in order, stopping at the first error. */
  function Build(fr: Frames, rows: seq<seq<Cell>>): (r: Built)
    requires fr.Valid()
    ensures r.frames.Valid() && r.frames.parent.Some? == fr.parent.Some?
    decreases |rows|
  {
    if rows == [] then Built(fr, None)
    else
      var b := NewParameter(fr, rows[0]);
      if b.error.Some? then b else Build(b.frames, rows[1..])
  }

  lemma BuildFirst(fr: Frames, rows: seq<seq<Cell>>)
    requires fr.Valid() && rows != []
    ensures var b := NewParameter(fr, rows[0]);
            Build(fr, rows) == if b.error.Some? then b else Build(b.frames, rows[1..])
  {
  }

  /** What the constructor was given as parent_set. */
  datatype Parent = NoParent | SetParent(ps: ParameterSet) | NotASet

  class ParameterSet {
    const name: string
    var params: Dict<Cell, Value>

    ghost predicate Valid()
      reads this
    {
      params.Valid()
    }

    /** The dicts a row of this set works on, given parent_set. */
    function FramesWith(parentSet: ParameterSet?): Frames
      reads this, parentSet
    {
      Frames(params, if parentSet != null then Some(parentSet.params) else None)
    }

    /** The first two lines of __init__: a name and an empty dict. */
    constructor Init(name: string)
      ensures this.name == name && params == Empty() && Valid()
    {
      this.name := name;
      params := Empty();
    }

    /** __getitem__: this set's own dict only. */
    function Get(key: Cell): (r: Result<Value>)
      reads this
      ensures r.Ok? <==> key in params.m
      ensures r.Ok? ==> r.value == params.m[key]
      ensures r.Err? ==> r.error == KeyError(key)
    {
      if key in params.m then Ok(params.m[key]) else Err(KeyError(key))
    }

    /** __contains__ */
    function Contains(key: Cell): (b: bool)
      reads this
      requires Valid()
      ensures b <==> key in params.keys
    {
      key in params.m
    }

    /** __iter__: every stored name exactly once, in the order the names
        were first stored. */
    function Names(): (ks: seq<Cell>)
      reads this
      requires Valid()
      ensures forall key :: key in ks <==> key in params.m
      ensures forall i, j :: 0 <= i < j < |ks| ==> ks[i] != ks[j]
    {
      params.keys
    }

    /** add: only a bumps Parameter or Operator is stored; anything else is
        a TypeError and the dict is left as it was. */
    method Add(key: Cell, value: Value) returns (err: Option<Error>)
      requires Valid()
      modifies this
      ensures Valid()
      ensures ParameterLike(value) ==> err == None && params == Put(old(params), key, value)
      ensures !ParameterLike(value) ==> err == Some(TypeError(NotAParameter)) && params == old(params)
    {
      if ParameterLike(value) {
        params := Put(params, key, value);
        err := None;
      } else {
        err := Some(TypeError(NotAParameter));
      }
    }

    /** The body of a matched bracket in _parse_parameter_math: evaluate it
        flat in scope (parent_set's dict, or this set's own dict when there
        is no parent) and add it to parent_set under the name of temporary
        n. A plain dict has no add method. */
    static method AddTemporary(body: string, n: nat, scope: Env, parentSet: ParameterSet?) returns (err: Option<Error>)
      requires scope.Valid() && (parentSet != null ==> parentSet.Valid() && parentSet.params == scope)
      modifies parentSet
      ensures parentSet != null ==> parentSet.Valid()
      ensures var a := AddBody(scope, body, n, parentSet != null);
              && err == (if a.Err? then Some(a.error) else None)
              && (parentSet != null ==> parentSet.params == if a.Ok? then a.value else scope)
    {
      var tempPar := ParseSimpleString(body, scope);
      if tempPar.Err? {
        return Some(tempPar.error);
      }
      if parentSet == null {
        return Some(AttributeError(DictHasNoAdd));
      }
      err := parentSet.Add(Str(TempName(n)), tempPar.value);
    }

    /** ob_list.pop() for a closing bracket: nothing to pop is an
        IndexError, and so is an opening bracket of another kind, because
        building the intended KeyError's message indexes a text array by a
        text array. */
    static method PopBracket(character: char, obList: seq<char>) returns (err: Option<Error>, opens: seq<char>)
      requires IsClosing(character)
      ensures obList == [] ==> err == Some(IndexError(PopFromEmpty))
      ensures obList != [] && obList[|obList| - 1] != Partner(character) ==> err == Some(IndexError(ArrayIndexedByText))
      ensures obList != [] && obList[|obList| - 1] == Partner(character) ==> err == None && opens == obList[..|obList| - 1]
    {
      if obList == [] {
        return Some(IndexError(PopFromEmpty)), obList;
      }
      var last := obList[|obList| - 1];
      opens := obList[..|obList| - 1];
      err := if last != Partner(character) then Some(IndexError(ArrayIndexedByText)) else None;
    }

    /** A closing bracket in _parse_parameter_math: pop the open bracket,
        evaluate the body and add it as the next temporary, and put its
        name in place of the bracketed span. On an error the dict is left
        as it was. */
    static method CloseBracket(character: char, stringList: seq<string>, obList: seq<char>, tempString: string,
                               tempParNumber: nat, scope: Env, parentSet: ParameterSet?)
      returns (err: Option<Error>, pending: seq<string>, opens: seq<char>, text: string, count: nat)
      requires IsClosing(character) && |stringList| == |obList| && scope.Valid()
      requires parentSet != null ==> parentSet.Valid() && parentSet.params == scope
      modifies parentSet
      ensures parentSet != null ==> parentSet.Valid()
      ensures err.Some? ==>
                && Close(Scan(stringList, obList, tempString, tempParNumber, scope), character, parentSet != null) == Err(err.value)
                && (parentSet != null ==> parentSet.params == scope)
      ensures err.None? ==>
                && parentSet != null
                && Close(Scan(stringList, obList, tempString, tempParNumber, scope), character, true) ==
                   Ok(Scan(pending, opens, text, count, parentSet.params))
    {
      pending, text, count := stringList, tempString, tempParNumber;
      err, opens := PopBracket(character, obList);
      if err.Some? {
        return;
      }
      count := tempParNumber + 1;
      err := AddTemporary(tempString, count, scope, parentSet);
      if err.Some? {
        return;
      }
      text := stringList[|stringList| - 1] + TempName(count);
      pending := stringList[..|stringList| - 1];
    }

    /** _parse_parameter_math with parent_set either another set or, when
        parentSet is null, this set's own dict. */
    method ParseParameterMath(toParse: string, parentSet: ParameterSet?) returns (r: Result<Value>)
      requires Valid() && (parentSet != null ==> parentSet != this && parentSet.Valid())
      modifies parentSet
      ensures parentSet != null ==> parentSet.Valid()
      ensures var ev := MathEval(toParse, old(FramesWith(parentSet)).Scope(), parentSet != null);
              && r == ev.result
              && (parentSet != null ==> parentSet.params == ev.env)
    {
      var scope := FramesWith(parentSet).Scope();
      if !HasOpening(toParse) {
        r := ParseSimpleString(toParse, scope);
        return;
      }
      ghost var canAdd := parentSet != null;
      ghost var start := Start(scope);
      var tempParNumber := 0;
      var stringList: seq<string> := [];
      var obList: seq<char> := [];
      var tempString := "";
      var i := 0;
      while i < |toParse|
        invariant 0 <= i <= |toParse|
        invariant parentSet != null ==> parentSet.Valid()
        invariant |stringList| == |obList|
        invariant Run(start, toParse, canAdd) ==
                  Run(Scan(stringList, obList, tempString, tempParNumber, FramesWith(parentSet).Scope()), toParse[i..], canAdd)
      {
        ghost var st := Scan(stringList, obList, tempString, tempParNumber, FramesWith(parentSet).Scope());
        assert toParse[i..][0] == toParse[i] && toParse[i..][1..] == toParse[i + 1..];
        var character := toParse[i];
        if IsOpening(character) {
          stringList := stringList + [tempString];
          obList := obList + [character];
          tempString := "";
        } else if IsClosing(character) {
          var err, pending, opens, text, count :=
            CloseBracket(character, stringList, obList, tempString, tempParNumber, FramesWith(parentSet).Scope(), parentSet);
          if err.Some? {
            return Err(err.value);
          }
          stringList, obList, tempString, tempParNumber := pending, opens, text, count;
        } else {
          tempString := tempString + [character];
        }
        assert Step(st, toParse[i], canAdd) ==
               Ok(Scan(stringList, obList, tempString, tempParNumber, FramesWith(parentSet).Scope()));
        i := i + 1;
      }
      r := ParseSimpleString(tempString, FramesWith(parentSet).Scope());
    }

    /** _create_new_parameter: store what one row defines. */
    method CreateNewParameter(line: seq<Cell>, parentSet: ParameterSet?) returns (err: Option<Error>)
      requires Valid() && (parentSet != null ==> parentSet != this && parentSet.Valid())
      modifies this, parentSet
      ensures Valid() && (parentSet != null ==> parentSet.Valid())
      ensures var b := NewParameter(old(FramesWith(parentSet)), line);
              err == b.error && FramesWith(parentSet) == b.frames
    {
      err := None;
      var name := At(line, 0);
      if name.Err? {
        return Some(name.error);
      }
      var cell := At(line, 1);
      if cell.Err? {
        return Some(cell.error);
      }
      match cell.value
      case Str(t) =>
        if IsDistribution(t) {
          params := Put(params, name.value, PD(name.value, t));
        } else if HasOperator(t) {
          var newParam := ParseParameterMath(t, parentSet);
          if newParam.Err? {
            return Some(newParam.error);
          }
          var renamed := Rename(newParam.value, name.value);
          if renamed.Err? {
            return Some(renamed.error);
          }
          params := Put(params, name.value, renamed.value);
        } else {
          var found := Dicts.Get(FramesWith(parentSet).Scope(), Str(t));
          if found.None? {
            return Some(KeyError(Str(t)));
          }
          params := Put(params, name.value, found.value);
        }
      case Missing =>
      case Num(x) =>
        var lo := BoundAt(line, 2);
        if lo.Err? {
          return Some(lo.error);
        }
        var hi := BoundAt(line, 3);
        if hi.Err? {
          return Some(hi.error);
        }
        var flag := At(line, 4);
        if flag.Err? {
          return Some(flag.error);
        }
        params := Put(params, name.value, Param(name.value, x, lo.value, hi.value, flag.value == Num(1.0)));
    }

    /** _create_parameters: the rows in order; the first error ends it. */
    method CreateParameters(rows: seq<seq<Cell>>, parentSet: ParameterSet?) returns (err: Option<Error>)
      requires Valid() && (parentSet != null ==> parentSet != this && parentSet.Valid())
      modifies this, parentSet
      ensures Valid() && (parentSet != null ==> parentSet.Valid())
      ensures var b := Build(old(FramesWith(parentSet)), rows);
              err == b.error && FramesWith(parentSet) == b.frames
    {
      ghost var start := FramesWith(parentSet);
      var i := 0;
      while i < |rows|
        invariant 0 <= i <= |rows|
        invariant Valid() && (parentSet != null ==> parentSet.Valid())
        invariant Build(start, rows) == Build(FramesWith(parentSet), rows[i..])
      {
        assert rows[i..][0] == rows[i] && rows[i..][1..] == rows[i + 1..];
        ghost var before := FramesWith(parentSet);
        err := CreateNewParameter(rows[i], parentSet);
        BuildFirst(before, rows[i..]);
        if err.Some? {
          return;
        }
        i := i + 1;
      }
      return None;
    }

    /** __init__: a parent that is neither None nor a ParameterSet is a
        TypeError; otherwise the rows are stored, with parent_set the
        parent or the new set's own dict. */
    static method New(name: string, rows: seq<seq<Cell>>, parent: Parent) returns (r: Result<ParameterSet>)
      requires parent.SetParent? ==> parent.ps.Valid()
      modifies if parent.SetParent? then {parent.ps} else {}
      ensures parent.NotASet? ==> r == Err(TypeError(InvalidParent))
      ensures !parent.NotASet? ==>
                var b := Build(Frames(Empty(), if parent.SetParent? then Some(old(parent.ps.params)) else None), rows);
                && (b.error.Some? ==> r == Err(b.error.value))
                && (b.error.None? ==> r.Ok? && fresh(r.value) && r.value.Valid()
                                      && r.value.name == name && r.value.params == b.frames.own)
                && (parent.SetParent? ==> parent.ps.Valid() && Some(parent.ps.params) == b.frames.parent)
    {
      if parent.NotASet? {
        return Err(TypeError(InvalidParent));
      }
      var s := new ParameterSet.Init(name);
      var parentSet: ParameterSet? := if parent.SetParent? then parent.ps else null;
      var err := s.CreateParameters(rows, parentSet);
      if err.Some? {
        return Err(err.value);
      }
      return Ok(s);
    }
  }
}
