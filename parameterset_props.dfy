/** What building a ParameterSet from rows guarantees
    (fitter/configloader.py:121-157). */
module ParameterSetProperties {
  import opened Errors
  import opened Dicts
  import opened Cells
  import opened Values
  import opened FlatFormula
  import opened Brackets
  import opened ParameterSets

  /** A row changes the set's own dict at the row's name only, and the
      parent's dict at temporaries only. */
  lemma RowTouchesOnlyItsName(fr: Frames, row: seq<Cell>)
    requires fr.Valid()
    ensures var b := NewParameter(fr, row).frames;
            forall key :: (|row| == 0 || key != row[0]) ==>
              (key in b.own.m <==> key in fr.own.m) && (key in fr.own.m ==> b.own.m[key] == fr.own.m[key])
    ensures var b := NewParameter(fr, row).frames;
            fr.parent.Some? ==> SameBeyondTemps(fr.parent.value, b.parent.value)
    ensures fr.parent.None? ==> NewParameter(fr, row).frames.parent.None?
  {
    RowChange(fr, row);
  }

  /** What one row does to the frames: a row that fails, is too short or
      has a blank value cell leaves the own dict as it was; any other row
      sets the row's name and nothing else. The parent changes at
      temporaries only. */
  lemma RowChange(fr: Frames, row: seq<Cell>)
    requires fr.Valid()
    ensures var b := NewParameter(fr, row);
            && (b.error.Some? || |row| < 2 || row[1].Missing? ==> b.frames.own == fr.own)
            && (b.error.None? && |row| >= 2 && !row[1].Missing? ==>
                  row[0] in b.frames.own.m && b.frames.own.m == fr.own.m[row[0] := b.frames.own.m[row[0]]])
            && (fr.parent.None? ==> b.frames.parent.None?)
            && (fr.parent.Some? ==> SameBeyondTemps(fr.parent.value, b.frames.parent.value))
  {
    if |row| >= 2 {
      match row[1]
      case Missing => BlankRowSkipped(fr, row);
      case Num(_) => NumericRow(fr, row);
      case Str(t) =>
        if IsDistribution(t) {
          DistributionRow(fr, row);
        } else if HasOperator(t) {
          FormulaRow(fr, row);
          MathEvalOnlyAddsTemporaries(t, fr.Scope(), fr.parent.Some?);
        } else {
          AliasRow(fr, row);
        }
    }
  }

  /** A blank (NaN) value cell stores nothing and raises nothing. */
  lemma BlankRowSkipped(fr: Frames, row: seq<Cell>)
    requires fr.Valid() && |row| >= 2 && row[1].Missing?
    ensures NewParameter(fr, row) == Built(fr, None)
  {
  }

  /** "lognormal" and "gaussian" become a PDParameter named after the row
      whose value is the tag. */
  lemma DistributionRow(fr: Frames, row: seq<Cell>)
    requires fr.Valid() && |row| >= 2 && row[1].Str? && IsDistribution(row[1].s)
    ensures var b := NewParameter(fr, row);
            && b.error.None?
            && b.frames.own.m == fr.own.m[row[0] := PD(row[0], row[1].s)]
            && b.frames.parent == fr.parent
  {
  }

  /** Derived parameters are fixed and unbounded. */
  predicate FixedUnbounded(v: Value) {
    || (v.Param? && v.lo == NegInf && v.hi == PosInf && v.fixed)
    || (v.Operator? && v.attrs.Labelled? && v.attrs.lo == NegInf && v.attrs.hi == PosInf && v.attrs.fixed)
  }

  /** A text with an operator character is a formula: it succeeds exactly
      when it evaluates to a Parameter or an Operator, which is then stored
      renamed to the row's name, unbounded and fixed. A formula that comes
      out as a plain number or a PDParameter fails when it is renamed. The
      parent's dict keeps the temporaries either way. */
  lemma FormulaRow(fr: Frames, row: seq<Cell>)
    requires fr.Valid() && |row| >= 2 && row[1].Str? && !IsDistribution(row[1].s) && HasOperator(row[1].s)
    ensures var ev := MathEval(row[1].s, fr.Scope(), fr.parent.Some?);
            var b := NewParameter(fr, row);
            && (b.error.None? <==> ev.result.Ok? && ParameterLike(ev.result.value))
            && (ev.result.Err? ==> b.error == Some(ev.result.error))
            && (ev.result.Ok? && ev.result.value.Float? ==> b.error == Some(AttributeError(NumberHasNoName)))
            && (ev.result.Ok? && ev.result.value.PD? ==> b.error == Some(AttributeError(NoRangeMethod)))
            && (fr.parent.Some? ==> b.frames.parent == Some(ev.env))
            && (b.error.Some? ==> b.frames.own == fr.own)
    ensures var b := NewParameter(fr, row);
            b.error.None? ==>
              && row[0] in b.frames.own.m
              && b.frames.own.m == fr.own.m[row[0] := b.frames.own.m[row[0]]]
              && NameOf(b.frames.own.m[row[0]]) == Some(row[0])
              && FixedUnbounded(b.frames.own.m[row[0]])
  {
  }

  /** Any other text names a parameter to share: KeyError exactly when
      parent_set has no such name, and otherwise the row's name stores the
      very value found there, keeping its own name. */
  lemma AliasRow(fr: Frames, row: seq<Cell>)
    requires fr.Valid() && |row| >= 2 && row[1].Str? && !IsDistribution(row[1].s) && !HasOperator(row[1].s)
    ensures var b := NewParameter(fr, row);
            && (b.error.Some? <==> Str(row[1].s) !in fr.Scope().m)
            && (b.error.Some? ==> b.error == Some(KeyError(Str(row[1].s))) && b.frames == fr)
            && (b.error.None? ==> b.frames.own.m == fr.own.m[row[0] := fr.Scope().m[Str(row[1].s)]])
            && b.frames.parent == fr.parent
  {
  }

  /** A number becomes a Parameter with that value, bounds float(row[2])
      and float(row[3]), fixed exactly when row[4] == 1; a short row is an
      IndexError and a bound that is not a number a ValueError. */
  lemma NumericRow(fr: Frames, row: seq<Cell>)
    requires fr.Valid() && |row| >= 2 && row[1].Num?
    ensures var b := NewParameter(fr, row);
            && (b.error.None? <==> |row| >= 5 && ToBound(row[2]).Ok? && ToBound(row[3]).Ok?)
            && (|row| < 3 ==> b.error == Some(IndexError(RowTooShort(2))))
            && (|row| >= 3 && ToBound(row[2]).Err? ==> b.error == Some(ToBound(row[2]).error))
            && b.frames.parent == fr.parent
            && (b.error.Some? ==> b.frames.own == fr.own)
    ensures var b := NewParameter(fr, row);
            b.error.None? ==>
              && row[0] in b.frames.own.m
              && b.frames.own.m == fr.own.m[row[0] := b.frames.own.m[row[0]]]
              && var p := b.frames.own.m[row[0]];
              && p.Param? && p.name == row[0] && p.value == row[1].x
              && Ok(p.lo) == ToBound(row[2]) && Ok(p.hi) == ToBound(row[3])
              && (p.fixed <==> row[4] == Num(1.0))
  {
  }

  /** Without a parent, parent_set is the set's own dict, which has no add
      method: every formula row with a closed bracket fails and stores
      nothing. */
  lemma ParentlessBracketFormulaFails(fr: Frames, row: seq<Cell>)
    requires fr.Valid() && fr.parent.None? && |row| >= 2 && row[1].Str?
    requires HasOperator(row[1].s) && HasOpening(row[1].s) && CountClosing(row[1].s) > 0
    ensures NewParameter(fr, row).error.Some?
    ensures NewParameter(fr, row).frames == fr
  {
    DistributionTagsPlain(row[1].s);
    NoParentMath(row[1].s, fr.own);
    FormulaRow(fr, row);
  }

  /** The tags "lognormal" and "gaussian" hold no bracket. */
  lemma DistributionTagsPlain(t: string)
    requires HasOpening(t)
    ensures !IsDistribution(t)
  {
    assert !HasOpening("lognormal") && !HasOpening("gaussian");
  }

  /** Names are never looked up along a parent chain: with a parent, a
      row's outcome does not depend on anything in the set's own dict. */
  lemma ParentedRowIgnoresOwnDict(own1: Env, own2: Env, parent: Env, row: seq<Cell>)
    requires own1.Valid() && own2.Valid() && parent.Valid()
    ensures var b1 := NewParameter(Frames(own1, Some(parent)), row);
            var b2 := NewParameter(Frames(own2, Some(parent)), row);
            && b1.error == b2.error
            && b1.frames.parent == b2.frames.parent
            && (b1.error.None? && |row| >= 2 && !row[1].Missing? ==>
                  row[0] in b1.frames.own.m && row[0] in b2.frames.own.m &&
                  b1.frames.own.m[row[0]] == b2.frames.own.m[row[0]])
  {
    if |row| >= 2 && row[1].Str? && !IsDistribution(row[1].s) && HasOperator(row[1].s) {
      assert Frames(own1, Some(parent)).Scope() == Frames(own2, Some(parent)).Scope();
    }
  }

  /** Building from rows then more rows is building from the first rows
      and carrying on from where they left off, unless they failed. */
  lemma {:induction false} BuildAppend(fr: Frames, rows: seq<seq<Cell>>, more: seq<seq<Cell>>)
    requires fr.Valid()
    ensures var b := Build(fr, rows);
            Build(fr, rows + more) == if b.error.Some? then b else Build(b.frames, more)
    decreases |rows|
  {
    if rows == [] {
      assert rows + more == more;
    } else {
      assert (rows + more)[0] == rows[0] && (rows + more)[1..] == rows[1..] + more;
      var b := NewParameter(fr, rows[0]);
      if b.error.None? {
        BuildAppend(b.frames, rows[1..], more);
      }
    }
  }

  /** Rows are stored in order, so when a set is built without error the
      last row of a name decides what the name holds: a numeric row that
      no later row overrides leaves the name holding its value, range and
      fixed flag, whatever came before it. */
  lemma LastNumericRowWins(fr: Frames, rows: seq<seq<Cell>>, row: seq<Cell>, rest: seq<seq<Cell>>)
    requires fr.Valid() && |row| >= 5 && row[1].Num?
    requires Build(fr, rows + [row] + rest).error.None?
    requires row[0] !in DefinedBy(rest)
    ensures var own := Build(fr, rows + [row] + rest).frames.own;
            && row[0] in own.m && own.m[row[0]].Param?
            && own.m[row[0]].name == row[0] && own.m[row[0]].value == row[1].x
            && Ok(own.m[row[0]].lo) == ToBound(row[2]) && Ok(own.m[row[0]].hi) == ToBound(row[3])
            && (own.m[row[0]].fixed <==> row[4] == Num(1.0))
  {
    BuildAppend(fr, rows + [row], rest);
    BuildAppend(fr, rows, [row]);
    var b := Build(fr, rows);
    assert b.error.None?;
    BuildOne(b.frames, row);
    NumericRow(b.frames, row);
    var c := Build(fr, rows + [row]);
    assert c.error.None?;
    BuildKeepsUndefined(c.frames, rest, row[0]);
  }

  /** Rows that do not define a name leave whatever it holds untouched. */
  lemma {:induction false} BuildKeepsUndefined(fr: Frames, rows: seq<seq<Cell>>, key: Cell)
    requires fr.Valid() && Build(fr, rows).error.None? && key !in DefinedBy(rows)
    ensures var own := Build(fr, rows).frames.own;
            (key in own.m <==> key in fr.own.m) && (key in fr.own.m ==> own.m[key] == fr.own.m[key])
    decreases |rows|
  {
    if rows != [] {
      var b := NewParameter(fr, rows[0]);
      RowChange(fr, rows[0]);
      RowTouchesOnlyItsName(fr, rows[0]);
      BuildKeepsUndefined(b.frames, rows[1..], key);
    }
  }

  lemma BuildOne(fr: Frames, row: seq<Cell>)
    requires fr.Valid()
    ensures Build(fr, [row]).frames == NewParameter(fr, row).frames
  {
    BuildFirst(fr, [row]);
  }

  /** The names a row defines: its name, unless its value cell is blank. */
  function Defines(row: seq<Cell>): set<Cell> {
    if |row| >= 2 && !row[1].Missing? then {row[0]} else {}
  }

  function DefinedBy(rows: seq<seq<Cell>>): set<Cell> {
    if rows == [] then {} else Defines(rows[0]) + DefinedBy(rows[1..])
  }

  /** A row without error stores exactly its own name, if any. */
  lemma RowDefinesItsName(fr: Frames, row: seq<Cell>)
    requires fr.Valid() && NewParameter(fr, row).error.None?
    ensures NewParameter(fr, row).frames.own.m.Keys == fr.own.m.Keys + Defines(row)
  {
    RowChange(fr, row);
  }

  /** A set built without error holds exactly the names of its rows whose
      value cell is not blank: no temporaries, nothing else. */
  lemma {:induction false} BuiltNames(fr: Frames, rows: seq<seq<Cell>>)
    requires fr.Valid() && Build(fr, rows).error.None?
    ensures Build(fr, rows).frames.own.m.Keys == fr.own.m.Keys + DefinedBy(rows)
    decreases |rows|
  {
    if rows != [] {
      var b := NewParameter(fr, rows[0]);
      RowDefinesItsName(fr, rows[0]);
      BuiltNames(b.frames, rows[1..]);
    }
  }

  /** Building a set from rows changes its parent only at temporaries: the
      parent's own names and values survive every row. */
  lemma {:induction false} BuildKeepsParentNames(fr: Frames, rows: seq<seq<Cell>>)
    requires fr.Valid() && fr.parent.Some?
    ensures SameBeyondTemps(fr.parent.value, Build(fr, rows).frames.parent.value)
    decreases |rows|
  {
    if rows != [] {
      var b := NewParameter(fr, rows[0]);
      RowChange(fr, rows[0]);
      if b.error.None? {
        BuildKeepsParentNames(b.frames, rows[1..]);
      }
    }
  }
}
