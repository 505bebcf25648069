/** The setup sheet (fitter/configloader.py:168-223): ModelSetup keeps the
    usable entries of four columns and zips them into fit setups;
    BumpsSetup turns the "Bumps Parameters"/"Value" rows into the bumps
    command line and picks the folder the fit is stored in. */
module Setups {
  import opened Errors
  import opened Cells

  // ---------------------------------------------------------------------
  // ModelSetup: filtering comprehensions (lines 176-182)

  /** [i for i in column if isinstance(i, str)] */
  function Strings(column: seq<Cell>): (r: seq<string>)
    ensures |r| <= |column|
    ensures forall s :: s in r <==> Str(s) in column
  {
    if column == [] then []
    else
      assert column == [column[0]] + column[1..];
      (if column[0].Str? then [column[0].s] else []) + Strings(column[1..])
  }

  /** Filtering keeps the order: it distributes over concatenation. */
  lemma {:induction false} StringsAppend(a: seq<Cell>, b: seq<Cell>)
    ensures Strings(a + b) == Strings(a) + Strings(b)
  {
    if a == [] {
      assert a + b == b;
    } else {
      assert (a + b)[0] == a[0] && (a + b)[1..] == a[1..] + b;
      StringsAppend(a[1..], b);
    }
  }

  /** [(i, j) for i, j in zip(qmin, qmax) if both are numbers, not NaN]:
      a blank cell is NaN and a text cell is no Number. */
  function QPairs(qmin: seq<Cell>, qmax: seq<Cell>): (r: seq<(real, real)>)
    ensures |r| <= |qmin| && |r| <= |qmax|
  {
    if qmin == [] || qmax == [] then []
    else (if qmin[0].Num? && qmax[0].Num? then [(qmin[0].x, qmax[0].x)] else []) + QPairs(qmin[1..], qmax[1..])
  }

  /** A pair is kept exactly when both cells of some row are numbers. */
  lemma {:induction false} QPairsMembers(qmin: seq<Cell>, qmax: seq<Cell>, lo: real, hi: real)
    ensures (lo, hi) in QPairs(qmin, qmax) <==>
            exists k :: 0 <= k < |qmin| && k < |qmax| && qmin[k] == Num(lo) && qmax[k] == Num(hi)
    decreases |qmin|
  {
    if qmin != [] && qmax != [] {
      QPairsMembers(qmin[1..], qmax[1..], lo, hi);
      if (lo, hi) in QPairs(qmin[1..], qmax[1..]) {
        var k :| 0 <= k < |qmin[1..]| && k < |qmax[1..]| && qmin[1..][k] == Num(lo) && qmax[1..][k] == Num(hi);
        assert qmin[k + 1] == Num(lo) && qmax[k + 1] == Num(hi);
      }
      if exists k :: 0 <= k < |qmin| && k < |qmax| && qmin[k] == Num(lo) && qmax[k] == Num(hi) {
        var k :| 0 <= k < |qmin| && k < |qmax| && qmin[k] == Num(lo) && qmax[k] == Num(hi);
        if k > 0 {
          assert qmin[1..][k - 1] == Num(lo) && qmax[1..][k - 1] == Num(hi);
        }
      }
    }
  }

  /** The pairs of two stacked blocks of rows are those of the first block
      followed by those of the second. */
  lemma {:induction false} QPairsAppend(a1: seq<Cell>, a2: seq<Cell>, b1: seq<Cell>, b2: seq<Cell>)
    requires |a1| == |b1|
    ensures QPairs(a1 + a2, b1 + b2) == QPairs(a1, b1) + QPairs(a2, b2)
    decreases |a1|
  {
    if a1 == [] {
      assert a1 + a2 == a2 && b1 + b2 == b2;
    } else {
      assert (a1 + a2)[0] == a1[0] && (a1 + a2)[1..] == a1[1..] + a2;
      assert (b1 + b2)[0] == b1[0] && (b1 + b2)[1..] == b1[1..] + b2;
      QPairsAppend(a1[1..], a2, b1[1..], b2);
    }
  }

  /** The state of a ModelSetup after __init__. get_modelnames,
      get_datasets and get_kernels return modelNames, dataFiles and
      kernelStrings. */
  datatype ModelSetup = ModelSetup(qLimits: seq<(real, real)>, modelNames: seq<string>,
                                   dataFiles: seq<string>, kernelStrings: seq<string>)

  /** The columns ModelSetup reads, in the order it reads them. */
  const ModelColumns: seq<string> := ["Qmin", "Qmax", "Modelname", "Data Files", "Kernels"]

  /** The named columns, read in order: the first that is missing is a
      KeyError naming it. */
  function ColumnsNamed(sheet: Sheet, names: seq<string>): (r: Result<seq<seq<Cell>>>)
    requires sheet.Rectangular()
    ensures r.Ok? <==> forall i :: 0 <= i < |names| ==> names[i] in sheet.headers
    ensures r.Ok? ==> |r.value| == |names| && forall i :: 0 <= i < |names| ==> Column(sheet, names[i]) == Ok(r.value[i])
    decreases |names|
  {
    if names == [] then Ok([])
    else
      match Column(sheet, names[0])
      case Err(e) => Err(e)
      case Ok(c) =>
        match ColumnsNamed(sheet, names[1..])
        case Err(e) => Err(e)
        case Ok(cs) => Ok([c] + cs)
  }

  /** The error of ColumnsNamed names the first missing column. */
  lemma {:induction false} ColumnsNamedError(sheet: Sheet, names: seq<string>)
    requires sheet.Rectangular() && ColumnsNamed(sheet, names).Err?
    ensures exists i :: 0 <= i < |names| && names[i] !in sheet.headers &&
              ColumnsNamed(sheet, names).error == KeyError(Str(names[i])) &&
              forall j :: 0 <= j < i ==> names[j] in sheet.headers
    decreases |names|
  {
    if names[0] in sheet.headers {
      ColumnsNamedError(sheet, names[1..]);
      var i :| 0 <= i < |names| - 1 && names[1..][i] !in sheet.headers &&
               ColumnsNamed(sheet, names[1..]).error == KeyError(Str(names[1..][i])) &&
               forall j :: 0 <= j < i ==> names[1..][j] in sheet.headers;
      assert forall j :: 0 <= j < i + 1 ==> names[j] in sheet.headers by {
        forall j | 0 <= j < i + 1 ensures names[j] in sheet.headers {
          if j > 0 { assert names[j] == names[1..][j - 1]; }
        }
      }
    } else {
      assert names[0] !in sheet.headers;
    }
  }

  /** ModelSetup.__init__: reads Qmin, Qmax, Modelname, Data Files and
      Kernels, in that order. */
  function NewModelSetup(sheet: Sheet): (r: Result<ModelSetup>)
    requires sheet.Rectangular()
    ensures r.Err? <==> exists i :: 0 <= i < |ModelColumns| && ModelColumns[i] !in sheet.headers
    ensures r.Err? ==> r == Err(ColumnsNamed(sheet, ModelColumns).error)
    ensures r.Ok? ==>
              && Column(sheet, ModelColumns[0]).Ok? && Column(sheet, ModelColumns[1]).Ok?
              && Column(sheet, ModelColumns[2]).Ok? && Column(sheet, ModelColumns[3]).Ok? && Column(sheet, ModelColumns[4]).Ok?
              && r.value.qLimits == QPairs(Column(sheet, ModelColumns[0]).value, Column(sheet, ModelColumns[1]).value)
              && r.value.modelNames == Strings(Column(sheet, ModelColumns[2]).value)
              && r.value.dataFiles == Strings(Column(sheet, ModelColumns[3]).value)
              && r.value.kernelStrings == Strings(Column(sheet, ModelColumns[4]).value)
  {
    match ColumnsNamed(sheet, ModelColumns)
    case Err(e) => Err(e)
    case Ok(cols) => Ok(ModelSetup(QPairs(cols[0], cols[1]), Strings(cols[2]), Strings(cols[3]), Strings(cols[4])))
  }

  /** A missing column is a KeyError naming the first missing one. */
  lemma ModelSetupMissingColumn(sheet: Sheet)
    requires sheet.Rectangular() && NewModelSetup(sheet).Err?
    ensures exists i :: 0 <= i < |ModelColumns| && ModelColumns[i] !in sheet.headers &&
              NewModelSetup(sheet).error == KeyError(Str(ModelColumns[i])) &&
              forall j :: 0 <= j < i ==> ModelColumns[j] in sheet.headers
  {
    ColumnsNamedError(sheet, ModelColumns);
  }

  /** One fit: model name, data file, Q range and kernel string. */
  type FitSetup = (string, string, (real, real), string)

  /** zip of four lists: as long as the shortest, entries aligned. */
  function Zip4(a: seq<string>, b: seq<string>, c: seq<(real, real)>, d: seq<string>): (r: seq<FitSetup>)
    ensures |r| <= |a| && |r| <= |b| && |r| <= |c| && |r| <= |d|
    ensures |r| == |a| || |r| == |b| || |r| == |c| || |r| == |d|
    ensures forall i :: 0 <= i < |r| ==> r[i] == (a[i], b[i], c[i], d[i])
  {
    if a == [] || b == [] || c == [] || d == [] then []
    else [(a[0], b[0], c[0], d[0])] + Zip4(a[1..], b[1..], c[1..], d[1..])
  }

  /** get_setups */
  function GetSetups(m: ModelSetup): (r: seq<FitSetup>)
    ensures |r| <= |m.modelNames| && |r| <= |m.dataFiles| && |r| <= |m.qLimits| && |r| <= |m.kernelStrings|
    ensures |r| == |m.modelNames| || |r| == |m.dataFiles| || |r| == |m.qLimits| || |r| == |m.kernelStrings|
    ensures forall i :: 0 <= i < |r| ==>
              r[i] == (m.modelNames[i], m.dataFiles[i], m.qLimits[i], m.kernelStrings[i])
  {
    Zip4(m.modelNames, m.dataFiles, m.qLimits, m.kernelStrings)
  }

  // ---------------------------------------------------------------------
  // BumpsSetup (lines 199-223)

  /** [(i, j) for i, j in zip(keys, values) if isinstance(i, str)] */
  function KeyedRows(keys: seq<Cell>, values: seq<Cell>): (r: seq<(string, Cell)>)
    ensures |r| <= |keys| && |r| <= |values|
  {
    if keys == [] || values == [] then []
    else (if keys[0].Str? then [(keys[0].s, values[0])] else []) + KeyedRows(keys[1..], values[1..])
  }

  /** A row is kept exactly when its key is text. */
  lemma {:induction false} KeyedRowsMembers(keys: seq<Cell>, values: seq<Cell>, key: string, value: Cell)
    ensures (key, value) in KeyedRows(keys, values) <==>
            exists k :: 0 <= k < |keys| && k < |values| && keys[k] == Str(key) && values[k] == value
    decreases |keys|
  {
    if keys != [] && values != [] {
      KeyedRowsMembers(keys[1..], values[1..], key, value);
      if (key, value) in KeyedRows(keys[1..], values[1..]) {
        var k :| 0 <= k < |keys[1..]| && k < |values[1..]| && keys[1..][k] == Str(key) && values[1..][k] == value;
        assert keys[k + 1] == Str(key) && values[k + 1] == value;
      }
      if exists k :: 0 <= k < |keys| && k < |values| && keys[k] == Str(key) && values[k] == value {
        var k :| 0 <= k < |keys| && k < |values| && keys[k] == Str(key) && values[k] == value;
        if k > 0 {
          assert keys[1..][k - 1] == Str(key) && values[1..][k - 1] == value;
        }
      }
    }
  }

  /** isinstance(j, str) or (isinstance(j, Number) and not isnan(j)) */
  predicate HasValue(v: Cell) { v.Str? || v.Num? }

  /** The option one row contributes. */
  function Flag(key: string, v: Cell): string {
    if HasValue(v) then "--" + key + "=" + CellText(v) + " " else "--" + key + " "
  }

  /** The options of the rows ps, in order. */
  function Options(ps: seq<(string, Cell)>): string
    decreases |ps|
  {
    if ps == [] then "" else Options(ps[..|ps| - 1]) + Flag(ps[|ps| - 1].0, ps[|ps| - 1].1)
  }

  /** A "store" row with a value: it sets the storage path. */
  predicate IsStore(p: (string, Cell)) { p.0 == "store" && HasValue(p.1) }

  /** The storage path after the rows ps, starting from path. */
  function StoreAfter(ps: seq<(string, Cell)>, path: string): string
    decreases |ps|
  {
    if ps == [] then path
    else if IsStore(ps[|ps| - 1]) then CellText(ps[|ps| - 1].1)
    else StoreAfter(ps[..|ps| - 1], path)
  }

  /** One more row: its option follows those of the rows before it. */
  lemma OptionsStep(ps: seq<(string, Cell)>, i: nat)
    requires i < |ps|
    ensures Options(ps[..i + 1]) == Options(ps[..i]) + Flag(ps[i].0, ps[i].1)
  {
    assert ps[..i + 1][..i] == ps[..i];
  }

  /** One more row: a "store" row with a value sets the path, any other
      row keeps it. */
  lemma StoreStep(ps: seq<(string, Cell)>, i: nat, path: string)
    requires i < |ps|
    ensures StoreAfter(ps[..i + 1], path) ==
            if IsStore(ps[i]) then CellText(ps[i].1) else StoreAfter(ps[..i], path)
  {
    assert ps[..i + 1][..i] == ps[..i];
  }

  /** The options of rows ending in last are those of the rows before it
      followed by last's option. */
  lemma OptionsLast(ps: seq<(string, Cell)>, init: seq<(string, Cell)>, last: (string, Cell))
    requires ps == init + [last]
    ensures Options(ps) == Options(init) + Flag(last.0, last.1)
  {
    assert ps[..|ps| - 1] == init;
  }

  /** Appending f after x + y is appending y + f after x. */
  lemma JoinAssoc(whole: string, prefix: string, x: string, y: string, yf: string, f: string)
    requires whole == prefix + f && prefix == x + y && yf == y + f
    ensures whole == x + yf
  {
  }

  /** Each row adds its own option after those before it. */
  lemma {:induction false} OptionsAppend(a: seq<(string, Cell)>, b: seq<(string, Cell)>)
    ensures Options(a + b) == Options(a) + Options(b)
    decreases |b|
  {
    if b == [] {
      assert a + b == a;
    } else {
      var n := |b| - 1;
      var ab := a + b;
      var f := Flag(b[n].0, b[n].1);
      assert b == b[..n] + [b[n]];
      OptionsLast(b, b[..n], b[n]);
      assert ab == (a + b[..n]) + [b[n]];
      OptionsLast(ab, a + b[..n], b[n]);
      OptionsAppend(a, b[..n]);
      JoinAssoc(Options(ab), Options(a + b[..n]), Options(a), Options(b[..n]), Options(b), f);
    }
  }

  /** Every row yields an option: the text is empty exactly when there are
      no rows, and each row's option starts with "--" and ends with a
      space. */
  lemma OptionsShape(ps: seq<(string, Cell)>)
    ensures Options(ps) == "" <==> ps == []
    ensures ps != [] ==> var t := Flag(ps[|ps| - 1].0, ps[|ps| - 1].1);
                         t[..2] == "--" && t[|t| - 1] == ' ' && Options(ps) == Options(ps[..|ps| - 1]) + t
  {
  }

  /** The last "store" row with a value decides the storage path. */
  lemma {:induction false} StoreLastWins(ps: seq<(string, Cell)>, path: string, k: nat)
    requires k < |ps| && IsStore(ps[k])
    requires forall j :: k < j < |ps| ==> !IsStore(ps[j])
    ensures StoreAfter(ps, path) == CellText(ps[k].1)
    decreases |ps|
  {
    if k < |ps| - 1 {
      StoreLastWins(ps[..|ps| - 1], path, k);
    }
  }

  /** Without a "store" row with a value, the path stays as it was. */
  lemma {:induction false} StoreDefault(ps: seq<(string, Cell)>, path: string)
    requires forall j :: 0 <= j < |ps| ==> !IsStore(ps[j])
    ensures StoreAfter(ps, path) == path
    decreases |ps|
  {
    if ps != [] {
      StoreDefault(ps[..|ps| - 1], path);
    }
  }

  /** os.path.join(directory, file) on a POSIX system, for a file name
      that is not absolute. */
  function PathJoin(directory: string, file: string): (p: string)
    ensures |p| >= |file| && p[|p| - |file|..] == file
    ensures |p| >= |directory| && p[..|directory|] == directory
  {
    if directory == [] then file
    else if directory[|directory| - 1] == '/' then directory + file
    else directory + "/" + file
  }

  class BumpsSetup {
    var storagePath: string
    var bumpsParameters: seq<(string, Cell)>
    var bumpsString: string

    /** What __init__ establishes: the options and the storage path are
        those of the kept rows, with "fit" as the default path. */
    ghost predicate Valid()
      reads this
    {
      && bumpsString == Options(bumpsParameters)
      && storagePath == StoreAfter(bumpsParameters, "fit")
    }

    /** __init__ once the rows are picked out of the sheet. */
    constructor Init(ps: seq<(string, Cell)>)
      ensures bumpsParameters == ps && Valid()
    {
      storagePath := "fit";
      bumpsParameters := ps;
      bumpsString := "";
      new;
      bumpsString := CreateBumpsString();
    }

    /** _create_bumps_string: one option per row; a "store" row with a
        value also sets the storage path. */
    method CreateBumpsString() returns (result: string)
      modifies this
      ensures bumpsParameters == old(bumpsParameters) && bumpsString == old(bumpsString)
      ensures result == Options(bumpsParameters)
      ensures storagePath == StoreAfter(bumpsParameters, old(storagePath))
    {
      result := "";
      var i := 0;
      while i < |bumpsParameters|
        invariant 0 <= i <= |bumpsParameters|
        invariant bumpsParameters == old(bumpsParameters) && bumpsString == old(bumpsString)
        invariant result == Options(bumpsParameters[..i])
        invariant storagePath == StoreAfter(bumpsParameters[..i], old(storagePath))
      {
        var key := bumpsParameters[i].0;
        var value := bumpsParameters[i].1;
        OptionsStep(bumpsParameters, i);
        StoreStep(bumpsParameters, i, old(storagePath));
        if HasValue(value) {
          if key == "store" {
            storagePath := CellText(value);
          }
          result := result + ("--" + key + "=" + CellText(value) + " ");
        } else {
          result := result + ("--" + key + " ");
        }
        i := i + 1;
      }
      assert bumpsParameters[..i] == bumpsParameters;
    }

    /** storage_path */
    function StoragePath(): (p: string)
      reads this
      requires Valid()
      ensures p == StoreAfter(bumpsParameters, "fit")
      ensures (forall j :: 0 <= j < |bumpsParameters| ==> !IsStore(bumpsParameters[j])) ==> p == "fit"
    {
      StoreDefaultIfNoStore();
      storagePath
    }

    lemma StoreDefaultIfNoStore()
      ensures (forall j :: 0 <= j < |bumpsParameters| ==> !IsStore(bumpsParameters[j])) ==>
              StoreAfter(bumpsParameters, "fit") == "fit"
    {
      if forall j :: 0 <= j < |bumpsParameters| ==> !IsStore(bumpsParameters[j]) {
        StoreDefault(bumpsParameters, "fit");
      }
    }

    /** get_bumps: the options, the model and configuration files, and
        the redirection of the output to log.log in the storage folder. */
    function GetBumps(modelFile: string := "model.py", configFile: string := "config.xlsx"): (cmd: string)
      reads this
      requires Valid()
      ensures cmd == Options(bumpsParameters) + " " + modelFile + " " + configFile + " > " +
                     PathJoin(StoreAfter(bumpsParameters, "fit"), "log.log")
    {
      bumpsString + " " + modelFile + " " + configFile + " > " + PathJoin(storagePath, "log.log")
    }

    /** BumpsSetup(setup_sheet): a missing "Bumps Parameters" or "Value"
        column is a KeyError naming it. */
    static method New(sheet: Sheet) returns (r: Result<BumpsSetup>)
      requires sheet.Rectangular()
      ensures "Bumps Parameters" !in sheet.headers ==> r == Err(KeyError(Str("Bumps Parameters")))
      ensures "Bumps Parameters" in sheet.headers && "Value" !in sheet.headers ==> r == Err(KeyError(Str("Value")))
      ensures "Bumps Parameters" in sheet.headers && "Value" in sheet.headers ==>
                && r.Ok? && fresh(r.value) && r.value.Valid()
                && r.value.bumpsParameters == KeyedRows(Column(sheet, "Bumps Parameters").value, Column(sheet, "Value").value)
    {
      var keys := Column(sheet, "Bumps Parameters");
      if keys.Err? {
        return Err(keys.error);
      }
      var values := Column(sheet, "Value");
      if values.Err? {
        return Err(values.error);
      }
      var b := new BumpsSetup.Init(KeyedRows(keys.value, values.value));
      return Ok(b);
    }
  }

  /** Setup: the BumpsSetup and the ModelSetup of one sheet, built in that
      order, so a missing bumps column is reported first. */
  class Setup {
    const bsetup: BumpsSetup
    const msetup: ModelSetup

    constructor Init(b: BumpsSetup, m: ModelSetup)
      ensures bsetup == b && msetup == m
    {
      bsetup := b;
      msetup := m;
    }

    static method New(sheet: Sheet) returns (r: Result<Setup>)
      requires sheet.Rectangular()
      ensures r.Ok? <==> "Bumps Parameters" in sheet.headers && "Value" in sheet.headers && NewModelSetup(sheet).Ok?
      ensures "Bumps Parameters" !in sheet.headers ==> r == Err(KeyError(Str("Bumps Parameters")))
      ensures "Bumps Parameters" in sheet.headers && "Value" !in sheet.headers ==> r == Err(KeyError(Str("Value")))
      ensures "Bumps Parameters" in sheet.headers && "Value" in sheet.headers && NewModelSetup(sheet).Err? ==>
                r == Err(NewModelSetup(sheet).error)
      ensures r.Ok? ==> fresh(r.value) && fresh(r.value.bsetup) && r.value.bsetup.Valid() &&
                        r.value.msetup == NewModelSetup(sheet).value
    {
      var b := BumpsSetup.New(sheet);
      if b.Err? {
        return Err(b.error);
      }
      var m := NewModelSetup(sheet);
      if m.Err? {
        return Err(m.error);
      }
      var s := new Setup.Init(b.value, m.value);
      return Ok(s);
    }
  }
}
