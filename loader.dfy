/** ConfigLoader.create_parametersets (fitter/configloader.py:239-256):
    every sheet after the first becomes parameter sets. The sheet "Global
    Parameters" becomes one set without a parent; any other sheet is cut
    into groups of five columns with one spare column between groups, and
    each group becomes a set whose parent is the Global set. */
module Loader {
  import opened Errors
  import opened Dicts
  import opened Cells
  import opened Values
  import opened FlatFormula
  import opened Brackets
  import opened ParameterSets
  import opened ParameterSetProperties

  const GlobalName: string := "Global Parameters"

  /** int((ncols + 1) / 6): the number of column groups of a sheet. */
  function GroupCount(ncols: nat): nat {
    (ncols + 1) / 6
  }

  /** Group i exists exactly when its five columns 6i .. 6i+4 are all in
      the sheet. */
  lemma GroupsFit(ncols: nat, i: nat)
    ensures i < GroupCount(ncols) <==> 6 * i + 5 <= ncols
  {
  }

  /** The name of group i: the sheet name, '_' and the group's first header. */
  function GroupName(sheetName: string, sheet: Sheet, i: nat): (name: string)
    requires i < GroupCount(|sheet.headers|)
    ensures name == sheetName + "_" + sheet.headers[6 * i]
  {
    GroupsFit(|sheet.headers|, i);
    sheetName + "_" + sheet.headers[6 * i]
  }

  /** The names of groups i, i+1, ... of a sheet. */
  function GroupNameSet(sheetName: string, sheet: Sheet, i: nat): set<string>
    decreases GroupCount(|sheet.headers|) - i
  {
    if i >= GroupCount(|sheet.headers|) then {}
    else {GroupName(sheetName, sheet, i)} + GroupNameSet(sheetName, sheet, i + 1)
  }

  /** A name is in GroupNameSet exactly when it is the name of group i or
      a later one. */
  lemma {:induction false} GroupNameSetMembers(sheetName: string, sheet: Sheet, i: nat, name: string)
    ensures name in GroupNameSet(sheetName, sheet, i) <==>
            exists j :: i <= j < GroupCount(|sheet.headers|) && name == GroupName(sheetName, sheet, j)
    decreases GroupCount(|sheet.headers|) - i
  {
    if i < GroupCount(|sheet.headers|) {
      GroupNameSetMembers(sheetName, sheet, i + 1, name);
    }
  }

  /** The rows of .iloc[:, 6i:6i+5]: columns 6i .. 6i+4 of every row. */
  function GroupRows(sheet: Sheet, i: nat): (rows: seq<seq<Cell>>)
    requires sheet.Rectangular() && i < GroupCount(|sheet.headers|)
    ensures |rows| == |sheet.rows|
    ensures forall r :: 0 <= r < |rows| ==>
              |rows[r]| == 5 && forall c :: 0 <= c < 5 ==> rows[r][c] == sheet.rows[r][6 * i + c]
  {
    GroupsFit(|sheet.headers|, i);
    Columns(sheet.rows, 6 * i, 6 * i + 5)
  }

  /** Columns lo .. hi-1 of every row. */
  function Columns(rows: seq<seq<Cell>>, lo: nat, hi: nat): (r: seq<seq<Cell>>)
    requires lo <= hi && forall k :: 0 <= k < |rows| ==> hi <= |rows[k]|
    ensures |r| == |rows|
    ensures forall k :: 0 <= k < |r| ==> r[k] == rows[k][lo..hi]
  {
    if rows == [] then [] else [rows[0][lo..hi]] + Columns(rows[1..], lo, hi)
  }

  /** Group i of a sheet built as a set whose parent is the Global dict. */
  function GroupBuild(global: Env, sheet: Sheet, i: nat): (b: Built)
    requires global.Valid() && sheet.Rectangular() && i < GroupCount(|sheet.headers|)
    ensures b.frames.Valid() && b.frames.parent.Some?
  {
    Build(Frames(Empty(), Some(global)), GroupRows(sheet, i))
  }

  /** What _sets holds under one key, with each set as its dict. */
  datatype EntryValue = SetValue(params: Env) | GroupValue(members: Dict<string, Env>)

  ghost predicate EntryValid(e: EntryValue) {
    match e
    case SetValue(p) => p.Valid()
    case GroupValue(g) => g.Valid()
  }

  /** _sets remembers its keys' order, and so does the Global set that
      dataset sets read. */
  ghost predicate EntriesValid(sets: Dict<string, EntryValue>) {
    sets.Valid() && (GlobalName in sets.m ==> EntryValid(sets.m[GlobalName]))
  }

  lemma EntriesValidPut(sets: Dict<string, EntryValue>, k: string, e: EntryValue)
    requires EntriesValid(sets) && EntryValid(e)
    ensures EntriesValid(Put(sets, k, e))
  {
  }

  /** _sets so far, and the exception that ended the loop, if any. */
  datatype Loaded = Loaded(sets: Dict<string, EntryValue>, error: Option<Error>)

  /** A workbook: its sheets in order, every one a DataFrame. */
  ghost predicate Workbook(sheets: seq<(string, Sheet)>) {
    forall k :: 0 <= k < |sheets| ==> sheets[k].1.Rectangular()
  }

  /** create_parametersets on the sheets in order: the first is skipped. */
  function Load(sheets: seq<(string, Sheet)>): (r: Loaded)
    requires Workbook(sheets)
    ensures EntriesValid(r.sets)
  {
    if sheets == [] then Loaded(Empty(), None) else LoadSheets(Empty(), sheets[1..])
  }

  /** The loop over the sheets after the first, from the sets so far. */
  function LoadSheets(sets: Dict<string, EntryValue>, sheets: seq<(string, Sheet)>): (r: Loaded)
    requires EntriesValid(sets) && Workbook(sheets)
    ensures EntriesValid(r.sets)
    decreases |sheets|
  {
    if sheets == [] then Loaded(sets, None)
    else
      var l := LoadSheet(sets, sheets[0].0, sheets[0].1);
      if l.error.Some? then l else LoadSheets(l.sets, sheets[1..])
  }

  /** One sheet: the Global sheet is one set without a parent; any other
      sheet first gets an empty dict of groups, which the groups fill. */
  function LoadSheet(sets: Dict<string, EntryValue>, sheetName: string, sheet: Sheet): (r: Loaded)
    requires EntriesValid(sets) && sheet.Rectangular()
    ensures EntriesValid(r.sets)
  {
    if sheetName == GlobalName then
      var b := Build(Frames(Empty(), None), sheet.rows);
      if b.error.Some? then Loaded(sets, b.error)
      else Loaded(Put(sets, sheetName, SetValue(b.frames.own)), None)
    else
      LoadGroups(Put(sets, sheetName, GroupValue(Empty())), sheetName, sheet, Empty(), 0)
  }

  /** The loop over groups i, i+1, ...: each looks up the Global set (a
      KeyError while there is none), builds its set with that parent, and
      stores it in the sheet's dict. Temporaries the group adds to the
      Global set stay there even when the group fails. */
  function LoadGroups(sets: Dict<string, EntryValue>, sheetName: string, sheet: Sheet,
                      members: Dict<string, Env>, i: nat): (r: Loaded)
    requires EntriesValid(sets) && EntryValid(GroupValue(members)) && sheet.Rectangular()
    ensures EntriesValid(r.sets)
    decreases GroupCount(|sheet.headers|) - i
  {
    if i >= GroupCount(|sheet.headers|) then Loaded(sets, None)
    else
      if GlobalName !in sets.m then Loaded(sets, Some(KeyError(Str(GlobalName))))
      else
        match sets.m[GlobalName]
        case GroupValue(_) => Loaded(sets, Some(TypeError(InvalidParent)))
        case SetValue(global) =>
          var b := GroupBuild(global, sheet, i);
          var sets' := Put(sets, GlobalName, SetValue(b.frames.parent.value));
          if b.error.Some? then Loaded(sets', b.error)
          else
            var members' := Put(members, GroupName(sheetName, sheet, i), b.frames.own);
            LoadGroups(Put(sets', sheetName, GroupValue(members')), sheetName, sheet, members', i + 1)
  }

  // ---------------------------------------------------------------------
  // What loading guarantees

  /** A sheet other than the Global one, while no Global set exists: a
      sheet too narrow for a group gets an empty dict and raises nothing;
      a wider one raises KeyError for "Global Parameters" at its first
      group, leaving its empty dict behind. */
  lemma GroupsNeedGlobal(sets: Dict<string, EntryValue>, sheetName: string, sheet: Sheet)
    requires EntriesValid(sets) && sheet.Rectangular() && sheetName != GlobalName && GlobalName !in sets.m
    ensures var r := LoadSheet(sets, sheetName, sheet);
            r.sets == Put(sets, sheetName, GroupValue(Empty())) &&
            r.error == if GroupCount(|sheet.headers|) == 0 then None else Some(KeyError(Str(GlobalName)))
  {
  }

  /** A sheet that yields groups, met before the Global sheet, ends the
      whole loop with that KeyError. */
  lemma GlobalMustComeFirst(sets: Dict<string, EntryValue>, sheets: seq<(string, Sheet)>)
    requires EntriesValid(sets) && Workbook(sheets) && GlobalName !in sets.m
    requires sheets != [] && sheets[0].0 != GlobalName && GroupCount(|sheets[0].1.headers|) > 0
    ensures LoadSheets(sets, sheets).error == Some(KeyError(Str(GlobalName)))
  {
    GroupsNeedGlobal(sets, sheets[0].0, sheets[0].1);
  }

  /** The Global sheet becomes one set built without a parent. */
  lemma GlobalSheetHasNoParent(sets: Dict<string, EntryValue>, sheet: Sheet)
    requires EntriesValid(sets) && sheet.Rectangular()
    ensures var b := Build(Frames(Empty(), None), sheet.rows);
            var r := LoadSheet(sets, GlobalName, sheet);
            && r.error == b.error
            && (b.error.None? ==> GlobalName in r.sets.m && r.sets.m[GlobalName] == SetValue(b.frames.own))
            && (b.error.Some? ==> r.sets == sets)
  {
  }

  /** One group of LoadGroups, once the Global set is found. */
  lemma LoadGroupsStep(sets: Dict<string, EntryValue>, sheetName: string, sheet: Sheet,
                       members: Dict<string, Env>, i: nat)
    requires EntriesValid(sets) && EntryValid(GroupValue(members)) && sheet.Rectangular()
    requires i < GroupCount(|sheet.headers|) && GlobalName in sets.m && sets.m[GlobalName].SetValue?
    ensures var b := GroupBuild(sets.m[GlobalName].params, sheet, i);
            var sets' := Put(sets, GlobalName, SetValue(b.frames.parent.value));
            LoadGroups(sets, sheetName, sheet, members, i) ==
              if b.error.Some? then Loaded(sets', b.error)
              else
                var members' := Put(members, GroupName(sheetName, sheet, i), b.frames.own);
                LoadGroups(Put(sets', sheetName, GroupValue(members')), sheetName, sheet, members', i + 1)
  {
  }

  /** A group that fails ends the loop; its temporaries stay in the
      Global set. */
  lemma GroupFailed(sets: Dict<string, EntryValue>, sheetName: string, sheet: Sheet,
                    members: Dict<string, Env>, i: nat)
    requires EntriesValid(sets) && EntryValid(GroupValue(members)) && sheet.Rectangular()
    requires i < GroupCount(|sheet.headers|) && GlobalName in sets.m && sets.m[GlobalName].SetValue?
    requires GroupBuild(sets.m[GlobalName].params, sheet, i).error.Some?
    ensures var b := GroupBuild(sets.m[GlobalName].params, sheet, i);
            LoadGroups(sets, sheetName, sheet, members, i) ==
              Loaded(Put(sets, GlobalName, SetValue(b.frames.parent.value)), b.error)
  {
  }

  /** A group that loads: what the loop carries on with. */
  lemma GroupLoaded(sets: Dict<string, EntryValue>, sheetName: string, sheet: Sheet,
                    members: Dict<string, Env>, i: nat)
    requires EntriesValid(sets) && EntryValid(GroupValue(members)) && sheet.Rectangular() && sheetName != GlobalName
    requires i < GroupCount(|sheet.headers|) && GlobalName in sets.m && sets.m[GlobalName].SetValue?
    requires GroupBuild(sets.m[GlobalName].params, sheet, i).error.None?
    ensures var b := GroupBuild(sets.m[GlobalName].params, sheet, i);
            var members' := Put(members, GroupName(sheetName, sheet, i), b.frames.own);
            var next := Put(Put(sets, GlobalName, SetValue(b.frames.parent.value)), sheetName, GroupValue(members'));
            && EntriesValid(next) && EntryValid(GroupValue(members'))
            && next.m[GlobalName] == SetValue(b.frames.parent.value)
            && sheetName in next.m && next.m[sheetName] == GroupValue(members')
            && SameBeyondTemps(sets.m[GlobalName].params, b.frames.parent.value)
            && LoadGroups(sets, sheetName, sheet, members, i) == LoadGroups(next, sheetName, sheet, members', i + 1)
  {
    var global := sets.m[GlobalName].params;
    var b := GroupBuild(global, sheet, i);
    BuildKeepsParentNames(Frames(Empty(), Some(global)), GroupRows(sheet, i));
    var sets' := Put(sets, GlobalName, SetValue(b.frames.parent.value));
    var members' := Put(members, GroupName(sheetName, sheet, i), b.frames.own);
    EntriesValidPut(sets, GlobalName, SetValue(b.frames.parent.value));
    assert EntryValid(GroupValue(members'));
    EntriesValidPut(sets', sheetName, GroupValue(members'));
    LoadGroupsStep(sets, sheetName, sheet, members, i);
  }

  /** The names of a sheet's sets, when all its groups load: one per
      group, the sheet name joined to the group's first header (groups
      with the same first header share one entry, the later one winning). */
  lemma {:induction false} GroupNames(sets: Dict<string, EntryValue>, sheetName: string, sheet: Sheet,
                                      members: Dict<string, Env>, i: nat)
    requires EntriesValid(sets) && EntryValid(GroupValue(members)) && sheet.Rectangular()
    requires sheetName != GlobalName && sheetName in sets.m && sets.m[sheetName] == GroupValue(members)
    requires i <= GroupCount(|sheet.headers|)
    ensures var r := LoadGroups(sets, sheetName, sheet, members, i);
            && sheetName in r.sets.m && r.sets.m[sheetName].GroupValue?
            && (r.error.None? ==>
                  r.sets.m[sheetName].members.m.Keys ==
                  members.m.Keys + GroupNameSet(sheetName, sheet, i))
    decreases GroupCount(|sheet.headers|) - i, 1
  {
    if i < GroupCount(|sheet.headers|) && GlobalName in sets.m && sets.m[GlobalName].SetValue? {
      var b := GroupBuild(sets.m[GlobalName].params, sheet, i);
      if b.error.Some? {
        GroupFailed(sets, sheetName, sheet, members, i);
      } else {
        LoadedGroupNames(sets, sheetName, sheet, members, i);
      }
    }
  }

  lemma {:induction false} LoadedGroupNames(sets: Dict<string, EntryValue>, sheetName: string, sheet: Sheet,
                                            members: Dict<string, Env>, i: nat)
    requires EntriesValid(sets) && EntryValid(GroupValue(members)) && sheet.Rectangular()
    requires sheetName != GlobalName && sheetName in sets.m && sets.m[sheetName] == GroupValue(members)
    requires i < GroupCount(|sheet.headers|) && GlobalName in sets.m && sets.m[GlobalName].SetValue?
    requires GroupBuild(sets.m[GlobalName].params, sheet, i).error.None?
    ensures var r := LoadGroups(sets, sheetName, sheet, members, i);
            && sheetName in r.sets.m && r.sets.m[sheetName].GroupValue?
            && (r.error.None? ==>
                  r.sets.m[sheetName].members.m.Keys ==
                  members.m.Keys + GroupNameSet(sheetName, sheet, i))
    decreases GroupCount(|sheet.headers|) - i, 0
  {
    var b := GroupBuild(sets.m[GlobalName].params, sheet, i);
    GroupLoaded(sets, sheetName, sheet, members, i);
    var name := GroupName(sheetName, sheet, i);
    var members' := Put(members, name, b.frames.own);
    var next := Put(Put(sets, GlobalName, SetValue(b.frames.parent.value)), sheetName, GroupValue(members'));
    GroupNames(next, sheetName, sheet, members', i + 1);
    PutKeys(members, name, b.frames.own);
    KeysStep(LoadGroups(sets, sheetName, sheet, members, i), LoadGroups(next, sheetName, sheet, members', i + 1),
             sheetName, members.m.Keys, members'.m.Keys, name, GroupNameSet(sheetName, sheet, i + 1));
  }

  /** One group's name joins the names the later groups add. */
  lemma KeysStep(r: Loaded, r': Loaded, sheetName: string, before: set<string>, after: set<string>,
                 name: string, rest: set<string>)
    requires r == r' && after == before + {name}
    requires sheetName in r'.sets.m && r'.sets.m[sheetName].GroupValue?
    requires r'.error.None? ==> r'.sets.m[sheetName].members.m.Keys == after + rest
    ensures sheetName in r.sets.m && r.sets.m[sheetName].GroupValue?
    ensures r.error.None? ==> r.sets.m[sheetName].members.m.Keys == before + ({name} + rest)
  {
  }

  /** Dataset sheets change the Global set only at temporaries: every
      name that is not a temporary keeps its value, whether the groups
      load or fail. */
  lemma {:induction false} GroupsKeepGlobal(sets: Dict<string, EntryValue>, sheetName: string, sheet: Sheet,
                                            members: Dict<string, Env>, i: nat)
    requires EntriesValid(sets) && EntryValid(GroupValue(members)) && sheet.Rectangular() && sheetName != GlobalName
    requires GlobalName in sets.m && sets.m[GlobalName].SetValue?
    ensures var r := LoadGroups(sets, sheetName, sheet, members, i);
            && GlobalName in r.sets.m && r.sets.m[GlobalName].SetValue?
            && SameBeyondTemps(sets.m[GlobalName].params, r.sets.m[GlobalName].params)
    decreases GroupCount(|sheet.headers|) - i, 1
  {
    if i < GroupCount(|sheet.headers|) {
      var b := GroupBuild(sets.m[GlobalName].params, sheet, i);
      if b.error.Some? {
        FailedGroupKeepsGlobal(sets, sheetName, sheet, members, i);
      } else {
        LoadedGroupKeepsGlobal(sets, sheetName, sheet, members, i);
      }
    }
  }

  lemma FailedGroupKeepsGlobal(sets: Dict<string, EntryValue>, sheetName: string, sheet: Sheet,
                               members: Dict<string, Env>, i: nat)
    requires EntriesValid(sets) && EntryValid(GroupValue(members)) && sheet.Rectangular()
    requires i < GroupCount(|sheet.headers|) && GlobalName in sets.m && sets.m[GlobalName].SetValue?
    requires GroupBuild(sets.m[GlobalName].params, sheet, i).error.Some?
    ensures var r := LoadGroups(sets, sheetName, sheet, members, i);
            && GlobalName in r.sets.m && r.sets.m[GlobalName].SetValue?
            && SameBeyondTemps(sets.m[GlobalName].params, r.sets.m[GlobalName].params)
  {
    var global := sets.m[GlobalName].params;
    GroupFailed(sets, sheetName, sheet, members, i);
    BuildKeepsParentNames(Frames(Empty(), Some(global)), GroupRows(sheet, i));
  }

  lemma {:induction false} LoadedGroupKeepsGlobal(sets: Dict<string, EntryValue>, sheetName: string, sheet: Sheet,
                                                  members: Dict<string, Env>, i: nat)
    requires EntriesValid(sets) && EntryValid(GroupValue(members)) && sheet.Rectangular() && sheetName != GlobalName
    requires i < GroupCount(|sheet.headers|) && GlobalName in sets.m && sets.m[GlobalName].SetValue?
    requires GroupBuild(sets.m[GlobalName].params, sheet, i).error.None?
    ensures var r := LoadGroups(sets, sheetName, sheet, members, i);
            && GlobalName in r.sets.m && r.sets.m[GlobalName].SetValue?
            && SameBeyondTemps(sets.m[GlobalName].params, r.sets.m[GlobalName].params)
    decreases GroupCount(|sheet.headers|) - i, 0
  {
    var global := sets.m[GlobalName].params;
    var b := GroupBuild(global, sheet, i);
    GroupLoaded(sets, sheetName, sheet, members, i);
    var members' := Put(members, GroupName(sheetName, sheet, i), b.frames.own);
    var next := Put(Put(sets, GlobalName, SetValue(b.frames.parent.value)), sheetName, GroupValue(members'));
    GroupsKeepGlobal(next, sheetName, sheet, members', i + 1);
    var r := LoadGroups(next, sheetName, sheet, members', i + 1);
    SameBeyondTempsTrans(global, b.frames.parent.value, r.sets.m[GlobalName].params);
  }

  // ---------------------------------------------------------------------
  // The loader object

  /** The Global entry of _sets, when it is a set, holds what the Global
      ParameterSet object holds: dataset groups change that object in place
      and every reference to it sees the change. */
  ghost predicate Mirrors(sets: Dict<string, EntryValue>, global: ParameterSet?)
    reads global
  {
    GlobalName in sets.m && sets.m[GlobalName].SetValue? ==>
      global != null && global.Valid() && sets.m[GlobalName].params == global.params
  }

  class ConfigLoader {
    /** The workbook's sheets in order: what read_excel returned. */
    const sheetList: seq<(string, Sheet)>
    /** None until create_parametersets runs. */
    var sets: Option<Dict<string, EntryValue>>

    /** __init__ with the workbook already read. */
    constructor(sheets: seq<(string, Sheet)>)
      ensures sheetList == sheets && sets == None
    {
      sheetList := sheets;
      sets := None;
    }

    /** create_parametersets: _sets is rebuilt from nothing, sheet by sheet
        after the first, and keeps what was stored before an exception. */
    method CreateParameterSets() returns (r: Result<Dict<string, EntryValue>>)
      requires Workbook(sheetList)
      modifies this
      ensures var l := Load(sheetList);
              && sets == Some(l.sets)
              && r == if l.error.Some? then Err(l.error.value) else Ok(l.sets)
    {
      var s: Dict<string, EntryValue> := Empty();
      sets := Some(s);
      if sheetList == [] {
        return Ok(s);
      }
      var global: ParameterSet? := null;
      var k := 1;
      while k < |sheetList|
        invariant 1 <= k <= |sheetList|
        invariant EntriesValid(s) && sets == Some(s)
        invariant Mirrors(s, global) && (global != null ==> fresh(global))
        invariant Load(sheetList) == LoadSheets(s, sheetList[k..])
      {
        assert sheetList[k..][0] == sheetList[k] && sheetList[k..][1..] == sheetList[k + 1..];
        var err;
        err, s, global := CreateSheet(s, sheetList[k].0, sheetList[k].1, global);
        sets := Some(s);
        if err.Some? {
          return Err(err.value);
        }
        k := k + 1;
      }
      return Ok(s);
    }

    /** One sheet: "Global Parameters" becomes a new set without a parent,
        which later groups see as the Global set; any other sheet first
        gets an empty dict of groups. */
    static method CreateSheet(sets: Dict<string, EntryValue>, name: string, sheet: Sheet, global: ParameterSet?)
      returns (err: Option<Error>, sets': Dict<string, EntryValue>, global': ParameterSet?)
      requires EntriesValid(sets) && sheet.Rectangular() && Mirrors(sets, global)
      modifies global
      ensures EntriesValid(sets') && Mirrors(sets', global')
      ensures global' == global || (global' != null && fresh(global'))
      ensures Loaded(sets', err) == LoadSheet(sets, name, sheet)
    {
      global' := global;
      if name == GlobalName {
        var ps := ParameterSet.New(name, sheet.rows, NoParent);
        if ps.Err? {
          return Some(ps.error), sets, global';
        }
        global' := ps.value;
        return None, Put(sets, name, SetValue(global'.params)), global';
      }
      EntriesValidPut(sets, name, GroupValue(Empty()));
      err, sets' := CreateGroups(Put(sets, name, GroupValue(Empty())), name, sheet, global);
    }

    /** The loop over the column groups of a sheet other than the Global
        one. */
    static method CreateGroups(sets: Dict<string, EntryValue>, sheetName: string, sheet: Sheet, global: ParameterSet?)
      returns (err: Option<Error>, sets': Dict<string, EntryValue>)
      requires EntriesValid(sets) && sheet.Rectangular() && sheetName != GlobalName && Mirrors(sets, global)
      modifies global
      ensures EntriesValid(sets') && Mirrors(sets', global)
      ensures Loaded(sets', err) == LoadGroups(sets, sheetName, sheet, Empty(), 0)
    {
      sets' := sets;
      var members: Dict<string, Env> := Empty();
      var i := 0;
      while i < GroupCount(|sheet.headers|)
        invariant EntriesValid(sets') && members.Valid() && Mirrors(sets', global)
        invariant LoadGroups(sets, sheetName, sheet, Empty(), 0) == LoadGroups(sets', sheetName, sheet, members, i)
        decreases GroupCount(|sheet.headers|) - i
      {
        var next, members';
        err, next, members' := CreateGroup(sets', sheetName, sheet, members, i, global);
        if err.Some? {
          return err, next;
        }
        sets', members, i := next, members', i + 1;
      }
      err := None;
    }

    /** Group i: look up the Global set (a KeyError while there is none),
        build the group's set with it as the parent, which the group may
        change, and store the new set in the sheet's dict. */
    static method CreateGroup(sets: Dict<string, EntryValue>, sheetName: string, sheet: Sheet,
                              members: Dict<string, Env>, i: nat, global: ParameterSet?)
      returns (err: Option<Error>, sets': Dict<string, EntryValue>, members': Dict<string, Env>)
      requires EntriesValid(sets) && members.Valid() && sheet.Rectangular() && sheetName != GlobalName
      requires Mirrors(sets, global) && i < GroupCount(|sheet.headers|)
      modifies global
      ensures EntriesValid(sets') && members'.Valid() && Mirrors(sets', global)
      ensures err.Some? ==> LoadGroups(sets, sheetName, sheet, members, i) == Loaded(sets', err)
      ensures err.None? ==>
                LoadGroups(sets, sheetName, sheet, members, i) == LoadGroups(sets', sheetName, sheet, members', i + 1)
    {
      sets', members' := sets, members;
      if GlobalName !in sets.m {
        return Some(KeyError(Str(GlobalName))), sets', members';
      }
      if sets.m[GlobalName].GroupValue? {
        return Some(TypeError(InvalidParent)), sets', members';
      }
      var name := GroupName(sheetName, sheet, i);
      var built := ParameterSet.New(name, GroupRows(sheet, i), SetParent(global));
      if built.Err? {
        GroupFailed(sets, sheetName, sheet, members, i);
        EntriesValidPut(sets, GlobalName, SetValue(global.params));
        return Some(built.error), Put(sets, GlobalName, SetValue(global.params)), members';
      }
      GroupLoaded(sets, sheetName, sheet, members, i);
      members' := Put(members, name, built.value.params);
      sets' := Put(Put(sets, GlobalName, SetValue(global.params)), sheetName, GroupValue(members'));
      err := None;
    }
  }
}
