# Parameter-set loading for SAS fits, in Dafny

This project models the configuration loader of a small-angle-scattering
fitting tool (`fitter/configloader.py`). The loader reads a workbook of
parameter sheets and builds named parameter sets from their rows:

- **Global set.** The sheet "Global Parameters" becomes one set without a parent.
- **Dataset sets.** Every other sheet is cut into groups of five columns
  (name, value, lower bound, upper bound, fixed flag) with one spare column
  between groups. Each group becomes a set whose parent is the Global set.
- **Value cells.** A row's value cell is one of four kinds:
  - a distribution tag ("lognormal", "gaussian");
  - a formula, that is, text holding an operator character;
  - an alias naming another parameter;
  - a number with bounds and a fixed flag.
- **Formulas.** A formula is evaluated by a small engine:
  1. Each matched bracket body is evaluated flat and stored in the parent set
     as `temp_par1`, `temp_par2`, … in place of the bracketed text.
  2. The remaining flat text is split at the operator characters.
  3. Every operand is resolved, as a number or by name.
  4. The operands are reduced one operator symbol at a time, in the order
     `^ / * + -`.
- **Setup sheet.** The setup sheet yields the fit setups (model, data file,
  Q range, kernel) and the command line of the external fitting program.

The modules follow the source:

| module | what it holds |
|---|---|
| `Errors` | the Python exceptions the code raises or lets through |
| `Values` | floats, bumps Parameters and Operators, and PDParameters |
| `Cells` | spreadsheet cells and sheets, `float()` and f-string text of cells |
| `Dicts` | Python's insertion-ordered dict |
| `FlatFormula` | splitting, operand lookup and per-symbol reduction |
| `Brackets` | the bracket scan and temporaries |
| `ParameterSets` | the `ParameterSet` class and its row dispatch |
| `Setups` | `ModelSetup`, `BumpsSetup`, `Setup` |
| `Loader` | `ConfigLoader` |

The modules `FormulaCases`, `ParameterSetProperties` and `ParameterSetCases`
hold the properties and worked formulas.

Where the code changes state, the model is imperative:

- `ParameterSet` is a class. Its dict is a field, and its methods
  (`Add`, `ParseParameterMath`, `CreateNewParameter`, `CreateParameters`)
  update that field or the parent set's.
- The loops of `_parse_simple_string`, `_parse_parameter_math`,
  `_create_parameters`, `_create_bumps_string` and `create_parametersets`
  are `while` loops.

Each of these methods is proved equal to a function of the old state:

| method | function it is proved equal to |
|---|---|
| `ParseSimpleString` | `FlatEval` |
| `ParseParameterMath` | `MathEval` |
| `CreateNewParameter` | `NewParameter` |
| `CreateParameters` | `Build` |
| `CreateBumpsString` | `Options` and `StoreAfter` |
| `CreateParameterSets` | `Load` |

The lemmas state what the source promises about those functions.

### Where the code departs from its design

The model follows the code in each of these places.

- **No parent chain.** A set built with a parent resolves every name in the
  parent's dict only. A set without one resolves names in its own dict only.
  `ParentedRowIgnoresOwnDict` states this.
- **Reduction is per operator symbol, not per precedence tier.** `1-2+3` is
  `1-(2+3)` = -4 (`SumBeforeDifference`).
- **The mask for each symbol is computed once and indexed against a
  shrinking list.** So `1+2+3` gives 3 (`RepeatedSignDropsOperand`) and
  `1*2+3*4` gives 5 (`StaleMaskSkipsProduct`). `FlatEval` agrees with a
  reduce-every-occurrence reading when no symbol repeats
  (`FlatEvalAgrees`).
- **Bracket bodies must evaluate to a Parameter or an Operator.** `add`
  refuses a plain number, so `(2+3)*2` and `[2+3]*{4-1}` raise TypeError
  (`AllNumberBracketRefused`).
- **No brackets without a parent.** Without a parent, `parent_set` is a plain
  dict, which has no `add` method. So no formula with a closed bracket
  succeeds in the Global set (`ParentlessBracketFormulaFails`).
- **A wrong closing bracket is an IndexError.** Building the intended
  KeyError's message indexes an array by text, which raises IndexError. A
  closing bracket with nothing open is also an IndexError, from the pop.
- **An unclosed opening bracket raises nothing.** The text before it is
  dropped (`UnclosedBracketDropsPrefix`).
- **Temporaries stay in the Global set.** They stay after the formula and
  after a failure. Every formula numbers them from `temp_par1` again.
- **A failing load keeps its partial result.** `_sets` keeps what was stored
  before the exception (`CreateParameterSets`).

## Model

| member | source | states |
|---|---|---|
| Values.Perform | fitter/configloader.py:49-63 | Only the five operator symbols are known: any other is a KeyError. An operation involving a PDParameter is a TypeError. Dividing a float by a float that is zero, or raising a float that is zero to a negative float, is a ZeroDivisionError. Every other pair of operands succeeds. The result is a float exactly when both operands are floats. It is then the arithmetic term of the two, and it has a value whenever both operands have one, unless the operator is `^`. Otherwise the result is an unnamed bumps Operator over the two operands. |
| Values.Rename | fitter/configloader.py:130-134 | Naming a formula's result succeeds exactly for a Parameter or an Operator. A float has no `name` attribute to set, and a PDParameter has no `range` method. The renamed value carries the row's name and is unbounded and fixed. |
| Cells.Column | fitter/configloader.py:177-182 | `sheet['name']` is a KeyError naming the column exactly when no header matches. Otherwise it has one cell per row. |
| Cells.ColumnCells | fitter/configloader.py:177-182 | The column found is, row by row, the cells under some header with that name. |
| Cells.At | fitter/configloader.py:138-139 | `row[k]` is the k-th cell, or an IndexError past the row's end. |
| Cells.ToBound | fitter/configloader.py:138 | `float(cell)` of a number is that number, and of a blank cell NaN. Of a text cell it succeeds exactly when `FloatText` reads the text: blanks around it, an optional sign, then `inf`, `infinity` or `nan` in any case, or a decimal literal with an optional exponent. Otherwise it is a ValueError quoting the text. |
| Cells.ParseNumber | fitter/configloader.py:66-67 | `float()` of a numeric token is a non-negative number. |
| Cells.StripLeftMeaning | fitter/configloader.py:138 | Stripping on the left removes exactly the leading blanks and keeps the rest of the text. |
| Cells.StripRightMeaning | fitter/configloader.py:138 | Stripping on the right removes exactly the trailing blanks and keeps the rest of the text. |
| Cells.SignedFin | fitter/configloader.py:138 | An unsigned text with a finite reading x reads as x, as x after `+`, and as -x after `-`. |
| Cells.NumberBound | fitter/configloader.py:138 | A numeric token, as the formula engine reads it, is read by `float()` as the same number, and a leading sign applies to it. |
| Cells.ExponentBound | fitter/configloader.py:138 | `m e d` is m scaled up by ten to the d, and `m E-d` is m scaled down by ten to the d. |
| Cells.WordBound | fitter/configloader.py:138 | `inf` and `infinity` in any case are +inf, or -inf after a minus. `nan` is NaN with either sign. |
| Cells.PaddedBound | fitter/configloader.py:138 | A blank before or after a text changes neither whether it reads nor the bound it reads as. |
| Cells.RefusedBounds | fitter/configloader.py:138 | The empty text, `1e` and `1,5` are ValueErrors. |
| Cells.NatText | fitter/configloader.py:204-205 | The decimal text of a natural number is all digits and reads back as that number. |
| Cells.CellText | fitter/configloader.py:204-205 | A text cell formats as itself. |
| Dicts.Put | fitter/configloader.py:164 | Storing maps the key to the value and changes no other key. A new key goes last in the order; an existing key keeps its place. |
| Dicts.Get | fitter/configloader.py:40 | A lookup finds the stored value exactly when the key is present. |
| FlatFormula.StringSplit | fitter/configloader.py:73 | The split yields one more operand than signs. |
| FlatFormula.SplitShape | fitter/configloader.py:73 | Every sign of the split is an operator symbol and no operand holds an operator character. Joining operands and signs gives back the text. |
| FlatFormula.SplitJoin | fitter/configloader.py:73 | Splitting is the inverse of joining: operator-free operands joined by operator symbols split back into exactly those lists. |
| FlatFormula.SplitToken | fitter/configloader.py:73 | An operator-free token at the front of a text becomes the first operand of its split. |
| FlatFormula.FindPar | fitter/configloader.py:65-69 | A numeric token is the float it spells. Any other token is looked up in `parent_set`: either its value, or a KeyError naming it when absent. |
| FlatFormula.ResolveAll | fitter/configloader.py:76 | A successful resolution yields one value per token. |
| FlatFormula.ResolveAllMeaning | fitter/configloader.py:76 | Resolution succeeds exactly when every token resolves, and then yields each token's own value. Otherwise it fails with the error of the first token that does not resolve. |
| FlatFormula.ResolvePrefixError | fitter/configloader.py:76 | A failure among the first n tokens is the failure of the whole list. |
| FlatFormula.ResolveOperands | fitter/configloader.py:76 | The comprehension's loop yields ResolveAll of the tokens. |
| FlatFormula.ReduceAt | fitter/configloader.py:83-84 | Reducing at k removes one sign and one operand. |
| FlatFormula.Mask | fitter/configloader.py:79 | The mask has one entry per sign, and an entry is true exactly when its sign is the symbol. |
| FlatFormula.Sweep | fitter/configloader.py:81-84 | The sweep keeps the operands one longer than the signs and never lengthens the sign list. |
| FlatFormula.Pass | fitter/configloader.py:78-84 | The same holds for one symbol's pass. |
| FlatFormula.Passes | fitter/configloader.py:78-84 | All passes keep the operands one longer than the signs. |
| FlatFormula.ParseSimpleString | fitter/configloader.py:71-86 | The method, with its in-place pops, returns exactly FlatEval of the text. |
| FlatFormula.ReduceOperands | fitter/configloader.py:78-84 | The nested loops that pop both lists in place compute Passes from the first symbol. |
| FlatFormula.SweepFacts | fitter/configloader.py:81-84 | A sweep over operator symbols fails only with the TypeError of a PDParameter operand or with a ZeroDivisionError. It keeps every sign an operator symbol. A harmless formula sweeps without error and stays harmless. Harmless means no PDParameter, and either no `/` or `^` sign or never two float operands. |
| FlatFormula.ReduceHarmless | fitter/configloader.py:83-84 | One operation of a harmless formula succeeds and leaves it harmless. With at most one float operand the result is never a float. |
| FlatFormula.PassesFacts | fitter/configloader.py:78-84 | The passes fail only with that TypeError or a ZeroDivisionError, and never on a harmless formula. |
| FlatFormula.EvaluateKeyError | fitter/configloader.py:71-86 | Evaluation fails with KeyError exactly when some operand is neither a number nor a name in the dict. |
| FlatFormula.EvaluateOtherError | fitter/configloader.py:71-86 | Once every operand resolves, the only possible failures are the TypeError of a PDParameter operand and a ZeroDivisionError. Evaluation succeeds when no operand is a PDParameter and either no sign is `/` or `^` or at most one operand is a float. |
| FlatFormula.FlatEvalKeyError | fitter/configloader.py:71-86 | `_parse_simple_string` raises KeyError exactly when some operand of the split does not resolve. |
| FlatFormula.FlatEvalOtherError | fitter/configloader.py:71-86 | Any other failure is the TypeError of a PDParameter operand or a ZeroDivisionError. Evaluation succeeds when every operand resolves to something other than a PDParameter and either no sign is `/` or `^` or at most one operand is a float. |
| FlatFormula.FirstIndex | fitter/configloader.py:81-82 | The position found holds the symbol and no earlier position does. |
| FlatFormula.ReduceEvery | fitter/configloader.py:78-84 | The reference reading of one pass: it reduces every occurrence of the symbol, leaving none, and adds no new sign. |
| FlatFormula.TieredPasses | fitter/configloader.py:78-84 | After the reference passes from symbol j on, none of those symbols remains. |
| FlatFormula.TieredConsumesAll | fitter/configloader.py:78-86 | The reference reading always ends with a single operand. |
| FlatFormula.SweepSkips | fitter/configloader.py:81-82 | Unmarked positions are stepped over without change. |
| FlatFormula.ReduceAtNoRepeats | fitter/configloader.py:83-84 | Deleting a sign keeps the others distinct and removes that symbol. |
| FlatFormula.PassAgrees | fitter/configloader.py:78-84 | With each symbol at most once, one pass of the stale mask is the reference pass. |
| FlatFormula.PassReducesFirst | fitter/configloader.py:78-84 | With each symbol at most once, a pass over a symbol that occurs reduces it where it stands, as the reference pass does. |
| FlatFormula.PassesAgree | fitter/configloader.py:78-84 | With each symbol at most once, all passes agree with the reference passes. |
| FlatFormula.FlatEvalAgrees | fitter/configloader.py:71-86 | When no operator symbol occurs twice, `_parse_simple_string` equals the reference evaluator. |
| FormulaCases.DigitToken | fitter/configloader.py:66-67 | A one-digit token is a number and reads as its digit. |
| FormulaCases.NameToken | fitter/configloader.py:66-69 | A token starting with a letter is never a number, so it is looked up by name. |
| FormulaCases.ThreeDigits | fitter/configloader.py:73-76 | `a s1 b s2 c` splits into three operands and two signs, which resolve to their digits in any dict. |
| FormulaCases.FourDigits | fitter/configloader.py:73-76 | The same holds for four operands and three signs. |
| FormulaCases.PassesNoSigns | fitter/configloader.py:78-84 | With no signs left, the passes change nothing. |
| FormulaCases.PassOwnSign | fitter/configloader.py:78-84 | A pass over the only sign performs it. |
| FormulaCases.PassOtherSign | fitter/configloader.py:79-80 | A pass over a symbol that does not occur changes nothing. |
| FormulaCases.PassesOneSign | fitter/configloader.py:78-84 | With one sign, the passes yield `_perform_single_operation` of the two operands. |
| FormulaCases.SingleOperation | fitter/configloader.py:71-86 | `a op b` evaluates to Perform of the two resolved operands. |
| FormulaCases.DivisionByZero | fitter/configloader.py:56-57 | `1/0` raises ZeroDivisionError, while `p/0` for a Parameter p builds the Operator `p/0`. |
| FormulaCases.DivisionByZeroRoot | fitter/configloader.py:56-59 | `0^0.5` is 0.0, so `1/0^0.5` raises ZeroDivisionError too. |
| FormulaCases.ThreeDigitEval | fitter/configloader.py:71-86 | A three-digit formula evaluates as the passes over its digits. |
| FormulaCases.ArithValue | fitter/configloader.py:51-55 | A sum, difference or product of known terms has the arithmetic value. |
| FormulaCases.ProductBeforeSum | fitter/configloader.py:71-86 | `2+3*4` is `2+(3*4)` = 14. |
| FormulaCases.PowerBeforeSum | fitter/configloader.py:71-86 | `2+3^2` is `2+(3^2)` = 11. |
| FormulaCases.PowerValue | fitter/configloader.py:58-59 | `3^2` is 9. |
| FormulaCases.RepeatedSignDropsOperand | fitter/configloader.py:78-86 | `1+2+3` evaluates to `1+2` = 3: the stale mask skips the second plus and the last operand is dropped. The reference reading gives 6. |
| FormulaCases.SumBeforeDifference | fitter/configloader.py:78-86 | `1-2+3` is `1-(2+3)` = -4, because every plus is reduced before any minus. |
| FormulaCases.StaleMaskSkipsProduct | fitter/configloader.py:78-86 | `1*2+3*4` is `(1*2)+3` = 5: the second product is never formed. |
| Brackets.Partner | fitter/configloader.py:90-91 | A closing bracket expects an opening bracket. |
| Brackets.TempName | fitter/configloader.py:107-108 | Temporary names begin with `temp_par`. |
| Brackets.AddBody | fitter/configloader.py:106-107 | Adding a body keeps the dict's key order valid. |
| Brackets.Step | fitter/configloader.py:98-114 | Plain text and opening brackets always succeed, and an opening bracket saves the text and is pushed. A closing bracket with nothing open is an IndexError, and one of the wrong kind is also an IndexError. A successful close pops the matching bracket and counts one more temporary, which needs a set to add to. |
| Brackets.StepClosesBody | fitter/configloader.py:103-108 | A matched body is evaluated flat. Its failure, a dict without `add`, or a result `add` refuses stops the scan. Otherwise the result is stored as the next temporary, whose name follows the saved text. |
| Brackets.Run | fitter/configloader.py:98-114 | The scan's last state is well formed. |
| Brackets.MathEval | fitter/configloader.py:89-119 | The dict left behind is well formed. |
| Brackets.ScanFollowsNesting | fitter/configloader.py:98-112 | A scan that gets through saw properly nested brackets. A badly nested text always stops with an error. |
| Brackets.ScanStops | fitter/configloader.py:98-112 | A scan stops at the character whose step raised, with that error. |
| Brackets.ScanLength | fitter/configloader.py:98-114 | A scan consumes the whole text exactly when it raises nothing. |
| Brackets.ScanCount | fitter/configloader.py:105-108 | A scan that gets through makes one temporary per closing bracket. |
| Brackets.PutTempKeepsOthers | fitter/configloader.py:107 | Storing a temporary changes no other name. |
| Brackets.StepOnlyAddsTemporary | fitter/configloader.py:98-114 | One character adds at most the next temporary and changes nothing else. |
| Brackets.ScanOnlyAddsTemporaries | fitter/configloader.py:98-114 | A scan, finished or stopped, holds every temporary made and changes no other name. |
| Brackets.NoParentNoBrackets | fitter/configloader.py:104-107 | Without a parent, no text with a closing bracket scans through, and the dict is unchanged. |
| Brackets.NoParentMath | fitter/configloader.py:89-119 | Without a parent, a formula leaves the dict unchanged, and every formula with a closed bracket fails. |
| Brackets.ScanPlain | fitter/configloader.py:113-114 | Text without brackets is appended to `temp_string`. |
| Brackets.RunAppend | fitter/configloader.py:98 | Scanning `s + t` is scanning `s` and then `t`. |
| Brackets.UnclosedBracketDropsPrefix | fitter/configloader.py:98-115 | With an opening bracket that is never closed, only the text after it is evaluated, nothing is added, and nothing is raised. |
| Brackets.ScanToOpenBody | fitter/configloader.py:99-102 | Text, an opening bracket, and text: the first text is saved and the second is held. |
| Brackets.ScanFromClose | fitter/configloader.py:103-108 | Closing the one open bracket stores the body as `temp_par1` in place of the span, or stops with `add`'s error. |
| Brackets.CloseRefused | fitter/configloader.py:106-107 | A refused body stops the scan at the bracket with the dict unchanged. |
| Brackets.CloseAdded | fitter/configloader.py:105-108 | An accepted body continues the scan with `temp_par1` stored. |
| Brackets.TempNameIsPlain | fitter/configloader.py:107-108 | A temporary's name starts with a letter and holds no operator or bracket, so later formulas can read it. |
| Brackets.SingleBracket | fitter/configloader.py:89-119 | One bracket pair in plain text: the body is stored as `temp_par1` and the span replaced by that name. Every failure leaves the dict as it was. |
| Brackets.MathEvalOnlyAddsTemporaries | fitter/configloader.py:89-119 | A formula changes no name of the dict except temporaries, whether it succeeds or fails. |
| ParameterSets.NewParameter | fitter/configloader.py:121-143 | One row keeps both dicts well formed and keeps whether there is a parent. |
| ParameterSets.NumericParameter | fitter/configloader.py:137-143 | A numeric row keeps the dicts well formed and the parent unchanged. |
| ParameterSets.BoundAt | fitter/configloader.py:138 | `float(row[k])` is an IndexError past the row's end and `float()` of the cell otherwise. |
| ParameterSets.Build | fitter/configloader.py:145-147 | Building keeps both dicts well formed and keeps whether there is a parent. |
| ParameterSets.BuildFirst | fitter/configloader.py:145-147 | Building starts with the first row and stops at its error. |
| ParameterSets.ParameterSet.Init | fitter/configloader.py:150-151 | A new set has its name and an empty dict. |
| ParameterSets.ParameterSet.Get | fitter/configloader.py:39-41 | `set[key]` finds the set's own entry, or raises KeyError naming the key. |
| ParameterSets.ParameterSet.Contains | fitter/configloader.py:46-47 | `key in set` exactly when the key is one of the set's names. |
| ParameterSets.ParameterSet.Names | fitter/configloader.py:43-44 | Iteration lists every name of the set exactly once, and nothing else. The order is the order of first storing, as `Dicts.Put` states. |
| ParameterSets.ParameterSet.Add | fitter/configloader.py:162-166 | A Parameter or Operator is stored under the key. Anything else is a TypeError and leaves the dict as it was. |
| ParameterSets.ParameterSet.AddTemporary | fitter/configloader.py:106-107 | A bracket body is evaluated in scope and added as temporary n. This fails when there is no set to add to. |
| ParameterSets.ParameterSet.PopBracket | fitter/configloader.py:104-112 | Nothing open is an IndexError, and so is a bracket of the wrong kind. A match pops it. |
| ParameterSets.ParameterSet.CloseBracket | fitter/configloader.py:103-112 | A closing bracket is Step on the scan state: the same errors, the same temporary, the same text. |
| ParameterSets.ParameterSet.ParseParameterMath | fitter/configloader.py:89-119 | The loop's result and the parent's new dict are MathEval of the formula in `parent_set`. |
| ParameterSets.ParameterSet.CreateNewParameter | fitter/configloader.py:121-143 | The set's new dict, the parent's new dict and the error are NewParameter of the row. |
| ParameterSets.ParameterSet.CreateParameters | fitter/configloader.py:145-147 | The rows are applied in order until the first error, as Build states. |
| ParameterSets.ParameterSet.New | fitter/configloader.py:149-157 | A parent that is no set is a TypeError. Otherwise the new set holds Build of its rows, looked up in the parent or in its own dict. |
| ParameterSetProperties.RowTouchesOnlyItsName | fitter/configloader.py:121-143 | A row changes the set's own dict at the row's name only, and the parent's dict at temporaries only. |
| ParameterSetProperties.RowChange | fitter/configloader.py:121-143 | A failing, short or blank row leaves the own dict as it was. Any other row stores at the row's name. |
| ParameterSetProperties.BlankRowSkipped | fitter/configloader.py:137 | A blank value cell stores nothing and raises nothing. |
| ParameterSetProperties.DistributionRow | fitter/configloader.py:124-127 | A distribution tag stores a PDParameter with the row's name and tag. |
| ParameterSetProperties.FormulaRow | fitter/configloader.py:128-134 | A formula row succeeds exactly when the formula evaluates to a Parameter or Operator. That result is stored renamed, unbounded and fixed, and the parent keeps the formula's temporaries. |
| ParameterSetProperties.AliasRow | fitter/configloader.py:135-136 | Plain text is a KeyError exactly when `parent_set` lacks the name. Otherwise the row's name stores the value found there, unchanged. |
| ParameterSetProperties.NumericRow | fitter/configloader.py:137-143 | A number becomes a Parameter with that value, with bounds `float()` of columns 2 and 3, fixed exactly when column 4 is 1. A short row is an IndexError, and a bound text that `float()` refuses is a ValueError. |
| ParameterSetProperties.ParentlessBracketFormulaFails | fitter/configloader.py:128-134 | Without a parent, every formula row with a closed bracket fails and stores nothing. |
| ParameterSetProperties.DistributionTagsPlain | fitter/configloader.py:125 | A distribution tag holds no bracket. |
| ParameterSetProperties.ParentedRowIgnoresOwnDict | fitter/configloader.py:121-143 | With a parent, a row's outcome does not depend on the set's own dict: there is no lookup chain. |
| ParameterSetProperties.BuildAppend | fitter/configloader.py:145-147 | Building from `rows + more` is building `more` from where `rows` left off, unless `rows` failed. |
| ParameterSetProperties.LastNumericRowWins | fitter/configloader.py:137-147 | In a set built without error, a numeric row that no later row redefines decides what its name holds: a Parameter with that name and value, bounds `float()` of columns 2 and 3, fixed exactly when column 4 is 1. Earlier rows make no difference. |
| ParameterSetProperties.BuildKeepsUndefined | fitter/configloader.py:145-147 | Rows that do not define a name leave it present or absent as before, with the same value. |
| ParameterSetProperties.BuildOne | fitter/configloader.py:145-147 | Building from one row is that row. |
| ParameterSetProperties.RowDefinesItsName | fitter/configloader.py:121-143 | A row without error stores exactly its own name, or nothing when blank. |
| ParameterSetProperties.BuiltNames | fitter/configloader.py:145-147 | A set built without error holds exactly the names of its non-blank rows, with no temporaries. |
| ParameterSetProperties.BuildKeepsParentNames | fitter/configloader.py:145-147 | Building a set with a parent changes the parent only at temporaries. |
| ParameterSetCases.GlobalNumericRow | fitter/configloader.py:137-143 | The row `A, 5, 0, 10, 1` stores A = 5 in [0, 10], fixed. |
| ParameterSetCases.TimesTwo | fitter/configloader.py:71-86 | `name*2` is the Operator of the named parameter times 2. |
| ParameterSetCases.PlusOne | fitter/configloader.py:71-86 | `name+1` is the Operator of the named parameter plus 1. |
| ParameterSetCases.DatasetFormulaRow | fitter/configloader.py:128-134 | A dataset row `B = A*2` stores `A*2` named B, unbounded and fixed, and leaves the Global dict unchanged. |
| ParameterSetCases.FormulaRowStored | fitter/configloader.py:128-134 | A formula row stores its renamed result and leaves the parent as the formula left it. |
| ParameterSetCases.WithTemp | fitter/configloader.py:107 | Storing `temp_par1` keeps the dict well formed. |
| ParameterSetCases.PlusOneTimesTwo | fitter/configloader.py:89-119 | `(name+1)*2` stores `name+1` as `temp_par1` and evaluates `temp_par1*2`. |
| ParameterSetCases.DatasetBracketRow | fitter/configloader.py:128-134 | A dataset row `C = (A+1)*2` stores `temp_par1` in the Global set and C as `temp_par1*2`, unbounded and fixed. |
| ParameterSetCases.AllNumberBracketRefused | fitter/configloader.py:162-166 | `(2+3)*2` raises TypeError, because `add` refuses the plain number 5, and the dict is unchanged. |
| Setups.Strings | fitter/configloader.py:180-182 | The text entries of a column, in order: a string is kept exactly when its cell is that text. |
| Setups.StringsAppend | fitter/configloader.py:180-182 | Filtering distributes over stacked rows, so order is kept. |
| Setups.QPairs | fitter/configloader.py:177-179 | There are at most as many Q pairs as rows. |
| Setups.QPairsMembers | fitter/configloader.py:177-179 | A pair is kept exactly when both cells of some row are those numbers. |
| Setups.QPairsAppend | fitter/configloader.py:177-179 | The Q pairs of stacked rows are those of the first block, then those of the second. |
| Setups.ColumnsNamed | fitter/configloader.py:177-182 | The columns are read in order and succeed exactly when all are present, each being `sheet[name]`. |
| Setups.ColumnsNamedError | fitter/configloader.py:177-182 | The error names the first missing column. |
| Setups.NewModelSetup | fitter/configloader.py:176-182 | A missing column is a KeyError naming the first one missing, in the order Qmin, Qmax, Modelname, Data Files, Kernels. Otherwise the four lists are the filtered columns. |
| Setups.ModelSetupMissingColumn | fitter/configloader.py:176-182 | The KeyError names a missing column, and every column before it is present. |
| Setups.Zip4 | fitter/configloader.py:185-186 | `zip` is as long as the shortest list, with entries aligned by position. |
| Setups.GetSetups | fitter/configloader.py:184-186 | `get_setups` aligns model names, data files, Q ranges and kernels row by row, as long as the shortest. |
| Setups.KeyedRows | fitter/configloader.py:213-215 | There are at most as many kept rows as cells. |
| Setups.KeyedRowsMembers | fitter/configloader.py:213-215 | A row is kept exactly when its key cell is text. |
| Setups.OptionsStep | fitter/configloader.py:199-208 | Each row appends its own option to those before it. |
| Setups.StoreStep | fitter/configloader.py:202-204 | A "store" row with a value sets the path to that value's text. Any other row keeps the path. |
| Setups.OptionsAppend | fitter/configloader.py:199-208 | The options of stacked rows are the options of each block in turn. |
| Setups.OptionsShape | fitter/configloader.py:205-207 | The text is empty exactly when there are no rows, and each option starts with `--` and ends with a space. |
| Setups.StoreLastWins | fitter/configloader.py:202-204 | The last "store" row with a value decides the storage path. |
| Setups.StoreDefault | fitter/configloader.py:212 | Without such a row, the path is unchanged. |
| Setups.PathJoin | fitter/configloader.py:223 | The joined path starts with the folder and ends with the file. |
| Setups.BumpsSetup.Init | fitter/configloader.py:210-216 | The set-up holds the kept rows, their options, and their storage path, defaulting to "fit". |
| Setups.BumpsSetup.CreateBumpsString | fitter/configloader.py:199-208 | The loop returns Options of the rows, sets the path to StoreAfter of the rows, and changes nothing else. |
| Setups.BumpsSetup.StoragePath | fitter/configloader.py:218-219 | The storage path is that of the last "store" row with a value, or "fit". |
| Setups.BumpsSetup.StoreDefaultIfNoStore | fitter/configloader.py:212-219 | Without a "store" row, the storage path is "fit". |
| Setups.BumpsSetup.GetBumps | fitter/configloader.py:221-223 | The command is the options, the model file and the configuration file, with output redirected to `log.log` in the storage folder. |
| Setups.BumpsSetup.New | fitter/configloader.py:210-216 | A missing "Bumps Parameters" or "Value" column is a KeyError naming it. Otherwise the set-up is built from the rows with a text key. |
| Setups.Setup.Init | fitter/configloader.py:170-172 | A Setup holds its two parts. |
| Setups.Setup.New | fitter/configloader.py:170-172 | The BumpsSetup is built first, so its KeyErrors come first. Then ModelSetup's. A Setup exists exactly when both succeed. |
| Loader.GroupsFit | fitter/configloader.py:242-249 | Group i exists exactly when its five columns fit in the sheet. |
| Loader.GroupName | fitter/configloader.py:253 | A group's name is the sheet name, `_`, and the group's first header. |
| Loader.GroupRows | fitter/configloader.py:250-252 | A group's rows are columns 6i to 6i+4 of every row. |
| Loader.Columns | fitter/configloader.py:252 | `.iloc` keeps every row's columns lo to hi-1. |
| Loader.GroupBuild | fitter/configloader.py:254-255 | A group is built with the Global dict as its parent. |
| Loader.Load | fitter/configloader.py:239-256 | `_sets` stays a well-formed ordered dict. |
| Loader.LoadSheets | fitter/configloader.py:241-255 | The same holds for the loop over the sheets. |
| Loader.LoadSheet | fitter/configloader.py:243-248 | The same holds for one sheet. |
| Loader.LoadGroups | fitter/configloader.py:249-255 | The same holds for the loop over the groups. |
| Loader.GroupsNeedGlobal | fitter/configloader.py:248-255 | Before the Global sheet, a sheet with groups raises KeyError for "Global Parameters" and leaves its empty dict. A narrower sheet raises nothing. |
| Loader.GlobalMustComeFirst | fitter/configloader.py:241-255 | A sheet with groups met before the Global sheet ends the whole load with that KeyError. |
| Loader.GlobalSheetHasNoParent | fitter/configloader.py:243-246 | The Global sheet becomes one set built from all its rows without a parent. |
| Loader.LoadGroupsStep | fitter/configloader.py:249-255 | Each group is built with the Global dict as parent and stored in the sheet's dict. The Global entry takes the group's changes. |
| Loader.GroupFailed | fitter/configloader.py:249-255 | A failing group ends the loop with its error, and its temporaries stay in the Global set. |
| Loader.GroupLoaded | fitter/configloader.py:249-255 | A group that loads is stored under its name, and the loop carries on. |
| Loader.GroupNames | fitter/configloader.py:253-254 | When every group loads, the sheet's dict gains exactly the group names and keeps its entry kind. |
| Loader.GroupsKeepGlobal | fitter/configloader.py:249-255 | Dataset sheets change the Global set at temporaries only, whether the groups load or fail. |
| Loader.ConfigLoader.constructor | fitter/configloader.py:228-230 | The loader holds the workbook's sheets and no sets yet. |
| Loader.ConfigLoader.CreateParameterSets | fitter/configloader.py:239-256 | The loop sets `_sets` to Load of the sheets. It returns them, or the error that ended the loop, with the partial `_sets` kept. |
| Loader.ConfigLoader.CreateSheet | fitter/configloader.py:241-248 | One sheet is LoadSheet. The Global set object is new or the one before, and the Global entry mirrors it. |
| Loader.ConfigLoader.CreateGroups | fitter/configloader.py:249-255 | The group loop is LoadGroups from an empty sheet dict, with the Global set object changed in place. |
| Loader.ConfigLoader.CreateGroup | fitter/configloader.py:250-255 | One group is LoadGroups' step. There is a KeyError without a Global set and a TypeError when the Global entry is a sheet dict. |

## Left out

- **Object identity.** Dicts hold values rather than shared objects. An
  alias stores an equal value.
- **In-place rename of a shared object.** When a formula's result is an
  object already stored elsewhere, as with `(A+1)`, which returns the
  `temp_par1` object, renaming it changes only the new entry here. In the
  source it would also change the temporary.
- **The Global set object and its `_sets` entry.** They are two copies that
  the methods keep equal (`Mirrors`).
- **Floating point.** Plain numbers are exact terms over reals. Their value
  is defined for `+ - * /` with a non-zero divisor, and for `^` with an
  integral exponent or a zero base. Other powers, NaN arithmetic and
  overflow have no value.
- Values.Perform: the TypeError for a PDParameter combined with a bumps
  Parameter or Operator is assumed. The bumps operator code is not part of
  this model. A float power that overflows (OverflowError) and a negative
  float raised to a fractional power (a complex result) are not modelled;
  both succeed as an arithmetic term without a value, so such a term used
  as a divisor is not recognised as zero. Zero is judged on exact reals: a
  power that underflows to 0.0 in doubles (`1/10^-400`) is not seen as
  zero, and a difference that is zero on reals but not in doubles
  (`1/(0.1+0.2-0.3)`) is.
- Cells.ToBound: `float()` is read on ASCII text. Underscores between
  digits, non-ASCII digits and non-ASCII blanks are refused, and a literal
  is an exact real. Python would round it to the nearest double, and would
  overflow it to infinity.
- **Bumps arithmetic.** It is a symbolic Operator term. Bounds are symbolic
  (finite, NaN, or infinite).
- **`string_split` and `is_number`.** They come from `helpers/functions.py`,
  which is not part of this model. `StringSplit` splits at every operator
  character. `IsNumber` accepts digits with at most one dot and digits after
  it: no sign and no exponent.
- Cells.CellText: number cells print through `Cells.NumberText`, where an
  integral number prints as an integer and any other number with a bounded
  count of decimals. This stands in for Python's shortest-repr float
  formatting.
- **Paths.** `Setups.PathJoin` joins with `/` as on POSIX; an absolute file
  name is not handled.
- **Boolean cells.** In Python `True` is a Number; the model has no boolean
  cell.
- **Blank name cells.** Every blank name cell is the same key.
- **File and sheet access, and printing.** `pd.read_excel` is the
  constructor's argument (the sheets). Left out entirely:
  - `get_sheet` and `get_parameter_sets` (NumPy wrapping);
  - `__str__` and `__repr__`;
  - `name()`;
  - the NumPy-array getters of ModelSetup. The lists they wrap are the
    fields of `Setups.ModelSetup`.
- **Reading the setup sheet's columns.** `Setups.BumpsSetup.New` and
  `Setups.Setup.New` take the sheet. No caller in the core builds one.
- Loader.Load: its own ensures states only that `_sets` stays well formed.
  What it computes is stated by the lemmas after it and by
  `CreateParameterSets`, which is proved equal to it. The same holds for
  Loader.LoadSheets, Loader.LoadSheet and Loader.LoadGroups.
- Loader.LoadSheets: as Loader.Load, proved equal to the loop of `CreateParameterSets`.
- Loader.LoadSheet: as Loader.Load, proved equal to `CreateSheet`.
- Loader.LoadGroups: as Loader.Load, proved equal to `CreateGroups`.
- FlatFormula.Sweep: its own ensures states only the list shapes. Its result
  is stated by `SweepFacts`, `SweepSkips` and the worked cases.
- FlatFormula.Pass: the same, with `PassAgrees` and the worked cases.
- FlatFormula.Passes: the same, with `PassesFacts`, `PassesAgree` and
  `ReduceOperands`.
