/** The exceptions the configuration loader can raise, and the Result type
    that carries them in place of Python's raise. */
module Errors {

  datatype Option<+T> = None | Some(value: T)

  /** A cell of a spreadsheet as pandas hands it over: text, a number, or a
      blank (NaN). Parameter names are cells too, so KeyError carries one. */
  datatype Cell = Str(s: string) | Num(x: real) | Missing

  /** Why a TypeError was raised. */
  datatype TypeWhy =
    | NotAParameter        // ParameterSet.add given something that is not a bumps Parameter/Operator
    | InvalidParent        // ParameterSet constructed with a parent that is not None nor a ParameterSet
    | UnsupportedOperand   // arithmetic with a PDParameter operand

  /** Why an IndexError was raised. */
  datatype IndexWhy =
    | PopFromEmpty         // closing bracket with no bracket open
    | ArrayIndexedByText   // the bracket-mismatch message indexes a numpy array with a string array
    | RowTooShort(col: nat) // a row has no cell at this column

  /** Why an AttributeError was raised. */
  datatype AttributeWhy =
    | DictHasNoAdd         // the parent scope is a plain dict
    | NumberHasNoName      // a formula evaluated to a plain number
    | NoRangeMethod        // a formula evaluated to a PDParameter

  datatype Error =
    | KeyError(key: Cell)          // a name, sheet or column that is not there
    | UnknownOperation(op: string) // the KeyError of an unsupported operator symbol
    | TypeError(why: TypeWhy)
    | IndexError(index: IndexWhy)
    | AttributeError(attribute: AttributeWhy)
    | ValueError(text: string)     // float() of a text that is not a number
    | ZeroDivisionError            // float division by zero, or 0.0 raised to a negative power

  datatype Result<+T> = Ok(value: T) | Err(error: Error)
}
