/**
 * The customization form (components/modals/customize-modal.tsx): its default
 * values, the +/- handlers for rows and columns, and the preview grid's size.
 * A number input registered with `valueAsNumber` holds either a number or NaN
 * (an empty field), and the handlers read it through `|| 3`.
 */
module CustomizeModal {
  import opened Wrappers
  import opened SettingSchema

  /** The value of a number field: NaN or a number. */
  datatype FormNumber = NaN | Num(value: real)

  /** `value || 3`: the falsy values of a number field (NaN and 0) read as 3. */
  function OrThree(v: FormNumber): (r: real)
    ensures v == NaN || v == Num(0.0) ==> r == 3.0
    ensures v.Num? && v.value != 0.0 ==> r == v.value
  {
    match v
    case NaN => 3.0
    case Num(x) => if x == 0.0 then 3.0 else x
  }

  /**
   * The value one click of + (`increment`) or - writes into a field holding
   * `current`: the falsy-defaulted value moved by one, written only when it
   * lies in [3, 10]; `None` when the click writes nothing.
   */
  function Stepped(current: FormNumber, increment: bool): (written: Option<real>)
    ensures var moved := if increment then OrThree(current) + 1.0 else OrThree(current) - 1.0;
      written.Some? <==> 3.0 <= moved <= 10.0
    ensures written.Some? ==> 3.0 <= written.value <= 10.0
    ensures written.Some? ==> written.value == OrThree(current) + (if increment then 1.0 else -1.0)
  {
    var moved := if increment then OrThree(current) + 1.0 else OrThree(current) - 1.0;
    if 3.0 <= moved <= 10.0 then Some(moved) else None
  }

  /**
   * From a value in [3, 10] a click never leaves [3, 10]: + at 10 and - at 3
   * write nothing, every other click moves the value by exactly one.
   */
  lemma SteppingStaysInRange(x: real, increment: bool)
    requires 3.0 <= x <= 10.0
    ensures Stepped(Num(x), true) == None <==> x > 9.0
    ensures Stepped(Num(x), false) == None <==> x < 4.0
    ensures Stepped(Num(10.0), true) == None && Stepped(Num(3.0), false) == None
    ensures var next := match Stepped(Num(x), increment) case Some(y) => y case None => x;
      3.0 <= next <= 10.0
  {
  }

  /**
   * A falsy field steps as if it held 3: + writes 4, while - writes nothing,
   * so an emptied field stays empty after a -.
   */
  lemma FalsyReadsAsThree(increment: bool)
    ensures Stepped(NaN, increment) == Stepped(Num(3.0), increment)
    ensures Stepped(Num(0.0), increment) == Stepped(Num(3.0), increment)
    ensures Stepped(NaN, true) == Some(4.0) && Stepped(NaN, false) == None
  {
  }

  /** Every value a click writes passes the schema's check for that field. */
  lemma WrittenValuesPassSchema(current: FormNumber, increment: bool)
    ensures Stepped(current, increment).Some? ==>
      RowIssues(Stepped(current, increment).value) == [] &&
      ColIssues(Stepped(current, increment).value) == []
  {
  }

  /** `disabled={watched <= 3}` on the - button; NaN compares false, so an empty field leaves it enabled. */
  predicate DecrementDisabled(v: FormNumber): (disabled: bool)
    ensures v.NaN? ==> !disabled
    ensures disabled ==> OrThree(v) <= 3.0
  {
    v.Num? && v.value <= 3.0
  }

  /** Whenever the - button is disabled, its handler would have written nothing anyway. */
  lemma DisabledDecrementIsNoOp(v: FormNumber)
    ensures DecrementDisabled(v) ==> Stepped(v, false) == None
  {
  }

  /** `initialValues`: each field may be missing. */
  datatype InitialValues = InitialValues(boardRows: Option<FormNumber>, boardCols: Option<FormNumber>,
                                         aiDifficulty: Option<string>)

  /** The form's values. */
  datatype FormValues = FormValues(boardRows: FormNumber, boardCols: FormNumber, aiDifficulty: string)

  /** `initialValues?.field || fallback` for a number field. */
  function NumberOr(v: Option<FormNumber>, fallback: real): (r: FormNumber)
    ensures r.Num?
    ensures v.None? || v == Some(NaN) || v == Some(Num(0.0)) ==> r == Num(fallback)
    ensures v.Some? && v.value.Num? && v.value.value != 0.0 ==> r == v.value
  {
    match v
    case Some(Num(x)) => if x == 0.0 then Num(fallback) else Num(x)
    case _ => Num(fallback)
  }

  /**
   * `defaultValues`: missing or falsy initial values fall back to 3, 3 and
   * 'medium'; with no initial values at all the defaults are the store's
   * defaults, which the schema accepts.
   */
  function DefaultValues(initial: InitialValues): (d: FormValues)
    ensures d.boardRows.Num? && d.boardCols.Num?
    ensures initial.boardRows.None? ==> d.boardRows == Num(3.0)
    ensures initial.boardCols.None? ==> d.boardCols == Num(3.0)
    ensures initial.aiDifficulty.None? || initial.aiDifficulty == Some("") ==> d.aiDifficulty == "medium"
    ensures initial.aiDifficulty.Some? && initial.aiDifficulty.value != "" ==>
      d.aiDifficulty == initial.aiDifficulty.value
    ensures initial == InitialValues(None, None, None) ==>
      SafeParse(Customization(d.boardRows.value, d.boardCols.value, d.aiDifficulty)) == []
  {
    FormValues(NumberOr(initial.boardRows, 3.0), NumberOr(initial.boardCols, 3.0),
      match initial.aiDifficulty
      case Some(s) => if s == "" then "medium" else s
      case None => "medium")
  }

  /** An array's length must stay below 2^32; `Array(len)` throws a RangeError otherwise. */
  const ArrayLengthBound: nat := 0x1_0000_0000

  /**
   * `Array.from({ length: (rows || 3) * (cols || 3) })`: the number of preview
   * cells, or None where the call throws. `Array.from` truncates the length
   * to a whole number and treats a negative one as 0, then allocates an array
   * of that length, which throws a RangeError from 2^32 on (the number input
   * has a minimum but no maximum, so such values can be typed).
   */
  function PreviewCellCount(rows: FormNumber, cols: FormNumber): (n: Option<nat>)
    ensures var product := OrThree(rows) * OrThree(cols);
      n.None? <==> product >= ArrayLengthBound as real
    ensures var product := OrThree(rows) * OrThree(cols);
      n.Some? ==> (product <= 0.0 ==> n.value == 0) &&
                  (product > 0.0 ==> n.value as real <= product < n.value as real + 1.0)
  {
    var product := OrThree(rows) * OrThree(cols);
    if product <= 0.0 then Some(0)
    else if product.Floor >= ArrayLengthBound then None
    else Some(product.Floor)
  }

  /** For a whole-numbered board within the schema's bounds the preview has one cell per board cell. */
  lemma PreviewMatchesBoard(rows: nat, cols: nat)
    requires 3 <= rows <= 10 && 3 <= cols <= 10
    ensures PreviewCellCount(Num(rows as real), Num(cols as real)) == Some(rows * cols)
    ensures 9 <= rows * cols <= 100
  {
    assert (rows as real) * (cols as real) == (rows * cols) as real;
    assert 9 <= rows * cols <= 100 by {
      Nine(rows, cols);
    }
  }

  /** A typed-in 70000 × 70000 board asks for 4.9e9 preview cells, and the preview throws. */
  lemma HugePreviewThrows()
    ensures PreviewCellCount(Num(70000.0), Num(70000.0)) == None
  {
  }

  lemma Nine(a: nat, b: nat)
    requires 3 <= a <= 10 && 3 <= b <= 10
    ensures 9 <= a * b <= 100
  {
    assert 3 * b <= a * b <= 10 * b;
  }

  /** The form's fields and the +/- handlers that write them. */
  class CustomizeForm {
    var values: FormValues

    /** `useForm` with `defaultValues`. */
    constructor (initial: InitialValues)
      ensures values == DefaultValues(initial)
    {
      values := DefaultValues(initial);
    }

    /** `handleRowsChange`: only the row field changes, and only by a written step. */
    method HandleRowsChange(increment: bool)
      modifies this
      ensures values == match Stepped(old(values.boardRows), increment)
        case Some(v) => old(values).(boardRows := Num(v))
        case None => old(values)
    {
      var written := Stepped(values.boardRows, increment);
      if written.Some? {
        values := values.(boardRows := Num(written.value));
      }
    }

    /** `handleColsChange`: as `handleRowsChange`, for the column field. */
    method HandleColsChange(increment: bool)
      modifies this
      ensures values == match Stepped(old(values.boardCols), increment)
        case Some(v) => old(values).(boardCols := Num(v))
        case None => old(values)
    {
      var written := Stepped(values.boardCols, increment);
      if written.Some? {
        values := values.(boardCols := Num(written.value));
      }
    }
  }
}
