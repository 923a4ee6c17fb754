/** The part of a pandas DataFrame the chart helpers look at. Column dtypes
    are taken as pandas inferred them; cells are kept so that the counts
    pandas computes (`nunique`, `value_counts`, `isna().sum()`) can be
    stated. A boolean cell is `Number(1.0)` or `Number(0.0)`, as Python
    hashes and compares it. */
module Frames {

  datatype DType =
    | IntDtype
    | FloatDtype
    | BoolDtype
    | DatetimeDtype
    | ObjectDtype
    | CategoryDtype
    | OtherDtype(name: string)

  datatype Cell = Missing | Number(x: real) | Text(s: string)

  datatype Column = Column(name: string, dtype: DType, cells: seq<Cell>)

  datatype Frame = Frame(rowCount: nat, columns: seq<Column>)

  /** What pandas guarantees of a frame built from records: every column
      has one cell per row, and column names are distinct. */
  predicate WellFormed(f: Frame) {
    && (forall i :: 0 <= i < |f.columns| ==> |f.columns[i].cells| == f.rowCount)
    && (forall i, j :: 0 <= i < j < |f.columns| ==> f.columns[i].name != f.columns[j].name)
  }

  /** `df.empty`: no rows or no columns. */
  predicate IsEmpty(f: Frame) {
    f.rowCount == 0 || |f.columns| == 0
  }

  /** `pd.DataFrame()`. */
  const EmptyFrame := Frame(0, [])

  /** `df.columns.tolist()`. */
  function ColumnNames(f: Frame): (names: seq<string>)
    ensures |names| == |f.columns|
    ensures forall i :: 0 <= i < |names| ==> names[i] == f.columns[i].name
  {
    seq(|f.columns|, i requires 0 <= i < |f.columns| => f.columns[i].name)
  }

  /** `pd.api.types.is_numeric_dtype`, which also accepts booleans. */
  predicate IsNumericDtype(d: DType) {
    d.IntDtype? || d.FloatDtype? || d.BoolDtype?
  }

  /** `df.select_dtypes(include=['number'])`, which leaves booleans out. */
  predicate IsNumberDtype(d: DType) {
    d.IntDtype? || d.FloatDtype?
  }

  /** `pd.api.types.is_datetime64_dtype`. */
  predicate IsDatetimeDtype(d: DType) {
    d.DatetimeDtype?
  }

  /** `is_object_dtype(d) or is_categorical_dtype(d)`. */
  predicate IsObjectOrCategory(d: DType) {
    d.ObjectDtype? || d.CategoryDtype?
  }

  /** `str(df[col].dtype)`. */
  function DTypeName(d: DType): string {
    match d
    case IntDtype => "int64"
    case FloatDtype => "float64"
    case BoolDtype => "bool"
    case DatetimeDtype => "datetime64[ns]"
    case ObjectDtype => "object"
    case CategoryDtype => "category"
    case OtherDtype(name) => name
  }

  /** The number of positions of `cells` holding `c`. */
  function Count(cells: seq<Cell>, c: Cell): (n: nat)
    ensures n <= |cells|
    decreases |cells|
  {
    if |cells| == 0 then 0 else (if cells[0] == c then 1 else 0) + Count(cells[1..], c)
  }

  /** The distinct non-missing values of a column. */
  function Distinct(cells: seq<Cell>): set<Cell> {
    set i | 0 <= i < |cells| && cells[i] != Missing :: cells[i]
  }

  /** `nunique()`, which does not count missing values. */
  function Nunique(cells: seq<Cell>): nat {
    |Distinct(cells)|
  }
}
