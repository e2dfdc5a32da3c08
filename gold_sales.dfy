/** Executor A10 (tasksA.py): write `str(cursor.fetchone()[0] or 0)`.
    Running the query is not modelled: the row `fetchone()` returns is a
    parameter, `None` when the query produced no row. */
module GoldSales {
  import opened Wrappers
  import PyStr

  /** The Python value sqlite3 hands back for one column. */
  datatype SqlValue =
    | SqlNull
    | SqlInteger(i: int)
    | SqlReal(r: real)
    | SqlText(s: string)
    | SqlBlob(b: seq<bv8>)

  /** Python truthiness of the value: `None`, `0`, `0.0`, `""` and `b""`
      are false. */
  predicate Falsy(v: SqlValue) {
    match v
    case SqlNull => true
    case SqlInteger(i) => i == 0
    case SqlReal(r) => r == 0.0
    case SqlText(s) => s == []
    case SqlBlob(b) => b == []
  }

  /** `v or 0`: the value itself when it is truthy, otherwise the integer 0. */
  function Coalesce(v: SqlValue): (r: SqlValue)
    ensures !Falsy(r) || r == SqlInteger(0)
    ensures Falsy(v) <==> r == SqlInteger(0)
    ensures !Falsy(v) ==> r == v
  {
    if Falsy(v) then SqlInteger(0) else v
  }

  /** `str(v)`. `repr` of a float and of a bytes object are parameters. */
  function Show(v: SqlValue, showReal: real -> string, showBlob: seq<bv8> -> string): string {
    match v
    case SqlNull => "None"
    case SqlInteger(i) => PyStr.DecimalString(i)
    case SqlReal(r) => showReal(r)
    case SqlText(s) => s
    case SqlBlob(b) => showBlob(b)
  }

  /** `str(e)` of the `TypeError` from subscripting `None`. */
  const NoRowError: string := "'NoneType' object is not subscriptable"

  /** `str(e)` of the `IndexError` from `()[0]`. */
  const NoColumnError: string := "tuple index out of range"

  /** A10 as a whole: the text written to the output file, or the error
      raised before anything is written. */
  function A10(row: Option<seq<SqlValue>>, showReal: real -> string, showBlob: seq<bv8> -> string): (written: Result<string, string>)
    ensures written.Failure? <==> row.None? || row.value == []
    ensures row.None? ==> written == Failure(NoRowError)
    ensures row.Some? && row.value == [] ==> written == Failure(NoColumnError)
    ensures written.Success? ==> written.value == Show(Coalesce(row.value[0]), showReal, showBlob)
  {
    match row
    case None => Failure(NoRowError)
    case Some(columns) =>
      if columns == [] then Failure(NoColumnError)
      else Success(Show(Coalesce(columns[0]), showReal, showBlob))
  }

  /** A NULL total (no Gold tickets) or any other falsy first column is
      written as "0", and no other value is. */
  lemma FalsyWritesZero(row: seq<SqlValue>, showReal: real -> string, showBlob: seq<bv8> -> string)
    requires row != []
    requires forall r :: showReal(r) != "0"
    requires forall b :: showBlob(b) != "0"
    ensures A10(Some(row), showReal, showBlob) == Success("0") <==> Falsy(row[0]) || row[0] == SqlText("0")
  {
    PyStr.DecimalZero(0);
    match row[0]
    case SqlInteger(i) => PyStr.DecimalZero(i);
    case _ =>
  }

  /** An integer total is written in decimal and reads back as itself. */
  lemma IntegerTotalRoundTrips(row: seq<SqlValue>, n: int, showReal: real -> string, showBlob: seq<bv8> -> string)
    requires row != [] && row[0] == SqlInteger(n)
    ensures A10(Some(row), showReal, showBlob).Success?
    ensures PyStr.ParseDecimal(A10(Some(row), showReal, showBlob).value) == n
  {
    PyStr.DecimalRoundTrip(n);
  }
}
