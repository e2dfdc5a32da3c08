/** Executor A3 (tasksA.py): count the dates in a file that fall on a given
    weekday and write the count. `parse(date).weekday()` from dateutil is a
    parameter, `None` standing for a date it cannot parse. */
module DateCount {
  import opened Wrappers
  import opened JsonValues
  import PyStr

  /** `parse(line.strip()).weekday()` for one line of the file. */
  function DayOfLine(weekdayOf: string -> Option<int>): string -> Option<int> {
    line => weekdayOf(PyStr.Strip(line))
  }

  /** Line `i` holds a date whose weekday number compares equal to the
      `weekday` argument, which arrives as whatever JSON value the
      arguments held; here and below `weekdayOf` is applied to a whole line,
      as `DayOfLine` builds it. */
  predicate IsMatch(lines: seq<string>, i: int, weekday: Json, weekdayOf: string -> Option<int>) {
    0 <= i < |lines| && weekdayOf(lines[i]).Some? && EqualsInt(weekday, weekdayOf(lines[i]).value)
  }

  /** The positions of the matching lines. */
  function Matches(lines: seq<string>, weekday: Json, weekdayOf: string -> Option<int>): set<int> {
    set i | 0 <= i < |lines| && IsMatch(lines, i, weekday, weekdayOf)
  }

  /** `sum(1 for date in dates if parse(date.strip()).weekday() == weekday)`
      with `weekdayOf` standing for `DayOfLine`; `None` when `parse` raises
      on some line. Which line raises first does
      not matter, as A3 swallows the exception, so the sum is taken from the
      last line backwards. */
  function CountWeekday(lines: seq<string>, weekday: Json, weekdayOf: string -> Option<int>): (r: Option<nat>)
    ensures r.Some? <==> forall i | 0 <= i < |lines| :: weekdayOf(lines[i]).Some?
    ensures r.Some? ==> r.value <= |lines|
  {
    if lines == [] then Some(0)
    else
      var init := lines[..|lines| - 1];
      match CountWeekday(init, weekday, weekdayOf)
      case None => None
      case Some(n) =>
        match weekdayOf(lines[|lines| - 1])
        case None => None
        case Some(d) =>
          assert forall i | 0 <= i < |init| :: init[i] == lines[i];
          Some(if EqualsInt(weekday, d) then n + 1 else n)
  }

  /** The count is the number of lines whose date falls on `weekday`. */
  lemma {:induction false} CountIsNumberOfMatches(lines: seq<string>, weekday: Json, weekdayOf: string -> Option<int>)
    requires CountWeekday(lines, weekday, weekdayOf).Some?
    ensures CountWeekday(lines, weekday, weekdayOf).value == |Matches(lines, weekday, weekdayOf)|
  {
    if lines != [] {
      var init := lines[..|lines| - 1];
      var last := |lines| - 1;
      CountIsNumberOfMatches(init, weekday, weekdayOf);
      var before := Matches(init, weekday, weekdayOf);
      var after := Matches(lines, weekday, weekdayOf);
      forall i | 0 <= i < |init|
        ensures IsMatch(lines, i, weekday, weekdayOf) == IsMatch(init, i, weekday, weekdayOf)
      {
        assert init[i] == lines[i];
      }
      if IsMatch(lines, last, weekday, weekdayOf) {
        assert after == before + {last};
      } else {
        assert after == before;
      }
    }
  }

  /** What A3 leaves in the target file, given the input file's content
      (`None` when it does not exist): `None` when nothing is written. */
  function A3(input: Option<string>, weekday: Json, weekdayOf: string -> Option<int>): (written: Option<string>)
    ensures input.None? ==> written.None?
    ensures written.Some? ==>
      var lines := PyStr.ReadLines(input.value);
      && (forall i | 0 <= i < |lines| :: DayOfLine(weekdayOf)(lines[i]).Some?)
      && written.value == PyStr.DecimalString(|Matches(lines, weekday, DayOfLine(weekdayOf))|)
      && PyStr.ParseDecimal(written.value) == |Matches(lines, weekday, DayOfLine(weekdayOf))|
  {
    match input
    case None => None
    case Some(content) =>
      var lines := PyStr.ReadLines(content);
      match CountWeekday(lines, weekday, DayOfLine(weekdayOf))
      case None => None
      case Some(n) =>
        CountIsNumberOfMatches(lines, weekday, DayOfLine(weekdayOf));
        PyStr.DecimalRoundTrip(n);
        Some(PyStr.DecimalString(n))
  }

  /** An existing file whose every line parses always gets its count
      written; a line that does not parse means nothing is written. */
  lemma WrittenIffAllParse(content: string, weekday: Json, weekdayOf: string -> Option<int>)
    ensures A3(Some(content), weekday, weekdayOf).Some? <==>
      forall i | 0 <= i < |PyStr.ReadLines(content)| :: DayOfLine(weekdayOf)(PyStr.ReadLines(content)[i]).Some?
  {
  }

  /** The written count never exceeds the number of lines. */
  lemma CountAtMostLines(content: string, weekday: Json, weekdayOf: string -> Option<int>)
    requires A3(Some(content), weekday, weekdayOf).Some?
    ensures PyStr.ParseDecimal(A3(Some(content), weekday, weekdayOf).value) <= |PyStr.ReadLines(content)|
  {
    var lines := PyStr.ReadLines(content);
    var n := CountWeekday(lines, weekday, DayOfLine(weekdayOf)).value;
    PyStr.DecimalRoundTrip(n);
  }

  /** A weekday given as a day name, as the descriptor's pattern suggests,
      or as any other value that is neither a number nor a boolean, equals
      no weekday number: the count written is always "0". */
  lemma NonNumericWeekdayWritesZero(content: string, weekday: Json, weekdayOf: string -> Option<int>)
    requires !weekday.JInt? && !weekday.JBool?
    requires A3(Some(content), weekday, weekdayOf).Some?
    ensures A3(Some(content), weekday, weekdayOf).value == "0"
  {
    var lines := PyStr.ReadLines(content);
    assert Matches(lines, weekday, DayOfLine(weekdayOf)) == {};
    PyStr.DecimalZero(0);
  }

  /** `true` and `false` count the dates on weekday 1 (Tuesday) and 0
      (Monday), as a boolean compares equal to that integer. */
  lemma BooleanWeekdayIsInteger(input: Option<string>, b: bool, weekdayOf: string -> Option<int>)
    ensures A3(input, JBool(b), weekdayOf) == A3(input, JInt(if b then 1 else 0), weekdayOf)
  {
    if input.Some? {
      var lines := PyStr.ReadLines(input.value);
      var n := if b then 1 else 0;
      assert Matches(lines, JBool(b), DayOfLine(weekdayOf)) == Matches(lines, JInt(n), DayOfLine(weekdayOf));
      WrittenIffAllParse(input.value, JBool(b), weekdayOf);
      WrittenIffAllParse(input.value, JInt(n), weekdayOf);
    }
  }
}
