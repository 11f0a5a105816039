/**
 * The calendar arithmetic of main.py: month_days, which chunks the day numbers of
 * calendar.itermonthdays into week rows of seven (0 becomes an empty cell), and the month
 * pick_dest opens the calendar on.
 */
module Calendar {
  import opened Wrappers
  import opened Dates

  /** A calendar cell: None for a day outside the month (itermonthdays yields 0 for those). */
  function Cell(d: int): Option<int> { if d == 0 then None else Some(d) }

  function Cells(days: seq<int>): (c: seq<Option<int>>)
    ensures |c| == |days| && forall k :: 0 <= k < |days| ==> c[k] == Cell(days[k])
  {
    seq(|days|, k requires 0 <= k < |days| => Cell(days[k]))
  }

  function Flatten(rows: seq<seq<Option<int>>>): seq<Option<int>> {
    if rows == [] then [] else Flatten(rows[..|rows| - 1]) + rows[|rows| - 1]
  }

  function Blanks(n: nat): seq<Option<int>> { seq(n, _ => None) }

  /** How many empty cells complete the last week of n cells. */
  function PadCount(n: nat): nat { (7 - n % 7) % 7 }

  lemma {:induction false} FlattenSevens(rows: seq<seq<Option<int>>>)
    requires forall w :: 0 <= w < |rows| ==> |rows[w]| == 7
    ensures |Flatten(rows)| == 7 * |rows|
    ensures forall r, c :: 0 <= r < |rows| && 0 <= c < 7 ==> Flatten(rows)[7 * r + c] == rows[r][c]
    decreases |rows|
  {
    if rows != [] {
      var init := rows[..|rows| - 1];
      FlattenSevens(init);
      forall r, c | 0 <= r < |rows| && 0 <= c < 7 ensures Flatten(rows)[7 * r + c] == rows[r][c] {
        if r < |rows| - 1 {
          assert rows[r] == init[r];
        }
      }
    }
  }

  /**
   * month_days: every week row has seven cells; read row by row they are the given days
   * with 0 as None, followed by fewer than seven None's; day k sits in row k / 7, column k % 7.
   */
  method MonthDays(days: seq<int>) returns (weeks: seq<seq<Option<int>>>)
    ensures forall w :: 0 <= w < |weeks| ==> |weeks[w]| == 7
    ensures Flatten(weeks) == Cells(days) + Blanks(PadCount(|days|))
    ensures |weeks| == (|days| + 6) / 7
    ensures forall k :: 0 <= k < |days| ==> weeks[k / 7][k % 7] == Cell(days[k])
  {
    weeks := [];
    var row: seq<Option<int>> := [];
    for i := 0 to |days|
      invariant forall w :: 0 <= w < |weeks| ==> |weeks[w]| == 7
      invariant |row| < 7 && 7 * |weeks| + |row| == i
      invariant Flatten(weeks) + row == Cells(days[..i])
    {
      assert Cells(days[..i + 1]) == Cells(days[..i]) + [Cell(days[i])];
      row := row + [Cell(days[i])];
      if |row| == 7 {
        assert (weeks + [row])[..|weeks|] == weeks;
        weeks := weeks + [row];
        row := [];
      }
    }
    assert days[..|days|] == days;
    assert |days| % 7 == |row|;
    if row != [] {
      var padded := PadRow(row);
      assert PadCount(|days|) == 7 - |row|;
      assert Flatten(weeks) + padded == Cells(days) + Blanks(PadCount(|days|));
      assert (weeks + [padded])[..|weeks|] == weeks;
      weeks := weeks + [padded];
    } else {
      assert Cells(days) + Blanks(PadCount(|days|)) == Cells(days);
    }
    WeeksShape(weeks, days);
  }

  /** `while len(row) < 7: row.append(None)`: the last week padded with empty cells. */
  method PadRow(row: seq<Option<int>>) returns (padded: seq<Option<int>>)
    requires |row| <= 7
    ensures padded == row + Blanks(7 - |row|)
  {
    padded := row;
    while |padded| < 7
      invariant |row| <= |padded| <= 7
      invariant padded == row + Blanks(|padded| - |row|)
    {
      assert Blanks(|padded| + 1 - |row|) == Blanks(|padded| - |row|) + [None];
      padded := padded + [None];
    }
  }

  /** Rows of seven holding the cells and the padding of a month have the shape month_days promises. */
  lemma WeeksShape(weeks: seq<seq<Option<int>>>, days: seq<int>)
    requires forall w :: 0 <= w < |weeks| ==> |weeks[w]| == 7
    requires Flatten(weeks) == Cells(days) + Blanks(PadCount(|days|))
    ensures |weeks| == (|days| + 6) / 7
    ensures forall k :: 0 <= k < |days| ==> weeks[k / 7][k % 7] == Cell(days[k])
  {
    FlattenSevens(weeks);
    forall k | 0 <= k < |days| ensures weeks[k / 7][k % 7] == Cell(days[k]) {
      assert Flatten(weeks)[7 * (k / 7) + k % 7] == weeks[k / 7][k % 7];
    }
  }

  // ------------------------------------------------------------ the month pick_dest opens

  /**
   * (d.replace(day=28) + timedelta(days=4)).replace(day=1): the first of the next month.
   * Past December 9999 the source raises OverflowError, here None.
   */
  function FirstOfNextMonth(d: Date): (r: Option<Date>)
    requires ValidDate(d)
    ensures r.None? <==> d.year == 9999 && d.month == 12
    ensures r.Some? ==> r.value == (if d.month == 12 then Date(d.year + 1, 1, 1) else Date(d.year, d.month + 1, 1))
    ensures r.Some? ==> ValidDate(r.value) && Ordinal(r.value) == Ordinal(d.(day := 1)) + DaysInMonth(d.year, d.month)
  {
    if d.year == 9999 && d.month == 12 then None
    else
      FourDaysAfter28(d);
      var d28 := d.(day := 28);
      var d32 := NextDay(NextDay(NextDay(NextDay(d28))));
      Some(d32.(day := 1))
  }

  /** The date j days after the 28th of d's month, for j from 1 to 4. */
  function After28(d: Date, j: int): Date
    requires ValidDate(d)
  {
    var dim := DaysInMonth(d.year, d.month);
    if 28 + j <= dim then Date(d.year, d.month, 28 + j)
    else if d.month == 12 then Date(d.year + 1, 1, 28 + j - dim)
    else Date(d.year, d.month + 1, 28 + j - dim)
  }

  lemma FourDaysAfter28(d: Date)
    requires ValidDate(d) && !(d.year == 9999 && d.month == 12)
    ensures var d28 := d.(day := 28);
            ValidDate(d28) && d28 != Date(9999, 12, 31)
            && NextDay(d28) == After28(d, 1) && After28(d, 1) != Date(9999, 12, 31)
            && NextDay(After28(d, 1)) == After28(d, 2) && After28(d, 2) != Date(9999, 12, 31)
            && NextDay(After28(d, 2)) == After28(d, 3) && After28(d, 3) != Date(9999, 12, 31)
            && NextDay(After28(d, 3)) == After28(d, 4)
  {
  }

  /** pick_dest: today while the day is at most 25, otherwise the first of next month. */
  function CalendarStart(today: Date): (r: Option<Date>)
    requires ValidDate(today)
    ensures r.None? <==> today.day > 25 && today.year == 9999 && today.month == 12
    ensures today.day <= 25 ==> r == Some(today)
    ensures r.Some? ==> ValidDate(r.value) && 0 <= Ordinal(r.value) - Ordinal(today) <= 6
  {
    if today.day <= 25 then Some(today) else FirstOfNextMonth(today)
  }
}
