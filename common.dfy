/**
 * Shared vocabulary of the ledger: optional values, the errors the
 * controllers and the schemas report, owners and ids, and the day windows
 * that the list filters and the summaries query with.
 */
module Common {

  datatype Option<T> = None | Some(value: T) {
    function GetOr(default: T): T {
      if Some? then value else default
    }
  }

  /** A schema path that can fail validation on save. */
  datatype Field = AmountField | KindField | NoteField

  /**
   * What an operation reports instead of a result. `BadRequest` and
   * `NotFound` are the controllers' own 400 and 404 answers; `Invalid` is the
   * validation error the schema raises on save, listing every failing path.
   */
  datatype Error =
    | BadRequest(message: string)
    | NotFound(message: string)
    | Invalid(fields: set<Field>)

  datatype Result<T> = Ok(value: T) | Err(error: Error)

  datatype Outcome = Pass | Fail(error: Error)

  /** The authenticated caller, already resolved by the access layer. */
  type UserId = nat

  /** A record's `_id`. */
  type RecordId = nat

  /** Milliseconds in one calendar day; timestamps are milliseconds. */
  const MS_PER_DAY: int := 86_400_000

  /** Midnight (00:00:00.000) of the day that contains `t`. */
  function DayStart(t: int): (d: int)
    ensures d <= t < d + MS_PER_DAY
    ensures d % MS_PER_DAY == 0
  {
    t - t % MS_PER_DAY
  }

  /** Two timestamps fall on the same day exactly when they are less than a day from one midnight. */
  lemma SameDay(d: int, x: int)
    requires d % MS_PER_DAY == 0
    ensures d <= x < d + MS_PER_DAY <==> DayStart(x) == d
  {
    if d <= x < d + MS_PER_DAY {
      var q := d / MS_PER_DAY;
      assert d == q * MS_PER_DAY;
      assert x == q * MS_PER_DAY + (x - d);
      assert x % MS_PER_DAY == x - d;
    }
  }

  /** A closed interval of timestamps, as the `$gte`/`$lte` date conditions. */
  datatype Window = Window(lo: int, hi: int) {
    predicate Contains(t: int) {
      lo <= t <= hi
    }
  }

  /** From 00:00:00.000 to 23:59:59.999 of the day of `t`. */
  function DayWindow(t: int): (w: Window)
    ensures w.Contains(t)
    ensures w.lo % MS_PER_DAY == 0 && w.hi - w.lo == MS_PER_DAY - 1
    ensures forall x :: w.Contains(x) <==> DayStart(x) == DayStart(t)
  {
    var w := Window(DayStart(t), DayStart(t) + MS_PER_DAY - 1);
    forall x ensures w.Contains(x) <==> DayStart(x) == DayStart(t) {
      SameDay(DayStart(t), x);
    }
    w
  }

  /** From 00:00:00.000 of the day of `start` to 23:59:59.999 of the day of `end`. */
  function RangeWindow(start: int, end: int): (w: Window)
    ensures forall x :: w.Contains(x) <==> DayStart(start) <= DayStart(x) <= DayStart(end)
    ensures DayStart(start) > DayStart(end) ==> forall x :: !w.Contains(x)
  {
    var w := Window(DayStart(start), DayStart(end) + MS_PER_DAY - 1);
    forall x ensures w.Contains(x) <==> DayStart(start) <= DayStart(x) <= DayStart(end) {
      SameDay(DayStart(start), DayStart(start));
      SameDay(DayStart(end), DayStart(end) + MS_PER_DAY - 1);
      if DayStart(start) <= x {
        DayStartMonotone(DayStart(start), x);
      }
      if x <= DayStart(end) + MS_PER_DAY - 1 {
        DayStartMonotone(x, DayStart(end) + MS_PER_DAY - 1);
      }
    }
    w
  }

  lemma DayStartMonotone(x: int, y: int)
    requires x <= y
    ensures DayStart(x) <= DayStart(y)
  {
  }
}
