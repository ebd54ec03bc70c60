/** Shared vocabulary: optional values, results, calendar dates. */
module Common {

  /** Python's `X | None`. */
  datatype Option<+T> = None | Some(value: T)

  /** An operation that either returns a value or fails with a reason
      (the source raises `HTTPException` / `ValueError` for the latter). */
  datatype Result<+T, +E> = Ok(value: T) | Err(error: E)

  /** Python truthiness of an optional integer id: `None` and `0` are false. */
  predicate Truthy(id: Option<int>) {
    id.Some? && id.value != 0
  }

  /** An `HTTPException`: status code and detail text. */
  datatype HttpError = HttpError(status: nat, detail: string)

  /** Rejection of a body that breaks its schema (FastAPI's 422). */
  const ValidationError := HttpError(422, "Request body failed validation")

  /** An optional text field within its `max_length`. */
  predicate MaxLength(s: Option<string>, n: nat) {
    s.None? || |s.value| <= n
  }

  datatype CalendarDay = CalendarDay(year: int, month: int, day: int)

  /** A `datetime.date`: the month is always 1..12 and the day 1..31. */
  type Date = d: CalendarDay | 1 <= d.month <= 12 && 1 <= d.day <= 31
    witness CalendarDay(1970, 1, 1)

  /** Chronological order on dates. */
  predicate DateLe(a: Date, b: Date) {
    a.year < b.year
    || (a.year == b.year && a.month < b.month)
    || (a.year == b.year && a.month == b.month && a.day <= b.day)
  }

  lemma DateLeTotal(a: Date, b: Date)
    ensures DateLe(a, b) || DateLe(b, a)
    ensures DateLe(a, b) && DateLe(b, a) ==> a == b
  {
  }

  lemma DateLeTransitive(a: Date, b: Date, c: Date)
    requires DateLe(a, b) && DateLe(b, c)
    ensures DateLe(a, c)
  {
  }

  function Abs(x: int): (r: nat)
    ensures r == x || r == -x
  {
    if x < 0 then -x else x
  }
}
