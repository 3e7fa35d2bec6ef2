/** Values that travel between the dashboard and its API, shared by the other modules. */
module Api {

  datatype Option<+T> = None | Some(value: T) {
    predicate IsFailure() { None? }

    function PropagateFailure<U>(): Option<U>
      requires None?
    {
      None
    }

    function Extract(): T
      requires Some?
    {
      value
    }
  }

  /** A JSON scalar as it appears in a record or in a filter (numbers are whole numbers here). */
  datatype Value = Null | Num(n: int) | Str(s: string)

  /** A record as the browser receives it: field name to scalar. */
  type Row = map<string, Value>

  /** What axios rejects with: a message, and the HTTP status when a response arrived. */
  datatype HttpError = HttpError(message: string, status: Option<nat>)

  /** The settled outcome of one request. */
  datatype Fetch<+T> = Ok(body: T) | Failed(error: HttpError)

  /** The body of POST /nikeeta-lookup: `{start_date, end_date, page, page_size}`. */
  datatype LookupQuery = LookupQuery(startDate: Option<string>, endDate: Option<string>, page: int, pageSize: int)

  /** `res.data || []`: a missing or falsy list of rows reads as no rows. */
  function OrEmpty(rows: Option<seq<Row>>): seq<Row> {
    if rows.Some? then rows.value else []
  }

  predicate IsDigit(c: char) { '0' <= c <= '9' }

  function DigitChar(d: nat): (c: char)
    requires d < 10
    ensures IsDigit(c)
  {
    ('0' as int + d) as char
  }

  function DigitValue(c: char): nat
    requires IsDigit(c)
  {
    c as int - '0' as int
  }

  /** The decimal text of a natural number, as JavaScript prints it (no leading zeros). */
  function Decimal(n: nat): (s: string)
    ensures |s| >= 1
    ensures forall i :: 0 <= i < |s| ==> IsDigit(s[i])
    ensures s[0] == '0' ==> n == 0
  {
    if n < 10 then [DigitChar(n)] else Decimal(n / 10) + [DigitChar(n % 10)]
  }

  /** The number a string of decimal digits denotes. */
  function DigitsValue(s: string): nat
    requires forall i :: 0 <= i < |s| ==> IsDigit(s[i])
  {
    if |s| == 0 then 0 else 10 * DigitsValue(s[..|s| - 1]) + DigitValue(s[|s| - 1])
  }

  /** Reading back the decimal text gives the number. */
  lemma {:induction false} DecimalRoundTrip(n: nat)
    ensures DigitsValue(Decimal(n)) == n
  {
    if n >= 10 {
      var s := Decimal(n);
      assert s[..|s| - 1] == Decimal(n / 10);
      DecimalRoundTrip(n / 10);
    }
  }

  /** The text shown for a failed request: `err.message + (err.response ? " (status)" : "")`. */
  function ErrorText(e: HttpError): (s: string)
    ensures |s| >= |e.message| && s[..|e.message|] == e.message
    ensures s == e.message <==> e.status.None?
    ensures e.status.Some? ==> s[|e.message|..] == " (" + Decimal(e.status.value) + ")"
  {
    match e.status
    case None => e.message
    case Some(code) => e.message + " (" + Decimal(code) + ")"
  }
}
