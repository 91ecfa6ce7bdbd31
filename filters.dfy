/** The template filters: the month-name table and the guards that turn a
    missing or unusable input into a fixed default before any formatting or
    parsing happens. The formatting and the JSON decoding themselves belong
    to the Python runtime and are parameters here. */
module Filters {
  import opened Common

  /** Index 0 is the empty name, so index m holds the m-th month. */
  const Months: seq<string> := ["", "January", "February", "March", "April", "May", "June",
                                "July", "August", "September", "October", "November", "December"]

  /** The English name of month m, and "" for any number outside 1..12. */
  function MonthName(m: int): (name: string)
    ensures name != "" <==> 1 <= m <= 12
    ensures 1 <= m <= 12 ==> name == Months[m]
  {
    if 1 <= m <= 12 then Months[m] else ""
  }

  /** Different months have different names. */
  lemma MonthNamesDistinct()
    ensures forall m, n :: 1 <= m <= 12 && 1 <= n <= 12 && m != n ==> MonthName(m) != MonthName(n)
  {
  }

  /** January to December, in calendar order. */
  lemma MonthNamesInOrder()
    ensures MonthName(1) == "January" && MonthName(2) == "February" && MonthName(3) == "March"
    ensures MonthName(4) == "April" && MonthName(5) == "May" && MonthName(6) == "June"
    ensures MonthName(7) == "July" && MonthName(8) == "August" && MonthName(9) == "September"
    ensures MonthName(10) == "October" && MonthName(11) == "November" && MonthName(12) == "December"
    ensures MonthName(0) == "" && MonthName(13) == ""
  {
  }

  /** A date-time renders through the given format, and a missing one as "". */
  function FormatDatetime<T>(dt: Option<T>, strftime: T -> string): (s: string)
    ensures dt.None? ==> s == ""
    ensures dt.Some? ==> s == strftime(dt.value)
  {
    match dt
    case None => ""
    case Some(t) => strftime(t)
  }

  /** A number renders through the given format, and a missing one as "0.0". */
  function FormatNumber(number: Option<real>, decimals: nat, render: (real, nat) -> string): (s: string)
    ensures number.None? ==> s == "0.0"
    ensures number.Some? ==> s == render(number.value, decimals)
  {
    match number
    case None => "0.0"
    case Some(x) => render(x, decimals)
  }

  /** The result of a JSON decoder: a value, or a decoding error. */
  datatype Decoded<J> = Value(value: J) | DecodeError

  /** A missing or empty string and a string that fails to decode all give
      the empty object; anything else gives the decoded value. */
  function FromJson<J(==)>(text: Option<string>, decode: string -> Decoded<J>, emptyObject: J): (r: J)
    ensures text.None? || text.value == "" ==> r == emptyObject
    ensures text.Some? && text.value != "" && decode(text.value).DecodeError? ==> r == emptyObject
    ensures r != emptyObject ==> text.Some? && text.value != "" && decode(text.value) == Value(r)
  {
    match text
    case None => emptyObject
    case Some(s) =>
      if s == "" then emptyObject
      else
        match decode(s)
        case Value(v) => v
        case DecodeError => emptyObject
  }
}
