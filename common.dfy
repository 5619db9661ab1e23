/**
 * Values shared by every module of the dashboard model.
 */
module Common {
  datatype Option<T> = None | Some(value: T)

  /** The outcome of an operation that can throw: its value, or the error it throws. */
  datatype Result<T, E> = Success(value: T) | Failure(error: E)

  /**
   * A stored reading field (Chuva_Adotada, Cota_Adotada, Vazao_Adotada) as
   * JavaScript's parseFloat and Python's float see it: absent or null, a
   * number (or numeric text) with that value, or something that is not a number.
   */
  datatype Datum = Null | Num(n: real) | NotNumeric

  /** The numeric value of a field, if it has one. */
  function Parsed(d: Datum): Option<real>
  {
    if d.Num? then Some(d.n) else None
  }

  /** `parseFloat(x) || null`: NaN and 0 are both falsy, so only a non-zero number is kept. */
  function NumberOrNull(d: Datum): (r: Option<real>)
    ensures r.Some? <==> d.Num? && d.n != 0.0
    ensures r.Some? ==> r.value == d.n
  {
    if d.Num? && d.n != 0.0 then Some(d.n) else None
  }

  /** JavaScript's `text || null` on a nullable string: the empty string is falsy. */
  function OrNull(s: Option<string>): Option<string>
  {
    if s.Some? && s.value != "" then s else None
  }

  /** One hour in milliseconds, the unit of every JavaScript clock reading. */
  const HourMs: int := 3600000
}
