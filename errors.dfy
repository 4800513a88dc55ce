/** The uniform error shape every failure path surfaces. */
module Errors {
  import opened JsValues

  const DefaultMessage := "Something went wrong"

  /**
   * What a failed step throws: an error raised by the platform (the
   * transport, an abort, a body parser) with whichever of the fields
   * `status`, `message` and `data` it carries (absent ones are Undefined),
   * or an object built by `Normalize`, which also keeps the original.
   */
  datatype Thrown =
    | Raised(status: Value, message: Value, data: Value)
    | Normalized(status: Value, message: Value, data: Value, raw: Thrown)

  /**
   * normalizeError: status falls back to 0, message to a fixed text and
   * data to null, each when the input's field is falsy; raw is the input.
   */
  function Normalize(e: Thrown): (r: Thrown)
    ensures r.Normalized? && r.raw == e
    ensures Truthy(r.message)
    ensures Truthy(e.message) ==> r.message == e.message
    ensures !Truthy(e.message) ==> r.message == Str(DefaultMessage)
    ensures Truthy(e.status) ==> r.status == e.status
    ensures !Truthy(e.status) ==> r.status == Num(0)
    ensures r.data == e.data || r.data == Null
    ensures Truthy(e.data) <==> r.data != Null
  {
    Normalized(Or(e.status, Num(0)), Or(e.message, Str(DefaultMessage)), Or(e.data, Null), e)
  }

  /**
   * Normalising an already normalised error keeps its status, message and
   * data; only raw changes (it now points at the first normalisation).
   */
  lemma NormalizeStable(e: Thrown)
    ensures var once, twice := Normalize(e), Normalize(Normalize(e));
      twice.status == once.status && twice.message == once.message &&
      twice.data == once.data && twice.raw == once
  {
  }
}
