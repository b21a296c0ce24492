/** `sendResponse`: writes the status and a JSON envelope built from the
    given fields. */
module SendResponse {
  import opened Wrappers
  import opened Http

  /** `TMeta` */
  datatype Meta = Meta(limit: int, page: int, total: int, totalPage: int)

  datatype ErrorEntry = ErrorEntry(field: Option<string>, message: string)

  /** `TResponse<T>`; `None` is an omitted optional field. */
  datatype TResponse<T> = TResponse(
    statusCode: int,
    success: bool,
    message: Option<string>,
    meta: Option<Meta>,
    data: Option<T>,
    errors: Option<seq<ErrorEntry>>)

  /** The object literal given to `json`: the six keys `statusCode`,
      `success`, `message`, `meta`, `data`, `errors`, and no other. */
  datatype Envelope<T> = Envelope(
    statusCode: int,
    success: bool,
    message: Option<string>,
    meta: Option<Meta>,
    data: Option<T>,
    errors: Option<seq<ErrorEntry>>)

  function EnvelopeOf<T>(r: TResponse<T>): Envelope<T> {
    Envelope(r.statusCode, r.success, r.message, r.meta, r.data, r.errors)
  }

  /** Reading the envelope's keys back. */
  function FieldsOf<T>(e: Envelope<T>): TResponse<T> {
    TResponse(e.statusCode, e.success, e.message, e.meta, e.data, e.errors)
  }

  /** Every field is copied unchanged, an omitted one stays omitted (it is
      not dropped from the literal and not given a default), and nothing is
      added: the input can be read back from the envelope. */
  lemma EnvelopeCopiesEveryField<T>(r: TResponse<T>)
    ensures FieldsOf(EnvelopeOf(r)) == r
    ensures r.meta.None? ==> EnvelopeOf(r).meta.None?
    ensures r.errors.None? ==> EnvelopeOf(r).errors.None?
  {
  }

  /** A success envelope carries no errors and a failure envelope no data. */
  predicate Exclusive<T>(e: Envelope<T>) {
    (e.success ==> e.errors.None?) && (!e.success ==> e.data.None?)
  }

  /** `sendResponse` does not enforce that: the envelope is exclusive exactly
      when the caller's fields were. */
  lemma ExclusiveOnlyIfGiven<T>(r: TResponse<T>)
    ensures Exclusive(EnvelopeOf(r)) <==> ((r.success ==> r.errors.None?) && (!r.success ==> r.data.None?))
  {
  }

  /** `res.status(statusCode).json({...})`: the status is set first, then the
      envelope is sent, once. */
  method Send<T>(res: Response<Envelope<T>>, r: TResponse<T>)
    modifies res
    ensures res.statusCode == r.statusCode
    ensures res.calls == old(res.calls) + [SetStatus(r.statusCode), SendJson(EnvelopeOf(r))]
  {
    res.Status(r.statusCode);
    res.Json(Envelope(r.statusCode, r.success, r.message, r.meta, r.data, r.errors));
  }
}
