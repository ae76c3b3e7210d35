/**
 * The boundary with the remote record client: the handle the services
 * create lazily, the query parameters they send, the replies they get back
 * and the `{success, data, error}` object every public operation returns.
 * The client itself is not modelled; its replies are inputs.
 */
module Records {
  import opened Wrappers

  /** An opaque handle on the remote record client. */
  datatype Client = Client(handle: nat)

  /**
   * `initClient`: keep the handle once there is one, otherwise take what the
   * client factory supplied (which may again be nothing).
   */
  function Lazily(current: Option<Client>, supplied: Option<Client>): (r: Option<Client>)
    ensures current.Some? ==> r == current
    ensures current.None? ==> r == supplied
  {
    if current.Some? then current else supplied
  }

  /** A field value in a where-clause. */
  datatype Value = Text(text: string) | Flag(flag: bool)

  datatype Operator = EqualTo | Contains

  /** `{FieldName, Operator, Values}`. */
  datatype Condition = Condition(fieldName: string, operator: Operator, values: seq<Value>)

  datatype SortType = Asc | Desc

  /** `{fieldName, sorttype}`. */
  datatype SortDirective = SortDirective(fieldName: string, sortType: SortType)

  /** `{limit, offset}`. */
  datatype Paging = Paging(limit: int, offset: int)

  /**
   * The parameters of one `fetchRecords` call. `orderBy` and `paging` are
   * `None` when the call carries no such key. The field selection lists are
   * not modelled.
   */
  datatype Query = Query(table: string, where: seq<Condition>, orderBy: Option<seq<SortDirective>>, paging: Option<Paging>)

  /**
   * The reply of `fetchRecords` or `getRecordById`. `Threw` is a call that
   * raised instead of answering; a missing reply reads as
   * `Replied(false, None, None)`.
   */
  datatype Reply<D> = Threw | Replied(success: bool, data: Option<D>, message: Option<string>)

  /** One entry of `results` in a `createRecord`/`updateRecord` reply. */
  datatype RecordResult<D> = RecordResult(success: bool, data: Option<D>)

  /** The reply of `createRecord` or `updateRecord`. */
  datatype WriteReply<D> = WriteThrew | WriteReplied(success: bool, results: Option<seq<RecordResult<D>>>, message: Option<string>)

  /** `response?.success` */
  predicate Succeeded<D>(r: Reply<D>) {
    r.Replied? && r.success
  }

  /** `response?.success && response?.data` */
  predicate Found<D>(r: Reply<D>) {
    r.Replied? && r.success && r.data.Some?
  }

  /** `response.data || []` of a successful list reply. */
  function Rows<D>(r: Reply<seq<D>>): (rows: seq<D>)
    ensures r.Replied? && r.data.Some? ==> rows == r.data.value
    ensures r.Threw? || r.data.None? ==> rows == []
  {
    if r.Replied? && r.data.Some? then r.data.value else []
  }

  /** `response.results && response.results[0]`, when the write reply has one. */
  function FirstResult<D>(r: WriteReply<D>): (first: Option<RecordResult<D>>)
    ensures first.Some? <==> r.WriteReplied? && r.results.Some? && |r.results.value| > 0
    ensures first.Some? ==> first.value == r.results.value[0]
  {
    if r.WriteReplied? && r.results.Some? && |r.results.value| > 0 then Some(r.results.value[0]) else None
  }

  /** The `{success, data, error}` object a public operation returns. */
  datatype Answer<T> = Answer(success: bool, data: Option<T>, error: Option<string>)

  function Ok<T>(data: T): Answer<T> {
    Answer(true, Some(data), None)
  }

  function Fail<T>(error: string): Answer<T> {
    Answer(false, None, Some(error))
  }
}
