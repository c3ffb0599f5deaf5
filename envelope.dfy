/**
 * How `Api` reads a response once its frame text is in hand (pyxtb/api.py):
 * `_read_command_` tells an empty frame from a raw, a failed and a successful
 * envelope, and `_send_and_read_command_` converts the returned data with the
 * record type it was given.
 *
 * `json.loads` and the records' `from_dict` belong to libraries outside the
 * model; they are the parameters `loads` and `convert`.
 */
module Envelope {
  import opened Values
  import opened Framing
  import Errors

  /** `status` is present and truthy. */
  predicate Succeeded(v: Json)
  {
    v.JObj? && "status" in v.fields && Truthy(v.fields["status"])
  }

  /** `status` is present and falsy. */
  predicate Failed(v: Json)
  {
    v.JObj? && "status" in v.fields && !Truthy(v.fields["status"])
  }

  /**
   * A parsed, non-raw envelope: its `returnData` (`None` when absent) if the
   * status is truthy; the exception `handle_error` raises if it is falsy; the
   * error of looking `status` up otherwise.
   */
  function Unwrap(v: Json): (r: Result<Json>)
    ensures r.Ok? <==> Succeeded(v)
    ensures Succeeded(v) ==> r.value == if "returnData" in v.fields then v.fields["returnData"] else JNull
    ensures Failed(v) ==> r == Err(Errors.HandleError(v))
    ensures !v.JObj? ==> r == Err(TypeError)
    ensures v.JObj? && "status" !in v.fields ==> r == Err(KeyError("status"))
  {
    match Subscript(v, "status")
    case Err(f) => Err(f)
    case Ok(status) =>
      if !Truthy(status) then Err(Errors.HandleError(v))
      else Get(v, "returnData")
  }

  /** `_read_command_` after `_read_` returned `text`. */
  function Interpret(text: Bytes, raw: bool, loads: Bytes -> Option<Json>): (r: Result<Json>)
    ensures text == [] ==> r == Ok(JNull)
    ensures text != [] && loads(text).None? ==> r == Err(DecodeError)
    ensures text != [] && loads(text).Some? ==> r == if raw then Ok(loads(text).value) else Unwrap(loads(text).value)
  {
    if |text| > 0 then
      match loads(text)
      case None => Err(DecodeError)
      case Some(parsed) => if raw then Ok(parsed) else Unwrap(parsed)
    else
      Ok(JNull)
  }

  /** A failed envelope never yields data: `handle_error` always raises, and only it raises here. */
  lemma FailedEnvelopeRaises(text: Bytes, loads: Bytes -> Option<Json>)
    requires text != [] && loads(text).Some? && Failed(loads(text).value)
    ensures Interpret(text, false, loads).Err?
    ensures Interpret(text, false, loads).error == Errors.HandleError(loads(text).value)
  {
  }

  /** The table maps an error code only when the envelope is not asked for raw. */
  lemma RawEnvelopeUnchecked(text: Bytes, loads: Bytes -> Option<Json>)
    requires text != [] && loads(text).Some?
    ensures Interpret(text, true, loads) == Ok(loads(text).value)
  {
  }

  /** A whitespace-only frame is "no content", whatever `raw` says. */
  lemma BlankFrameIsNoContent(frame: Bytes, raw: bool, loads: Bytes -> Option<Json>)
    requires forall k :: 0 <= k < |frame| ==> IsSpace(frame[k])
    ensures Interpret(Strip(frame), raw, loads) == Ok(JNull)
  {
    StripEmptyIffBlank(frame);
  }

  /** What `_send_and_read_command_` returns: the data itself, one record, or a list of records. */
  datatype Reply<R> = Data(data: Json) | Record(record: R) | Records(records: seq<R>)

  /** `[convert(el) for el in items]`: the first element that fails to convert raises. */
  function ConvertAll<R>(items: seq<Json>, convert: Json -> Result<R>): (r: Result<seq<R>>)
    ensures r.Ok? <==> forall i :: 0 <= i < |items| ==> convert(items[i]).Ok?
    ensures r.Ok? ==> |r.value| == |items| && forall i :: 0 <= i < |items| ==> convert(items[i]) == Ok(r.value[i])
  {
    if items == [] then Ok([])
    else
      match convert(items[0])
      case Err(f) => Err(f)
      case Ok(first) =>
        match ConvertAll(items[1..], convert)
        case Err(f) => Err(f)
        case Ok(rest) => Ok([first] + rest)
  }

  /** The exception of a failed conversion is that of the first element that fails. */
  lemma {:induction false} ConvertAllFirstFailure<R>(items: seq<Json>, convert: Json -> Result<R>, k: nat)
    requires k < |items| && convert(items[k]).Err?
    requires forall i :: 0 <= i < k ==> convert(items[i]).Ok?
    ensures ConvertAll(items, convert) == Err(convert(items[k]).error)
  {
    if k > 0 {
      ConvertAllFirstFailure(items[1..], convert, k - 1);
    }
  }

  /**
   * The shaping step of `_send_and_read_command_`: without a record type the
   * data is returned as it is; a list is converted element by element; any
   * other value is converted as one record.
   */
  function Shape<R>(data: Json, convert: Option<Json -> Result<R>>): (r: Result<Reply<R>>)
    ensures convert.None? ==> r == Ok(Data(data))
    ensures convert.Some? && !data.JArr? ==>
              r == match convert.value(data) case Ok(x) => Ok(Record(x)) case Err(f) => Err(f)
    ensures convert.Some? && data.JArr? && r.Ok? ==>
              r.value.Records? && |r.value.records| == |data.items|
              && forall i :: 0 <= i < |data.items| ==> convert.value(data.items[i]) == Ok(r.value.records[i])
    ensures convert.Some? && data.JArr? ==>
              (r.Ok? <==> forall i :: 0 <= i < |data.items| ==> convert.value(data.items[i]).Ok?)
    ensures convert.Some? && data.JArr? && r.Err? ==> r == Err(ConvertAll(data.items, convert.value).error)
  {
    match convert
    case None => Ok(Data(data))
    case Some(f) =>
      if data.JArr? then
        match ConvertAll(data.items, f)
        case Ok(records) => Ok(Records(records))
        case Err(e) => Err(e)
      else
        match f(data)
        case Ok(x) => Ok(Record(x))
        case Err(e) => Err(e)
  }

  /** A list reply that fails to convert raises the exception of its first element that fails. */
  lemma ShapeFirstFailure<R>(items: seq<Json>, convert: Json -> Result<R>, k: nat)
    requires k < |items| && convert(items[k]).Err?
    requires forall i :: 0 <= i < k ==> convert(items[i]).Ok?
    ensures Shape(JArr(items), Some(convert)) == Err(convert(items[k]).error)
  {
    ConvertAllFirstFailure(items, convert, k);
  }

  /** `ping` is read without a record type: an empty response is "no content". */
  lemma PingNoContent<R>(loads: Bytes -> Option<Json>)
    ensures Interpret([], false, loads) == Ok(JNull)
    ensures Shape<R>(JNull, None) == Ok(Data(JNull))
  {
  }
}
