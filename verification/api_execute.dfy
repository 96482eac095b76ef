/** The request-state bookkeeping of `useApi`: the four observable fields,
    the `idle`/`loading`/`success`/`error` transitions of `execute`, and
    `reset`. The network is a parameter: `execute` receives the function
    that answers a prepared request, so a configuration error provably never
    consults it. */
module ApiExecute {
  import opened Wrappers
  import opened ApiConfig

  datatype Status = Idle | Loading | Success | Error

  /** An `Error` object, reduced to its message. */
  datatype ApiError = ApiError(message: string)

  /** The observable state of one instance. */
  datatype ApiState<T> = ApiState(data: Option<T>, error: Option<ApiError>, status: Status, statusCode: Option<nat>) {
    predicate IsLoading() { status == Loading }
    predicate IsSuccess() { status == Success }
    predicate IsError() { status == Error }
    predicate IsIdle() { status == Idle }
  }

  /** A value thrown by the host: an `Error` instance, or anything else. */
  datatype Thrown = ErrorObject(message: string) | OtherValue

  /** What reading a non-2xx reply as JSON gave: a failure (including a
      `null` body), or a value whose `message` and `error` keys are read;
      `None` is a missing or non-string key. */
  datatype ErrorJson = Unparsable | Fields(message: Option<string>, error: Option<string>)

  /** What reading a 2xx reply's body gave: the payload (parsed as JSON or
      taken as text, by the reply's content type), or a failure. */
  datatype Payload<T> = Parsed(value: T) | ParseFailure(thrown: Thrown)

  /** What `fetch` and the body reads yield for one request. A reply carries
      both readings of its body; only the one its status selects is used. */
  datatype Fetched<T> =
    | NetworkFailure(thrown: Thrown)
    | Reply(code: nat, statusText: string, errorJson: ErrorJson, payload: Payload<T>)

  /** `Response.ok`: the status is in the range 200 to 299. */
  predicate IsOk(code: nat) {
    200 <= code <= 299
  }

  const UnknownError := "Unknown error occurred"

  /** The state of a new instance, and of one after `reset`. */
  function Initial<T>(): (r: ApiState<T>)
    ensures r.data.None? && r.error.None? && r.status == Idle && r.statusCode.None?
    ensures Wf(r)
  {
    ApiState(None, None, Idle, None)
  }

  /** The invariant every reachable state keeps: an error is recorded exactly
      in the `error` status, which clears the data; `success` holds data; and
      `idle` holds nothing at all. */
  ghost predicate Wf<T>(s: ApiState<T>) {
    && (s.error.Some? <==> s.status == Error)
    && (s.status == Error ==> s.data.None?)
    && (s.status == Success ==> s.data.Some?)
    && (s.status == Idle ==> s.data.None? && s.statusCode.None?)
  }

  /** The decimal digits of a natural number, as a template literal renders it. */
  function Decimal(n: nat): (r: string)
    ensures |r| > 0
    ensures forall i :: 0 <= i < |r| ==> '0' <= r[i] <= '9'
    ensures |r| > 1 ==> r[0] != '0'
  {
    var digit := ['0' + (n % 10) as char];
    if n < 10 then digit else Decimal(n / 10) + digit
  }

  /** The number a string of decimal digits denotes. */
  function DigitsValue(s: string): nat
    requires forall i :: 0 <= i < |s| ==> '0' <= s[i] <= '9'
  {
    if |s| == 0 then 0
    else DigitsValue(s[..|s| - 1]) * 10 + (s[|s| - 1] - '0') as nat
  }

  /** The rendered status code reads back as the code itself. */
  lemma {:induction false} DecimalRoundTrip(n: nat)
    ensures DigitsValue(Decimal(n)) == n
  {
    var r := Decimal(n);
    if n >= 10 {
      DecimalRoundTrip(n / 10);
      assert r[..|r| - 1] == Decimal(n / 10);
    }
  }

  /** The error message of a non-2xx reply: the JSON `message` when truthy,
      else the JSON `error` when truthy, else `HTTP Error: <code> <text>`. */
  function HttpErrorMessage(code: nat, statusText: string, json: ErrorJson): (m: string)
    ensures json.Fields? && json.message.Some? && json.message.value != "" ==> m == json.message.value
    ensures (&& json.Fields?
             && (json.message.None? || json.message.value == "")
             && json.error.Some? && json.error.value != "") ==> m == json.error.value
    ensures (json.Unparsable? || ((json.message.None? || json.message.value == "")
                                  && (json.error.None? || json.error.value == ""))) ==>
            m == "HTTP Error: " + Decimal(code) + " " + statusText
    ensures m != ""
  {
    var fallback := "HTTP Error: " + Decimal(code) + " " + statusText;
    match json
    case Unparsable => fallback
    case Fields(message, error) =>
      if message.Some? && message.value != "" then message.value
      else if error.Some? && error.value != "" then error.value
      else fallback
  }

  /** The error recorded for a thrown value: the `Error` itself, or a generic
      one when something else was thrown. */
  function ErrorOf(t: Thrown): ApiError {
    match t
    case ErrorObject(m) => ApiError(m)
    case OtherValue => ApiError(UnknownError)
  }

  /** The synchronous start of `execute`: the error is cleared and the status
      becomes `loading`; data and status code keep their prior values. */
  function Begin<T>(s: ApiState<T>): (r: ApiState<T>)
    ensures r.status == Loading && r.error.None?
    ensures r.data == s.data && r.statusCode == s.statusCode
    ensures Wf(r)
  {
    s.(error := None, status := Loading)
  }

  /** The catch block: record the error, clear the data, return nothing. */
  function Fail<T>(s: ApiState<T>, e: ApiError): (r: (ApiState<T>, Option<T>)) {
    (s.(data := None, error := Some(e), status := Error), None)
  }

  /** The end of `execute`, from the `loading` state: prepare the request,
      ask the network, and settle in `success` or `error`. */
  function Complete<T>(s: ApiState<T>, base: Config, call: Config, transport: Request -> Fetched<T>)
    : (r: (ApiState<T>, Option<T>))
    ensures r.0.status == Success || r.0.status == Error
    ensures r.0.status == Success <==> r.1.Some?
    ensures r.0.status == Success ==> r.0.data == r.1 && r.0.error.None?
    ensures r.0.status == Error ==> r.0.data.None? && r.0.error.Some? && r.1.None?
    ensures Wf(r.0)
    ensures Prepare(base, call).Err? ==>
      r.0.error == Some(ApiError(UrlRequired)) && r.0.statusCode == s.statusCode
    ensures Prepare(base, call).Ok? && transport(Prepare(base, call).value).NetworkFailure? ==>
      r.0.error == Some(ErrorOf(transport(Prepare(base, call).value).thrown)) && r.0.statusCode == s.statusCode
    ensures Prepare(base, call).Ok? && transport(Prepare(base, call).value).Reply? ==>
      var reply := transport(Prepare(base, call).value);
      && r.0.statusCode == Some(reply.code)
      && (!IsOk(reply.code) ==>
            r.0.error == Some(ApiError(HttpErrorMessage(reply.code, reply.statusText, reply.errorJson))))
      && (IsOk(reply.code) && reply.payload.Parsed? ==> r.1 == Some(reply.payload.value))
      && (IsOk(reply.code) && reply.payload.ParseFailure? ==> r.0.error == Some(ErrorOf(reply.payload.thrown)))
  {
    match Prepare(base, call)
    case Err(message) => Fail(s, ApiError(message))
    case Ok(request) =>
      match transport(request)
      case NetworkFailure(t) => Fail(s, ErrorOf(t))
      case Reply(code, statusText, json, payload) =>
        var s' := s.(statusCode := Some(code));
        if !IsOk(code) then Fail(s', ApiError(HttpErrorMessage(code, statusText, json)))
        else match payload
          case ParseFailure(t) => Fail(s', ErrorOf(t))
          case Parsed(v) => (s'.(data := Some(v), status := Success, error := None), Some(v))
  }

  /** One `execute(config)` call on an instance created with `base`: the
      final state and the value it returns. */
  function Execute<T>(s: ApiState<T>, base: Config, call: Config, transport: Request -> Fetched<T>)
    : (r: (ApiState<T>, Option<T>))
    ensures r.0.status == Success || r.0.status == Error
    ensures r.0.status == Success <==> r.1.Some?
    ensures r.0.status == Success ==> r.0.data == r.1 && r.0.error.None?
    ensures r.0.status == Error ==> r.0.data.None? && r.0.error.Some? && r.1.None?
    ensures Wf(r.0)
    ensures Prepare(base, call).Err? ==>
      r.0.error == Some(ApiError(UrlRequired)) && r.0.statusCode == s.statusCode
    ensures Prepare(base, call).Ok? && transport(Prepare(base, call).value).NetworkFailure? ==>
      r.0.error == Some(ErrorOf(transport(Prepare(base, call).value).thrown)) && r.0.statusCode == s.statusCode
    ensures Prepare(base, call).Ok? && transport(Prepare(base, call).value).Reply? ==>
      var reply := transport(Prepare(base, call).value);
      && r.0.statusCode == Some(reply.code)
      && (!IsOk(reply.code) ==>
            r.0.error == Some(ApiError(HttpErrorMessage(reply.code, reply.statusText, reply.errorJson))))
      && (IsOk(reply.code) && reply.payload.Parsed? ==> r.1 == Some(reply.payload.value))
      && (IsOk(reply.code) && reply.payload.ParseFailure? ==> r.0.error == Some(ErrorOf(reply.payload.thrown)))
  {
    Complete(Begin(s), base, call, transport)
  }

  /** A configuration without a usable URL fails the same way whatever the
      network would have answered: the network is never consulted. */
  lemma ConfigErrorSkipsNetwork<T>(s: ApiState<T>, base: Config, call: Config,
                                   t1: Request -> Fetched<T>, t2: Request -> Fetched<T>)
    requires Prepare(base, call).Err?
    ensures Execute(s, base, call, t1) == Execute(s, base, call, t2)
    ensures Execute(s, base, call, t1).0.status == Error
  {
  }

  /** `reset`: back to the initial state from any state. */
  function Reset<T>(s: ApiState<T>): (r: ApiState<T>)
    ensures r.data.None? && r.error.None? && r.status == Idle && r.statusCode.None?
    ensures Wf(r)
  {
    Initial()
  }
}
