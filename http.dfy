/** The shapes the pages exchange with the backend and with the user: outbound
    requests, the responses that come back (inputs to the model), and the toast
    notifications the handlers raise (outputs of the model). */
module Http {
  import opened Js

  datatype Method = GET | POST | PUT | DELETE

  /** An outbound call as the page hands it to fetch or axios. */
  datatype Request<B> = Request(verb: Method, url: string, headers: map<string, string>, body: Option<B>)

  const AuthorizationHeader: string := "Authorization"
  const ContentTypeHeader: string := "Content-Type"
  const JsonMediaType: string := "application/json"

  /** The `Authorization` value for a token: `Bearer ${token}`. */
  function Bearer(token: string): string
  {
    "Bearer " + token
  }

  /** `Bearer ${token || ''}`: with no token, or an empty one, the header is
      still sent, as "Bearer ". */
  function BearerOrEmpty(token: Option<string>): (r: string)
    ensures TruthyOpt(token) ==> r == "Bearer " + token.value
    ensures !TruthyOpt(token) ==> r == "Bearer "
  {
    Bearer(Or(token, ""))
  }

  /** The parsed JSON body of a reply: its `message` field and the one data
      field the caller reads (`items`, `item`, `orders`, ... per endpoint). */
  datatype Payload<T> = Payload(message: Option<string>, data: Option<T>)

  /** What a `fetch` call yields. `NoResponse`: the promise rejects (network
      failure). `Received`: `ok` is the 2xx flag, `contentType` the
      content-type header, `text` the raw body, and `json` its parse, None when
      the body is not valid JSON (so `res.json()` and `JSON.parse` throw). */
  datatype Response<T> =
    | NoResponse
    | Received(ok: bool, contentType: Option<string>, text: string, json: Option<Payload<T>>)

  /** What an axios call yields: axios resolves on a 2xx status with the parsed
      body and rejects otherwise; `message` is `err.response?.data?.message`. */
  datatype Outcome<T> = Fulfilled(data: T) | Rejected(message: Option<string>)

  /** The text of a thrown error. `RuntimeError` stands for a message the
      JavaScript runtime writes itself (a JSON SyntaxError, fetch's TypeError):
      never empty, wording not fixed by the program. */
  datatype Message = Text(text: string) | RuntimeError

  /** `toast({ title, description, variant })`; `destructive` is the
      "destructive" variant. */
  datatype Toast = Toast(title: string, description: Option<Message>, destructive: bool)

  /** An error toast carrying a fixed description. */
  function ErrorToast(title: string, description: string): Toast
  {
    Toast(title, Some(Text(description)), true)
  }

  /** A success toast carrying a fixed description. */
  function InfoToast(title: string, description: string): Toast
  {
    Toast(title, Some(Text(description)), false)
  }

  /** What a JSON read with no content-type check (`res.json()` then
      `if (!res.ok) throw new Error(...)`) yields: the payload, or the error. */
  function ReadJson<T>(reply: Response<T>, fallback: string): (r: Result<Payload<T>>)
    ensures r.Ok? <==> reply.Received? && reply.ok && reply.json.Some?
    ensures r.Ok? ==> r.payload == reply.json.value
    ensures reply.Received? && !reply.ok && reply.json.Some? ==>
      r == Err(Text(Or(reply.json.value.message, fallback)))
  {
    match reply
    case NoResponse => Err(RuntimeError)
    case Received(ok, _, _, json) =>
      if json.None? then Err(RuntimeError)
      else if !ok then Err(Text(Or(json.value.message, fallback)))
      else Ok(json.value)
  }

  datatype Result<T> = Ok(payload: T) | Err(error: Message)

  /** `data.items || []` and the like. */
  function OrEmpty<T>(data: Option<seq<T>>): seq<T>
  {
    if data.Some? then data.value else []
  }
}
