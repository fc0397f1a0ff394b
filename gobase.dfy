/**
  Values and objects of the `go-base` library (package `commons`) that the
  request pipeline of qweb hands around: Go errors, panic values, the response
  envelopes written to the client, and the per-request BaseContext with its
  QuickInfo. The library itself is not part of this model; only the behaviour
  the pipeline relies on is stated here.
*/
module GoBase {

  datatype Option<+T> = None | Some(value: T)

  /** A Go `error` value, by the dynamic types the pipeline distinguishes. */
  datatype Error =
    | StdError(code: int, message: string)      // *commons.StdError
    | NumError(num: string, reason: NumReason)  // *strconv.NumError raised by strconv.ParseInt
    | PlainError(text: string)                  // any other error (errors.New, callback errors)

  /** The sentinel inside a *strconv.NumError. */
  datatype NumReason = ErrSyntax | ErrRange

  /** A value or an error, for the Go functions that return `(T, error)`. */
  datatype Result<+T> = Ok(value: T) | Err(error: Error)

  /** The text `e.Error()` of an error other than a *commons.StdError
      (strconv.Quote's escaping of the number is not modelled). */
  function ErrorText(e: Error): (t: string)
    requires !e.StdError?
    ensures e.PlainError? ==> t == e.text
  {
    match e
    case NumError(num, reason) =>
      "strconv.ParseInt: parsing \"" + num + "\": "
      + (if reason == ErrSyntax then "invalid syntax" else "value out of range")
    case PlainError(text) => text
  }

  /** A value handed to Go's `panic`, by the dynamic types the recovery code distinguishes. */
  datatype PanicValue =
    | PanicString(s: string)     // panic("...")
    | PanicError(err: Error)     // panic(err) for a value implementing `error`
    | PanicOther(desc: string)   // any other value; `desc` only identifies it

  /** What is serialised as the JSON body of a response. */
  datatype Envelope =
    | ErrResult(message: string)              // commons.QuickErrResult(message)
    | ErrorResult(err: Error)                 // commons.QuickFromError(err)
    | CodedResult(code: int, message: string) // commons.NewResult(code, message, nil)
    | BareError(err: Error)                   // an error value passed to gin's JSON as it is
    | Body(json: string)                      // the business function's return value, serialised

  /** BaseContext.Get: the value stored under `key`, "" when there is none. */
  function ValueOf(values: map<string, string>, key: string): (v: string)
    ensures key !in values ==> v == ""
    ensures key in values ==> v == values[key]
  {
    if key in values then values[key] else ""
  }

  /** commons.BaseContext: string values put by the pipeline, the creation
      time, and the QuickInfo fields the pipeline reads and writes. */
  class BaseContext {
    var values: map<string, string>
    const createTime: int
    var uid: int          // QuickInfo().Uid; 0 means not logged in
    var notLogSql: bool   // QuickInfo().NotLogSqlConf

    /** commons.NewBaseContext(), created at time `now` (milliseconds). */
    constructor (now: int)
      ensures values == map[] && createTime == now && uid == 0 && !notLogSql
    {
      values := map[];
      createTime := now;
      uid := 0;
      notLogSql := false;
    }

    /** BaseContext.Put */
    method Put(key: string, value: string)
      modifies this`values
      ensures values == old(values)[key := value]
    {
      values := values[key := value];
    }
  }
}
