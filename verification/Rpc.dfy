/**
 Driver.Create across the RPC boundary.  gRPC carries either a message or a status, so the server
 hides the error of a reply that also has information inside the information.
 */
module Rpc {
  import opened Base

  /** A Go error: a plain one, or a gRPC status with a code and a message. */
  datatype Error =
    | Plain(message: string)
    | Status(code: Code, message: string)

  datatype Code = Unknown | Known(name: string)

  /** What err.Error() prints. */
  function Shown(e: Error): (r: string) {
    match e
    case Plain(m) => m
    case Status(c, m) => "rpc error: code = " + (if c.Unknown? then "Unknown" else c.name) + " desc = " + m
  }

  /** types.ClusterInfo: everything else, and the field that carries an error. */
  datatype Info<T> = Info(rest: T, createError: string)

  /** What Driver.Create returns, at either end. */
  datatype Outcome<T> = Outcome(info: Option<Info<T>>, failure: Option<Error>)

  /** GrpcServer.Create, after the driver's call. */
  function Server<T>(o: Outcome<T>): (r: Outcome<T>) {
    if o.failure.Some? && o.info.Some?
    then Outcome(Some(o.info.value.(createError := Shown(o.failure.value))), None)
    else o
  }

  /** The transport: an error becomes a status and loses the message beside it; a nil message
      without an error cannot be encoded. */
  function Wire<T>(o: Outcome<T>): (r: Outcome<T>) {
    if o.failure.Some? then
      Outcome(None, Some(if o.failure.value.Plain? then Status(Unknown, o.failure.value.message) else o.failure.value))
    else if o.info.None? then Outcome(None, Some(Status(Known("Internal"), "nil message")))
    else o
  }

  /** handlErr */
  function Handle(e: Error): (r: Error) {
    if e.Status? && e.code.Unknown? && e.message != "" then Plain(e.message) else e
  }

  function ClientOutcome<T>(received: Outcome<T>): (r: Outcome<T>) {
    Outcome(received.info,
            if received.failure.Some? then Some(Handle(received.failure.value))
            else if received.info.Some? && received.info.value.createError != ""
            then Some(Plain(received.info.value.createError))
            else None)
  }

  /** The caller of the client gets the driver's outcome: the same information (up to the error
      field), and an error exactly when there was one, printing the same. */
  ghost predicate Faithful<T>(sent: Outcome<T>, got: Outcome<T>) {
    && (sent.info.Some? <==> got.info.Some?)
    && (sent.info.Some? ==> sent.info.value.rest == got.info.value.rest)
    && (sent.failure.Some? <==> got.failure.Some?)
    && (sent.failure.Some? ==> Shown(sent.failure.value) == Shown(got.failure.value))
  }

  /** The outcomes that cross the boundary unharmed.  With information: an error that prints
      something, or no error and an empty error field.  Without information: a plain error with a
      message, or a status that the client leaves alone. */
  predicate Crosses<T>(o: Outcome<T>) {
    if o.info.Some? then
      if o.failure.Some? then Shown(o.failure.value) != "" else o.info.value.createError == ""
    else
      && o.failure.Some?
      && (if o.failure.value.Plain? then o.failure.value.message != ""
          else !(o.failure.value.code.Unknown? && o.failure.value.message != ""))
  }

  /** Server and client together are faithful exactly on these outcomes. */
  lemma CreateCrosses<T>(o: Outcome<T>)
    ensures Faithful(o, ClientOutcome(Wire(Server(o)))) <==> Crosses(o)
  {
    if o.info.None? && o.failure.Some? {
      var e := o.failure.value;
      if e.Plain? && e.message == "" {
        assert |Shown(Status(Unknown, ""))| > 0;
      }
      if e.Status? && e.code.Unknown? && e.message != "" {
        assert |Shown(e)| > |e.message|;
      }
    }
  }

  /** In particular, whatever ordinary error a driver reports beside saved information, the caller
      gets both; that is what lets a failed create be retried. */
  lemma FailedCreateKeepsInfo<T>(info: Info<T>, message: string)
    requires message != ""
    ensures ClientOutcome(Wire(Server(Outcome(Some(info), Some(Plain(message))))))
         == Outcome(Some(info.(createError := message)), Some(Plain(message)))
  {
  }

  // ---------------------------------------------------------------- the same in place

  /** A pointer to a message. */
  class Message<T> {
    var rest: T
    var createError: string

    function Value(): (r: Info<T>)
      reads this
    {
      Info(rest, createError)
    }

    constructor (info: Info<T>)
      ensures Value() == info
    {
      rest, createError := info.rest, info.createError;
    }
  }

  /** A reply as Go functions return it: a message that may be nil, and an error. */
  function Reply<T>(m: Message?<T>, failure: Option<Error>): (r: Outcome<T>)
    reads m
  {
    Outcome(if m == null then None else Some(m.Value()), failure)
  }

  /** GrpcServer.Create writes the error into the driver's own message. */
  method ServerCreate<T>(info: Message?<T>, failure: Option<Error>) returns (err: Option<Error>)
    modifies info
    ensures Reply(info, err) == Server(old(Reply(info, failure)))
  {
    err := failure;
    if failure.Some? && info != null {
      info.createError := Shown(failure.value);
      err := None;
    }
  }

  /** What the other end receives is a message of its own. */
  method Transmit<T>(info: Message?<T>, failure: Option<Error>) returns (got: Message?<T>, err: Option<Error>)
    ensures Reply(got, err) == Wire(Reply(info, failure))
    ensures got != null ==> fresh(got)
  {
    got, err := null, None;
    match Wire(Reply(info, failure)) {
      case Outcome(None, e) => err := e;
      case Outcome(Some(x), e) =>
        got := new Message(x);
        err := e;
    }
  }

  /** grpcClient.Create, with its error reassigned in steps. */
  method ClientCreate<T>(received: Message?<T>, failure: Option<Error>) returns (err: Option<Error>)
    requires received == null ==> failure.Some?
    ensures Reply(received, err) == ClientOutcome(Reply(received, failure))
  {
    err := failure;
    if err.Some? {
      err := Some(Handle(err.value));
    }
    if err.None? && received.createError != "" {
      err := Some(Plain(received.createError));
    }
  }

  /** A create through the server, the transport and the client, whatever the driver returned: the
      caller gets the driver's outcome exactly when it is one that crosses unharmed. */
  method RemoteCreate<T>(info: Message?<T>, failure: Option<Error>) returns (got: Message?<T>, err: Option<Error>)
    modifies info
    ensures Faithful(old(Reply(info, failure)), Reply(got, err)) <==> Crosses(old(Reply(info, failure)))
    ensures info != null && failure.Some? ==> info.createError == Shown(failure.value)
  {
    CreateCrosses(Reply(info, failure));
    var sent := ServerCreate(info, failure);
    got, err := Transmit(info, sent);
    err := ClientCreate(got, err);
  }
}
