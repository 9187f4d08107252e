/**
 * `WriteJSON` (baseapp/server.go:104-116): the response writer as a trace of
 * the calls made on it, and the JSON encoder and string quoter as oracles.
 */
module JSONResponse {
  import opened BaseTypes

  /** `http.StatusInternalServerError`. */
  const StatusInternalServerError: int := 500

  /** A call made on an `http.ResponseWriter`. */
  datatype WriterEvent =
    | HeaderSet(key: string, value: string)
    | StatusWritten(status: int)
    | BodyWritten(body: seq<byte>)

  /** A response writer that records every call made on it, in order. */
  class ResponseWriter {
    var events: seq<WriterEvent>

    constructor ()
      ensures events == []
    {
      events := [];
    }

    /** `w.Header().Set(key, value)`. */
    method SetHeader(key: string, value: string)
      modifies this
      ensures events == old(events) + [HeaderSet(key, value)]
    {
      events := events + [HeaderSet(key, value)];
    }

    /** `w.WriteHeader(status)`. */
    method WriteHeader(status: int)
      modifies this
      ensures events == old(events) + [StatusWritten(status)]
    {
      events := events + [StatusWritten(status)];
    }

    /** `w.Write(b)`; its result is ignored by every caller modelled here. */
    method Write(b: seq<byte>)
      modifies this
      ensures events == old(events) + [BodyWritten(b)]
    {
      events := events + [BodyWritten(b)];
    }
  }

  /** The bytes of `{"error": `, which open the fallback body. */
  const ErrorOpen: seq<byte> := [0x7B, 0x22, 0x65, 0x72, 0x72, 0x6F, 0x72, 0x22, 0x3A, 0x20]

  /** The byte of `}`, which closes the fallback body. */
  const ErrorClose: seq<byte> := [0x7D]

  /** The fallback body `{"error": <quoted message>}` written with `fmt.Fprintf`. */
  function ErrorBody(quoted: seq<byte>): (b: seq<byte>)
    ensures |b| == |ErrorOpen| + |quoted| + |ErrorClose|
    ensures b[..|ErrorOpen|] == ErrorOpen
    ensures b[|ErrorOpen|..|b| - |ErrorClose|] == quoted
    ensures b[|b| - |ErrorClose|..] == ErrorClose
  {
    ErrorOpen + quoted + ErrorClose
  }

  /** Number of `WriteHeader` calls in `t`. */
  function StatusWrites(t: seq<WriterEvent>): nat
  {
    if t == [] then 0 else StatusWrites(t[..|t| - 1]) + (if t[|t| - 1].StatusWritten? then 1 else 0)
  }

  /**
   * A well-formed response trace: the JSON content type is set first,
   * exactly one status is written, and no body is written before it.
   */
  ghost predicate WellFormed(t: seq<WriterEvent>) {
    && |t| >= 2
    && t[0] == HeaderSet("Content-Type", "application/json")
    && StatusWrites(t) == 1
    && exists k :: 0 < k < |t| && t[k].StatusWritten? && forall j :: 0 <= j < k ==> !t[j].BodyWritten?
  }

  /**
   * The calls `WriteJSON(w, status, obj)` makes, given what marshalling `obj`
   * produced and how `strconv.Quote` renders a message.
   */
  function JSONEvents(status: int, marshalled: Result<seq<byte>>, quote: string -> seq<byte>)
    : (t: seq<WriterEvent>)
    ensures |t| == 3 && t[0] == HeaderSet("Content-Type", "application/json")
    ensures marshalled.Ok? ==> t[1] == StatusWritten(status) && t[2] == BodyWritten(marshalled.value)
    ensures marshalled.Err? ==>
      t[1] == StatusWritten(StatusInternalServerError) && t[2] == BodyWritten(ErrorBody(quote(marshalled.error.message)))
  {
    [HeaderSet("Content-Type", "application/json")]
    + match marshalled
      case Ok(b) => [StatusWritten(status), BodyWritten(b)]
      case Err(e) => [StatusWritten(StatusInternalServerError), BodyWritten(ErrorBody(quote(e.message)))]
  }

  /** Every `WriteJSON` response is well formed, whatever the marshaller does. */
  lemma JSONEventsWellFormed(status: int, marshalled: Result<seq<byte>>, quote: string -> seq<byte>)
    ensures WellFormed(JSONEvents(status, marshalled, quote))
  {
    var t := JSONEvents(status, marshalled, quote);
    assert t[..1][..0] == [];
    assert StatusWrites(t[..1]) == 0;
    assert t[..2][..1] == t[..1];
    assert StatusWrites(t[..2]) == 1;
    assert t[..|t| - 1] == t[..2];
    assert t[1].StatusWritten? && forall j :: 0 <= j < 1 ==> !t[j].BodyWritten?;
  }

  /**
   * `WriteJSON`: sets the JSON content type, then either writes the status
   * and the marshalled bytes, or 500 and the fallback error body.
   */
  method WriteJSON<T>(w: ResponseWriter, status: int, obj: T,
                      marshal: T -> Result<seq<byte>>, quote: string -> seq<byte>)
    modifies w
    ensures w.events == old(w.events) + JSONEvents(status, marshal(obj), quote)
  {
    w.SetHeader("Content-Type", "application/json");
    var m := marshal(obj);
    if m.Err? {
      w.WriteHeader(StatusInternalServerError);
      w.Write(ErrorBody(quote(m.error.message)));
    } else {
      w.WriteHeader(status);
      w.Write(m.value);
    }
  }
}
