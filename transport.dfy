/**
 The HTTP plumbing the two adapters touch: the incoming request body (read once, closed by
 a deferred call) and the response writer (a status line, then the body). Only what the
 adapters do with them is modelled: the outcome of reading, and the sequence of writes.
 */
module Transport {
  import opened Admission

  const StatusOK := 200
  const StatusInternalServerError := 500

  const ReadFailureText := "unable to read the body of the request"

  /** The outcome of `io.ReadAll(r.Body)`; on an error the partial data is discarded. */
  datatype ReadResult = ReadOk(data: string) | ReadErr

  /** One effect on the response writer. */
  datatype WriterEvent = HeaderWritten(status: int) | BodyWritten(body: Payload)

  /** `http.ResponseWriter`, observed through the writes made to it. */
  class ResponseWriter {
    var events: seq<WriterEvent>

    constructor ()
      ensures events == []
    {
      events := [];
    }

    /** `w.WriteHeader(status)`. */
    method WriteHeader(status: int)
      modifies this
      ensures events == old(events) + [HeaderWritten(status)]
    {
      events := events + [HeaderWritten(status)];
    }

    /** `io.WriteString(w, string(body))`; a failed write is only logged by the callers. */
    method WriteString(body: Payload)
      modifies this
      ensures events == old(events) + [BodyWritten(body)]
    {
      events := events + [BodyWritten(body)];
    }
  }

  /** `r.Body`: what reading it yields and whether closing it fails. */
  class RequestBody {
    const content: ReadResult
    const closeFails: bool
    var closed: bool

    constructor (content: ReadResult, closeFails: bool)
      ensures this.content == content && this.closeFails == closeFails && !closed
    {
      this.content := content;
      this.closeFails := closeFails;
      closed := false;
    }

    /** `io.ReadAll(r.Body)`. */
    method ReadAll() returns (result: ReadResult)
      ensures result == content
    {
      result := content;
    }

    /** `r.Body.Close()`: reports whether closing failed. */
    method Close() returns (failed: bool)
      modifies this
      ensures closed && failed == closeFails
    {
      closed := true;
      failed := closeFails;
    }
  }
}
