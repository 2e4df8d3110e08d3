/** The slice of the web server's response context that the session uses.

    The response is observed only through what it lets reach the client:
    a ghost log of header settings, the switch to chunked transfer, and the
    chunks that were delivered.  Whether a write succeeds is decided by the
    transport, outside the session, so each send takes that outcome as an
    argument; a send that fails adds nothing to the log and reports false,
    which stands for the exception the web server throws. */
module Http {

  datatype Action =
    | AddHeader(name: string, value: string)
    | SetChunkedTransfer(on: bool)
    | SendChunk(body: string)
    | SendFinalChunk(body: string)

  class HttpResponse {
    ghost var Log: seq<Action>

    constructor ()
      ensures Log == []
    {
      Log := [];
    }

    method AddHeader(name: string, value: string)
      modifies this
      ensures Log == old(Log) + [Action.AddHeader(name, value)]
    {
      Log := Log + [Action.AddHeader(name, value)];
    }

    method SetChunkedTransfer(on: bool)
      modifies this
      ensures Log == old(Log) + [Action.SetChunkedTransfer(on)]
    {
      Log := Log + [Action.SetChunkedTransfer(on)];
    }

    /** Writes one chunk of the response body. */
    method SendChunk(body: string, delivered: bool) returns (ok: bool)
      modifies this
      ensures ok == delivered
      ensures Log == old(Log) + (if delivered then [Action.SendChunk(body)] else [])
    {
      ok := delivered;
      if delivered {
        Log := Log + [Action.SendChunk(body)];
      }
    }

    /** Writes the last chunk of the response body and ends the response. */
    method SendFinalChunk(body: string, delivered: bool) returns (ok: bool)
      modifies this
      ensures ok == delivered
      ensures Log == old(Log) + (if delivered then [Action.SendFinalChunk(body)] else [])
    {
      ok := delivered;
      if delivered {
        Log := Log + [Action.SendFinalChunk(body)];
      }
    }
  }
}
