/** The HTTP layer as the scrapers see it: an oracle that answers each URL with a final
    reply (after whatever retries the transport performs), and the classification that
    both `get_api_data` helpers apply to it. */
module Http {
  import opened Wrappers
  import opened PyJson

  /** The reply to one GET once the transport is done with it. */
  datatype Reply =
    | Response(status: int, body: Option<Json>) // body None: the text is not valid JSON
    | ConnectionError                           // timeout, refused connection, retries exhausted

  /** `get_api_data`: the parsed body of a 200 reply; `None` for any other status and for
      every exception (connection errors, timeouts and an unparseable body alike). */
  function ApiData(reply: Reply): (data: Option<Json>)
    ensures data.Some? <==> reply.Response? && reply.status == 200 && reply.body.Some?
    ensures data.Some? ==> data == reply.body
  {
    match reply
    case ConnectionError => None
    case Response(status, body) => if status != 200 then None else body
  }

  /** The remote API. `respond` fixes what each URL answers; `requested` records, in order,
      every URL the program has asked for. */
  class Upstream {
    const respond: string -> Reply
    var requested: seq<string>

    constructor (respond: string -> Reply)
      ensures this.respond == respond && requested == []
    {
      this.respond := respond;
      requested := [];
    }

    /** One GET of `url`. */
    method Get(url: string) returns (reply: Reply)
      modifies this
      ensures reply == respond(url)
      ensures requested == old(requested) + [url]
    {
      reply := respond(url);
      requested := requested + [url];
    }

    /** `get_api_data(url)`: one GET, classified by `ApiData`. */
    method GetApiData(url: string) returns (data: Option<Json>)
      modifies this
      ensures data == ApiData(respond(url))
      ensures data.Some? ==> respond(url).Response? && respond(url).status == 200
      ensures requested == old(requested) + [url]
    {
      var reply := Get(url);
      if reply.ConnectionError? {
        return None;
      }
      if reply.status == 200 {
        return reply.body;
      }
      return None;
    }
  }
}
