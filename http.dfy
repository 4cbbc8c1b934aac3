/**
 * The slice of OkHttp the app uses: requests as values, a builder that adds
 * headers one call at a time, and the two ways a call can end.
 */
module Http {
  import opened Optional

  datatype Header = Header(name: string, value: string)

  datatype Verb = Get | Post

  datatype Body =
    | NoBody
      /** A multipart form with one file part. */
    | Multipart(field: string, fileName: string, mediaType: string)
    | Json(text: string)

  /** A request as OkHttp would send it; the query string is kept as a list of pairs. */
  datatype Request = Request(verb: Verb, url: string, query: seq<(string, string)>, headers: seq<Header>, body: Body)

  /** How a call ended: an `IOException`, or a response with status, reason phrase and body. */
  datatype Reply =
    | IoFailure(message: Option<string>)
    | Response(code: int, reason: string, body: Option<string>)

  /** OkHttp's `Response.isSuccessful`. */
  predicate IsSuccessful(code: int) {
    200 <= code <= 299
  }

  predicate HasHeader(r: Request, name: string) {
    exists h :: h in r.headers && h.name == name
  }

  /** OkHttp's `Request.Builder`, reduced to the parts the app sets. */
  class RequestBuilder {
    var verb: Verb
    var url: string
    var query: seq<(string, string)>
    var headers: seq<Header>
    var body: Body

    constructor (verb: Verb, url: string, query: seq<(string, string)>, body: Body)
      ensures Build() == Request(verb, url, query, [], body)
    {
      this.verb := verb;
      this.url := url;
      this.query := query;
      this.headers := [];
      this.body := body;
    }

    /** `addHeader(name, value)`: appends, never replaces. */
    method AddHeader(name: string, value: string)
      modifies this
      ensures Build() == old(Build()).(headers := old(headers) + [Header(name, value)])
    {
      headers := headers + [Header(name, value)];
    }

    function Build(): Request
      reads this
    {
      Request(verb, url, query, headers, body)
    }
  }
}
