/**
 * `HttpClient`: the lazily created, cached session, the fixed request
 * headers, and the executor that turns a method's descriptor into exactly
 * one GET or POST on that session.
 *
 * The network (aiohttp's `session.get`/`session.post` and the remote API) is
 * the `Network` object: it records every request sent through it, and the
 * answer it gives is a fixed function of what was sent before and of the
 * request itself.
 */
module Client {
  import opened Wrappers
  import opened Json
  import opened Base
  import Methods

  const BaseUrl: string := "https://bitpapa.com"

  /** The package version embedded in the user agent; its value is not part of this model. */
  const VERSION: string

  /** An aiohttp `ClientSession`: bound to a base address, open until closed. */
  class Session {
    const baseUrl: string
    var closed: bool

    constructor (baseUrl: string)
      ensures this.baseUrl == baseUrl && !closed
    {
      this.baseUrl := baseUrl;
      closed := false;
    }

    method Close()
      modifies this
      ensures closed
    {
      closed := true;
    }
  }

  /** One transport call: `session.get(url, headers, params)` or `session.post(url, headers, json)`. */
  datatype Request =
    | Get(endpoint: string, headers: map<string, string>, params: Option<Dict>)
    | Post(endpoint: string, headers: map<string, string>, jsonData: Option<Dict>)

  /** A request together with the session it was sent on. */
  datatype Exchange = Exchange(session: Session, request: Request)

  /** Why a request was refused: aiohttp raises on any request over a closed session. */
  datatype ClientError = SessionClosed

  class Network {
    /** Every exchange sent so far, oldest first. */
    var log: seq<Exchange>
    /** The decoded JSON answer to an exchange, given the exchanges before it. */
    const respond: (seq<Exchange>, Exchange) -> Value

    constructor (respond: (seq<Exchange>, Exchange) -> Value)
      ensures log == [] && this.respond == respond
    {
      log := [];
      this.respond := respond;
    }

    /**
     * `session.get`/`session.post` followed by `resp.json()`: over an open
     * session, sends the request and returns the decoded body; over a closed
     * one, fails and sends nothing.
     */
    method Send(e: Exchange) returns (body: Result<Value, ClientError>)
      modifies this
      ensures e.session.closed ==> log == old(log) && body == Failure(SessionClosed)
      ensures !e.session.closed ==> log == old(log) + [e] && body == Success(respond(old(log), e))
    {
      if e.session.closed {
        return Failure(SessionClosed);
      }
      body := Success(respond(log, e));
      log := log + [e];
    }
  }

  /**
   * The one exchange `_make_request` issues for a descriptor: a GET with the
   * descriptor's query parameters or a POST with its JSON body, as the verb
   * says, on the descriptor's endpoint with the given headers.
   */
  function Dispatch(session: Session, d: OutData, headers: map<string, string>): (e: Exchange)
    ensures e.session == session
    ensures e.request.endpoint == d.endpoint && e.request.headers == headers
    ensures e.request.Get? <==> d.requestType == GET
    ensures e.request.Post? <==> d.requestType == POST
    ensures e.request.Get? ==> e.request.params == d.params
    ensures e.request.Post? ==> e.request.jsonData == d.jsonData
  {
    match d.requestType
    case GET => Exchange(session, Get(d.endpoint, headers, d.params))
    case POST => Exchange(session, Post(d.endpoint, headers, d.jsonData))
  }

  class HttpClient {
    const baseUrl: string
    var session: Session?
    const network: Network

    constructor (network: Network)
      ensures baseUrl == BaseUrl && session == null && this.network == network
    {
      baseUrl := BaseUrl;
      session := null;
      this.network := network;
    }

    /**
     * After an operation that obtains the session: a session is stored; it
     * is the one stored before if there was one, and otherwise a new open
     * session bound to the base address.
     */
    twostate predicate SessionObtained()
      reads this, session
    {
      && session != null
      && (old(session) != null ==> session == old(session))
      && (old(session) == null ==> fresh(session) && session.baseUrl == baseUrl && !session.closed)
    }

    /** `get_session`: create and store a session on first use, then always return that one. */
    method GetSession() returns (s: Session)
      modifies this
      ensures SessionObtained() && s == session
    {
      if session != null {
        s := session;
        return;
      }
      s := new Session(baseUrl);
      session := s;
    }

    /**
     * `get_headers`: the JSON content type and the versioned user agent,
     * and nothing else (no token header).
     */
    function GetHeaders(): (h: map<string, string>)
      ensures h.Keys == {"Content-Type", "User-Agent"}
      ensures h["Content-Type"] == "application/json"
      ensures h["User-Agent"] == "AioBitpapaPay/" + VERSION
    {
      map["Content-Type" := "application/json", "User-Agent" := "AioBitpapaPay/" + VERSION]
    }

    /** `close`: closes the stored session if there is one, but keeps it stored. */
    method Close()
      modifies session
      ensures session == old(session)
      ensures session != null ==> session.closed
    {
      if session != null {
        session.Close();
      }
    }

    /** `_get_request`: one GET on `s`; returns the decoded body, or fails if `s` is closed. */
    method GetRequest(s: Session, endpoint: string, headers: map<string, string>, params: Option<Dict>)
      returns (result: Result<Value, ClientError>)
      modifies network
      ensures Sent(old(network.log), Exchange(s, Get(endpoint, headers, params)), result)
    {
      result := network.Send(Exchange(s, Get(endpoint, headers, params)));
    }

    /** `_post_request`: one POST on `s`; returns the decoded body, or fails if `s` is closed. */
    method PostRequest(s: Session, endpoint: string, headers: map<string, string>, jsonData: Option<Dict>)
      returns (result: Result<Value, ClientError>)
      modifies network
      ensures Sent(old(network.log), Exchange(s, Post(endpoint, headers, jsonData)), result)
    {
      result := network.Send(Exchange(s, Post(endpoint, headers, jsonData)));
    }

    /**
     * The network's state and the result after trying to send `e` when the
     * log was `before`: over a closed session nothing is sent and the call
     * fails; over an open one `e` is appended and its answer returned.
     */
    ghost predicate Sent(before: seq<Exchange>, e: Exchange, result: Result<Value, ClientError>)
      reads network, e.session
    {
      if e.session.closed then
        network.log == before && result == Failure(SessionClosed)
      else
        network.log == before + [e] && result == Success(network.respond(before, e))
    }

    /**
     * `_make_request`: obtains the session, then tries exactly one request,
     * the one the descriptor's verb selects, with `get_headers()`, and
     * returns its decoded body unchanged. Once `close()` has run, the stored
     * session is closed and the call fails without sending anything.
     */
    method MakeRequest(m: Methods.Method) returns (result: Result<Value, ClientError>)
      modifies this, network
      ensures SessionObtained()
      ensures old(session) != null && old(session.closed) ==> result == Failure(SessionClosed)
      ensures Sent(old(network.log), Dispatch(session, m.GetData(), GetHeaders()), result)
    {
      var headers := GetHeaders();
      var requestData := m.GetData();
      var s := GetSession();
      match requestData.requestType
      case GET =>
        result := GetRequest(s, requestData.endpoint, headers, requestData.params);
      case POST =>
        result := PostRequest(s, requestData.endpoint, headers, requestData.jsonData);
    }
  }

  /** The header map has exactly two entries, and no access-token header. */
  lemma HeadersAreTwo(c: HttpClient)
    ensures |c.GetHeaders()| == 2
    ensures "X-Access-Token" !in c.GetHeaders()
  {
  }

  /**
   * On the wire the token is never a header: the invoice list sends it as
   * the only query parameter of a GET, invoice creation as a field of a
   * POST body, and the exchange-rates call sends neither parameters nor body.
   */
  lemma TokenTravelsInRequest(c: HttpClient, s: Session, m: Methods.Method)
    ensures var r := Dispatch(s, m.GetData(), c.GetHeaders()).request;
            && "X-Access-Token" !in r.headers
            && (m.GetExchangeRates? ==> r.Get? && r.params == None)
            && (m.GetTelegramInvoices? ==> r.Get? && r.params == Some(map["api_token" := Str(m.list.apiToken)]))
            && (m.CreateTelegramInvoice? ==>
                  r.Post? && r.jsonData.Some? && r.jsonData.value["api_token"] == Str(m.create.apiToken))
  {
  }

  /**
   * Closing does not reset the client: a later `get_session` hands back the
   * same session object, now closed, rather than a new one.
   */
  method GetSessionAfterClose(c: HttpClient) returns (before: Session, after: Session)
    modifies c, c.session
    ensures before == after && after.closed && c.session == after
  {
    before := c.GetSession();
    c.Close();
    after := c.GetSession();
  }

  /**
   * After `close()`, every request fails: `_make_request` hands the closed
   * session to the transport, which refuses it, and nothing is sent.
   */
  method RequestAfterClose(c: HttpClient, m: Methods.Method) returns (result: Result<Value, ClientError>)
    modifies c, c.session, c.network
    ensures result == Failure(SessionClosed)
    ensures c.network.log == old(c.network.log)
  {
    var _ := c.GetSession();
    c.Close();
    result := c.MakeRequest(m);
  }
}
