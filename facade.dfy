/**
 * The facade clients. Each operation builds one method descriptor from its
 * arguments, executes it with exactly one `_make_request`, and tags the raw
 * result with the method's response model; a failure of the request is
 * passed on unchanged. The Python classes inherit from `HttpClient`; here
 * each holds the one `HttpClient` it runs on, and `TelegramBitpapaPay`
 * reaches the inherited exchange-rates operation through the
 * `DefaultApiClient` it holds.
 */
module Facade {
  import opened Wrappers
  import opened Json
  import opened Base
  import opened Client
  import Methods
  import Telegram

  /**
   * `returning_model(**result)`: the decoded body, tagged with the model it
   * is parsed into. The parsing itself is not part of this model.
   */
  datatype Response = Response(model: ModelTag, data: Value)

  /**
   * After one facade call of method `m` on `http` that returned `r`: the
   * session was obtained and one request, `m`'s descriptor dispatched on it,
   * was tried; if it was sent, `r` is its answer tagged with `m`'s model,
   * and if the session was closed, nothing was sent and `r` is the failure.
   */
  twostate predicate Executed(http: HttpClient, m: Methods.Method, new r: Result<Response, ClientError>)
    reads http, http.session, http.network
  {
    && http.SessionObtained()
    && var e := Dispatch(http.session, m.GetData(), http.GetHeaders());
       if http.session.closed then
         http.network.log == old(http.network.log) && r == Failure(SessionClosed)
       else
         && http.network.log == old(http.network.log) + [e]
         && r == Success(Response(m.ReturningModel(), http.network.respond(old(http.network.log), e)))
  }

  /** Tags a decoded body with `m`'s model; a failure stays the same failure. */
  function Tag(m: Methods.Method, result: Result<Value, ClientError>): Result<Response, ClientError> {
    match result
    case Success(body) => Success(Response(m.ReturningModel(), body))
    case Failure(err) => Failure(err)
  }

  class DefaultApiClient {
    const http: HttpClient

    constructor (network: Network)
      ensures fresh(http) && http.network == network
      ensures http.baseUrl == BaseUrl && http.session == null
    {
      http := new HttpClient(network);
    }

    /** `get_exchange_rates_all`: one GET of the exchange-rates endpoint. */
    method GetExchangeRatesAll() returns (r: Result<Response, ClientError>)
      modifies http, http.network
      ensures Executed(http, Methods.GetExchangeRates, r)
    {
      var m := Methods.GetExchangeRates;
      var result := http.MakeRequest(m);
      r := Tag(m, result);
    }
  }

  class TelegramBitpapaPay {
    const api: DefaultApiClient
    const apiToken: string

    constructor (apiToken: string, network: Network)
      ensures this.apiToken == apiToken
      ensures fresh(api) && fresh(api.http) && api.http.network == network
      ensures api.http.baseUrl == BaseUrl && api.http.session == null
    {
      api := new DefaultApiClient(network);
      this.apiToken := apiToken;
    }

    /** `get_invoices`: lists the invoices of the stored token. */
    method GetInvoices() returns (r: Result<Response, ClientError>)
      modifies api.http, api.http.network
      ensures Executed(api.http, Methods.GetTelegramInvoices(Telegram.GetTelegramInvoices(apiToken)), r)
    {
      var m := Methods.GetTelegramInvoices(Telegram.GetTelegramInvoices(apiToken));
      var result := api.http.MakeRequest(m);
      r := Tag(m, result);
    }

    /** `create_invoice`: issues an invoice with the stored token and the given currency and amount. */
    method CreateInvoice(currencyCode: string, amount: Number) returns (r: Result<Response, ClientError>)
      modifies api.http, api.http.network
      ensures Executed(api.http,
                Methods.CreateTelegramInvoice(Telegram.CreateTelegramInvoice(apiToken, currencyCode, amount)), r)
    {
      var m := Methods.CreateTelegramInvoice(Telegram.CreateTelegramInvoice(apiToken, currencyCode, amount));
      var result := api.http.MakeRequest(m);
      r := Tag(m, result);
    }
  }
}
