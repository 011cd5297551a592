/**
 * The closed set of API methods a client can execute. Each variant wraps one
 * concrete `BaseMethod` subclass; `endpoint`, `request_type`,
 * `returning_model` and `get_data` are answered by matching on the variant
 * instead of by virtual dispatch.
 */
module Methods {
  import opened Wrappers
  import opened Json
  import opened Base
  import ExchangeRates
  import Telegram

  datatype Method =
    | GetExchangeRates
    | GetTelegramInvoices(list: Telegram.GetTelegramInvoices)
    | CreateTelegramInvoice(create: Telegram.CreateTelegramInvoice)
  {
    /** The rates endpoint for the exchange-rates method, the public invoices endpoint for both Telegram methods. */
    function Endpoint(): (e: string)
      ensures GetExchangeRates? ==> e == "/api/v1/exchange_rates/all"
      ensures !GetExchangeRates? ==> e == "/api/v1/invoices/public"
    {
      match this
      case GetExchangeRates => ExchangeRates.Endpoint()
      case GetTelegramInvoices(m) => m.Endpoint()
      case CreateTelegramInvoice(m) => m.Endpoint()
    }

    /** Only invoice creation is a POST; the two listing methods are GETs. */
    function RequestType(): (v: Verb)
      ensures v == POST <==> CreateTelegramInvoice?
    {
      match this
      case GetExchangeRates => ExchangeRates.RequestType()
      case GetTelegramInvoices(m) => m.RequestType()
      case CreateTelegramInvoice(m) => m.RequestType()
    }

    /** Each method names its own response model. */
    function ReturningModel(): (t: ModelTag)
      ensures GetExchangeRates? ==> t == GetExchangeRatesOut
      ensures GetTelegramInvoices? ==> t == TelegramInvoices
      ensures CreateTelegramInvoice? ==> t == CreateTelegramInvoiceOutputData
    {
      match this
      case GetExchangeRates => ExchangeRates.ReturningModel()
      case GetTelegramInvoices(m) => m.ReturningModel()
      case CreateTelegramInvoice(m) => m.ReturningModel()
    }

    /**
     * The descriptor agrees with the method's own endpoint, verb and model,
     * and a GET never carries a body nor a POST query parameters.
     */
    function GetData(): (d: OutData)
      ensures d.endpoint == Endpoint() && d.requestType == RequestType()
      ensures d.returningModel == ReturningModel()
      ensures d.requestType == GET ==> d.jsonData == None
      ensures d.requestType == POST ==> d.params == None
    {
      match this
      case GetExchangeRates => ExchangeRates.GetData()
      case GetTelegramInvoices(m) => m.GetData()
      case CreateTelegramInvoice(m) => m.GetData()
    }

    /** The API token the method was built with, if it takes one. */
    function Token(): Option<string> {
      match this
      case GetExchangeRates => None
      case GetTelegramInvoices(m) => Some(m.apiToken)
      case CreateTelegramInvoice(m) => Some(m.apiToken)
    }
  }

  /**
   * Where a descriptor carries the API token: the `api_token` field of its
   * query parameters, or else of its JSON body.
   */
  function CarriedToken(d: OutData): Option<string> {
    if d.params.Some? && "api_token" in d.params.value && d.params.value["api_token"].Str? then
      Some(d.params.value["api_token"].s)
    else if d.jsonData.Some? && "api_token" in d.jsonData.value && d.jsonData.value["api_token"].Str? then
      Some(d.jsonData.value["api_token"].s)
    else
      None
  }

  /**
   * The token travels inside the descriptor, as a query field for the GET
   * and as a body field for the POST, and only methods built with one carry one.
   */
  lemma TokenTravelsInDescriptor(m: Method)
    ensures CarriedToken(m.GetData()) == m.Token()
    ensures m.GetTelegramInvoices? ==> "api_token" in m.GetData().params.value
    ensures m.CreateTelegramInvoice? ==> "api_token" in m.GetData().jsonData.value
  {
  }

  /**
   * Every method yields a different descriptor: the descriptor determines the
   * method and all the arguments it was built from.
   */
  lemma {:induction false} GetDataInjective(m1: Method, m2: Method)
    requires m1.GetData() == m2.GetData()
    ensures m1 == m2
  {
    var d := m1.GetData();
    match m1
    case GetExchangeRates =>
      assert d.params == None && d.jsonData == None;
    case GetTelegramInvoices(a) =>
      assert d.params.Some?;
      Telegram.GetInvoicesParamsRoundTrip(Telegram.GetTelegramInvoicesInputParams(a.apiToken));
    case CreateTelegramInvoice(a) =>
      Telegram.CreateInvoiceArgumentsRecoverable(a);
      if m2.CreateTelegramInvoice? {
        Telegram.CreateInvoiceArgumentsRecoverable(m2.create);
      }
  }
}
