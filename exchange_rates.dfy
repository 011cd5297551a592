/** `GetExchangeRates`: the argument-less method behind `get_exchange_rates_all`. */
module ExchangeRates {
  import opened Wrappers
  import opened Base

  function Endpoint(): (e: string)
    ensures e == "/api/v1/exchange_rates/all"
  {
    "/api/v1/exchange_rates/all"
  }

  function RequestType(): (v: Verb)
    ensures v == GET
  {
    GET
  }

  function ReturningModel(): (t: ModelTag)
    ensures t == GetExchangeRatesOut
  {
    GetExchangeRatesOut
  }

  /**
   * The method holds no state, so there is exactly one descriptor: a bare
   * GET of the rates endpoint with neither query parameters nor a body.
   */
  function GetData(): (d: OutData)
    ensures d.endpoint == "/api/v1/exchange_rates/all"
    ensures d.requestType == GET
    ensures d.params == None && d.jsonData == None
    ensures d.returningModel == GetExchangeRatesOut
  {
    OutData(Endpoint(), RequestType(), returningModel := ReturningModel())
  }
}
