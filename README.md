# bitpapa-pay: request descriptors and request dispatch

A Dafny model of the deterministic core of the `bitpapa_pay` asynchronous client for the Bitpapa payment API.

- **Method descriptors** (`Base`, `ExchangeRates`, `Telegram`, `Methods`). Every API method describes one call as a `BaseOutData` record: endpoint, verb (GET or POST, nothing else), optional query parameters, optional JSON body and the response model's tag. The three concrete methods are `GetExchangeRates`, `GetTelegramInvoices` and `CreateTelegramInvoice`. Here their `get_data` is a pure function per variant of the closed `Methods.Method` datatype. `BaseMethod.set_params`, which drops `None` values, is `Base.SetParams`.
- **`HttpClient`** (`Client`). A class whose `session` field starts out `null`. `GetSession` fills it on first use and returns the same object from then on. `Close` closes that object but leaves it stored. `GetHeaders` returns the fixed two-entry header map. `MakeRequest` obtains the session and then tries exactly one request: a GET with the descriptor's `params`, or a POST with its `json_data`. It returns the decoded body unchanged. Once the session is closed, the request fails and nothing is sent.
- **The network** (`Client.Network`). This stands in for aiohttp and the remote API. It records every request sent, together with the session it was sent on. Its answer to a request is a fixed function (`respond`) of the earlier exchanges and of the request. Like aiohttp, it refuses a request over a closed session: the call fails with `SessionClosed` and nothing is recorded.
- **Facades** (`Facade`). `DefaultApiClient.GetExchangeRatesAll`, `TelegramBitpapaPay.GetInvoices` and `TelegramBitpapaPay.CreateInvoice` each build one descriptor from their arguments and the stored `api_token`. Each makes one `MakeRequest` call. Each tags the result with the method's response model, or passes the failure on unchanged. The Python classes inherit from one another. Here they are composed instead: `TelegramBitpapaPay` holds a `DefaultApiClient`, which holds the `HttpClient`.

The model follows the code on these points:
- `close()` does not make a later `get_session()` fail. The closed session stays stored and is returned again (`Client.GetSessionAfterClose`). Every later request then fails in the transport (`Client.RequestAfterClose`); no new session is created.
- No `X-Access-Token` header is sent. The token travels inside the query parameters or the body (`Client.TokenTravelsInRequest`).
- The executor does not prune `None` query parameters itself. `set_params` exists, but no method in `bitpapa_pay/methods/exchange_rates.py` or `telegram.py` calls it.
- No error is normalised. The client's only failure here is the transport's refusal of a closed session, and it is passed on unchanged.

## Model

| member | source | states |
|---|---|---|
| `Base.OutDataDefaults` | bitpapa_pay/methods/base.py:7-12 | a descriptor built without `params` or `json_data` has both absent, and keeps the endpoint, verb and model it was given |
| `Base.SetParams` | bitpapa_pay/methods/base.py:31-32 | every result key is an input key; no result value is `None`; each value is the input's value for that key; every input key whose value is not `None` is kept |
| `Base.SetParamsIdempotent` | bitpapa_pay/methods/base.py:31-32 | pruning an already pruned dict changes nothing |
| `Base.SetParamsFixedPoint` | bitpapa_pay/methods/base.py:31-32 | `set_params(p) == p` exactly when `p` has no `None` value (both directions) |
| `Base.SetParamsGreatest` | bitpapa_pay/methods/base.py:31-32 | every `None`-free dict contained in `p` is contained in `set_params(p)`, so the result is the largest such dict |
| `Base.SetParamsSize` | bitpapa_pay/methods/base.py:31-32 | the result never has more entries than the input |
| `ExchangeRates.GetData` | bitpapa_pay/methods/exchange_rates.py:12-30 | the descriptor is a GET of `/api/v1/exchange_rates/all` with no params and no body, tagged `GetExchangeRatesOut`; the method has no arguments, so this is the only descriptor it yields |
| `ExchangeRates.Endpoint` | bitpapa_pay/methods/exchange_rates.py:13-15 | the endpoint is `/api/v1/exchange_rates/all` |
| `ExchangeRates.RequestType` | bitpapa_pay/methods/exchange_rates.py:17-19 | the verb is GET |
| `ExchangeRates.ReturningModel` | bitpapa_pay/methods/exchange_rates.py:21-23 | the response model is `GetExchangeRatesOut` |
| `Telegram.TelegramInvoice.Url` | bitpapa_pay/methods/telegram.py:16-18 | the link is `https://t.me/bitpapa_bot?start=` followed by the id, and the id is exactly what follows that prefix |
| `Telegram.InvoiceIdOf` | bitpapa_pay/methods/telegram.py:16-18 | inverse of the link: yields an id exactly for strings that start with the bot prefix, and the prefix plus that id rebuilds the string |
| `Telegram.UrlCarriesId` | bitpapa_pay/methods/telegram.py:16-18 | a string reads back as an invoice's id exactly when it is that invoice's link (both directions) |
| `Telegram.UrlInjective` | bitpapa_pay/methods/telegram.py:16-18 | two invoices with the same link have the same id |
| `Telegram.TelegramInvoiceInputData.ModelDump` | bitpapa_pay/methods/telegram.py:25-27 | the dump has exactly the keys `currency_code` and `amount`, holding the fields unchanged |
| `Telegram.CreateTelegramInvoiceInputData.ModelDump` | bitpapa_pay/methods/telegram.py:30-32 | the dump has exactly the keys `api_token` and `invoice`: the token unchanged and the invoice's own dump |
| `Telegram.GetTelegramInvoicesInputParams.ModelDump` | bitpapa_pay/methods/telegram.py:39-40 | the dump is exactly `{api_token}` holding the token unchanged |
| `Telegram.CreateInputRoundTrip` | bitpapa_pay/methods/telegram.py:25-32 | the dumped create-invoice body `{api_token, invoice: {currency_code, amount}}` reads back as the same input data |
| `Telegram.GetInvoicesParamsRoundTrip` | bitpapa_pay/methods/telegram.py:39-40 | the dumped list-invoices parameters read back as the same token |
| `Telegram.CreateTelegramInvoice.Endpoint` | bitpapa_pay/methods/telegram.py:54-56 | the endpoint is `/api/v1/invoices/public` |
| `Telegram.CreateTelegramInvoice.RequestType` | bitpapa_pay/methods/telegram.py:58-60 | the verb is POST |
| `Telegram.CreateTelegramInvoice.ReturningModel` | bitpapa_pay/methods/telegram.py:62-64 | the response model is `CreateTelegramInvoiceOutputData` |
| `Telegram.CreateTelegramInvoice.Input` | bitpapa_pay/methods/telegram.py:70-76 | the body's input data holds the constructor's token, currency code and amount unchanged |
| `Telegram.CreateTelegramInvoice.GetData` | bitpapa_pay/methods/telegram.py:43-78 | a POST to `/api/v1/invoices/public` with no params, tagged `CreateTelegramInvoiceOutputData`, whose body is exactly `{api_token, invoice: {currency_code, amount}}` holding the constructor arguments |
| `Telegram.GetTelegramInvoices.Endpoint` | bitpapa_pay/methods/telegram.py:85-87 | the endpoint is `/api/v1/invoices/public`, the same as for creation |
| `Telegram.GetTelegramInvoices.RequestType` | bitpapa_pay/methods/telegram.py:89-91 | the verb is GET |
| `Telegram.GetTelegramInvoices.ReturningModel` | bitpapa_pay/methods/telegram.py:93-95 | the response model is `TelegramInvoices` |
| `Telegram.GetTelegramInvoices.GetData` | bitpapa_pay/methods/telegram.py:81-105 | a GET of the same endpoint whose params are exactly `{api_token}`, with no body, tagged `TelegramInvoices` |
| `Telegram.CreateInvoiceArgumentsRecoverable` | bitpapa_pay/methods/telegram.py:66-78 | the create-invoice descriptor's body decodes back to the token, currency code and amount the method was built from |
| `Methods.Method.Endpoint` | bitpapa_pay/methods/base.py:16-19 | the exchange-rates method uses `/api/v1/exchange_rates/all`; both Telegram methods use `/api/v1/invoices/public` |
| `Methods.Method.RequestType` | bitpapa_pay/methods/base.py:21-24 | the verb is POST exactly for invoice creation, GET otherwise |
| `Methods.Method.ReturningModel` | bitpapa_pay/methods/base.py:26-29 | each method names its own response model: `GetExchangeRatesOut`, `TelegramInvoices` or `CreateTelegramInvoiceOutputData` |
| `Methods.Method.GetData` | bitpapa_pay/methods/base.py:15-36 | every descriptor agrees with its method's `endpoint`, `request_type` and `returning_model`; a GET never has a body and a POST never has query params |
| `Methods.TokenTravelsInDescriptor` | bitpapa_pay/methods/telegram.py:66-105 | the token sits in the query params of the GET and in the body of the POST; only methods built with a token carry one |
| `Methods.GetDataInjective` | bitpapa_pay/methods/base.py:34-36 | two methods with the same descriptor are equal, so the descriptor carries every argument unchanged |
| `Client.Dispatch` | bitpapa_pay/client.py:65-78 | the request is a GET exactly when the verb is GET and a POST exactly when it is POST; it uses the descriptor's endpoint and the given headers; a GET carries the descriptor's `params`, a POST its `json_data` |
| `Client.Session.constructor` | bitpapa_pay/client.py:23 | a new session is open and bound to the given base address |
| `Client.Session.Close` | bitpapa_pay/client.py:35 | the session is closed afterwards |
| `Client.Network.Send` | bitpapa_pay/client.py:44-47 | over an open session, appends the exchange to the log and returns the network's answer to it; over a closed one, fails with `SessionClosed` and leaves the log unchanged |
| `Client.HttpClient.constructor` | bitpapa_pay/client.py:16-18 | base address `https://bitpapa.com` and no session |
| `Client.HttpClient.GetSession` | bitpapa_pay/client.py:20-24 | with no stored session, creates, stores and returns a new open session bound to the base address; otherwise returns the stored one and replaces nothing |
| `Client.HttpClient.GetHeaders` | bitpapa_pay/client.py:26-31 | the keys are exactly `Content-Type` and `User-Agent`, with values `application/json` and `AioBitpapaPay/<VERSION>` |
| `Client.HttpClient.Close` | bitpapa_pay/client.py:33-35 | closes the stored session if there is one; the field keeps the same value, `null` or the now-closed session |
| `Client.HttpClient.GetRequest` | bitpapa_pay/client.py:37-47 | tries exactly one GET with the given endpoint, headers and params on the given session: the decoded body if the session is open, `SessionClosed` and nothing sent if it is closed |
| `Client.HttpClient.PostRequest` | bitpapa_pay/client.py:49-59 | tries exactly one POST with the given endpoint, headers and JSON body on the given session: the decoded body if the session is open, `SessionClosed` and nothing sent if it is closed |
| `Client.HttpClient.MakeRequest` | bitpapa_pay/client.py:61-79 | obtains the session, then tries exactly one exchange, the descriptor dispatched on that session with `get_headers()`: if the session is open it is logged and the network's answer is returned unchanged; if the stored session was closed, the call fails with `SessionClosed` and nothing is logged |
| `Client.HeadersAreTwo` | bitpapa_pay/client.py:26-31 | the header map has exactly two entries and no `X-Access-Token` |
| `Client.TokenTravelsInRequest` | bitpapa_pay/client.py:61-79 | no request has a token header; the invoice list sends `{api_token}` as its only query params; invoice creation sends the token in its POST body; the exchange-rates GET sends no params |
| `Client.GetSessionAfterClose` | bitpapa_pay/client.py:20-35 | get, close, then get again returns the same session object, now closed, and it is still stored |
| `Client.RequestAfterClose` | bitpapa_pay/client.py:20-79 | after get and close, any `_make_request` fails with `SessionClosed` and sends nothing |
| `Facade.DefaultApiClient.constructor` | bitpapa_pay/client.py:16-18 | a fresh `HttpClient` on the given network, with base address `https://bitpapa.com` and no session |
| `Facade.DefaultApiClient.GetExchangeRatesAll` | bitpapa_pay/client.py:83-92 | one `_make_request` of `GetExchangeRates`; the result is the answer tagged `GetExchangeRatesOut`, or `SessionClosed` with nothing sent once the client is closed |
| `Facade.TelegramBitpapaPay.constructor` | bitpapa_pay/client.py:96-98 | stores the token unchanged, on a fresh client with no session |
| `Facade.TelegramBitpapaPay.GetInvoices` | bitpapa_pay/client.py:100-108 | one `_make_request` of `GetTelegramInvoices` built from the stored token; the result is the answer tagged `TelegramInvoices`, or `SessionClosed` with nothing sent once the client is closed |
| `Facade.TelegramBitpapaPay.CreateInvoice` | bitpapa_pay/client.py:110-129 | one `_make_request` of `CreateTelegramInvoice` built from the stored token and the arguments unchanged; the result is the answer tagged `CreateTelegramInvoiceOutputData`, or `SessionClosed` with nothing sent once the client is closed |

## Left out

- aiohttp I/O: constructing a `ClientSession`, `session.get`/`post`, `await`, the async context managers and `resp.json()` are replaced by `Client.Session` and `Client.Network`. A request over a closed session is modelled as the failure `Client.SessionClosed` in place of aiohttp's `RuntimeError`. Connection failures, decoding failures and non-2xx statuses are left out; `client.py` does not handle them.
- pydantic: field validation, aliasing, the `computed_field` machinery and `returning_model(**result)` parsing are library code. A response is the decoded body paired with its model tag (`Facade.Response`), so the response classes `TelegramInvoices`, `CreateTelegramInvoiceOutputData` and `GetExchangeRatesOut` appear only as tags. `model_dump` is written out per input class.
- `amount` (`Union[int, float]`) is an opaque `Json.Number` that is passed through and never computed with.
- `VERSION` (from `bitpapa_pay/version.py`, which is not part of this model) is an unspecified string constant.
- Concurrency: the race between two concurrent first calls to `get_session` is not modelled. Calls are sequential.
- `bitpapa_pay/schemas/addresses.py` and `bitpapa_pay/schemas/transactions.py` hold field declarations only. No function in `client.py` or `bitpapa_pay/methods/` uses them.
- `bitpapa_pay/methods/create_telegram_invoice.py` is a stale declaration with no logic, and it depends on a module that is not part of this model.
- Python `dict` insertion order is not modelled. Dicts are Dafny maps.
