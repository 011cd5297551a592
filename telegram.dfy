/**
 * The legacy Telegram invoice flow: the invoice record with its bot link,
 * the request bodies pydantic builds, and the two methods that list and
 * issue invoices on the public invoices endpoint.
 */
module Telegram {
  import opened Wrappers
  import opened Json
  import opened Base

  /** Every invoice's bot link is this prefix followed by the invoice id. */
  const BotStartPrefix: string := "https://t.me/bitpapa_bot?start="

  /** The endpoint both Telegram methods use. */
  const InvoicesEndpoint: string := "/api/v1/invoices/public"

  datatype TelegramInvoice = TelegramInvoice(
    id: string,
    currencyCode: string,
    amount: Number,
    status: string,
    createdAt: string,
    updatedAt: string)
  {
    /** The computed `url` field: the bot start link carrying this invoice's id. */
    function Url(): (u: string)
      ensures |u| == |BotStartPrefix| + |id|
      ensures u[..|BotStartPrefix|] == BotStartPrefix
      ensures u[|BotStartPrefix|..] == id
    {
      BotStartPrefix + id
    }
  }

  /** The invoice id a bot start link carries, or None for any other string. */
  function InvoiceIdOf(url: string): (r: Option<string>)
    ensures r.Some? <==> BotStartPrefix <= url
    ensures r.Some? ==> BotStartPrefix + r.value == url
  {
    if BotStartPrefix <= url then Some(url[|BotStartPrefix|..]) else None
  }

  /** A string is an invoice's link exactly when it carries that invoice's id. */
  lemma UrlCarriesId(inv: TelegramInvoice, url: string)
    ensures InvoiceIdOf(url) == Some(inv.id) <==> url == inv.Url()
  {
  }

  /** Distinct invoice ids give distinct links. */
  lemma UrlInjective(a: TelegramInvoice, b: TelegramInvoice)
    requires a.Url() == b.Url()
    ensures a.id == b.id
  {
  }

  /** The `invoice` part of the create-invoice body. */
  datatype TelegramInvoiceInputData = TelegramInvoiceInputData(currencyCode: string, amount: Number)
  {
    /** `model_dump()`: exactly the two fields, under their Python names, unchanged. */
    function ModelDump(): (d: Dict)
      ensures d.Keys == {"currency_code", "amount"}
      ensures d["currency_code"] == Str(currencyCode) && d["amount"] == Num(amount)
    {
      map["currency_code" := Str(currencyCode), "amount" := Num(amount)]
    }
  }

  /** The whole create-invoice body: the token and the invoice. */
  datatype CreateTelegramInvoiceInputData = CreateTelegramInvoiceInputData(
    apiToken: string,
    invoice: TelegramInvoiceInputData)
  {
    /** `model_dump()`: the token and the nested invoice dict, and nothing else. */
    function ModelDump(): (d: Dict)
      ensures d.Keys == {"api_token", "invoice"}
      ensures d["api_token"] == Str(apiToken) && d["invoice"] == Obj(invoice.ModelDump())
    {
      map["api_token" := Str(apiToken), "invoice" := Obj(invoice.ModelDump())]
    }
  }

  /** The query parameters of the list-invoices call: just the token. */
  datatype GetTelegramInvoicesInputParams = GetTelegramInvoicesInputParams(apiToken: string)
  {
    /** `model_dump()`: the token alone. */
    function ModelDump(): (d: Dict)
      ensures d.Keys == {"api_token"} && d["api_token"] == Str(apiToken)
    {
      map["api_token" := Str(apiToken)]
    }
  }

  /** Reads an invoice input back out of a dumped dict, as pydantic validation would. */
  function ParseInvoiceInput(d: Dict): Option<TelegramInvoiceInputData> {
    if "currency_code" in d && d["currency_code"].Str? && "amount" in d && d["amount"].Num? then
      Some(TelegramInvoiceInputData(d["currency_code"].s, d["amount"].n))
    else
      None
  }

  /** Reads a create-invoice body back out of a dumped dict. */
  function ParseCreateInput(d: Dict): Option<CreateTelegramInvoiceInputData> {
    if "api_token" in d && d["api_token"].Str? && "invoice" in d && d["invoice"].Obj? then
      match ParseInvoiceInput(d["invoice"].fields)
      case Some(inv) => Some(CreateTelegramInvoiceInputData(d["api_token"].s, inv))
      case None => None
    else
      None
  }

  /** Reads list-invoices query parameters back out of a dumped dict. */
  function ParseGetInvoicesParams(d: Dict): Option<GetTelegramInvoicesInputParams> {
    if "api_token" in d && d["api_token"].Str? then
      Some(GetTelegramInvoicesInputParams(d["api_token"].s))
    else
      None
  }

  /** Dumping a create-invoice body loses nothing: it reads back as the same input. */
  lemma CreateInputRoundTrip(x: CreateTelegramInvoiceInputData)
    ensures ParseCreateInput(x.ModelDump()) == Some(x)
  {
  }

  /** Dumping list-invoices parameters loses nothing. */
  lemma GetInvoicesParamsRoundTrip(x: GetTelegramInvoicesInputParams)
    ensures ParseGetInvoicesParams(x.ModelDump()) == Some(x)
  {
  }

  /** `CreateTelegramInvoice`: issue an invoice for an amount of a cryptocurrency. */
  datatype CreateTelegramInvoice = CreateTelegramInvoice(apiToken: string, currencyCode: string, amount: Number)
  {
    function Endpoint(): (e: string)
      ensures e == "/api/v1/invoices/public"
    {
      InvoicesEndpoint
    }

    function RequestType(): (v: Verb)
      ensures v == POST
    {
      POST
    }

    function ReturningModel(): (t: ModelTag)
      ensures t == CreateTelegramInvoiceOutputData
    {
      CreateTelegramInvoiceOutputData
    }

    /** The body's pydantic input: the constructor's three arguments, unchanged. */
    function Input(): (x: CreateTelegramInvoiceInputData)
      ensures x.apiToken == apiToken
      ensures x.invoice.currencyCode == currencyCode && x.invoice.amount == amount
    {
      CreateTelegramInvoiceInputData(apiToken, TelegramInvoiceInputData(currencyCode, amount))
    }

    /**
     * A POST to the public invoices endpoint whose JSON body is exactly
     * `{api_token, invoice: {currency_code, amount}}` holding the
     * constructor's arguments, with no query parameters.
     */
    function GetData(): (d: OutData)
      ensures d.endpoint == "/api/v1/invoices/public" && d.requestType == POST
      ensures d.params == None
      ensures d.returningModel == CreateTelegramInvoiceOutputData
      ensures d.jsonData == Some(map[
                "api_token" := Str(apiToken),
                "invoice" := Obj(map["currency_code" := Str(currencyCode), "amount" := Num(amount)])])
    {
      OutData(Endpoint(), RequestType(), jsonData := Some(Input().ModelDump()), returningModel := ReturningModel())
    }
  }

  /** `GetTelegramInvoices`: list the invoices issued with a token. */
  datatype GetTelegramInvoices = GetTelegramInvoices(apiToken: string)
  {
    function Endpoint(): (e: string)
      ensures e == "/api/v1/invoices/public"
    {
      InvoicesEndpoint
    }

    function RequestType(): (v: Verb)
      ensures v == GET
    {
      GET
    }

    function ReturningModel(): (t: ModelTag)
      ensures t == TelegramInvoices
    {
      TelegramInvoices
    }

    /**
     * A GET of the same public invoices endpoint whose query parameters are
     * exactly `{api_token}`, with no body.
     */
    function GetData(): (d: OutData)
      ensures d.endpoint == "/api/v1/invoices/public" && d.requestType == GET
      ensures d.params == Some(map["api_token" := Str(apiToken)])
      ensures d.jsonData == None
      ensures d.returningModel == TelegramInvoices
    {
      OutData(Endpoint(), RequestType(), params := Some(GetTelegramInvoicesInputParams(apiToken).ModelDump()),
              returningModel := ReturningModel())
    }
  }

  /** The create-invoice descriptor gives back every argument the method was built from. */
  lemma CreateInvoiceArgumentsRecoverable(m: CreateTelegramInvoice)
    ensures m.GetData().jsonData.Some?
    ensures ParseCreateInput(m.GetData().jsonData.value) == Some(m.Input())
  {
  }
}
