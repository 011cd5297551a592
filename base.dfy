/**
 * The request descriptor that every API method produces (`BaseOutData`) and
 * the one normalisation rule the method base class offers (`set_params`).
 */
module Base {
  import opened Wrappers
  import opened Json

  /** The only two verbs a descriptor may carry (`Literal["GET", "POST"]`). */
  datatype Verb = GET | POST

  /** The pydantic class a method's response is parsed into, as an opaque tag. */
  datatype ModelTag = GetExchangeRatesOut | TelegramInvoices | CreateTelegramInvoiceOutputData

  /**
   * One API call's transport shape. As in the pydantic record, `params` and
   * `jsonData` default to absent; `returningModel` follows them and so is
   * passed by name.
   */
  datatype OutData = OutData(
    endpoint: string,
    requestType: Verb,
    params: Option<Dict> := None,
    jsonData: Option<Dict> := None,
    returningModel: ModelTag)

  /** A descriptor built without `params` or `jsonData` has neither. */
  lemma OutDataDefaults(endpoint: string, requestType: Verb, returningModel: ModelTag)
    ensures var d := OutData(endpoint, requestType, returningModel := returningModel);
            d.params == None && d.jsonData == None &&
            d.endpoint == endpoint && d.requestType == requestType && d.returningModel == returningModel
  {
  }

  /** No value of `d` is `None`. */
  ghost predicate NullFree(d: Dict) {
    forall key :: key in d ==> d[key] != Null
  }

  /** Every entry of `small` is also an entry of `big`, with the same value. */
  ghost predicate SubDict(small: Dict, big: Dict) {
    forall key :: key in small ==> key in big && big[key] == small[key]
  }

  /** `BaseMethod.set_params`: the entries of `params` whose value is not `None`. */
  function SetParams(params: Dict): (r: Dict)
    ensures r.Keys <= params.Keys
    ensures NullFree(r)
    ensures forall key :: key in r ==> r[key] == params[key]
    ensures forall key :: key in params && params[key] != Null ==> key in r
  {
    map key | key in params && params[key] != Null :: params[key]
  }

  /** Pruning twice prunes nothing more. */
  lemma SetParamsIdempotent(params: Dict)
    ensures SetParams(SetParams(params)) == SetParams(params)
  {
  }

  /** `set_params` leaves a dict unchanged exactly when it holds no `None`. */
  lemma SetParamsFixedPoint(params: Dict)
    ensures SetParams(params) == params <==> NullFree(params)
  {
  }

  /**
   * The result is the largest `None`-free part of the input: every
   * `None`-free dict contained in `params` is contained in the result.
   */
  lemma SetParamsGreatest(params: Dict, q: Dict)
    requires SubDict(q, params) && NullFree(q)
    ensures SubDict(q, SetParams(params))
  {
  }

  /** The pruned dict never has more entries than the input. */
  lemma SetParamsSize(params: Dict)
    ensures |SetParams(params)| <= |params|
  {
    var r := SetParams(params);
    assert r.Keys <= params.Keys;
    SubsetCard(r.Keys, params.Keys);
  }

  lemma {:induction false} SubsetCard(a: set<string>, b: set<string>)
    requires a <= b
    ensures |a| <= |b|
    decreases b
  {
    if a != {} {
      var x :| x in a;
      SubsetCard(a - {x}, b - {x});
    }
  }
}
