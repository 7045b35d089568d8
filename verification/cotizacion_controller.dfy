/** The currency quote endpoint (`CotizacionController`): it picks the
    strategy for the requested code and answers with the quote that strategy
    fetches; every failure on the way is answered with 401 Unauthorized. */
module Cotizacion {
  import opened Outcomes
  import opened ActionResults
  import opened Currency

  class CotizacionController {
    /** The client the controller is given (`IDolarRequest`). */
    const Client: DolarRequest?
    const CurrencyFactory: CurrencyQueryStrategyFactory

    /** The controller builds its own factory around the client it is given. */
    constructor (dolarRequest: DolarRequest?)
      ensures Client == dolarRequest
      ensures fresh(CurrencyFactory) && CurrencyFactory.Client == dolarRequest
    {
      Client := dolarRequest;
      CurrencyFactory := new CurrencyQueryStrategyFactory(dolarRequest);
    }

    /** `Get(currency)`.  `fetch` is what each strategy's
        `QueryCurrencyValue()` does at the time of the request: the quote
        text or an exception.  Looking up the strategy, calling it on a
        `null` strategy and fetching all happen inside one try block whose
        handler answers Unauthorized. */
    function Get(currency: Option<string>, fetch: object -> Outcome<string>): (r: Response<string>)
      ensures r.Content? || r.Unauthorized?
      ensures r.Content? <==>
        currency.Some? && IsKnownCode(ToUpper(currency.value)) &&
        fetch(CurrencyFactory.GetCurrencyQueryStrategy(currency).value).Returned?
      ensures r.Content? ==>
        r.text == fetch(CurrencyFactory.GetCurrencyQueryStrategy(currency).value).value
    {
      var attempt: Outcome<string> :=
        match CurrencyFactory.GetCurrencyQueryStrategy(currency)
        case Threw(e) => Threw(e)
        case Returned(query) =>
          if query == null then Threw(NullReferenceException) else fetch(query);
      match attempt
      case Returned(text) => Content(text)
      case Threw(_) => Unauthorized
    }

    /** A `null` code is Unauthorized: upper-casing it throws inside the try block. */
    lemma NullCurrencyIsUnauthorized(fetch: object -> Outcome<string>)
      ensures Get(None, fetch) == Unauthorized
    {
    }

    /** An unknown code is Unauthorized: the `null` strategy is dereferenced
        inside the try block. */
    lemma UnknownCurrencyIsUnauthorized(code: string, fetch: object -> Outcome<string>)
      requires !IsKnownCode(ToUpper(code))
      ensures Get(Some(code), fetch) == Unauthorized
    {
    }

    /** A fetch that throws is Unauthorized, whatever the exception. */
    lemma FetchFailureIsUnauthorized(code: string, fetch: object -> Outcome<string>)
      requires IsKnownCode(ToUpper(code))
      requires fetch(CurrencyFactory.GetCurrencyQueryStrategy(Some(code)).value).Threw?
      ensures Get(Some(code), fetch) == Unauthorized
    {
    }

    /** "dolar" in any case answers with the text the dollar strategy fetched,
        unchanged. */
    lemma DolarQuoteIsPassedThrough(code: string, fetch: object -> Outcome<string>, quote: string)
      requires EqualIgnoringCase(code, "dolar")
      requires fetch(CurrencyFactory.DolarCurrency) == Returned(quote)
      ensures Get(Some(code), fetch) == Content(quote)
    {
    }
  }
}
