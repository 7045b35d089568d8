/** The currency quote strategies and the factory that picks one by currency
    code (`CurrencyQueryStrategyFactory`).  A strategy is only an object
    identity here; what it fetches is the caller's business. */
module Currency {
  import opened Outcomes

  // ---------------------------------------------------------------------
  // Upper-casing of currency codes.
  // ---------------------------------------------------------------------

  predicate IsLowerAscii(c: char)
  {
    'a' <= c <= 'z'
  }

  /** The upper-case form of one character: ASCII letters only. */
  function UpperChar(c: char): (u: char)
    ensures !IsLowerAscii(u)
    ensures IsLowerAscii(c) ==> u as int == c as int - 32
    ensures !IsLowerAscii(c) ==> u == c
  {
    if IsLowerAscii(c) then (c as int - 32) as char else c
  }

  /** `string.ToUpper()`, restricted to ASCII: every character is replaced by
      its upper-case form, one for one. */
  function ToUpper(s: string): (r: string)
    ensures |r| == |s|
    ensures forall i :: 0 <= i < |s| ==> r[i] == UpperChar(s[i])
  {
    if s == [] then [] else [UpperChar(s[0])] + ToUpper(s[1..])
  }

  /** Two characters that are equal, or the same ASCII letter in the two cases. */
  predicate SameLetterIgnoringCase(x: char, y: char)
  {
    x == y ||
    (IsLowerAscii(x) && y as int == x as int - 32) ||
    (IsLowerAscii(y) && x as int == y as int - 32)
  }

  /** Two codes that differ only in the case of their letters. */
  predicate EqualIgnoringCase(a: string, b: string)
  {
    |a| == |b| && forall i :: 0 <= i < |a| ==> SameLetterIgnoringCase(a[i], b[i])
  }

  /** Upper-casing identifies exactly the codes that differ only in case. */
  lemma ToUpperEqualIffEqualIgnoringCase(a: string, b: string)
    ensures ToUpper(a) == ToUpper(b) <==> EqualIgnoringCase(a, b)
  {
  }

  // ---------------------------------------------------------------------
  // The strategies.
  // ---------------------------------------------------------------------

  /** The HTTP client that fetches the dollar quote (`IDolarRequest`); its
      request is not part of this model. */
  class DolarRequest {
    constructor ()
    {
    }
  }

  /** The dollar strategy: it passes the quote request on to its client. */
  class DolarCurrencyQuery {
    const Request: DolarRequest?

    constructor (dolarRequest: DolarRequest?)
      ensures Request == dolarRequest
    {
      Request := dolarRequest;
    }
  }

  /** The peso strategy; its source is not part of this model. */
  class PesoCurrencyQuery {
    constructor ()
    {
    }
  }

  /** The real strategy; its source is not part of this model. */
  class RealCurrencyQuery {
    constructor ()
    {
    }
  }

  /** The codes the factory knows, in upper case. */
  const DolarCode: string := "DOLAR"
  const PesoCode: string := "PESO"
  const RealCode: string := "REAL"

  predicate IsKnownCode(upper: string)
  {
    upper == DolarCode || upper == PesoCode || upper == RealCode
  }

  class CurrencyQueryStrategyFactory {
    /** The client handed to the dollar strategy. */
    const Client: DolarRequest?
    const DolarCurrency: DolarCurrencyQuery
    const PesoCurrency: PesoCurrencyQuery
    const RealCurrency: RealCurrencyQuery

    /** The three strategies are built once, here, as new objects (of three
        different classes, so never the same object); the dollar strategy
        gets the factory's client. */
    constructor (dolarRequest: DolarRequest?)
      ensures Client == dolarRequest
      ensures fresh(DolarCurrency) && fresh(PesoCurrency) && fresh(RealCurrency)
      ensures DolarCurrency.Request == dolarRequest
    {
      Client := dolarRequest;
      DolarCurrency := new DolarCurrencyQuery(dolarRequest);
      PesoCurrency := new PesoCurrencyQuery();
      RealCurrency := new RealCurrencyQuery();
    }

    /** `getCurrencyQueryStrategy`: the strategy for a code, whatever the
        case of its letters; `null` for a code it does not know; a `null`
        code throws, since it is upper-cased before anything else. */
    function GetCurrencyQueryStrategy(currency: Option<string>): (r: Outcome<object?>)
      ensures r.Threw? <==> currency.None?
      ensures r.Threw? ==> r.error == NullReferenceException
      ensures r == Returned(DolarCurrency) <==> currency.Some? && ToUpper(currency.value) == DolarCode
      ensures r == Returned(PesoCurrency) <==> currency.Some? && ToUpper(currency.value) == PesoCode
      ensures r == Returned(RealCurrency) <==> currency.Some? && ToUpper(currency.value) == RealCode
      ensures r == Returned(null) <==> currency.Some? && !IsKnownCode(ToUpper(currency.value))
    {
      match currency
      case None => Threw(NullReferenceException)
      case Some(code) =>
        var upper := ToUpper(code);
        if upper == DolarCode then Returned(DolarCurrency)
        else if upper == PesoCode then Returned(PesoCurrency)
        else if upper == RealCode then Returned(RealCurrency)
        else Returned(null)
    }

    /** Two codes that differ only in letter case get the same strategy object. */
    lemma LookupIgnoresCase(a: string, b: string)
      requires EqualIgnoringCase(a, b)
      ensures GetCurrencyQueryStrategy(Some(a)) == GetCurrencyQueryStrategy(Some(b))
    {
    }

    /** "dolar" and "DOLAR" both give the dollar strategy; "yen" gives none. */
    lemma LookupExamples()
      ensures GetCurrencyQueryStrategy(Some("dolar")) == Returned(DolarCurrency)
      ensures GetCurrencyQueryStrategy(Some("DOLAR")) == Returned(DolarCurrency)
      ensures GetCurrencyQueryStrategy(Some("Peso")) == Returned(PesoCurrency)
      ensures GetCurrencyQueryStrategy(Some("real")) == Returned(RealCurrency)
      ensures GetCurrencyQueryStrategy(Some("yen")) == Returned(null)
    {
    }
  }
}
