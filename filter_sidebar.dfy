/** The price filter beside the search results: two price texts and a slider,
    a submit that rewrites only the price parameters of the current URL, and
    a reset. */
module FilterSidebar {

  import opened Common
  import opened Text
  import opened UrlParams

  const LISTINGS_PATH: string := "/listings"
  const MIN_PRICE: string := "minPrice"
  const MAX_PRICE: string := "maxPrice"
  /** The slider's initial range, `[0, 1000]`. */
  const FULL_RANGE: (nat, nat) := (0, 1000)

  /** The price parameter after submit: set to the text when there is one, gone otherwise. */
  function PriceParam(e: Entries, name: string, text: string): Entries {
    if text != "" then SetParam(e, name, text) else DeleteParam(e, name)
  }

  /** The query `handleSubmit` navigates to. */
  function SubmittedQuery(current: Entries, minPrice: string, maxPrice: string): Entries {
    PriceParam(PriceParam(current, MIN_PRICE, minPrice), MAX_PRICE, maxPrice)
  }

  lemma {:induction false} PriceParamSpec(e: Entries, name: string, text: string, other: string)
    requires other != name
    ensures Only(PriceParam(e, name, text), name) == if text == "" then [] else [(name, text)]
    ensures Only(PriceParam(e, name, text), other) == Only(e, other)
  {
    if text != "" {
      SetParamSpec(e, name, text, other);
    } else {
      DeleteParamSpec(e, name, other);
    }
  }

  /** After submit, each price parameter occurs once with its text when the
      text is non-empty and not at all otherwise, and every other parameter
      (the location, say) keeps exactly its entries. */
  lemma {:induction false} SubmittedQuerySpec(current: Entries, minPrice: string, maxPrice: string, other: string)
    requires other != MIN_PRICE && other != MAX_PRICE
    ensures Only(SubmittedQuery(current, minPrice, maxPrice), MIN_PRICE) == if minPrice == "" then [] else [(MIN_PRICE, minPrice)]
    ensures Only(SubmittedQuery(current, minPrice, maxPrice), MAX_PRICE) == if maxPrice == "" then [] else [(MAX_PRICE, maxPrice)]
    ensures Only(SubmittedQuery(current, minPrice, maxPrice), other) == Only(current, other)
    ensures Get(SubmittedQuery(current, minPrice, maxPrice), MIN_PRICE) == if minPrice == "" then None else Some(minPrice)
    ensures Get(SubmittedQuery(current, minPrice, maxPrice), MAX_PRICE) == if maxPrice == "" then None else Some(maxPrice)
    ensures Get(SubmittedQuery(current, minPrice, maxPrice), other) == Get(current, other)
  {
    var afterMin := PriceParam(current, MIN_PRICE, minPrice);
    var q := SubmittedQuery(current, minPrice, maxPrice);
    PriceParamSpec(current, MIN_PRICE, minPrice, MAX_PRICE);
    PriceParamSpec(current, MIN_PRICE, minPrice, other);
    PriceParamSpec(afterMin, MAX_PRICE, maxPrice, MIN_PRICE);
    PriceParamSpec(afterMin, MAX_PRICE, maxPrice, other);
    GetIsFirst(q, MIN_PRICE);
    GetIsFirst(q, MAX_PRICE);
    GetIsFirst(q, other);
    GetIsFirst(current, other);
  }

  class Sidebar {
    /** The page's current search parameters. */
    const current: Entries
    var minPrice: string
    var maxPrice: string
    var priceRange: (nat, nat)

    /** The texts start from the URL, or "" when a parameter is missing. */
    constructor (current: Entries)
      ensures this.current == current
      ensures minPrice == Get(current, MIN_PRICE).GetOr("") && maxPrice == Get(current, MAX_PRICE).GetOr("")
      ensures priceRange == FULL_RANGE
    {
      this.current := current;
      minPrice := Get(current, MIN_PRICE).GetOr("");
      maxPrice := Get(current, MAX_PRICE).GetOr("");
      priceRange := FULL_RANGE;
    }

    /** `handlePriceRangeChange`: the slider sets the range and writes both
        ends as decimal text, which reads back as the same numbers. */
    method HandlePriceRangeChange(low: nat, high: nat)
      modifies this
      ensures priceRange == (low, high)
      ensures minPrice == NatToString(low) && maxPrice == NatToString(high)
      ensures ParseNat(minPrice) == Some(low) && ParseNat(maxPrice) == Some(high)
    {
      priceRange := (low, high);
      minPrice := NatToString(low);
      maxPrice := NatToString(high);
      ParseNatToString(low);
      ParseNatToString(high);
    }

    /** Typing in the minimum price box. */
    method SetMinPrice(text: string)
      modifies this
      ensures minPrice == text && maxPrice == old(maxPrice) && priceRange == old(priceRange)
    {
      minPrice := text;
    }

    /** Typing in the maximum price box. */
    method SetMaxPrice(text: string)
      modifies this
      ensures maxPrice == text && minPrice == old(minPrice) && priceRange == old(priceRange)
    {
      maxPrice := text;
    }

    /** `handleSubmit`: copies the current parameters, sets or deletes the two
        prices and navigates to the listings with the result. */
    method HandleSubmit() returns (query: Entries, url: string)
      ensures query == SubmittedQuery(current, minPrice, maxPrice)
      ensures url == LISTINGS_PATH + "?" + Serialize(query)
    {
      var params := new SearchParams.Copy(current);
      if minPrice != "" {
        params.Set(MIN_PRICE, minPrice);
      } else {
        params.Delete(MIN_PRICE);
      }
      if maxPrice != "" {
        params.Set(MAX_PRICE, maxPrice);
      } else {
        params.Delete(MAX_PRICE);
      }
      query := params.entries;
      url := LISTINGS_PATH + "?" + params.ToString();
    }

    /** `handleReset`: both texts cleared, the full range back, and the
        listings without any query. */
    method HandleReset() returns (url: string)
      modifies this
      ensures minPrice == "" && maxPrice == "" && priceRange == FULL_RANGE
      ensures url == LISTINGS_PATH
    {
      minPrice, maxPrice := "", "";
      priceRange := FULL_RANGE;
      url := LISTINGS_PATH;
    }
  }
}
