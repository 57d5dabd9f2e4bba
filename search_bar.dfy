/** The search bar of the `stayfinder` front end: three texts, and a submit
    that builds a fresh query from the non-empty ones. */
module SearchBar {

  import opened Common
  import opened UrlParams

  const LISTINGS_PATH: string := "/listings"
  const LOCATION: string := "location"
  const MIN_PRICE: string := "minPrice"
  const MAX_PRICE: string := "maxPrice"

  /** The optional `initialValues` prop. */
  datatype InitialValues = InitialValues(location: Option<string>, minPrice: Option<string>, maxPrice: Option<string>)

  /** `if (value) params.append(name, value)` */
  function AppendIfSet(e: Entries, name: string, value: string): Entries {
    if value != "" then e + [(name, value)] else e
  }

  /** The query `handleSubmit` builds. */
  function BuiltQuery(location: string, minPrice: string, maxPrice: string): Entries {
    AppendIfSet(AppendIfSet(AppendIfSet([], LOCATION, location), MIN_PRICE, minPrice), MAX_PRICE, maxPrice)
  }

  /** The position of a name in the fixed order location, minPrice, maxPrice. */
  function Rank(name: string): nat {
    if name == LOCATION then 0 else if name == MIN_PRICE then 1 else 2
  }

  /** The query holds exactly the non-empty texts, each once under its own
      name, in the order location, minPrice, maxPrice, and nothing else. */
  lemma {:induction false} BuiltQuerySpec(location: string, minPrice: string, maxPrice: string)
    ensures var q := BuiltQuery(location, minPrice, maxPrice);
      && (forall i :: 0 <= i < |q| ==> q[i].0 in {LOCATION, MIN_PRICE, MAX_PRICE} && q[i].1 != "")
      && (forall i, j :: 0 <= i < j < |q| ==> Rank(q[i].0) < Rank(q[j].0))
      && Get(q, LOCATION) == (if location == "" then None else Some(location))
      && Get(q, MIN_PRICE) == (if minPrice == "" then None else Some(minPrice))
      && Get(q, MAX_PRICE) == (if maxPrice == "" then None else Some(maxPrice))
      && |q| == (if location == "" then 0 else 1) + (if minPrice == "" then 0 else 1) + (if maxPrice == "" then 0 else 1)
  {
    BuiltQueryShape(location, minPrice, maxPrice);
    BuiltQueryGets(location, minPrice, maxPrice);
  }

  lemma BuiltQueryShape(location: string, minPrice: string, maxPrice: string)
    ensures var q := BuiltQuery(location, minPrice, maxPrice);
      && (forall i :: 0 <= i < |q| ==> q[i].0 in {LOCATION, MIN_PRICE, MAX_PRICE} && q[i].1 != "")
      && (forall i, j :: 0 <= i < j < |q| ==> Rank(q[i].0) < Rank(q[j].0))
      && |q| == (if location == "" then 0 else 1) + (if minPrice == "" then 0 else 1) + (if maxPrice == "" then 0 else 1)
  {
  }

  lemma BuiltQueryGets(location: string, minPrice: string, maxPrice: string)
    ensures var q := BuiltQuery(location, minPrice, maxPrice);
      && Get(q, LOCATION) == (if location == "" then None else Some(location))
      && Get(q, MIN_PRICE) == (if minPrice == "" then None else Some(minPrice))
      && Get(q, MAX_PRICE) == (if maxPrice == "" then None else Some(maxPrice))
  {
    var q1 := AppendIfSet([], LOCATION, location);
    var q2 := AppendIfSet(q1, MIN_PRICE, minPrice);
    GetAppended([], LOCATION, location, LOCATION);
    GetAppended([], LOCATION, location, MIN_PRICE);
    GetAppended([], LOCATION, location, MAX_PRICE);
    GetAppended(q1, MIN_PRICE, minPrice, LOCATION);
    GetAppended(q1, MIN_PRICE, minPrice, MIN_PRICE);
    GetAppended(q1, MIN_PRICE, minPrice, MAX_PRICE);
    GetAppended(q2, MAX_PRICE, maxPrice, LOCATION);
    GetAppended(q2, MAX_PRICE, maxPrice, MIN_PRICE);
    GetAppended(q2, MAX_PRICE, maxPrice, MAX_PRICE);
  }

  /** Appending an entry does not change what `get` finds for a name already
      present, and makes `get` find it for a name that was absent. */
  lemma {:induction false} GetAppended(e: Entries, name: string, value: string, asked: string)
    ensures Get(AppendIfSet(e, name, value), asked) ==
              if Get(e, asked).Some? || value == "" || asked != name then Get(e, asked) else Some(value)
  {
    if value != "" {
      GetAppend(e, (name, value), asked);
    }
  }

  lemma {:induction false} GetAppend(e: Entries, entry: (string, string), asked: string)
    ensures Get(e + [entry], asked) ==
              if Get(e, asked).Some? || entry.0 != asked then Get(e, asked) else Some(entry.1)
  {
    if |e| > 0 {
      assert (e + [entry])[1..] == e[1..] + [entry];
      GetAppend(e[1..], entry, asked);
    } else {
      assert e + [entry] == [entry];
    }
  }

  /** With every text empty the browser goes to "/listings?". */
  lemma EmptySearch()
    ensures BuiltQuery("", "", "") == []
    ensures LISTINGS_PATH + "?" + Serialize(BuiltQuery("", "", "")) == "/listings?"
  {
    assert Serialize([]) == "";
  }

  class Bar {
    var location: string
    var minPrice: string
    var maxPrice: string

    /** `initialValues.x || ""` for each text. */
    constructor (initial: InitialValues)
      ensures location == initial.location.GetOr("")
      ensures minPrice == initial.minPrice.GetOr("") && maxPrice == initial.maxPrice.GetOr("")
    {
      location := initial.location.GetOr("");
      minPrice := initial.minPrice.GetOr("");
      maxPrice := initial.maxPrice.GetOr("");
    }

    /** `handleSubmit`: fresh, empty parameters, one `append` per non-empty
        text, then navigation to the listings with the result. */
    method HandleSubmit() returns (query: Entries, url: string)
      ensures query == BuiltQuery(location, minPrice, maxPrice)
      ensures url == LISTINGS_PATH + "?" + Serialize(query)
    {
      var params := new SearchParams.Empty();
      if location != "" {
        params.Append(LOCATION, location);
      }
      if minPrice != "" {
        params.Append(MIN_PRICE, minPrice);
      }
      if maxPrice != "" {
        params.Append(MAX_PRICE, maxPrice);
      }
      query := params.entries;
      url := LISTINGS_PATH + "?" + params.ToString();
    }
  }
}
