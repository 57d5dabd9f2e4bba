/** The host's "new listing" page: a form of text fields, the comma-list
    parsing of amenities and images, and a submit that requires a user. */
module NewListingPage {

  import opened Common
  import opened Text

  // -----------------------------------------------------------------------
  // The comma-list pipeline: split(",").map(trim).filter(item => item !== "")
  // -----------------------------------------------------------------------

  function TrimAll(pieces: seq<string>): (r: seq<string>)
    ensures |r| == |pieces| && forall k :: 0 <= k < |r| ==> r[k] == Trim(pieces[k])
  {
    seq(|pieces|, k requires 0 <= k < |pieces| => Trim(pieces[k]))
  }

  function DropEmpty(items: seq<string>): (r: seq<string>)
    ensures |r| <= |items|
    ensures forall k :: 0 <= k < |r| ==> r[k] != "" && r[k] in items
  {
    if |items| == 0 then []
    else (if items[0] == "" then [] else [items[0]]) + DropEmpty(items[1..])
  }

  /** Dropping empty items is a filter: it distributes over concatenation. */
  lemma {:induction false} DropEmptyAppend(a: seq<string>, b: seq<string>)
    ensures DropEmpty(a + b) == DropEmpty(a) + DropEmpty(b)
  {
    if |a| > 0 {
      assert (a + b)[1..] == a[1..] + b;
      DropEmptyAppend(a[1..], b);
    } else {
      assert a + b == b;
    }
  }

  /** A single item is kept exactly when it is not empty. */
  lemma DropEmptySingle(x: string)
    ensures DropEmpty([x]) == if x == "" then [] else [x]
  {
    assert [x][1..] == [];
  }

  /** The amenities or images typed as one comma-separated line, as a list:
      each item is the trimmed text of one comma-separated piece, and no item
      is empty. */
  function ParseList(s: string): (r: seq<string>)
    ensures |r| <= |Split(s, ',')|
    ensures forall k :: 0 <= k < |r| ==>
              r[k] != "" && exists j :: 0 <= j < |Split(s, ',')| && r[k] == Trim(Split(s, ',')[j])
  {
    DropEmpty(TrimAll(Split(s, ',')))
  }

  /** No item is empty, none has whitespace at either end, none holds a comma,
      and there is at most one item more than there are commas. */
  lemma {:induction false} ParseListClean(s: string)
    ensures forall k :: 0 <= k < |ParseList(s)| ==>
              ParseList(s)[k] != "" && Trimmed(ParseList(s)[k]) && ',' !in ParseList(s)[k]
    ensures |ParseList(s)| <= Count(',', s) + 1
  {
    var pieces := Split(s, ',');
    SplitPieces(s, ',');
    var items := ParseList(s);
    forall k | 0 <= k < |items|
      ensures items[k] != "" && Trimmed(items[k]) && ',' !in items[k]
    {
      var j :| 0 <= j < |pieces| && items[k] == Trim(pieces[j]);
      TrimSpec(pieces[j]);
      var a, b :| 0 <= a <= b <= |pieces[j]| && Trim(pieces[j]) == pieces[j][a..b];
      assert ',' !in pieces[j];
    }
  }

  lemma {:induction false} DropEmptyKeeps(items: seq<string>)
    requires forall k :: 0 <= k < |items| ==> items[k] != ""
    ensures DropEmpty(items) == items
  {
    if |items| > 0 {
      DropEmptyKeeps(items[1..]);
    }
  }

  lemma {:induction false} DropEmptyNone(items: seq<string>)
    ensures DropEmpty(items) == [] <==> forall k :: 0 <= k < |items| ==> items[k] == ""
  {
    if |items| > 0 {
      DropEmptyNone(items[1..]);
      assert forall k :: 1 <= k < |items| ==> items[k] == items[1..][k - 1];
    }
  }

  /** The list keeps the typed order: joining clean items with commas and
      parsing the line gives the same items back. */
  lemma {:induction false} ParseListJoin(items: seq<string>)
    requires forall k :: 0 <= k < |items| ==> items[k] != "" && Trimmed(items[k]) && ',' !in items[k]
    ensures ParseList(Join(items, ',')) == items
  {
    if |items| == 0 {
      assert Split("", ',') == [""];
      assert TrimAll([""]) == [""];
    } else {
      SplitJoin(items, ',');
      forall k | 0 <= k < |items| ensures Trim(items[k]) == items[k] {
        TrimOfTrimmed(items[k]);
      }
      assert TrimAll(items) == items;
      DropEmptyKeeps(items);
    }
  }

  /** The list keeps the typed order for any line: the line is the comma-join
      of its pieces, and the items are those pieces trimmed, in order, with
      the blank ones dropped. */
  lemma {:induction false} ParseListPieces(pieces: seq<string>)
    requires forall k :: 0 <= k < |pieces| ==> ',' !in pieces[k]
    ensures ParseList(Join(pieces, ',')) == DropEmpty(TrimAll(pieces))
  {
    if |pieces| == 0 {
      assert Split("", ',') == [""];
      assert TrimAll([""]) == [""];
      DropEmptySingle("");
    } else {
      SplitJoin(pieces, ',');
    }
  }

  /** Items typed with spaces around them ("wifi, pool") come out trimmed,
      in the order typed, followed by the items of the rest of the line. */
  lemma {:induction false} ParseListCons(piece: string, rest: seq<string>)
    requires ',' !in piece && forall k :: 0 <= k < |rest| ==> ',' !in rest[k]
    ensures ParseList(Join([piece] + rest, ',')) ==
              (if Trim(piece) == "" then [] else [Trim(piece)]) + ParseList(Join(rest, ','))
  {
    var all := [piece] + rest;
    assert forall k :: 1 <= k < |all| ==> all[k] == rest[k - 1];
    ParseListPieces(all);
    ParseListPieces(rest);
    assert TrimAll(all) == [Trim(piece)] + TrimAll(rest);
    DropEmptyAppend([Trim(piece)], TrimAll(rest));
    DropEmptySingle(Trim(piece));
  }

  predicate AllBlank(pieces: seq<string>) {
    forall k :: 0 <= k < |pieces| ==> Trim(pieces[k]) == ""
  }

  predicate CommasAndSpaces(s: string) {
    forall i :: 0 <= i < |s| ==> s[i] == ',' || IsJsSpace(s[i])
  }

  lemma AllBlankCons(x: string, rest: seq<string>)
    ensures AllBlank([x] + rest) <==> Trim(x) == "" && AllBlank(rest)
  {
    var all := [x] + rest;
    assert all[0] == x;
    assert forall k :: 0 <= k < |rest| ==> all[k + 1] == rest[k];
    assert forall k :: 1 <= k < |all| ==> all[k] == rest[k - 1];
  }

  lemma CommasAndSpacesCons(c: char, s: string)
    ensures CommasAndSpaces([c] + s) <==> (c == ',' || IsJsSpace(c)) && CommasAndSpaces(s)
  {
    var all := [c] + s;
    assert all[0] == c;
    assert forall i :: 0 <= i < |s| ==> all[i + 1] == s[i];
    assert forall i :: 1 <= i < |all| ==> all[i] == s[i - 1];
  }

  lemma TrimBlankCons(c: char, t: string)
    ensures Trim([c] + t) == "" <==> IsJsSpace(c) && Trim(t) == ""
  {
    TrimEmpty([c] + t);
    TrimEmpty(t);
    assert forall i :: 1 <= i < |t| + 1 ==> ([c] + t)[i] == t[i - 1];
  }

  lemma SplitCons(c: char, t: string, sep: char)
    ensures var rest := Split(t, sep);
      Split([c] + t, sep) == if c == sep then [""] + rest else [[c] + rest[0]] + rest[1..]
  {
    var all := [c] + t;
    assert all[0] == c && all[1..] == t;
  }

  /** A leading comma adds a blank first piece. */
  lemma BlankPiecesComma(t: string)
    ensures AllBlank(Split([','] + t, ',')) <==> AllBlank(Split(t, ','))
  {
    SplitCons(',', t, ',');
    AllBlankCons("", Split(t, ','));
  }

  /** Any other leading character joins the first piece, which then is blank
      only if that character is whitespace. */
  lemma BlankPiecesOther(c: char, t: string)
    requires c != ','
    ensures AllBlank(Split([c] + t, ',')) <==> IsJsSpace(c) && AllBlank(Split(t, ','))
  {
    var rest := Split(t, ',');
    SplitCons(c, t, ',');
    AllBlankCons([c] + rest[0], rest[1..]);
    TrimBlankCons(c, rest[0]);
    assert rest == [rest[0]] + rest[1..];
    AllBlankCons(rest[0], rest[1..]);
  }

  /** Every piece is blank exactly when the line holds only commas and whitespace. */
  lemma {:induction false} BlankPieces(s: string)
    ensures AllBlank(Split(s, ',')) <==> CommasAndSpaces(s)
  {
    if |s| == 0 {
      assert Split(s, ',') == [""];
      TrimEmpty("");
    } else {
      var c, t := s[0], s[1..];
      assert s == [c] + t;
      BlankPieces(t);
      CommasAndSpacesCons(c, t);
      if c == ',' {
        BlankPiecesComma(t);
      } else {
        BlankPiecesOther(c, t);
      }
    }
  }

  /** A line of nothing but commas and whitespace (the empty line included)
      parses to no items, and only such a line does. */
  lemma {:induction false} ParseListEmpty(s: string)
    ensures ParseList(s) == [] <==> CommasAndSpaces(s)
  {
    DropEmptyNone(TrimAll(Split(s, ',')));
    BlankPieces(s);
  }

  // -----------------------------------------------------------------------
  // The page
  // -----------------------------------------------------------------------

  datatype ListingForm = ListingForm(
    title: string, description: string, location: string, price: string, images: string, amenities: string)

  /** The `name` attributes of the form's inputs. */
  datatype ListingFormField = Title | Description | Location | Price | Images | Amenities

  function FieldOf(f: ListingForm, name: ListingFormField): string {
    match name
    case Title => f.title
    case Description => f.description
    case Location => f.location
    case Price => f.price
    case Images => f.images
    case Amenities => f.amenities
  }

  /** `{ ...prev, [name]: value }` */
  function WithField(f: ListingForm, name: ListingFormField, value: string): (r: ListingForm)
    ensures forall other :: FieldOf(r, other) == if other == name then value else FieldOf(f, other)
  {
    match name
    case Title => f.(title := value)
    case Description => f.(description := value)
    case Location => f.(location := value)
    case Price => f.(price := value)
    case Images => f.(images := value)
    case Amenities => f.(amenities := value)
  }

  /** The body given to `createListing`. The price stays text here. */
  datatype CreateListingRequest = CreateListingRequest(
    title: string, description: string, location: string, price: string,
    amenities: seq<string>, images: seq<string>)

  const LOGIN_REQUIRED: string := "Please login to create listings"
  const HOST_LISTINGS_PATH: string := "/host/listings"

  class NewListing {
    var form: ListingForm
    var isLoading: bool

    constructor ()
      ensures form == ListingForm("", "", "", "", "", "") && !isLoading
    {
      form := ListingForm("", "", "", "", "", "");
      isLoading := false;
    }

    /** `handleChange`: only the named field changes. */
    method HandleChange(name: ListingFormField, value: string)
      modifies this
      ensures form == WithField(old(form), name, value) && isLoading == old(isLoading)
    {
      form := WithField(form, name, value);
    }

    /** `handleSubmit`: without a user the error is raised before anything is
        sent; otherwise both lists go through the same parsing. `createError`
        is the message `createListing` fails with, if it does. Loading ends in
        every case and the form is left as it was. */
    method HandleSubmit(signedIn: bool, createError: Option<string>)
      returns (request: Option<CreateListingRequest>, error: Option<string>, redirect: Option<string>)
      modifies this
      ensures !isLoading && form == old(form)
      ensures !signedIn ==> request == None && error == Some(LOGIN_REQUIRED) && redirect == None
      ensures signedIn ==>
                request == Some(CreateListingRequest(form.title, form.description, form.location, form.price,
                                                     ParseList(form.amenities), ParseList(form.images)))
      ensures signedIn ==> error == createError && (redirect.Some? <==> createError.None?)
      ensures redirect.Some? ==> redirect.value == HOST_LISTINGS_PATH
    {
      isLoading := true;
      request, error, redirect := None, None, None;
      if !signedIn {
        error := Some(LOGIN_REQUIRED);
      } else {
        var amenities := ParseList(form.amenities);
        var images := ParseList(form.images);
        request := Some(CreateListingRequest(form.title, form.description, form.location, form.price, amenities, images));
        if createError.None? {
          redirect := Some(HOST_LISTINGS_PATH);
        } else {
          error := createError;
        }
      }
      isLoading := false;
    }
  }
}
