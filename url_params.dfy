/** The part of `URLSearchParams` the search components use: an ordered list
    of name/value entries with `get`, `set`, `delete`, `append` and
    `toString`. */
module UrlParams {

  import opened Common
  import opened Text

  type Entries = seq<(string, string)>

  /** `get(name)`: the value of the first entry with that name, or nothing
      when no entry has it. */
  function Get(e: Entries, name: string): (r: Option<string>)
    ensures r.None? <==> forall i :: 0 <= i < |e| ==> e[i].0 != name
    ensures r.Some? ==> exists i :: 0 <= i < |e| && e[i] == (name, r.value) && forall j :: 0 <= j < i ==> e[j].0 != name
  {
    if |e| == 0 then None
    else if e[0].0 == name then Some(e[0].1)
    else Get(e[1..], name)
  }

  /** The entries with that name, in order. */
  function Only(e: Entries, name: string): (r: Entries)
    ensures forall i :: 0 <= i < |r| ==> r[i].0 == name
  {
    if |e| == 0 then []
    else (if e[0].0 == name then [e[0]] else []) + Only(e[1..], name)
  }

  /** `delete(name)`: every entry with that name goes, the rest keep their order. */
  function DeleteParam(e: Entries, name: string): (r: Entries)
    ensures |r| <= |e|
    ensures forall i :: 0 <= i < |r| ==> r[i].0 != name && r[i] in e
  {
    if |e| == 0 then []
    else (if e[0].0 == name then [] else [e[0]]) + DeleteParam(e[1..], name)
  }

  /** `set(name, value)`: the first entry with that name takes the value and
      the later ones go; without one, the entry is appended. */
  function SetParam(e: Entries, name: string, value: string): (r: Entries)
    ensures (name, value) in r
    ensures forall i :: 0 <= i < |r| ==> r[i] == (name, value) || (r[i].0 != name && r[i] in e)
  {
    if |e| == 0 then [(name, value)]
    else if e[0].0 == name then [(name, value)] + DeleteParam(e[1..], name)
    else [e[0]] + SetParam(e[1..], name, value)
  }

  /** `get` reads the first of the entries with that name. */
  lemma {:induction false} GetIsFirst(e: Entries, name: string)
    ensures Get(e, name) == if Only(e, name) == [] then None else Some(Only(e, name)[0].1)
  {
    if |e| > 0 {
      GetIsFirst(e[1..], name);
    }
  }

  /** After `delete`, no entry has the name, and each other name keeps exactly its entries. */
  lemma {:induction false} DeleteParamSpec(e: Entries, name: string, other: string)
    requires other != name
    ensures Only(DeleteParam(e, name), name) == []
    ensures Only(DeleteParam(e, name), other) == Only(e, other)
  {
    if |e| > 0 {
      DeleteParamSpec(e[1..], name, other);
      OnlyAppend((if e[0].0 == name then [] else [e[0]]), DeleteParam(e[1..], name), name);
      OnlyAppend((if e[0].0 == name then [] else [e[0]]), DeleteParam(e[1..], name), other);
    }
  }

  lemma {:induction false} OnlyAppend(a: Entries, b: Entries, name: string)
    ensures Only(a + b, name) == Only(a, name) + Only(b, name)
  {
    if |a| > 0 {
      OnlyAppend(a[1..], b, name);
      assert (a + b)[1..] == a[1..] + b;
    } else {
      assert a + b == b;
    }
  }

  /** After `set`, the name has exactly one entry, holding the value, and
      each other name keeps exactly its entries. */
  lemma {:induction false} SetParamSpec(e: Entries, name: string, value: string, other: string)
    requires other != name
    ensures Only(SetParam(e, name, value), name) == [(name, value)]
    ensures Only(SetParam(e, name, value), other) == Only(e, other)
  {
    if |e| == 0 {
      assert Only([(name, value)], name) == [(name, value)] + Only([], name);
    } else if e[0].0 == name {
      DeleteParamSpec(e[1..], name, other);
      OnlyAppend([(name, value)], DeleteParam(e[1..], name), name);
      OnlyAppend([(name, value)], DeleteParam(e[1..], name), other);
      assert Only([(name, value)], name) == [(name, value)] + Only([], name);
      assert Only([(name, value)], other) == Only([], other);
    } else {
      SetParamSpec(e[1..], name, value, other);
      OnlyAppend([e[0]], SetParam(e[1..], name, value), name);
      OnlyAppend([e[0]], SetParam(e[1..], name, value), other);
      assert Only([e[0]], name) == Only([], name);
    }
  }

  /** `set` keeps the order of the entries with other names. */
  lemma {:induction false} SetKeepsOthers(e: Entries, name: string, value: string)
    ensures DeleteParam(SetParam(e, name, value), name) == DeleteParam(e, name)
  {
    if |e| == 0 {
      assert DeleteParam([(name, value)], name) == [] + DeleteParam([], name);
    } else if e[0].0 == name {
      DeleteTwice(e[1..], name);
    } else {
      SetKeepsOthers(e[1..], name, value);
    }
  }

  lemma {:induction false} DeleteTwice(e: Entries, name: string)
    ensures DeleteParam(DeleteParam(e, name), name) == DeleteParam(e, name)
  {
    if |e| > 0 {
      DeleteTwice(e[1..], name);
      var d := DeleteParam(e[1..], name);
      if e[0].0 != name {
        assert DeleteParam(e, name) == [e[0]] + d;
        assert ([e[0]] + d)[1..] == d;
      } else {
        assert DeleteParam(e, name) == [] + d == d;
      }
    }
  }

  // -----------------------------------------------------------------------
  // toString and the parse it feeds
  // -----------------------------------------------------------------------

  function Pair(entry: (string, string)): string {
    entry.0 + "=" + entry.1
  }

  function Pairs(e: Entries): (r: seq<string>)
    ensures |r| == |e| && forall i :: 0 <= i < |e| ==> r[i] == Pair(e[i])
  {
    seq(|e|, i requires 0 <= i < |e| => Pair(e[i]))
  }

  /** `toString()`: `name=value` entries joined by '&'. What it writes for
      plain entries parses back to the same entries. */
  function Serialize(e: Entries): (text: string)
    ensures Plain(e) ==> Parse(text) == e
  {
    ParseJoinedPairs(e);
    Join(Pairs(e), '&')
  }

  /** One `name=value` piece: the name runs to the first '=', the value is
      the rest; a piece without '=' is a name with an empty value. */
  function ParsePair(piece: string): (r: (string, string))
    ensures '=' !in r.0
    ensures '&' !in piece ==> '&' !in r.0 && '&' !in r.1
  {
    var name := Split(piece, '=')[0];
    SplitFirstPiece(piece, '=');
    if |name| == |piece| then (piece, "") else (name, piece[|name| + 1..])
  }

  function ParsePieces(pieces: seq<string>): (r: Entries)
    ensures (forall k :: 0 <= k < |pieces| ==> '&' !in pieces[k]) ==> Plain(r)
  {
    if |pieces| == 0 then []
    else (if pieces[0] == "" then [] else [ParsePair(pieces[0])]) + ParsePieces(pieces[1..])
  }

  /** `new URLSearchParams(text)`: the '&'-separated pieces, skipping empty
      ones. Whatever the text, the entries it gives are plain. */
  function Parse(text: string): (r: Entries)
    ensures Plain(r)
  {
    SplitPieces(text, '&');
    ParsePieces(Split(text, '&'))
  }

  /** Entries that `toString` and `new URLSearchParams` carry over unchanged:
      no '&' anywhere and no '=' in a name. */
  predicate Plain(e: Entries) {
    forall i :: 0 <= i < |e| ==> '&' !in e[i].0 && '&' !in e[i].1 && '=' !in e[i].0
  }

  lemma {:induction false} ParsePairOf(name: string, value: string)
    requires '=' !in name
    ensures ParsePair(Pair((name, value))) == (name, value)
  {
    var piece := Pair((name, value));
    SplitPrefix(name, "=" + value, '=');
    assert piece == name + ("=" + value);
    assert Split("=" + value, '=')[0] == "";
    assert name + "" == name;
    assert piece[|name| + 1..] == value;
  }

  lemma {:induction false} ParsePiecesOf(e: Entries)
    requires forall i :: 0 <= i < |e| ==> '=' !in e[i].0
    ensures ParsePieces(Pairs(e)) == e
  {
    if |e| > 0 {
      ParsePairOf(e[0].0, e[0].1);
      assert Pairs(e)[0] != "";
      assert Pairs(e)[1..] == Pairs(e[1..]);
      ParsePiecesOf(e[1..]);
    }
  }

  /** Copying plain parameters through `toString` gives the same entries back. */
  lemma {:induction false} ParseJoinedPairs(e: Entries)
    ensures Plain(e) ==> Parse(Join(Pairs(e), '&')) == e
  {
    if !Plain(e) {
    } else if |e| == 0 {
      assert Split("", '&') == [""];
    } else {
      forall k | 0 <= k < |Pairs(e)| ensures '&' !in Pairs(e)[k] {
        assert Pairs(e)[k] == e[k].0 + "=" + e[k].1;
      }
      SplitJoin(Pairs(e), '&');
      ParsePiecesOf(e);
    }
  }

  // -----------------------------------------------------------------------
  // The object the components mutate
  // -----------------------------------------------------------------------

  class SearchParams {
    var entries: Entries

    /** `new URLSearchParams()` */
    constructor Empty()
      ensures entries == []
    {
      entries := [];
    }

    /** `new URLSearchParams(other.toString())`: `toString` percent-encodes
        what `new URLSearchParams` decodes, so the copy holds the same entries
        (for plain entries, `Serialize` shows this of the unencoded form). */
    constructor Copy(e: Entries)
      ensures entries == e
    {
      entries := e;
    }

    method Set(name: string, value: string)
      modifies this
      ensures entries == SetParam(old(entries), name, value)
    {
      entries := SetParam(entries, name, value);
    }

    method Delete(name: string)
      modifies this
      ensures entries == DeleteParam(old(entries), name)
    {
      entries := DeleteParam(entries, name);
    }

    /** `append(name, value)`: a new entry at the end, whatever is already there. */
    method Append(name: string, value: string)
      modifies this
      ensures entries == old(entries) + [(name, value)]
    {
      entries := entries + [(name, value)];
    }

    /** `toString()`: for plain entries, `new URLSearchParams` of the text
        holds the same entries. */
    function ToString(): (text: string)
      reads this
      ensures Plain(entries) ==> Parse(text) == entries
    {
      Serialize(entries)
    }
  }
}
