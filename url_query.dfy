/**
 * The query component of a request URL, as a server reads it: the text
 * between the first `?` and the following `#`, split on `&` into items,
 * each split on its first `=` into a name and a value, both then
 * form-decoded (`%XX` escapes and `+` for space, the
 * application/x-www-form-urlencoded rules that Appendix B of RFC 6749
 * prescribes for OAuth 2.0 parameters).
 *
 * `Render` is the other direction with no escaping at all, which is what
 * Swift string interpolation produces; `Encode` is the escaping the
 * corrected router applies to each value.
 */
module UrlQuery {
  import opened Wrappers

  /** A query item: (name, value). */
  type QueryItem = (string, string)

  /** Characters that end an item or the whole query when written raw. */
  predicate Delimits(c: char) { c == '&' || c == '#' }

  /** Characters that form-decoding rewrites. */
  predicate Decodes(c: char) { c == '%' || c == '+' }

  /** Text that, written raw, stays inside its item. */
  predicate Delimited(s: string) {
    forall i :: 0 <= i < |s| ==> !Delimits(s[i])
  }

  /** Text that, written raw, reaches the server unchanged. */
  predicate Verbatim(s: string) {
    forall i :: 0 <= i < |s| ==> !Delimits(s[i]) && !Decodes(s[i])
  }

  /** Items whose raw rendering the parser splits back into the same items. */
  predicate ItemsDelimited(items: seq<QueryItem>) {
    forall i :: 0 <= i < |items| ==>
      Delimited(items[i].0) && '=' !in items[i].0 && Delimited(items[i].1)
  }

  /** Items every name and value of which reaches the server unchanged. */
  predicate ItemsVerbatim(items: seq<QueryItem>) {
    forall i :: 0 <= i < |items| ==>
      Verbatim(items[i].0) && '=' !in items[i].0 && Verbatim(items[i].1)
  }

  /** One item written `name=value`, nothing escaped. */
  function ItemText(item: QueryItem): string {
    item.0 + "=" + item.1
  }

  /** Items joined by `&`, nothing escaped. */
  function Render(items: seq<QueryItem>): string
    decreases |items|
  {
    if items == [] then ""
    else if |items| == 1 then ItemText(items[0])
    else ItemText(items[0]) + "&" + Render(items[1..])
  }

  /** String interpolation: literal pieces and interpolated values, concatenated in order. */
  function Interpolate(pieces: seq<string>): string
    decreases |pieces|
  {
    if pieces == [] then "" else pieces[0] + Interpolate(pieces[1..])
  }

  /** The pieces `&name=value` of some items. */
  function ItemPieces(items: seq<QueryItem>): (pieces: seq<string>)
    ensures |pieces| == |items|
    decreases |items|
  {
    if items == [] then [] else ["&" + ItemText(items[0])] + ItemPieces(items[1..])
  }

  /** The pieces of a query: `?name=value` for the first item, `&name=value` for the others. */
  function QueryPieces(items: seq<QueryItem>): (pieces: seq<string>)
    requires items != []
    ensures |pieces| == |items|
  {
    ["?" + ItemText(items[0])] + ItemPieces(items[1..])
  }

  /** The pieces of `s` between occurrences of `sep`. */
  function Split(s: string, sep: char): (parts: seq<string>)
    ensures |parts| >= 1
    ensures |parts| == 1 <==> sep !in s
    decreases |s|
  {
    if s == [] then [""]
    else
      var rest := Split(s[1..], sep);
      if s[0] == sep then [""] + rest
      else [[s[0]] + rest[0]] + rest[1..]
  }

  /** The text before the first `c`; all of `s` when there is none. */
  function Before(s: string, c: char): (r: string)
    ensures c !in r
    ensures |r| <= |s| && r == s[..|r|]
    ensures c !in s ==> r == s
    ensures c in s ==> |r| < |s| && s[|r|] == c
    decreases |s|
  {
    if s == [] then ""
    else if s[0] == c then ""
    else [s[0]] + Before(s[1..], c)
  }

  /** The text after the first `c`; empty when there is none. */
  function After(s: string, c: char): (r: string)
    ensures c !in s ==> r == ""
    decreases |s|
  {
    if s == [] then ""
    else if s[0] == c then s[1..]
    else After(s[1..], c)
  }

  /** The query component of a URL: after the first `?`, up to the first `#`. */
  function QueryOf(url: string): string {
    if '?' in url then Before(After(url, '?'), '#') else ""
  }

  predicate IsHexDigit(c: char) {
    '0' <= c <= '9' || 'A' <= c <= 'F' || 'a' <= c <= 'f'
  }

  function HexValue(c: char): (v: nat)
    requires IsHexDigit(c)
    ensures v < 16
  {
    if '0' <= c <= '9' then c as nat - '0' as nat
    else if 'A' <= c <= 'F' then c as nat - 'A' as nat + 10
    else c as nat - 'a' as nat + 10
  }

  /** Form-decoding: `%XX` becomes the character with code XX, `+` a space. */
  function Decode(s: string): string
    decreases |s|
  {
    if s == [] then ""
    else if s[0] == '%' && |s| >= 3 && IsHexDigit(s[1]) && IsHexDigit(s[2]) then
      [(16 * HexValue(s[1]) + HexValue(s[2])) as char] + Decode(s[3..])
    else if s[0] == '+' then [' '] + Decode(s[1..])
    else [s[0]] + Decode(s[1..])
  }

  /** The escape of one character: those that delimit, decode or split an item. */
  function EscapeChar(c: char): (r: string)
    ensures Delimited(r) && '=' !in r
  {
    if c == '%' then "%25"
    else if c == '&' then "%26"
    else if c == '#' then "%23"
    else if c == '+' then "%2B"
    else if c == '=' then "%3D"
    else if c == ' ' then "%20"
    else [c]
  }

  /** Percent-encoding of every character that would change the query's structure or meaning. */
  function Encode(s: string): (r: string)
    ensures Delimited(r) && '=' !in r
    decreases |s|
  {
    if s == [] then "" else EscapeChar(s[0]) + Encode(s[1..])
  }

  function ParseItem(segment: string): QueryItem {
    (Decode(Before(segment, '=')), Decode(After(segment, '=')))
  }

  function ParseItems(segments: seq<string>): (items: seq<QueryItem>)
    ensures |items| == |segments|
    decreases |segments|
  {
    if segments == [] then [] else [ParseItem(segments[0])] + ParseItems(segments[1..])
  }

  /** The items of a query string; an empty query has none. */
  function ParseQuery(query: string): seq<QueryItem> {
    if query == "" then [] else ParseItems(Split(query, '&'))
  }

  /** The items a server reads from a URL. */
  function UrlItems(url: string): seq<QueryItem> {
    ParseQuery(QueryOf(url))
  }

  function DecodeItems(items: seq<QueryItem>): (r: seq<QueryItem>)
    ensures |r| == |items|
    decreases |items|
  {
    if items == [] then [] else [(Decode(items[0].0), Decode(items[0].1))] + DecodeItems(items[1..])
  }

  function EncodeItems(items: seq<QueryItem>): (r: seq<QueryItem>)
    ensures |r| == |items|
    decreases |items|
  {
    if items == [] then [] else [(Encode(items[0].0), Encode(items[0].1))] + EncodeItems(items[1..])
  }

  /** The value of the first item named `name`. */
  function Lookup(items: seq<QueryItem>, name: string): (r: Option<string>)
    ensures r.Some? <==> exists i :: 0 <= i < |items| && items[i].0 == name
    decreases |items|
  {
    if items == [] then None
    else if items[0].0 == name then Some(items[0].1)
    else Lookup(items[1..], name)
  }

  // ---------------------------------------------------------------------------
  // Splitting and cutting concatenations

  lemma {:induction false} SplitJoin(a: string, b: string, sep: char)
    requires sep !in a
    ensures Split(a + [sep] + b, sep) == [a] + Split(b, sep)
    decreases |a|
  {
    if a == [] {
      assert a + [sep] + b == [sep] + b;
      assert ([sep] + b)[1..] == b;
    } else {
      SplitJoin(a[1..], b, sep);
      assert (a + [sep] + b)[1..] == a[1..] + [sep] + b;
      assert [a[0]] + a[1..] == a;
    }
  }

  lemma {:induction false} SplitWhole(a: string, sep: char)
    requires sep !in a
    ensures Split(a, sep) == [a]
    decreases |a|
  {
    if a != [] {
      SplitWhole(a[1..], sep);
      assert [a[0]] + a[1..] == a;
    }
  }

  lemma {:induction false} BeforeJoin(a: string, b: string, c: char)
    requires c !in a
    ensures Before(a + b, c) == a + Before(b, c)
    decreases |a|
  {
    if a != [] {
      BeforeJoin(a[1..], b, c);
      assert (a + b)[1..] == a[1..] + b;
      assert [a[0]] + a[1..] == a;
    } else {
      assert a + b == b;
    }
  }

  lemma {:induction false} AfterJoin(a: string, b: string, c: char)
    requires c !in a
    ensures After(a + [c] + b, c) == b
    decreases |a|
  {
    if a == [] {
      assert a + [c] + b == [c] + b;
      assert ([c] + b)[1..] == b;
    } else {
      AfterJoin(a[1..], b, c);
      assert (a + [c] + b)[1..] == a[1..] + [c] + b;
    }
  }

  /** The first `c` cuts `s` into the text before it and the text after it. */
  lemma {:induction false} BeforeAfter(s: string, c: char)
    requires c in s
    ensures s == Before(s, c) + [c] + After(s, c)
    decreases |s|
  {
    if s[0] != c {
      assert c in s[1..] by {
        var i :| 0 <= i < |s| && s[i] == c;
        assert s[1..][i - 1] == c;
      }
      BeforeAfter(s[1..], c);
      assert s == [s[0]] + s[1..];
    }
  }

  /** An item `name=value` parses to its decoded name and value when the name has no `=`. */
  lemma ParseItemJoin(name: string, value: string)
    requires '=' !in name
    ensures ParseItem(name + "=" + value) == (Decode(name), Decode(value))
  {
    var tail := ['='] + value;
    assert name + "=" + value == name + tail;
    BeforeJoin(name, tail, '=');
    assert tail[0] == '=';
    assert Before(tail, '=') == "";
    assert name + tail == name + ['='] + value;
    AfterJoin(name, value, '=');
  }

  // ---------------------------------------------------------------------------
  // Rendering and parsing

  lemma DelimitedJoin(a: string, b: string)
    requires Delimited(a) && Delimited(b)
    ensures Delimited(a + b)
  {
    forall i | 0 <= i < |a + b| ensures !Delimits((a + b)[i]) {
      if i < |a| { assert (a + b)[i] == a[i]; } else { assert (a + b)[i] == b[i - |a|]; }
    }
  }

  lemma DelimitedHasNo(s: string)
    requires Delimited(s)
    ensures '&' !in s && '#' !in s
  {
    forall i | 0 <= i < |s| ensures s[i] != '&' && s[i] != '#' {
      assert !Delimits(s[i]);
    }
  }

  /** One delimited item is written without `&` or `#` and parses back to its decoded self. */
  lemma ItemTextParses(item: QueryItem)
    requires Delimited(item.0) && '=' !in item.0 && Delimited(item.1)
    ensures '&' !in ItemText(item) && '#' !in ItemText(item) && |ItemText(item)| > 0
    ensures ParseItem(ItemText(item)) == (Decode(item.0), Decode(item.1))
  {
    assert Delimited("=");
    DelimitedJoin(item.0, "=");
    DelimitedJoin(item.0 + "=", item.1);
    DelimitedHasNo(ItemText(item));
    ParseItemJoin(item.0, item.1);
  }

  lemma {:induction false} RenderDelimited(items: seq<QueryItem>)
    requires ItemsDelimited(items)
    ensures '#' !in Render(items)
    ensures |items| == 1 ==> '&' !in Render(items)
    ensures items != [] ==> Render(items) != ""
    decreases |items|
  {
    if items != [] {
      ItemTextParses(items[0]);
      if |items| > 1 {
        ItemsDelimitedTail(items);
        RenderDelimited(items[1..]);
      }
    }
  }

  /** Raw rendering and parsing are inverse up to decoding, as long as nothing delimits. */
  lemma {:induction false} ParseRender(items: seq<QueryItem>)
    requires ItemsDelimited(items) && items != []
    ensures ParseItems(Split(Render(items), '&')) == DecodeItems(items)
    decreases |items|
  {
    var seg := ItemText(items[0]);
    ItemTextParses(items[0]);
    if |items| == 1 {
      SplitWhole(seg, '&');
    } else {
      assert Render(items) == seg + ['&'] + Render(items[1..]);
      SplitJoin(seg, Render(items[1..]), '&');
      var parts := Split(Render(items[1..]), '&');
      assert ([seg] + parts)[1..] == parts;
      ItemsDelimitedTail(items);
      ParseRender(items[1..]);
    }
  }

  /** The query of `endpoint?items&rest` starts with the decoded items, whatever `rest` holds. */
  lemma QueryPrefix(endpoint: string, items: seq<QueryItem>, rest: string)
    requires '?' !in endpoint && ItemsDelimited(items) && items != []
    ensures UrlItems(endpoint + "?" + Render(items) + "&" + rest)
         == DecodeItems(items) + ParseItems(Split(Before(rest, '#'), '&'))
  {
    var r := Render(items);
    RenderDelimited(items);
    var url := endpoint + "?" + r + "&" + rest;
    assert url == endpoint + ['?'] + (r + "&" + rest);
    AfterJoin(endpoint, r + "&" + rest, '?');
    assert '?' in url by { assert url[|endpoint|] == '?'; }
    assert '#' !in r + "&";
    BeforeJoin(r + "&", rest, '#');
    var q := r + "&" + Before(rest, '#');
    assert QueryOf(url) == q;
    RenderPrefix(items, Before(rest, '#'));
  }

  /** A first item followed by `&` parses to that item, then to whatever follows. */
  lemma ParseFirst(item: QueryItem, tail: string)
    requires Delimited(item.0) && '=' !in item.0 && Delimited(item.1)
    ensures ParseItems(Split(ItemText(item) + "&" + tail, '&'))
         == [(Decode(item.0), Decode(item.1))] + ParseItems(Split(tail, '&'))
  {
    var seg := ItemText(item);
    ItemTextParses(item);
    assert seg + "&" + tail == seg + ['&'] + tail;
    SplitJoin(seg, tail, '&');
    var parts := Split(tail, '&');
    assert ([seg] + parts)[1..] == parts;
  }

  lemma ItemsDelimitedTail(items: seq<QueryItem>)
    requires ItemsDelimited(items) && items != []
    ensures ItemsDelimited(items[1..])
  {
    forall i | 0 <= i < |items[1..]|
      ensures Delimited(items[1..][i].0) && '=' !in items[1..][i].0 && Delimited(items[1..][i].1)
    {
      assert items[1..][i] == items[i + 1];
    }
  }

  lemma RenderCons(items: seq<QueryItem>, rest: string)
    requires |items| > 1
    ensures Render(items) + "&" + rest == ItemText(items[0]) + "&" + (Render(items[1..]) + "&" + rest)
  {
    var first := ItemText(items[0]) + "&";
    var more := Render(items[1..]);
    assert Render(items) == first + more;
    calc {
      Render(items) + "&" + rest;
      (first + more) + "&" + rest;
      { ConcatAssoc(first + more, "&", rest); }
      (first + more) + ("&" + rest);
      { ConcatAssoc(first, more, "&" + rest); }
      first + (more + ("&" + rest));
      { ConcatAssoc(more, "&", rest); }
      first + (more + "&" + rest);
    }
  }

  lemma ConcatAssoc(a: string, b: string, c: string)
    ensures (a + b) + c == a + (b + c)
  {
  }

  lemma {:induction false} RenderPrefix(items: seq<QueryItem>, rest: string)
    requires ItemsDelimited(items) && items != []
    ensures ParseItems(Split(Render(items) + "&" + rest, '&'))
         == DecodeItems(items) + ParseItems(Split(rest, '&'))
    decreases |items|
  {
    if |items| == 1 {
      assert Render(items) == ItemText(items[0]);
      ParseFirst(items[0], rest);
      assert DecodeItems(items) == [(Decode(items[0].0), Decode(items[0].1))] by {
        assert DecodeItems(items[1..]) == [];
      }
    } else {
      ItemsDelimitedTail(items);
      RenderPrefix(items[1..], rest);
      RenderPrefixStep(items, rest);
    }
  }

  /** One step of `RenderPrefix`: from the items after the first to all of them. */
  lemma RenderPrefixStep(items: seq<QueryItem>, rest: string)
    requires ItemsDelimited(items) && |items| > 1
    requires ParseItems(Split(Render(items[1..]) + "&" + rest, '&'))
          == DecodeItems(items[1..]) + ParseItems(Split(rest, '&'))
    ensures ParseItems(Split(Render(items) + "&" + rest, '&'))
         == DecodeItems(items) + ParseItems(Split(rest, '&'))
  {
    var head := [(Decode(items[0].0), Decode(items[0].1))];
    var decoded := DecodeItems(items[1..]);
    var more := ParseItems(Split(rest, '&'));
    var tail := Render(items[1..]) + "&" + rest;
    assert Render(items) + "&" + rest == ItemText(items[0]) + "&" + tail by {
      RenderCons(items, rest);
    }
    assert ParseItems(Split(ItemText(items[0]) + "&" + tail, '&')) == head + (decoded + more) by {
      ParseFirst(items[0], tail);
    }
    assert DecodeItems(items) == head + decoded;
    assert head + (decoded + more) == (head + decoded) + more;
  }

  /** The query of `endpoint?items` is exactly the decoded items. */
  lemma UrlItemsOfRender(endpoint: string, items: seq<QueryItem>)
    requires '?' !in endpoint && ItemsDelimited(items)
    ensures UrlItems(endpoint + "?" + Render(items)) == DecodeItems(items)
  {
    var r := Render(items);
    RenderDelimited(items);
    var url := endpoint + "?" + r;
    assert url == endpoint + ['?'] + r;
    AfterJoin(endpoint, r, '?');
    assert url[|endpoint|] == '?';
    assert QueryOf(url) == r;
    if items != [] {
      ParseRender(items);
    }
  }

  // ---------------------------------------------------------------------------
  // Interpolation

  lemma {:induction false} InterpolateAppend(xs: seq<string>, ys: seq<string>)
    ensures Interpolate(xs + ys) == Interpolate(xs) + Interpolate(ys)
    decreases |xs|
  {
    if xs != [] {
      assert (xs + ys)[1..] == xs[1..] + ys;
      InterpolateAppend(xs[1..], ys);
    } else {
      assert xs + ys == ys;
    }
  }

  lemma {:induction false} InterpolateItemPieces(items: seq<QueryItem>)
    requires items != []
    ensures Interpolate(ItemPieces(items)) == "&" + Render(items)
    decreases |items|
  {
    var first := "&" + ItemText(items[0]);
    assert ItemPieces(items) == [first] + ItemPieces(items[1..]);
    assert ([first] + ItemPieces(items[1..]))[1..] == ItemPieces(items[1..]);
    if |items| == 1 {
      assert ItemPieces(items[1..]) == [];
    } else {
      InterpolateItemPieces(items[1..]);
      var r := Render(items[1..]);
      assert Render(items) == ItemText(items[0]) + "&" + r;
      assert first + ("&" + r) == "&" + (ItemText(items[0]) + "&" + r);
    }
  }

  /** Interpolating an endpoint and the query pieces of some items writes `endpoint?items`. */
  lemma InterpolateQuery(endpoint: string, items: seq<QueryItem>)
    requires items != []
    ensures Interpolate([endpoint] + QueryPieces(items)) == endpoint + "?" + Render(items)
  {
    var first := "?" + ItemText(items[0]);
    var more := ItemPieces(items[1..]);
    assert [endpoint] + QueryPieces(items) == [endpoint, first] + more;
    InterpolateAppend([endpoint, first], more);
    assert Interpolate([endpoint, first]) == endpoint + first;
    if |items| == 1 {
      assert more == [];
    } else {
      InterpolateItemPieces(items[1..]);
      var r := Render(items[1..]);
      assert Render(items) == ItemText(items[0]) + "&" + r;
      assert endpoint + first + ("&" + r) == endpoint + "?" + (ItemText(items[0]) + "&" + r);
    }
  }

  lemma {:induction false} ItemPiecesAppend(xs: seq<QueryItem>, ys: seq<QueryItem>)
    ensures ItemPieces(xs + ys) == ItemPieces(xs) + ItemPieces(ys)
    decreases |xs|
  {
    if xs != [] {
      assert (xs + ys)[1..] == xs[1..] + ys;
      ItemPiecesAppend(xs[1..], ys);
    } else {
      assert xs + ys == ys;
    }
  }

  /** Interpolating `endpoint` and the query pieces of `first + more` writes `endpoint?first&more`. */
  lemma InterpolateQuerySplit(endpoint: string, first: seq<QueryItem>, more: seq<QueryItem>)
    requires first != [] && more != []
    ensures Interpolate([endpoint] + QueryPieces(first + more))
         == endpoint + "?" + Render(first) + "&" + Render(more)
  {
    ItemPiecesAppend(first[1..], more);
    assert (first + more)[1..] == first[1..] + more;
    assert [endpoint] + QueryPieces(first + more) == ([endpoint] + QueryPieces(first)) + ItemPieces(more);
    InterpolateAppend([endpoint] + QueryPieces(first), ItemPieces(more));
    InterpolateQuery(endpoint, first);
    InterpolateItemPieces(more);
  }

  // ---------------------------------------------------------------------------
  // Decoding

  lemma {:induction false} DecodeVerbatim(s: string)
    requires Verbatim(s)
    ensures Decode(s) == s
    decreases |s|
  {
    if s != [] {
      assert !Decodes(s[0]);
      assert Verbatim(s[1..]) by {
        forall i | 0 <= i < |s[1..]| ensures !Delimits(s[1..][i]) && !Decodes(s[1..][i]) {
          assert s[1..][i] == s[i + 1];
        }
      }
      DecodeVerbatim(s[1..]);
      assert [s[0]] + s[1..] == s;
    }
  }

  lemma {:induction false} DecodeItemsVerbatim(items: seq<QueryItem>)
    requires ItemsVerbatim(items)
    ensures ItemsDelimited(items)
    ensures DecodeItems(items) == items
    decreases |items|
  {
    assert ItemsDelimited(items) by {
      forall i | 0 <= i < |items|
        ensures Delimited(items[i].0) && '=' !in items[i].0 && Delimited(items[i].1)
      {
        assert Verbatim(items[i].0) && Verbatim(items[i].1);
      }
    }
    if items != [] {
      DecodeVerbatim(items[0].0);
      DecodeVerbatim(items[0].1);
      assert ItemsVerbatim(items[1..]) by {
        forall i | 0 <= i < |items[1..]|
          ensures Verbatim(items[1..][i].0) && '=' !in items[1..][i].0 && Verbatim(items[1..][i].1)
        {
          assert items[1..][i] == items[i + 1];
        }
      }
      DecodeItemsVerbatim(items[1..]);
    }
  }

  /** Decoding one escaped character gives the character back and leaves the rest to itself. */
  lemma DecodeEscape(c: char, rest: string)
    ensures Decode(EscapeChar(c) + rest) == [c] + Decode(rest)
  {
    var e := EscapeChar(c);
    var s := e + rest;
    if |e| == 3 {
      assert s[0] == '%' && s[1] == e[1] && s[2] == e[2];
      assert s[3..] == rest;
    } else {
      assert e == [c];
      assert s[1..] == rest;
    }
  }

  /** Encoding is undone by decoding, for every string. */
  lemma {:induction false} DecodeEncode(s: string)
    ensures Decode(Encode(s)) == s
    decreases |s|
  {
    if s != [] {
      DecodeEncode(s[1..]);
      DecodeEscape(s[0], Encode(s[1..]));
      assert [s[0]] + s[1..] == s;
    }
  }

  lemma {:induction false} DecodeEncodeItems(items: seq<QueryItem>)
    ensures ItemsDelimited(EncodeItems(items))
    ensures DecodeItems(EncodeItems(items)) == items
    decreases |items|
  {
    if items != [] {
      DecodeEncode(items[0].0);
      DecodeEncode(items[0].1);
      DecodeEncodeItems(items[1..]);
      var e := EncodeItems(items);
      assert e[1..] == EncodeItems(items[1..]);
      forall i | 0 <= i < |e|
        ensures Delimited(e[i].0) && '=' !in e[i].0 && Delimited(e[i].1)
      {
        if i > 0 { assert e[i] == EncodeItems(items[1..])[i - 1]; }
      }
    }
  }

  /** Looking up a name found in a prefix ignores what follows. */
  lemma {:induction false} LookupPrefix(xs: seq<QueryItem>, ys: seq<QueryItem>, name: string)
    requires Lookup(xs, name).Some?
    ensures Lookup(xs + ys, name) == Lookup(xs, name)
    decreases |xs|
  {
    if xs[0].0 != name {
      assert (xs + ys)[1..] == xs[1..] + ys;
      LookupPrefix(xs[1..], ys, name);
    }
  }

  /** Looking up a name missing from a prefix looks in what follows. */
  lemma {:induction false} LookupSkip(xs: seq<QueryItem>, ys: seq<QueryItem>, name: string)
    requires Lookup(xs, name).None?
    ensures Lookup(xs + ys, name) == Lookup(ys, name)
    decreases |xs|
  {
    if xs == [] {
      assert xs + ys == ys;
    } else {
      assert (xs + ys)[1..] == xs[1..] + ys;
      LookupSkip(xs[1..], ys, name);
    }
  }

  /** Items are verbatim when both parts of their concatenation are. */
  lemma ItemsVerbatimJoin(xs: seq<QueryItem>, ys: seq<QueryItem>)
    requires ItemsVerbatim(xs) && ItemsVerbatim(ys)
    ensures ItemsVerbatim(xs + ys)
  {
    forall i | 0 <= i < |xs + ys|
      ensures Verbatim((xs + ys)[i].0) && '=' !in (xs + ys)[i].0 && Verbatim((xs + ys)[i].1)
    {
      if i >= |xs| { assert (xs + ys)[i] == ys[i - |xs|]; }
    }
  }
}
