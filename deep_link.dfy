/** `src/components/DeepLinkHandler.tsx`: the `appUrlOpen` listener that turns a
 *  `harmoniq://success?...` link (the return from Stripe checkout) into an in-app route.
 *  Whether the app runs natively is a parameter; `URLSearchParams`' percent-decoding and
 *  `encodeURIComponent` are the parameters `decode` and `encode`; the router push after
 *  100 ms is the returned `Navigate` outcome. */
module DeepLink {
  import opened Wrappers
  import opened Strings

  const Scheme: string := "harmoniq://"
  const DefaultLocale: string := "zh-TW"
  /** Keys the route carries in its fixed part and leaves out of the extras. */
  const Reserved: seq<string> := ["session_id", "type", "concern", "locale"]

  datatype Param = Param(key: string, value: string)

  datatype Outcome = Ignored | MissingSession | Navigate(route: string)

  // ---------------------------------------------------------------------------
  // URLSearchParams

  /** One `&`-separated segment: split at its first `=`; without one the value is empty. */
  function ParseSegment(seg: string, decode: string -> string): Param
  {
    var i := IndexOfChar(seg, '=');
    if i < 0 then Param(decode(seg), "") else Param(decode(seg[..i]), decode(seg[i + 1..]))
  }

  /** The pairs of the segments in order; empty segments give none. */
  function ParseSegments(segs: seq<string>, decode: string -> string): (r: seq<Param>)
    ensures |r| <= |segs|
  {
    if |segs| == 0 then []
    else if segs[0] == "" then ParseSegments(segs[1..], decode)
    else [ParseSegment(segs[0], decode)] + ParseSegments(segs[1..], decode)
  }

  /** `new URLSearchParams(q)`, as its list of pairs. */
  function ParseQuery(q: string, decode: string -> string): seq<Param>
  {
    ParseSegments(Split(q, '&'), decode)
  }

  /** `params.get(key)`: the value of the first pair with that key. */
  function Get(ps: seq<Param>, key: string): Option<string>
  {
    if |ps| == 0 then None
    else if ps[0].key == key then Some(ps[0].value)
    else Get(ps[1..], key)
  }

  /** `get` finds a value exactly when some pair has the key, and then it is the value of
   *  the first such pair. */
  lemma {:induction false} GetFirst(ps: seq<Param>, key: string) returns (i: int)
    ensures Get(ps, key).None? <==> forall j :: 0 <= j < |ps| ==> ps[j].key != key
    ensures Get(ps, key).Some? ==>
      0 <= i < |ps| && ps[i].key == key && ps[i].value == Get(ps, key).value &&
      forall j :: 0 <= j < i ==> ps[j].key != key
    decreases |ps|
  {
    if |ps| == 0 {
      i := -1;
    } else if ps[0].key == key {
      i := 0;
    } else {
      var k := GetFirst(ps[1..], key);
      i := k + 1;
      assert forall j :: 1 <= j < |ps| ==> ps[j] == ps[1..][j - 1];
    }
  }

  /** JavaScript truthiness of a lookup: present and non-empty. */
  predicate Truthy(o: Option<string>)
  {
    o.Some? && o.value != ""
  }

  /** The query string of a parameter list, as a browser would write it without escaping. */
  function Render(ps: seq<Param>): seq<string>
  {
    seq(|ps|, i requires 0 <= i < |ps| => ps[i].key + "=" + ps[i].value)
  }

  /** A pair whose key holds no `=` or `&`, and whose value holds no `&`. */
  predicate Plain(p: Param)
  {
    p.key != "" && '=' !in p.key && '&' !in p.key && '&' !in p.value
  }

  lemma ParseRendered(p: Param, decode: string -> string)
    requires Plain(p)
    requires forall s :: decode(s) == s
    ensures ParseSegment(p.key + "=" + p.value, decode) == p
  {
    var seg := p.key + "=" + p.value;
    assert seg[|p.key|] == '=';
    var i := IndexOfChar(seg, '=');
    assert i == |p.key|;
    assert seg[..i] == p.key && seg[i + 1..] == p.value;
  }

  lemma {:induction false} ParseSegmentsRendered(ps: seq<Param>, decode: string -> string)
    requires forall i :: 0 <= i < |ps| ==> Plain(ps[i])
    requires forall s :: decode(s) == s
    ensures ParseSegments(Render(ps), decode) == ps
    decreases |ps|
  {
    if |ps| > 0 {
      assert Render(ps)[1..] == Render(ps[1..]);
      ParseSegmentsRendered(ps[1..], decode);
      ParseRendered(ps[0], decode);
      assert Render(ps)[0] != "";
    }
  }

  /** Parsing a rendered query gives back its pairs, when decoding changes nothing. */
  lemma ParseQueryRoundTrip(ps: seq<Param>, decode: string -> string)
    requires |ps| > 0
    requires forall i :: 0 <= i < |ps| ==> Plain(ps[i])
    requires forall s :: decode(s) == s
    ensures ParseQuery(Join(Render(ps), "&"), decode) == ps
  {
    forall i | 0 <= i < |Render(ps)|
      ensures '&' !in Render(ps)[i]
    {
      assert Render(ps)[i] == ps[i].key + "=" + ps[i].value;
    }
    SplitJoin(Render(ps), '&');
    ParseSegmentsRendered(ps, decode);
  }

  // ---------------------------------------------------------------------------
  // The route

  predicate IsReserved(key: string)
  {
    key in Reserved
  }

  /** What `forEach` appends for one pair: nothing for a reserved key. */
  function Piece(p: Param, encode: string -> string): string
  {
    if IsReserved(p.key) then "" else "&" + p.key + "=" + encode(p.value)
  }

  /** The piece of every pair, in order. */
  function Pieces(ps: seq<Param>, encode: string -> string): (r: seq<string>)
    ensures |r| == |ps|
  {
    seq(|ps|, i requires 0 <= i < |ps| => Piece(ps[i], encode))
  }

  /** Everything `forEach` appends for a list of pairs. */
  function Extras(ps: seq<Param>, encode: string -> string): string
  {
    Concat(Pieces(ps, encode))
  }

  /** The extras of a concatenation are the concatenation of the extras. */
  lemma ExtrasAppend(a: seq<Param>, b: seq<Param>, encode: string -> string)
    ensures Extras(a + b, encode) == Extras(a, encode) + Extras(b, encode)
  {
    assert Pieces(a + b, encode) == Pieces(a, encode) + Pieces(b, encode);
    ConcatAppend(Pieces(a, encode), Pieces(b, encode));
  }

  lemma ExtrasSnoc(ps: seq<Param>, i: nat, encode: string -> string)
    requires i < |ps|
    ensures Extras(ps[..i + 1], encode) == Extras(ps[..i], encode) + Piece(ps[i], encode)
  {
    assert ps[..i + 1] == ps[..i] + [ps[i]];
    ExtrasAppend(ps[..i], [ps[i]], encode);
    ExtrasOne(ps[i], encode);
  }

  lemma ExtrasOne(p: Param, encode: string -> string)
    ensures Extras([p], encode) == Piece(p, encode)
  {
    assert Pieces([p], encode) == [Piece(p, encode)];
    assert Concat([Piece(p, encode)]) == Piece(p, encode) + Concat([]);
  }

  /** Pairs whose keys are all reserved add nothing. */
  lemma {:induction false} ExtrasReserved(ps: seq<Param>, encode: string -> string)
    requires forall i :: 0 <= i < |ps| ==> IsReserved(ps[i].key)
    ensures Extras(ps, encode) == ""
    decreases |ps|
  {
    if |ps| > 0 {
      ExtrasReserved(ps[1..], encode);
      assert ps == [ps[0]] + ps[1..];
      ExtrasAppend([ps[0]], ps[1..], encode);
      ExtrasOne(ps[0], encode);
    }
  }

  /** Every pair with a key that is not reserved appears, encoded, among the extras. */
  lemma ExtrasListsKept(ps: seq<Param>, encode: string -> string, i: nat)
    requires i < |ps| && !IsReserved(ps[i].key)
    ensures Contains(Extras(ps, encode), "&" + ps[i].key + "=" + encode(ps[i].value))
  {
    var front, back := ps[..i], ps[i..];
    assert ps == front + back;
    ExtrasAppend(front, back, encode);
    assert back == [ps[i]] + back[1..];
    ExtrasAppend([ps[i]], back[1..], encode);
    ExtrasOne(ps[i], encode);
    var pc := Piece(ps[i], encode);
    assert StartsWith(pc, pc);
    assert Extras(ps, encode) == Extras(front, encode) + pc + Extras(back[1..], encode);
    ContainsInfix(Extras(front, encode), pc, Extras(back[1..], encode), pc);
  }

  /** `params.forEach`: appends the piece of every pair in order. */
  method AppendExtras(route: string, ps: seq<Param>, encode: string -> string) returns (r: string)
    ensures r == route + Extras(ps, encode)
  {
    r := route;
    for i := 0 to |ps|
      invariant r == route + Extras(ps[..i], encode)
    {
      ExtrasSnoc(ps, i, encode);
      ghost var piece := Piece(ps[i], encode);
      assert route + Extras(ps[..i + 1], encode) == r + piece;
      if !IsReserved(ps[i].key) {
        r := r + ("&" + ps[i].key + "=" + encode(ps[i].value));
      }
    }
    assert ps[..|ps|] == ps;
  }

  /** `params.get("locale") || "zh-TW"`. */
  function Locale(ps: seq<Param>): (r: string)
    ensures r != ""
  {
    if Truthy(Get(ps, "locale")) then Get(ps, "locale").value else DefaultLocale
  }

  /** The locale, session id, type and concern part of the route. */
  function Head(ps: seq<Param>): (r: string)
    requires Truthy(Get(ps, "session_id"))
    ensures StartsWith(r, "/" + Locale(ps) + "/success?session_id=" + Get(ps, "session_id").value)
  {
    var route := "/" + Locale(ps) + "/success?session_id=" + Get(ps, "session_id").value;
    var route := if Truthy(Get(ps, "type")) then route + "&type=" + Get(ps, "type").value else route;
    if Truthy(Get(ps, "concern")) then route + "&concern=" + Get(ps, "concern").value else route
  }

  /** The path and the query of a link without its scheme: the text before the first `?`
   *  and the text between the first and the second. */
  function PathAndQuery(rest: string): (string, string)
  {
    var parts := Split(rest, '?');
    (parts[0], if |parts| > 1 then parts[1] else "")
  }

  /** What the listener does with one opened URL. */
  function Handle(native: bool, url: string, decode: string -> string, encode: string -> string): (o: Outcome)
  {
    if !native || !StartsWith(url, Scheme) then Ignored
    else
      var parts := PathAndQuery(url[|Scheme|..]);
      if parts.0 != "success" && parts.0 != "" then Ignored
      else Payment(ParseQuery(parts.1, decode), encode)
  }

  /** What a success link leads to, given its pairs. */
  function Payment(ps: seq<Param>, encode: string -> string): Outcome
  {
    if !Truthy(Get(ps, "session_id")) then MissingSession
    else Navigate(Head(ps) + Extras(ps, encode))
  }

  /** The listener itself, with the `forEach` loop. */
  method OnAppUrlOpen(native: bool, url: string, decode: string -> string, encode: string -> string)
    returns (o: Outcome)
    ensures o == Handle(native, url, decode, encode)
  {
    if !native || !StartsWith(url, Scheme) {
      return Ignored;
    }
    var (path, query) := PathAndQuery(url[|Scheme|..]);
    if path != "success" && path != "" {
      return Ignored;
    }
    var ps := ParseQuery(query, decode);
    var sessionId := Get(ps, "session_id");
    if !Truthy(sessionId) {
      return MissingSession;
    }
    var route := AppendExtras(Head(ps), ps, encode);
    o := Navigate(route);
  }

  /** The listener acts only on a native `harmoniq://` link whose path is `success` or empty. */
  lemma HandleIgnores(native: bool, url: string, decode: string -> string, encode: string -> string)
    ensures !native || !StartsWith(url, Scheme) ==> Handle(native, url, decode, encode) == Ignored
    ensures native && StartsWith(url, Scheme) ==>
      var path := PathAndQuery(url[|Scheme|..]).0;
      (Handle(native, url, decode, encode) == Ignored <==> path != "success" && path != "")
  {
  }

  /** A success link navigates exactly when it carries a non-empty session id; the route then
   *  leads to the success page of the link's locale with that session id first. */
  lemma PaymentHead(ps: seq<Param>, encode: string -> string)
    ensures Payment(ps, encode).Navigate? <==> Truthy(Get(ps, "session_id"))
    ensures Payment(ps, encode).Navigate? ==>
      StartsWith(Payment(ps, encode).route, "/" + Locale(ps) + "/success?session_id=" + Get(ps, "session_id").value)
  {
    var o := Payment(ps, encode);
    if o.Navigate? {
      var head := "/" + Locale(ps) + "/success?session_id=" + Get(ps, "session_id").value;
      assert StartsWith(Head(ps), head);
      assert o.route[..|head|] == Head(ps)[..|head|];
    }
  }

  /** The route keeps every pair whose key is not reserved, with its value encoded. */
  lemma PaymentKeeps(ps: seq<Param>, encode: string -> string, i: nat)
    requires Payment(ps, encode).Navigate?
    requires i < |ps| && !IsReserved(ps[i].key)
    ensures Contains(Payment(ps, encode).route, "&" + ps[i].key + "=" + encode(ps[i].value))
  {
    ExtrasListsKept(ps, encode, i);
    ContainsInfix(Head(ps), Extras(ps, encode), "", "&" + ps[i].key + "=" + encode(ps[i].value));
    assert Head(ps) + Extras(ps, encode) + "" == Payment(ps, encode).route;
  }

  /** Only the text up to a second `?` is read as the query: what follows it is dropped. */
  lemma SecondQuestionMarkDropped(path: string, q1: string, q2: string,
                                  native: bool, decode: string -> string, encode: string -> string)
    requires '?' !in path && '?' !in q1
    ensures Handle(native, Scheme + path + "?" + q1 + "?" + q2, decode, encode) ==
            Handle(native, Scheme + path + "?" + q1, decode, encode)
  {
    var long := Scheme + path + "?" + q1 + "?" + q2;
    var short := Scheme + path + "?" + q1;
    assert long[|Scheme|..] == path + ['?'] + (q1 + ['?'] + q2);
    assert short[|Scheme|..] == path + ['?'] + q1;
    assert StartsWith(long, Scheme) && StartsWith(short, Scheme);
    SplitCons(path, '?', q1 + ['?'] + q2);
    SplitCons(q1, '?', q2);
    SplitCons(path, '?', q1);
    SplitSingle(q1, '?');
  }

  /** A query written from pairs without `?` holds no `?`. */
  lemma RenderedLacksMark(ps: seq<Param>)
    requires forall i :: 0 <= i < |ps| ==> '?' !in ps[i].key && '?' !in ps[i].value
    ensures '?' !in Join(Render(ps), "&")
  {
    var query := Join(Render(ps), "&");
    forall i | 0 <= i < |Render(ps)|
      ensures !Contains(Render(ps)[i], "?")
    {
      assert Render(ps)[i] == ps[i].key + "=" + ps[i].value;
      LacksCharNoMatch(Render(ps)[i], "?", 0);
    }
    JoinLacks(Render(ps), '&', "?");
    if '?' in query {
      var k :| 0 <= k < |query| && query[k] == '?';
      assert query[k..k + 1] == "?";
      ContainsAt(query, "?", k);
      assert false;
    }
  }

  /** The path and the query of a link with one `?`. */
  lemma LinkParts(path: string, query: string)
    requires '?' !in path && '?' !in query
    ensures StartsWith(Scheme + path + "?" + query, Scheme)
    ensures PathAndQuery((Scheme + path + "?" + query)[|Scheme|..]) == (path, query)
  {
    var url := Scheme + path + "?" + query;
    assert url[|Scheme|..] == path + ['?'] + query;
    assert url[..|Scheme|] == Scheme;
    SplitCons(path, '?', query);
    SplitSingle(query, '?');
  }

  /** A link written from plain pairs is read back pair for pair. */
  lemma LinkRoundTrip(path: string, ps: seq<Param>, decode: string -> string, encode: string -> string)
    requires path == "success" || path == ""
    requires |ps| > 0
    requires forall i :: 0 <= i < |ps| ==> Plain(ps[i]) && '?' !in ps[i].key && '?' !in ps[i].value
    requires forall s :: decode(s) == s
    ensures Handle(true, Scheme + path + "?" + Join(Render(ps), "&"), decode, encode) == Payment(ps, encode)
  {
    var query := Join(Render(ps), "&");
    ParseQueryRoundTrip(ps, decode);
    RenderedLacksMark(ps);
    LinkParts(path, query);
  }
}
