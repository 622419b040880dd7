/**
 * The client's error value: a list of GraphQL errors, each with a message,
 * locations, a path and extensions. The errors the client makes itself
 * carry an error code; in debug mode every error also carries the request
 * that was sent, under the `internal` extension.
 */
module Errors {
  import opened Wrappers
  import opened Text
  import opened Quote

  datatype Location = Location(line: int, column: int)

  datatype PathSegment = Key(name: string) | Index(position: int)

  /** An extension value: the client's own error code, the debug record of
      the request, or a value the server sent, kept as its JSON text. */
  datatype Extension = Code(code: string) | Internal(requestBody: string) | ServerValue(json: string)

  datatype GraphQLError = GraphQLError(message: string, locations: seq<Location>, path: seq<PathSegment>,
                                       extensions: map<string, Extension>)

  // Error codes of the errors the client makes.
  const ErrRequestError := "request_error"
  const ErrJsonEncode := "json_encode_error"
  const ErrJsonDecode := "json_decode_error"
  const ErrGraphQLEncode := "graphql_encode_error"
  const ErrGraphQLDecode := "graphql_decode_error"

  /** An error made by the client: no locations, no path, only its code. */
  function NewError(code: string, message: string): (e: GraphQLError)
    ensures e.message == message && e.locations == [] && e.path == []
    ensures e.extensions.Keys == {"code"} && e.extensions["code"] == Code(code)
  {
    GraphQLError(message, [], [], map["code" := Code(code)])
  }

  /** The message of a reply whose status is not 200: the status line, then
      the body quoted as `%q` quotes it. */
  function StatusMessage(status: string, body: string): string
  {
    status + "; body: " + GoQuote(body)
  }

  /** Debug mode: the error gains an `internal` extension recording the
      request body; nothing else about it changes. */
  function WithRequest(e: GraphQLError, requestBody: string): (r: GraphQLError)
    ensures r.message == e.message && r.locations == e.locations && r.path == e.path
    ensures r.extensions.Keys == e.extensions.Keys + {"internal"}
    ensures r.extensions["internal"] == Internal(requestBody)
    ensures forall k | k in e.extensions && k != "internal" :: r.extensions[k] == e.extensions[k]
  {
    e.(extensions := e.extensions["internal" := Internal(requestBody)])
  }

  // ---------------------------------------------------------------------
  // The canonical text

  /** `%+v` of one location. */
  function LocationText(l: Location): string
  {
    "{Line:" + IntToString(l.line) + " Column:" + IntToString(l.column) + "}"
  }

  function LocationTexts(ls: seq<Location>): (ts: seq<string>)
    ensures |ts| == |ls|
    ensures forall i | 0 <= i < |ls| :: ts[i] == LocationText(ls[i])
  {
    if |ls| == 0 then [] else [LocationText(ls[0])] + LocationTexts(ls[1..])
  }

  /** `%+v` of the location list: space-separated, in brackets. */
  function LocationsText(ls: seq<Location>): string
  {
    "[" + Join(" ", LocationTexts(ls)) + "]"
  }

  /** The text of one error. */
  function ErrorText(e: GraphQLError): string
  {
    "Message: " + e.message + ", Locations: " + LocationsText(e.locations)
  }

  /** The text of an error list: the texts of its errors, one after the
      other. */
  function ErrorsText(es: seq<GraphQLError>): string
  {
    if |es| == 0 then "" else ErrorText(es[0]) + ErrorsText(es[1..])
  }

  /** `Errors.Error()`: writes each error's text into a builder. */
  method ErrorString(es: seq<GraphQLError>) returns (s: string)
    ensures s == ErrorsText(es)
  {
    s := "";
    var i := 0;
    while i < |es|
      invariant 0 <= i <= |es|
      invariant s + ErrorsText(es[i..]) == ErrorsText(es)
    {
      ErrorsTextStep(es, i);
      Associative(s, ErrorText(es[i]), ErrorsText(es[i + 1..]));
      s := s + ErrorText(es[i]);
      i := i + 1;
    }
    assert es[i..] == [];
  }

  lemma ErrorsTextStep(es: seq<GraphQLError>, i: nat)
    requires i < |es|
    ensures ErrorsText(es[i..]) == ErrorText(es[i]) + ErrorsText(es[i + 1..])
  {
    assert es[i..][1..] == es[i + 1..];
  }

  lemma Associative(a: string, b: string, c: string)
    ensures a + (b + c) == (a + b) + c
  {
  }

  /** A list of one error reads as that error. */
  lemma OneErrorText(e: GraphQLError)
    ensures ErrorsText([e]) == ErrorText(e)
  {
    assert [e][1..] == [];
  }

  /** An error the client makes has an empty location list. */
  lemma NewErrorText(code: string, message: string)
    ensures ErrorText(NewError(code, message)) == "Message: " + message + ", Locations: []"
  {
  }

  /** Debug mode leaves the text of an error unchanged. */
  lemma WithRequestKeepsText(e: GraphQLError, requestBody: string)
    ensures ErrorText(WithRequest(e, requestBody)) == ErrorText(e)
  {
  }

  // ---------------------------------------------------------------------
  // Reading the text back

  function FirstIndex(t: string, c: char): (r: Option<nat>)
    ensures r.Some? ==> r.value < |t| && t[r.value] == c && forall j | 0 <= j < r.value :: t[j] != c
    ensures r.None? ==> forall j | 0 <= j < |t| :: t[j] != c
  {
    if |t| == 0 then None
    else if t[0] == c then Some(0)
    else
      var r := FirstIndex(t[1..], c);
      if r.Some? then Some(r.value + 1) else None
  }

  function LastIndex(t: string, c: char): (r: Option<nat>)
    ensures r.Some? ==> r.value < |t| && t[r.value] == c && forall j | r.value < j < |t| :: t[j] != c
    ensures r.None? ==> forall j | 0 <= j < |t| :: t[j] != c
  {
    if |t| == 0 then None
    else if t[|t| - 1] == c then Some(|t| - 1)
    else LastIndex(t[..|t| - 1], c)
  }

  lemma FirstIndexAt(a: string, b: string, c: char)
    requires forall j | 0 <= j < |a| :: a[j] != c
    requires |b| > 0 && b[0] == c
    ensures FirstIndex(a + b, c) == Some(|a|)
  {
    assert forall j | 0 <= j < |a| :: (a + b)[j] == a[j];
    assert (a + b)[|a|] == c;
  }

  lemma LastIndexAt(a: string, b: string, c: char)
    requires forall j | 0 <= j < |b| :: b[j] != c
    requires |a| > 0 && a[|a| - 1] == c
    ensures LastIndex(a + b, c) == Some(|a| - 1)
  {
    assert forall j | |a| <= j < |a| + |b| :: (a + b)[j] == b[j - |a|];
    assert (a + b)[|a| - 1] == c;
  }

  /** Reads `{Line:L Column:C}`. */
  function ParseLocation(item: string): Option<Location>
  {
    if |item| >= 7 && item[..6] == "{Line:" && item[|item| - 1] == '}' then
      var inner := item[6..|item| - 1];
      var k :- FirstIndex(inner, ' ');
      if |inner| >= k + 8 && inner[k..k + 8] == " Column:" then
        var line :- ParseInt(inner[..k]);
        var column :- ParseInt(inner[k + 8..]);
        Some(Location(line, column))
      else None
    else None
  }

  /** Reads space-separated locations: each one ends at its `}`. */
  function ParseLocationItems(t: string): Option<seq<Location>>
    decreases |t|
  {
    if |t| == 0 then Some([])
    else
      var k :- FirstIndex(t, '}');
      var l :- ParseLocation(t[..k + 1]);
      var rest := t[k + 1..];
      if |rest| == 0 then Some([l])
      else if rest[0] == ' ' then
        var more :- ParseLocationItems(rest[1..]);
        Some([l] + more)
      else None
  }

  function ParseLocations(t: string): Option<seq<Location>>
  {
    if |t| >= 2 && t[0] == '[' && t[|t| - 1] == ']' then ParseLocationItems(t[1..|t| - 1]) else None
  }

  /** Reads the text of one error back into its message and locations: the
      locations start after the last comma, which no location text holds. */
  function ParseErrorText(t: string): Option<(string, seq<Location>)>
  {
    var k :- LastIndex(t, ',');
    if |t| >= k + 13 && t[k..k + 13] == ", Locations: " && k >= 9 && t[..9] == "Message: " then
      var ls :- ParseLocations(t[k + 13..]);
      Some((t[9..k], ls))
    else None
  }

  predicate NumberChars(s: string)
  {
    forall i | 0 <= i < |s| :: IsDigit(s[i]) || s[i] == '-'
  }

  lemma IntChars(n: int)
    ensures NumberChars(IntToString(n))
  {
    var s := IntToString(n);
    if n < 0 {
      forall i | 1 <= i < |s|
        ensures IsDigit(s[i])
      {
        assert s[1..][i - 1] == s[i];
      }
    }
  }

  lemma LocationRoundTrip(l: Location)
    ensures ParseLocation(LocationText(l)) == Some(l)
  {
    var a, b := IntToString(l.line), IntToString(l.column);
    IntChars(l.line);
    IntRoundTrip(l.line);
    IntRoundTrip(l.column);
    ParseLocationOf(a, b, l);
  }

  /** A location text is read back from the two numbers it is made of. */
  lemma ParseLocationOf(a: string, b: string, l: Location)
    requires NumberChars(a) && ParseInt(a) == Some(l.line) && ParseInt(b) == Some(l.column)
    ensures ParseLocation("{Line:" + a + " Column:" + b + "}") == Some(l)
  {
    LocationSlices(a, b);
    FirstIndexAt(a, " Column:" + b, ' ');
    InnerSlices(a, b);
  }

  lemma LocationSlices(a: string, b: string)
    ensures var item := "{Line:" + a + " Column:" + b + "}";
      |item| >= 7 && item[..6] == "{Line:" && item[|item| - 1] == '}' &&
      item[6..|item| - 1] == a + (" Column:" + b)
  {
  }

  lemma InnerSlices(a: string, b: string)
    ensures var inner := a + (" Column:" + b);
      |inner| >= |a| + 8 && inner[..|a|] == a && inner[|a|..|a| + 8] == " Column:" && inner[|a| + 8..] == b
  {
  }

  /** The only `}` of a location's text is its last character. */
  lemma LocationTextEnd(l: Location)
    ensures ClosedItem(LocationText(l))
  {
    var a, b := IntToString(l.line), IntToString(l.column);
    IntChars(l.line);
    IntChars(l.column);
    var s := LocationText(l);
    forall j | 0 <= j < |s| - 1
      ensures s[j] != '}'
    {
      if 6 <= j < 6 + |a| {
        assert s[j] == a[j - 6];
      } else if 6 + |a| + 8 <= j < |s| - 1 {
        assert s[j] == b[j - 6 - |a| - 8];
      }
    }
  }

  /** A location text whose only `}` is its last character. */
  predicate ClosedItem(s: string)
  {
    |s| > 0 && s[|s| - 1] == '}' && forall j | 0 <= j < |s| - 1 :: s[j] != '}'
  }

  lemma ItemsOne(s: string, l: Location)
    requires ClosedItem(s) && ParseLocation(s) == Some(l)
    ensures ParseLocationItems(s) == Some([l])
  {
    FirstIndexAt(s[..|s| - 1], "}", '}');
    assert s[..|s| - 1] + "}" == s;
    assert s[..|s|] == s;
  }

  lemma ItemsCons(s: string, rest: string, l: Location, more: seq<Location>)
    requires ClosedItem(s) && ParseLocation(s) == Some(l)
    requires ParseLocationItems(rest) == Some(more)
    ensures ParseLocationItems(s + " " + rest) == Some([l] + more)
  {
    var t := s + " " + rest;
    FirstIndexAt(s[..|s| - 1], "} " + rest, '}');
    assert s[..|s| - 1] + ("} " + rest) == t;
    assert t[..|s|] == s;
    assert t[|s|..] == " " + rest;
    assert (" " + rest)[1..] == rest;
  }

  lemma {:induction false} LocationItemsRoundTrip(ls: seq<Location>)
    ensures ParseLocationItems(Join(" ", LocationTexts(ls))) == Some(ls)
  {
    if |ls| > 0 {
      var s := LocationText(ls[0]);
      var ts := LocationTexts(ls);
      LocationTextEnd(ls[0]);
      LocationRoundTrip(ls[0]);
      if |ls| == 1 {
        assert Join(" ", ts) == s;
        ItemsOne(s, ls[0]);
        assert [ls[0]] == ls;
      } else {
        assert ts[1..] == LocationTexts(ls[1..]);
        LocationItemsRoundTrip(ls[1..]);
        ItemsCons(s, Join(" ", ts[1..]), ls[0], ls[1..]);
        assert [ls[0]] + ls[1..] == ls;
      }
    }
  }

  /** The location list of an error's text can be read back. */
  lemma LocationsRoundTrip(ls: seq<Location>)
    ensures ParseLocations(LocationsText(ls)) == Some(ls)
  {
    var t := LocationsText(ls);
    assert t[1..|t| - 1] == Join(" ", LocationTexts(ls));
    LocationItemsRoundTrip(ls);
  }

  /** No location text holds a comma. */
  lemma {:induction false} LocationsTextNoComma(ls: seq<Location>)
    ensures forall j | 0 <= j < |LocationsText(ls)| :: LocationsText(ls)[j] != ','
  {
    var ts := LocationTexts(ls);
    forall i | 0 <= i < |ts|
      ensures forall j | 0 <= j < |ts[i]| :: ts[i][j] != ','
    {
      LocationNoComma(ls[i]);
    }
    JoinNoComma(ts);
  }

  lemma LocationNoComma(l: Location)
    ensures forall j | 0 <= j < |LocationText(l)| :: LocationText(l)[j] != ','
  {
    var a, b := IntToString(l.line), IntToString(l.column);
    IntChars(l.line);
    IntChars(l.column);
    var s := LocationText(l);
    forall j | 0 <= j < |s|
      ensures s[j] != ','
    {
      if 6 <= j < 6 + |a| {
        assert s[j] == a[j - 6];
      } else if 6 + |a| + 8 <= j < |s| - 1 {
        assert s[j] == b[j - 6 - |a| - 8];
      }
    }
  }

  lemma {:induction false} JoinNoComma(ts: seq<string>)
    requires forall i | 0 <= i < |ts| :: forall j | 0 <= j < |ts[i]| :: ts[i][j] != ','
    ensures forall j | 0 <= j < |Join(" ", ts)| :: Join(" ", ts)[j] != ','
  {
    if |ts| > 1 {
      JoinNoComma(ts[1..]);
      var a, r := ts[0], Join(" ", ts[1..]);
      forall j | 0 <= j < |a + " " + r|
        ensures (a + " " + r)[j] != ','
      {
        if j < |a| {
          assert (a + " " + r)[j] == a[j];
        } else if j > |a| {
          assert (a + " " + r)[j] == r[j - |a| - 1];
        }
      }
    }
  }

  /** The text of an error determines its message and its locations, even
      when the message holds commas of its own. */
  lemma ErrorTextRoundTrip(e: GraphQLError)
    ensures ParseErrorText(ErrorText(e)) == Some((e.message, e.locations))
  {
    var loc := LocationsText(e.locations);
    LocationsTextNoComma(e.locations);
    TailNoComma(loc);
    var head := "Message: " + e.message + ",";
    var tail := " Locations: " + loc;
    LastIndexAt(head, tail, ',');
    ErrorTextSlices(e.message, loc);
    LocationsRoundTrip(e.locations);
  }

  lemma TailNoComma(loc: string)
    requires forall j | 0 <= j < |loc| :: loc[j] != ','
    ensures forall j | 0 <= j < |" Locations: " + loc| :: (" Locations: " + loc)[j] != ','
  {
    var tail := " Locations: " + loc;
    forall j | 0 <= j < |tail|
      ensures tail[j] != ','
    {
      if j >= 12 {
        assert tail[j] == loc[j - 12];
      }
    }
  }

  /** Where the message and the location list sit in an error's text. */
  lemma ErrorTextSlices(m: string, loc: string)
    ensures var t := "Message: " + m + ", Locations: " + loc;
      var k := |m| + 9;
      t == ("Message: " + m + ",") + (" Locations: " + loc) &&
      t[k..k + 13] == ", Locations: " && t[..9] == "Message: " && t[9..k] == m && t[k + 13..] == loc
  {
  }
}
