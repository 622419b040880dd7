/**
 * The client: it builds the operation document, sends it as the JSON body
 * of a POST, and turns the reply into the caller's decoded value and an
 * error list. The HTTP exchange itself is a parameter: the reply (or the
 * transport failure) is given, already read and parsed.
 */
module Graphql {
  import opened Wrappers
  import opened Text
  import opened Quote
  import opened Options
  import opened Arguments
  import opened Query
  import opened Errors
  import opened JsonUtil

  /** The parsed body of a reply: the `data` member if there is one, and the
      errors the server reported. */
  datatype Envelope = Envelope(data: Option<Json>, errors: seq<GraphQLError>)

  /** What the transport brings back: a failure, or a reply with its status
      code, status line, body text, and the body parsed as an envelope (or
      the reason it could not be). */
  datatype Response =
    | TransportFailure(reason: string)
    | Reply(statusCode: int, status: string, body: string, parsed: Result<Envelope, string>)

  /** The undecoded outcome of an operation: the raw `data` and the errors. */
  datatype RawReply = RawReply(data: Option<Json>, errors: seq<GraphQLError>)

  /** The outcome of an operation on a destination: its new field values
      and the errors. */
  datatype Outcome = Outcome(values: seq<Value>, errors: seq<GraphQLError>)

  datatype OperationType = QueryOperation | MutationOperation

  // ---------------------------------------------------------------------
  // The request body

  /** One `"name":value` member of the variables object. */
  function VariableMembers(names: seq<string>, vars: map<string, Variable>): (ms: seq<string>)
    requires forall n | n in names :: n in vars
    ensures |ms| == |names|
    ensures forall i | 0 <= i < |names| :: ms[i] == JsonString(names[i]) + ":" + vars[names[i]].json
  {
    if |names| == 0 then [] else [JsonString(names[0]) + ":" + vars[names[0]].json] + VariableMembers(names[1..], vars)
  }

  /** The variables as a JSON object, keys in ascending order as
      `encoding/json` writes a map. */
  function VariablesJson(vars: map<string, Variable>): string
  {
    "{" + Join(",", VariableMembers(SortedNames(vars.Keys), vars)) + "}"
  }

  /** The opening of every request body, up to the query. */
  const QueryMember := "{\"query\":"

  /** The request body: the query, the variables unless there are none,
      the operation name unless it is empty, then the newline the encoder
      ends each value with. */
  function RequestBody(query: string, vars: map<string, Variable>, options: seq<QueryOption>): string
  {
    QueryMember + JsonString(query) + RequestRest(vars, options)
  }

  /** What follows the query in the request body. */
  function RequestRest(vars: map<string, Variable>, options: seq<QueryOption>): string
  {
    (if |vars| == 0 then "" else ",\"variables\":" + VariablesJson(vars))
    + (if NameOf(options) == "" then "" else ",\"operationName\":" + JsonString(NameOf(options)))
    + "}\n"
  }

  /** The document sent for an operation. */
  function Build(op: OperationType, root: Kind, vars: map<string, Variable>, options: seq<QueryOption>): Result<string, string>
  {
    if op == QueryOperation then ConstructQuery(root, vars, options) else ConstructMutation(root, vars, options)
  }

  // ---------------------------------------------------------------------
  // The client

  datatype Client = Client(url: string, debug: bool) {

    /** A copy of the client with debug mode set as given. */
    function WithDebug(debug: bool): (c: Client)
      ensures c.url == url && c.debug == debug
    {
      this.(debug := debug)
    }

    /** In debug mode an error made during the exchange records the request. */
    function Debugged(e: GraphQLError, requestBody: string): GraphQLError
    {
      if debug then WithRequest(e, requestBody) else e
    }

    function DebuggedAll(es: seq<GraphQLError>, requestBody: string): (r: seq<GraphQLError>)
      ensures |r| == |es|
      ensures forall i | 0 <= i < |es| :: r[i] == Debugged(es[i], requestBody)
    {
      if |es| == 0 then [] else [Debugged(es[0], requestBody)] + DebuggedAll(es[1..], requestBody)
    }

    /** Sends a document and reads the reply: a transport failure or a
        status other than 200 is one `request_error`; a body that does not
        parse is one `json_decode_error`; otherwise the `data` member and the
        server's errors are passed on. */
    function Exchange(query: string, vars: map<string, Variable>, options: seq<QueryOption>, response: Response): RawReply
    {
      var body := RequestBody(query, vars, options);
      match response
      case TransportFailure(reason) => RawReply(None, [Debugged(NewError(ErrRequestError, reason), body)])
      case Reply(code, status, text, parsed) =>
        if code != 200 then RawReply(None, [Debugged(NewError(ErrRequestError, StatusMessage(status, text)), body)])
        else if parsed.Failure? then RawReply(None, [Debugged(NewError(ErrJsonDecode, parsed.error), body)])
        else RawReply(parsed.value.data, DebuggedAll(parsed.value.errors, body))
    }

    /** An operation without decoding (`QueryRaw`, `MutateRaw`): a document
        that cannot be built is one `graphql_encode_error` and nothing is
        sent. */
    function Raw(op: OperationType, root: Kind, vars: map<string, Variable>, options: seq<QueryOption>, response: Response): RawReply
    {
      match Build(op, root, vars, options)
      case Failure(message) => RawReply(None, [NewError(ErrGraphQLEncode, message)])
      case Success(query) => Exchange(query, vars, options, response)
    }

    /** What an operation does to a destination with these field values:
        the `data` member, when there is one, is decoded even if the server
        also reported errors, and a decoding failure is appended to them as
        a `graphql_decode_error`, which records the request in debug mode. */
    function Run(op: OperationType, shape: seq<Field>, values: seq<Value>, vars: map<string, Variable>,
                 options: seq<QueryOption>, response: Response): (r: Outcome)
      requires |values| == |shape|
      ensures |r.values| == |shape|
    {
      var raw := Raw(op, Record(shape), vars, options, response);
      if raw.data.None? then Outcome(values, raw.errors)
      else
        var d := DecodeObject(shape, values, raw.data.value);
        var request := RequestBody(Build(op, Record(shape), vars, options).value, vars, options);
        Outcome(d.values, raw.errors + (if d.error.Some? then [Debugged(NewError(ErrGraphQLDecode, d.error.value), request)] else []))
    }

    /** `Query`: runs the operation and decodes its data into `dest`. */
    method Query(dest: Destination, vars: map<string, Variable>, options: seq<QueryOption>, response: Response)
      returns (errors: seq<GraphQLError>)
      requires dest.Valid()
      modifies dest
      ensures dest.Valid()
      ensures dest.values == Run(QueryOperation, dest.shape, old(dest.values), vars, options, response).values
      ensures errors == Run(QueryOperation, dest.shape, old(dest.values), vars, options, response).errors
    {
      errors := Do(QueryOperation, dest, vars, options, response);
    }

    /** `Mutate`: the same with a mutation document. */
    method Mutate(dest: Destination, vars: map<string, Variable>, options: seq<QueryOption>, response: Response)
      returns (errors: seq<GraphQLError>)
      requires dest.Valid()
      modifies dest
      ensures dest.Valid()
      ensures dest.values == Run(MutationOperation, dest.shape, old(dest.values), vars, options, response).values
      ensures errors == Run(MutationOperation, dest.shape, old(dest.values), vars, options, response).errors
    {
      errors := Do(MutationOperation, dest, vars, options, response);
    }

    method Do(op: OperationType, dest: Destination, vars: map<string, Variable>, options: seq<QueryOption>, response: Response)
      returns (errors: seq<GraphQLError>)
      requires dest.Valid()
      modifies dest
      ensures dest.Valid()
      ensures dest.values == Run(op, dest.shape, old(dest.values), vars, options, response).values
      ensures errors == Run(op, dest.shape, old(dest.values), vars, options, response).errors
    {
      var raw := Raw(op, Record(dest.shape), vars, options, response);
      errors := raw.errors;
      if raw.data.Some? {
        var e := dest.Absorb(raw.data.value);
        if e.Some? {
          var request := RequestBody(Build(op, Record(dest.shape), vars, options).value, vars, options);
          errors := errors + [Debugged(NewError(ErrGraphQLDecode, e.value), request)];
        }
      }
    }
  }

  // ---------------------------------------------------------------------
  // Properties

  /** A status other than 200 gives exactly one error, whatever the body:
      its text is the status line and the quoted body with no locations,
      its code is `request_error`, it records the request exactly when the
      client is in debug mode, and the destination is left as it was. */
  lemma StatusError(c: Client, op: OperationType, shape: seq<Field>, values: seq<Value>, vars: map<string, Variable>,
                    options: seq<QueryOption>, code: int, status: string, body: string, parsed: Result<Envelope, string>)
    requires |values| == |shape| && code != 200
    requires Build(op, Record(shape), vars, options).Success?
    ensures var r := c.Run(op, shape, values, vars, options, Reply(code, status, body, parsed));
      && r.values == values
      && |r.errors| == 1
      && r.errors[0].message == status + "; body: " + GoQuote(body)
      && ErrorsText(r.errors) == "Message: " + status + "; body: " + GoQuote(body) + ", Locations: []"
      && r.errors[0].extensions["code"] == Code(ErrRequestError)
      && ("internal" in r.errors[0].extensions <==> c.debug)
      && (c.debug ==> r.errors[0].extensions["internal"]
                      == Internal(RequestBody(Build(op, Record(shape), vars, options).value, vars, options)))
  {
    var request := RequestBody(Build(op, Record(shape), vars, options).value, vars, options);
    var message := StatusMessage(status, body);
    StatusOutcome(c, op, shape, values, vars, options, code, status, body, parsed);
    RequestErrorShape(c, message, request);
    assert "Message: " + message + ", Locations: []" == "Message: " + status + "; body: " + GoQuote(body) + ", Locations: []";
  }

  /** A failing status leaves the values as they were, with the one error of the exchange. */
  lemma StatusOutcome(c: Client, op: OperationType, shape: seq<Field>, values: seq<Value>, vars: map<string, Variable>,
                      options: seq<QueryOption>, code: int, status: string, body: string, parsed: Result<Envelope, string>)
    requires |values| == |shape| && code != 200
    requires Build(op, Record(shape), vars, options).Success?
    ensures c.Run(op, shape, values, vars, options, Reply(code, status, body, parsed))
         == Outcome(values, [c.Debugged(NewError(ErrRequestError, StatusMessage(status, body)),
                                        RequestBody(Build(op, Record(shape), vars, options).value, vars, options))])
  {
    StatusRaw(c, op, Record(shape), vars, options, code, status, body, parsed);
    RunWithoutData(c, op, shape, values, vars, options, Reply(code, status, body, parsed));
  }

  /** An error of the client's own, as debug mode leaves it. */
  lemma RequestErrorShape(c: Client, message: string, request: string)
    ensures var d := c.Debugged(NewError(ErrRequestError, message), request);
      && d.message == message
      && ErrorsText([d]) == "Message: " + message + ", Locations: []"
      && d.extensions["code"] == Code(ErrRequestError)
      && ("internal" in d.extensions <==> c.debug)
      && (c.debug ==> d.extensions["internal"] == Internal(request))
  {
    var e := NewError(ErrRequestError, message);
    OneErrorText(c.Debugged(e, request));
    NewErrorText(ErrRequestError, message);
    WithRequestKeepsText(e, request);
  }

  /** The exchange behind a failing status: no data and one error. */
  lemma StatusRaw(c: Client, op: OperationType, root: Kind, vars: map<string, Variable>, options: seq<QueryOption>,
                  code: int, status: string, body: string, parsed: Result<Envelope, string>)
    requires code != 200 && Build(op, root, vars, options).Success?
    ensures c.Raw(op, root, vars, options, Reply(code, status, body, parsed))
         == RawReply(None, [c.Debugged(NewError(ErrRequestError, StatusMessage(status, body)),
                                       RequestBody(Build(op, root, vars, options).value, vars, options))])
  {
  }

  /** With no data the destination is left as it was and the errors are those of the exchange. */
  lemma RunWithoutData(c: Client, op: OperationType, shape: seq<Field>, values: seq<Value>, vars: map<string, Variable>,
                       options: seq<QueryOption>, response: Response)
    requires |values| == |shape| && c.Raw(op, Record(shape), vars, options, response).data.None?
    ensures c.Run(op, shape, values, vars, options, response) == Outcome(values, c.Raw(op, Record(shape), vars, options, response).errors)
  {
  }

  /** Debug mode changes nothing but the `internal` extension: the data and
      the errors are those of the same exchange without it, each error
      with the request recorded. So messages and texts are the same. */
  lemma DebugOnlyRecordsRequest(c: Client, op: OperationType, root: Kind, vars: map<string, Variable>,
                                options: seq<QueryOption>, response: Response)
    requires Build(op, root, vars, options).Success?
    ensures var plain := c.WithDebug(false).Raw(op, root, vars, options, response);
            var debug := c.WithDebug(true).Raw(op, root, vars, options, response);
      && debug.data == plain.data
      && |debug.errors| == |plain.errors|
      && (forall i | 0 <= i < |plain.errors| ::
            debug.errors[i] == WithRequest(plain.errors[i], RequestBody(Build(op, root, vars, options).value, vars, options)))
      && ErrorsText(debug.errors) == ErrorsText(plain.errors)
  {
    var query := Build(op, root, vars, options).value;
    var plain := c.WithDebug(false).Exchange(query, vars, options, response);
    var debug := c.WithDebug(true).Exchange(query, vars, options, response);
    ExchangeDebugOnly(c, query, vars, options, response);
    WithRequestKeepsTexts(plain.errors, debug.errors, RequestBody(query, vars, options));
  }

  /** The exchange in debug mode differs from the plain one only by the recorded request. */
  lemma ExchangeDebugOnly(c: Client, query: string, vars: map<string, Variable>, options: seq<QueryOption>, response: Response)
    ensures var plain := c.WithDebug(false).Exchange(query, vars, options, response);
            var debug := c.WithDebug(true).Exchange(query, vars, options, response);
      && debug.data == plain.data
      && |debug.errors| == |plain.errors|
      && forall i | 0 <= i < |plain.errors| :: debug.errors[i] == WithRequest(plain.errors[i], RequestBody(query, vars, options))
  {
  }

  /** Whether an error records `request` under the `internal` extension. */
  predicate Records(e: GraphQLError, request: string)
  {
    "internal" in e.extensions && e.extensions["internal"] == Internal(request)
  }

  /** In debug mode every error of an operation that was sent records the
      request, whatever its origin: the transport, the status, the body,
      the server or the decoder. */
  lemma DebugRecordsEveryError(c: Client, op: OperationType, shape: seq<Field>, values: seq<Value>,
                               vars: map<string, Variable>, options: seq<QueryOption>, response: Response)
    requires |values| == |shape| && c.debug
    requires Build(op, Record(shape), vars, options).Success?
    ensures var r := c.Run(op, shape, values, vars, options, response);
      forall i | 0 <= i < |r.errors| ::
        Records(r.errors[i], RequestBody(Build(op, Record(shape), vars, options).value, vars, options))
  {
    var query := Build(op, Record(shape), vars, options).value;
    var request := RequestBody(query, vars, options);
    var raw := c.Raw(op, Record(shape), vars, options, response);
    assert raw == c.Exchange(query, vars, options, response);
    ExchangeRecords(c, query, vars, options, response);
    if raw.data.Some? {
      var d := DecodeObject(shape, values, raw.data.value);
      var extra := if d.error.Some? then [c.Debugged(NewError(ErrGraphQLDecode, d.error.value), request)] else [];
      assert c.Run(op, shape, values, vars, options, response).errors == raw.errors + extra;
      assert forall i | 0 <= i < |extra| :: Records(extra[i], request);
    }
  }

  /** In debug mode every error of an exchange records the request body. */
  lemma ExchangeRecords(c: Client, query: string, vars: map<string, Variable>, options: seq<QueryOption>, response: Response)
    requires c.debug
    ensures var raw := c.Exchange(query, vars, options, response);
      forall i | 0 <= i < |raw.errors| :: Records(raw.errors[i], RequestBody(query, vars, options))
  {
  }

  lemma {:induction false} WithRequestKeepsTexts(es: seq<GraphQLError>, ds: seq<GraphQLError>, body: string)
    requires |ds| == |es| && forall i | 0 <= i < |es| :: ds[i] == WithRequest(es[i], body)
    ensures ErrorsText(ds) == ErrorsText(es)
    decreases |es|
  {
    if |es| > 0 {
      WithRequestKeepsText(es[0], body);
      WithRequestKeepsTexts(es[1..], ds[1..], body);
    }
  }

  /** Without debug mode the errors the server reports are returned as they
      came. */
  lemma ServerErrorsUnchanged(c: Client, query: string, vars: map<string, Variable>, options: seq<QueryOption>,
                              status: string, body: string, env: Envelope)
    requires !c.debug
    ensures c.Exchange(query, vars, options, Reply(200, status, body, Success(env))) == RawReply(env.data, env.errors)
  {
    var r := c.DebuggedAll(env.errors, RequestBody(query, vars, options));
    assert r == env.errors;
  }

  /** A reply with no `data` member leaves the destination as it was and
      returns the errors; a reply with data decodes it and still returns
      the errors the server reported, ahead of any decoding failure. */
  lemma PartialData(c: Client, op: OperationType, shape: seq<Field>, values: seq<Value>, vars: map<string, Variable>,
                    options: seq<QueryOption>, response: Response)
    requires |values| == |shape|
    ensures var raw := c.Raw(op, Record(shape), vars, options, response);
            var r := c.Run(op, shape, values, vars, options, response);
      && (raw.data.None? ==> r == Outcome(values, raw.errors))
      && (raw.data.Some? ==> r.values == DecodeObject(shape, values, raw.data.value).values
                             && |r.errors| >= |raw.errors| && r.errors[..|raw.errors|] == raw.errors)
      && (raw.data.Some? && DecodeObject(shape, values, raw.data.value).error.None? ==> r.errors == raw.errors)
  {
  }

  /** A document that cannot be built is reported as one
      `graphql_encode_error` holding the builder's message; nothing is sent
      and the destination is left as it was. */
  lemma EncodeFailure(c: Client, shape: seq<Field>, values: seq<Value>, vars: map<string, Variable>,
                      options: seq<QueryOption>, response: Response)
    requires |values| == |shape| && !Supported(Record(shape))
    ensures var r := c.Run(QueryOperation, shape, values, vars, options, response);
      && r.values == values
      && |r.errors| == 1
      && r.errors[0].extensions["code"] == Code(ErrGraphQLEncode)
      && IsMapError(r.errors[0].message)
      && "internal" !in r.errors[0].extensions
  {
  }

  /** Variables are written only when there are some, so an empty map sends
      the same body as no map at all. */
  lemma EmptyVariablesOmitted(query: string)
    ensures RequestBody(query, map[], []) == "{\"query\":" + JsonString(query) + "}\n"
  {
  }

  lemma Slices(a: string, x: string, t: string)
    ensures (a + x + t)[..|a|] == a && (a + x + t)[|a|..|a| + |x|] == x
  {
    assert (a + x + t)[..|a|] == a;
  }

  /** The body begins with the query, as a JSON string that reads back as
      the document. */
  lemma QueryReadsBack(query: string, vars: map<string, Variable>, options: seq<QueryOption>)
    ensures var b := RequestBody(query, vars, options); var n := |QueryMember| + |JsonString(query)|;
      && |b| >= n && b[..|QueryMember|] == QueryMember && JsonUnquote(b[|QueryMember|..n]) == Some(query)
  {
    Slices(QueryMember, JsonString(query), RequestRest(vars, options));
    JsonStringRoundTrip(query);
  }
}
