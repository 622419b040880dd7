/**
 * What the client does with the replies of its own test suite: partial
 * data beside a server error, a reply with no data, a failing status, an
 * empty variable map and an ignored field.
 */
module ClientExamples {
  import opened Wrappers
  import opened Text
  import opened Ident
  import opened Quote
  import opened Query
  import opened Errors
  import opened JsonUtil
  import opened Graphql
  import opened QueryExamples

  // ---------------------------------------------------------------------
  // Steps shared by the examples

  /** The field a key goes to, from which fields take it. */
  lemma FieldForAt(fs: seq<Field>, key: string, i: nat)
    requires i < |fs| && HasGraphQLName(fs[i], key)
    requires forall j | 0 <= j < i :: !HasGraphQLName(fs[j], key)
    ensures FieldFor(fs, key) == Some(i)
  {
  }

  /** A member that goes to field `i` and decodes without error. */
  lemma MemberStep(fs: seq<Field>, values: seq<Value>, m: Member, rest: seq<Member>, i: nat, v: Value)
    requires |values| == |fs| && FieldFor(fs, m.key) == Some(i)
    requires Decode(fs[i].kind, values[i], m.value) == Decoded(v, None)
    ensures DecodeMembers(fs, values, [m] + rest) == DecodeMembers(fs, values[i := v], rest)
  {
    assert ([m] + rest)[0] == m && ([m] + rest)[1..] == rest;
  }

  lemma LastMember(fs: seq<Field>, values: seq<Value>, m: Member, i: nat, v: Value)
    requires |values| == |fs| && FieldFor(fs, m.key) == Some(i)
    requires Decode(fs[i].kind, values[i], m.value) == Decoded(v, None)
    ensures DecodeMembers(fs, values, [m]) == DecodedFields(values[i := v], None)
  {
    MemberStep(fs, values, m, [], i, v);
    assert [m] + [] == [m];
  }

  /** An untagged one-word field takes the lower-case word as its key. */
  lemma WordKey(f: Field, word: string, key: string)
    requires f.tag.None? && !f.embedded && f.words == [word] && Lower(word) == key
    ensures HasGraphQLName(f, key)
  {
    BuilderNameFound(f);
    assert Capitalized("") == "";
    assert CapitalizedWords([]) == "";
    assert key + "" == key;
  }

  /** A field with a one-word tag takes exactly that key. */
  lemma TagKeyOnly(f: Field, tag: string, key: string)
    requires f.tag == Some(tag) && |tag| > 0 && 'a' <= tag[0] <= 'z'
    requires forall i | 0 <= i < |tag| :: 'a' <= tag[i] <= 'z' || '0' <= tag[i] <= '9'
    ensures HasGraphQLName(f, key) <==> key == tag
  {
    assert tag + "" == tag;
    AliasFound(f, tag, "", key);
  }

  /** One error of the server's, with one location and no extensions. */
  function ServerError(message: string, line: int, column: int, path: seq<PathSegment>): GraphQLError
  {
    GraphQLError(message, [Location(line, column)], path, map[])
  }

  lemma OneLocationText(line: int, column: int, l: string, c: string)
    requires IntToString(line) == l && IntToString(column) == c
    ensures LocationsText([Location(line, column)]) == "[" + ("{Line:" + l + " Column:" + c + "}") + "]"
  {
  }

  /** The text of a reply's errors when the server reports one error at one
      location, in debug mode or not. */
  lemma ServerErrorText(c: Client, e: GraphQLError, body: string, locations: string)
    requires LocationsText(e.locations) == locations
    ensures ErrorsText(c.DebuggedAll([e], body)) == "Message: " + e.message + ", Locations: " + locations
  {
    var ds := c.DebuggedAll([e], body);
    OneErrorText(ds[0]);
    WithRequestKeepsText(e, body);
  }

  /** A 200 reply whose data decodes without error. */
  lemma RunOk(c: Client, shape: seq<Field>, values: seq<Value>, q: string, status: string, body: string,
              data: Json, es: seq<GraphQLError>, decoded: seq<Value>)
    requires |values| == |shape|
    requires Build(QueryOperation, Record(shape), map[], []) == Success(q)
    requires DecodeObject(shape, values, data) == DecodedFields(decoded, None)
    ensures c.Run(QueryOperation, shape, values, map[], [], Reply(200, status, body, Success(Envelope(Some(data), es))))
         == Outcome(decoded, c.DebuggedAll(es, RequestBody(q, map[], [])))
  {
    var response := Reply(200, status, body, Success(Envelope(Some(data), es)));
    RawOk(c, shape, q, response, Some(data), es);
    RunDecoded(c, shape, values, response, RawReply(Some(data), c.DebuggedAll(es, RequestBody(q, map[], []))), data, decoded);
  }

  /** Data that decodes without error leaves the exchange's errors as they are. */
  lemma RunDecoded(c: Client, shape: seq<Field>, values: seq<Value>, response: Response, raw: RawReply, data: Json,
                   decoded: seq<Value>)
    requires |values| == |shape|
    requires c.Raw(QueryOperation, Record(shape), map[], [], response) == raw && raw.data == Some(data)
    requires DecodeObject(shape, values, data) == DecodedFields(decoded, None)
    ensures c.Run(QueryOperation, shape, values, map[], [], response) == Outcome(decoded, raw.errors)
  {
    assert raw.errors + [] == raw.errors;
  }

  /** A 200 reply passes its data and its errors on. */
  lemma RawOk(c: Client, shape: seq<Field>, q: string, response: Response, data: Option<Json>, es: seq<GraphQLError>)
    requires Build(QueryOperation, Record(shape), map[], []) == Success(q)
    requires response.Reply? && response.statusCode == 200 && response.parsed == Success(Envelope(data, es))
    ensures c.Raw(QueryOperation, Record(shape), map[], [], response) == RawReply(data, c.DebuggedAll(es, RequestBody(q, map[], [])))
  {
  }

  /** A 200 reply with no data. */
  lemma RunNoData(c: Client, shape: seq<Field>, values: seq<Value>, q: string, status: string, body: string,
                  es: seq<GraphQLError>)
    requires |values| == |shape|
    requires Build(QueryOperation, Record(shape), map[], []) == Success(q)
    ensures c.Run(QueryOperation, shape, values, map[], [], Reply(200, status, body, Success(Envelope(None, es))))
         == Outcome(values, c.DebuggedAll(es, RequestBody(q, map[], [])))
  {
  }

  // ---------------------------------------------------------------------
  // `{user{name}}`, the document of three of the tests

  function NameFields(): seq<Field>
  {
    [Plain(["Name"], Leaf)]
  }

  function UserShape(): seq<Field>
  {
    [Plain(["User"], Record(NameFields()))]
  }

  lemma UserDocument()
    ensures Build(QueryOperation, Record(UserShape()), map[], []) == Success("{user{name}}")
  {
    UserQuery(UserShape()[0]);
  }

  lemma UserQuery(u: Field)
    requires u == Plain(["User"], Record(NameFields()))
    ensures ConstructQuery(Record([u]), map[], []) == Success("{user{name}}")
  {
    var n := u.kind.fields[0];
    assert LowerCamelCase(["Name"]) == "name" by {
      assert Lower("Name") == "name";
    }
    LeafNamed(n, ["Name"], "name");
    OnlyPart(n, "name");
    assert LowerCamelCase(["User"]) == "user" by {
      assert Lower("User") == "user";
    }
    NamedRecord(u, ["User"], "user", u.kind.fields, ["name"]);
    JoinOne(",", "name");
    OnlyPart(u, "user" + "{" + "name" + "}");
    UserTexts();
    JoinOne(",", "user{name}");
    RootQuery([u], ["user{name}"], "user{name}");
  }

  // Joins string literals only. It is a lemma of its own so that the caller's
  // proof stays small and stable on every solver seed.
  lemma UserTexts()
    ensures "user" + "{" + "name" + "}" == "user{name}"
    ensures "{" + "user{name}" + "}" == "{user{name}}"
  {
  }

  /** A document JSON writes without escapes is sent between quotes, as is. */
  lemma PlainBody(q: string)
    requires JsonPlain(q)
    ensures RequestBody(q, map[], []) == "{\"query\":\"" + q + "\"}\n"
  {
    JsonPlainText(q);
    EmptyVariablesOmitted(q);
  }

  lemma UserPlain()
    ensures JsonPlain("{user{name}}")
  {
  }

  /** The body the server receives for it (graphql_test.go:198, 252, 263). */
  lemma UserBody()
    ensures RequestBody("{user{name}}", map[], []) == "{\"query\":\"" + "{user{name}}" + "\"}\n"
  {
    UserPlain();
    PlainBody("{user{name}}");
  }

  // ---------------------------------------------------------------------
  // No data, one error

  const MissingLogin := "Field 'user' is missing required arguments: login"

  /** A reply with errors and no `data`: the destination keeps its zero
      values, the error reads as the server's message and location, and in
      debug mode it records the exact request body. */
  lemma NoDataExample(c: Client, body: string)
    ensures var r := c.Run(QueryOperation, UserShape(), ZeroFields(UserShape()), map[], [],
                           Reply(200, "200 OK", body, Success(Envelope(None, [ServerError(MissingLogin, 7, 3, [])]))));
      && r.values == ZeroFields(UserShape())
      && |r.errors| == 1
      && r.errors[0].message == MissingLogin
      && ErrorsText(r.errors) == "Message: " + MissingLogin + ", Locations: " + "[{Line:7 Column:3}]"
      && (c.debug ==> r.errors[0].extensions["internal"] == Internal("{\"query\":\"" + "{user{name}}" + "\"}\n"))
  {
    UserDocument();
    UserBody();
    MissingLoginAt();
    NoDataRun(c, UserShape(), "{user{name}}", body, ServerError(MissingLogin, 7, 3, []), "[{Line:7 Column:3}]");
  }

  lemma MissingLoginAt()
    ensures LocationsText(ServerError(MissingLogin, 7, 3, []).locations) == "[{Line:7 Column:3}]"
  {
    OneLocationText(7, 3, "7", "3");
    assert "[" + ("{Line:" + "7" + " Column:" + "3" + "}") + "]" == "[{Line:7 Column:3}]";
  }

  lemma NoDataRun(c: Client, fs: seq<Field>, q: string, body: string, e: GraphQLError, locations: string)
    requires Build(QueryOperation, Record(fs), map[], []) == Success(q)
    requires LocationsText(e.locations) == locations
    ensures var r := c.Run(QueryOperation, fs, ZeroFields(fs), map[], [], Reply(200, "200 OK", body, Success(Envelope(None, [e]))));
      && r.values == ZeroFields(fs)
      && |r.errors| == 1
      && r.errors[0].message == e.message
      && ErrorsText(r.errors) == "Message: " + e.message + ", Locations: " + locations
      && (c.debug ==> r.errors[0].extensions["internal"] == Internal(RequestBody(q, map[], [])))
  {
    RunNoData(c, fs, ZeroFields(fs), q, "200 OK", body, [e]);
    ServerErrorText(c, e, RequestBody(q, map[], []), locations);
  }

  // ---------------------------------------------------------------------
  // A failing status

  /** A plain line ending in a newline is quoted with the newline escaped. */
  lemma QuotedLine(s: string)
    requires GoPlain(s)
    ensures GoQuote(s + "\n") == "\"" + s + "\\n" + "\""
  {
    GoEscapeAppend(s, "\n");
    PlainTextUnescaped(s);
    assert GoEscape("\n") == "\\n";
  }

  lemma ImportantMessagePlain()
    ensures GoPlain("important message")
  {
  }

  lemma ImportantMessageQuoted()
    ensures GoQuote("important message" + "\n") == "\"" + "important message" + "\\n" + "\""
  {
    ImportantMessagePlain();
    QuotedLine("important message");
  }

  /** A 500 reply: one `request_error` whose text is the status line and the
      quoted body, recording the request exactly in debug mode; the
      destination keeps its zero values. */
  lemma StatusExample(c: Client, parsed: Result<Envelope, string>)
    ensures var r := c.Run(QueryOperation, UserShape(), ZeroFields(UserShape()), map[], [],
                           Reply(500, "500 Internal Server Error", "important message" + "\n", parsed));
      && r.values == ZeroFields(UserShape())
      && |r.errors| == 1
      && r.errors[0].message == "500 Internal Server Error" + "; body: " + ("\"" + "important message" + "\\n" + "\"")
      && ErrorsText(r.errors) == "Message: " + "500 Internal Server Error" + "; body: " + ("\"" + "important message" + "\\n" + "\"") + ", Locations: []"
      && r.errors[0].extensions["code"] == Code(ErrRequestError)
      && ("internal" in r.errors[0].extensions <==> c.debug)
      && (c.debug ==> r.errors[0].extensions["internal"] == Internal("{\"query\":\"" + "{user{name}}" + "\"}\n"))
  {
    UserDocument();
    UserBody();
    ImportantMessageQuoted();
    StatusRun(c, UserShape(), "{user{name}}", "important message" + "\n", "\"" + "important message" + "\\n" + "\"", parsed);
  }

  lemma StatusRun(c: Client, fs: seq<Field>, q: string, text: string, quoted: string, parsed: Result<Envelope, string>)
    requires Build(QueryOperation, Record(fs), map[], []) == Success(q)
    requires GoQuote(text) == quoted
    ensures var r := c.Run(QueryOperation, fs, ZeroFields(fs), map[], [], Reply(500, "500 Internal Server Error", text, parsed));
      && r.values == ZeroFields(fs)
      && |r.errors| == 1
      && r.errors[0].message == "500 Internal Server Error" + "; body: " + quoted
      && ErrorsText(r.errors) == "Message: " + "500 Internal Server Error" + "; body: " + quoted + ", Locations: []"
      && r.errors[0].extensions["code"] == Code(ErrRequestError)
      && ("internal" in r.errors[0].extensions <==> c.debug)
      && (c.debug ==> r.errors[0].extensions["internal"] == Internal(RequestBody(q, map[], [])))
  {
    StatusError(c, QueryOperation, fs, ZeroFields(fs), map[], [], 500, "500 Internal Server Error", text, parsed);
  }

  // ---------------------------------------------------------------------
  // Partial data

  const NodeId := "MDEyOklzc3VlQ29tbWVudDE2OTQwNzk0Ng=="
  const NotResolved := "Could not resolve to a node with the global id of 'NotExist'"

  function IdFields(): seq<Field>
  {
    [Plain(["ID"], Leaf)]
  }

  function Node1Rest(): string
  {
    ": node(id: \"" + NodeId + "\")"
  }

  function Node2Rest(): string
  {
    ": node(id: \"" + "NotExist" + "\")"
  }

  lemma RestShapes()
    ensures |Node1Rest()| > 0 && Node1Rest()[0] == ':' && Node1Rest()[|Node1Rest()| - 1] == ')'
    ensures |Node2Rest()| > 0 && Node2Rest()[0] == ':' && Node2Rest()[|Node2Rest()| - 1] == ')'
  {
  }

  /** `Node1 *struct{ID}` and `Node2 *struct{ID}`, each tagged with an alias
      and the aliased field with its argument. */
  function NodeShape(): seq<Field>
  {
    [Tagged(["Node1"], "node1" + Node1Rest(), Pointer(Record(IdFields()))),
     Tagged(["Node2"], "node2" + Node2Rest(), Pointer(Record(IdFields())))]
  }

  /** `Node1 json.RawMessage` tagged `node1`, then the same `Node2`. */
  function RawNodeShape(): seq<Field>
  {
    [Tagged(["Node1"], "node1", Leaf),
     Tagged(["Node2"], "node2" + Node2Rest(), Pointer(Record(IdFields())))]
  }

  function Node1Json(): Json
  {
    JObject([Member("id", JString(NodeId))])
  }

  /** `{"node1": {"id": …}, "node2": null}` */
  function NodeData(): Json
  {
    JObject([Member("node1", Node1Json()), Member("node2", JNull)])
  }

  function NotFound(): GraphQLError
  {
    ServerError(NotResolved, 10, 4, [Key("node2")])
  }

  function NodeReply(body: string): Response
  {
    Reply(200, "200 OK", body, Success(Envelope(Some(NodeData()), [NotFound()])))
  }

  /** `{"id": …}` into a fresh `*struct{ID}`: the pointer is allocated and
      its field set. */
  lemma IdDecoded(k: Kind, id: string)
    requires k == Pointer(Record(IdFields()))
    ensures Decode(k, Nil, JObject([Member("id", JString(id))])) == Decoded(Ref(Fields([Held(JString(id))])), None)
  {
    var fs := k.elem.fields;
    var m := Member("id", JString(id));
    WordKey(fs[0], "ID", "id") by {
      assert Lower("ID") == "id";
    }
    FieldForAt(fs, "id", 0);
    assert ZeroOf(k.elem) == Fields([Blank]);
    assert FieldsOf(fs, Fields([Blank])) == [Blank];
    assert Decode(Leaf, Blank, m.value) == Decoded(Held(JString(id)), None);
    assert [m][1..] == [];
    assert DecodeMembers(fs, [Blank], [m]) == DecodedFields([Held(JString(id))], None);
    assert DecodeObject(fs, [Blank], JObject([m])) == DecodedFields([Held(JString(id))], None);
    assert Decode(k.elem, Fields([Blank]), JObject([m])) == Decoded(Fields([Held(JString(id))]), None);
  }

  /** Two members, each into its own field, neither failing. */
  lemma TwoMembers(fs: seq<Field>, zs: seq<Value>, m1: Member, m2: Member, v1: Value, v2: Value)
    requires |fs| == 2 && |zs| == 2
    requires FieldFor(fs, m1.key) == Some(0) && FieldFor(fs, m2.key) == Some(1)
    requires Decode(fs[0].kind, zs[0], m1.value) == Decoded(v1, None)
    requires Decode(fs[1].kind, zs[1], m2.value) == Decoded(v2, None)
    ensures DecodeMembers(fs, zs, [m1, m2]) == DecodedFields([v1, v2], None)
  {
    var ys := zs[0 := v1];
    assert [m1, m2][1..] == [m2];
    assert DecodeMembers(fs, zs, [m1, m2]) == DecodeMembers(fs, ys, [m2]);
    assert [m2][1..] == [];
    assert DecodeMembers(fs, ys, [m2]) == DecodeMembers(fs, ys[1 := v2], []);
    assert ys[1 := v2] == [v1, v2];
  }

  lemma NodesDecoded(fs: seq<Field>)
    requires fs == NodeShape()
    ensures DecodeObject(fs, ZeroFields(fs), NodeData()) == DecodedFields([Ref(Fields([Held(JString(NodeId))])), Nil], None)
  {
    RestShapes();
    AliasFound(fs[0], "node1", Node1Rest(), "node1");
    AliasFound(fs[0], "node1", Node1Rest(), "node2");
    AliasFound(fs[1], "node2", Node2Rest(), "node2");
    FieldForAt(fs, "node1", 0);
    FieldForAt(fs, "node2", 1);
    IdDecoded(fs[0].kind, NodeId);
    var zs := ZeroFields(fs);
    assert zs == [Nil, Nil];
    TwoMembers(fs, zs, Member("node1", Node1Json()), Member("node2", JNull), Ref(Fields([Held(JString(NodeId))])), Nil);
  }

  lemma RawNodesDecoded(fs: seq<Field>)
    requires fs == RawNodeShape()
    ensures DecodeObject(fs, ZeroFields(fs), NodeData()) == DecodedFields([Held(Node1Json()), Nil], None)
  {
    RawNodeKeys(fs);
    var zs := ZeroFields(fs);
    assert zs == [Blank, Nil];
    TwoMembers(fs, zs, Member("node1", Node1Json()), Member("node2", JNull), Held(Node1Json()), Nil);
  }

  lemma RawNodeKeys(fs: seq<Field>)
    requires fs == RawNodeShape()
    ensures FieldFor(fs, "node1") == Some(0) && FieldFor(fs, "node2") == Some(1)
  {
    RestShapes();
    TagKeyOnly(fs[0], "node1", "node1");
    TagKeyOnly(fs[0], "node1", "node2");
    AliasFound(fs[1], "node2", Node2Rest(), "node2");
    FieldForAt(fs, "node1", 0);
    FieldForAt(fs, "node2", 1);
  }

  /** Partial data beside a server error (graphql_test.go:16-73): the node
      that resolved is decoded, the null one stays nil, and the server's
      error is returned with its text; in debug mode its message is the
      same. */
  lemma PartialDataExample(c: Client, body: string)
    ensures var r := c.Run(QueryOperation, NodeShape(), ZeroFields(NodeShape()), map[], [], NodeReply(body));
      && r.values == [Ref(Fields([Held(JString(NodeId))])), Nil]
      && |r.errors| == 1
      && r.errors[0].message == NotResolved
      && ErrorsText(r.errors) == "Message: " + NotResolved + ", Locations: " + "[{Line:10 Column:4}]"
  {
    var fs := NodeShape();
    assert Supported(Record(fs));
    var q := Build(QueryOperation, Record(fs), map[], []).value;
    NodesDecoded(fs);
    NotFoundText(c, RequestBody(q, map[], []));
  }

  lemma NotFoundText(c: Client, body: string)
    ensures ErrorsText(c.DebuggedAll([NotFound()], body)) == "Message: " + NotResolved + ", Locations: " + "[{Line:10 Column:4}]"
  {
    OneLocationText(10, 4, "10", "4");
    assert "[" + ("{Line:" + "10" + " Column:" + "4" + "}") + "]" == "[{Line:10 Column:4}]";
    ServerErrorText(c, NotFound(), body, "[{Line:10 Column:4}]");
  }

  /** The same reply into a raw-message field (graphql_test.go:76-121): the
      field holds the `node1` value itself. */
  lemma RawMessageExample(c: Client, body: string)
    ensures var r := c.Run(QueryOperation, RawNodeShape(), ZeroFields(RawNodeShape()), map[], [], NodeReply(body));
      && r.values == [Held(Node1Json()), Nil]
      && |r.errors| == 1
      && r.errors[0].message == NotResolved
      && ErrorsText(r.errors) == "Message: " + NotResolved + ", Locations: " + "[{Line:10 Column:4}]"
  {
    var fs := RawNodeShape();
    assert Supported(Record(fs));
    var q := Build(QueryOperation, Record(fs), map[], []).value;
    RawNodesDecoded(fs);
    NotFoundText(c, RequestBody(q, map[], []));
  }

  // ---------------------------------------------------------------------
  // Empty variables and an ignored field

  function GopherData(): Json
  {
    JObject([Member("user", JObject([Member("name", JString("Gopher"))]))])
  }

  function GopherReply(body: string): Response
  {
    Reply(200, "200 OK", body, Success(Envelope(Some(GopherData()), [])))
  }

  /** A record field whose single member decodes into field `i` of its
      zero value. */
  lemma NestedMember(u: Field, key: string, inner: Member, i: nat, v: Value)
    requires u.kind.Record? && HasGraphQLName(u, key)
    requires FieldFor(u.kind.fields, inner.key) == Some(i)
    requires Decode(u.kind.fields[i].kind, ZeroFields(u.kind.fields)[i], inner.value) == Decoded(v, None)
    ensures DecodeMembers([u], ZeroFields([u]), [Member(key, JObject([inner]))])
         == DecodedFields([Fields(ZeroFields(u.kind.fields)[i := v])], None)
  {
    var fs := u.kind.fields;
    FieldForAt([u], key, 0);
    LastMember(fs, ZeroFields(fs), inner, i, v);
    assert ZeroFields([u])[0] == Fields(ZeroFields(fs));
    LastMember([u], ZeroFields([u]), Member(key, JObject([inner])), 0, Fields(ZeroFields(fs)[i := v]));
  }

  /** An empty variable map (graphql_test.go:257-283): the body has no
      `variables` member and the data is decoded with no error. */
  lemma EmptyVariablesExample(c: Client, body: string)
    ensures RequestBody(Build(QueryOperation, Record(UserShape()), map[], []).value, map[], [])
         == "{\"query\":\"" + "{user{name}}" + "\"}\n"
    ensures c.Run(QueryOperation, UserShape(), ZeroFields(UserShape()), map[], [], GopherReply(body))
         == Outcome([Fields([Held(JString("Gopher"))])], [])
  {
    UserDocument();
    UserBody();
    GopherRun(c, UserShape(), body);
  }

  lemma GopherRun(c: Client, fs: seq<Field>, body: string)
    requires fs == UserShape()
    requires Build(QueryOperation, Record(fs), map[], []) == Success("{user{name}}")
    ensures c.Run(QueryOperation, fs, ZeroFields(fs), map[], [], GopherReply(body))
         == Outcome([Fields([Held(JString("Gopher"))])], [])
  {
    GopherDecoded(fs[0]);
    assert [fs[0]] == fs;
    RunOk(c, fs, ZeroFields(fs), "{user{name}}", "200 OK", body, GopherData(), [], [Fields([Held(JString("Gopher"))])]);
  }

  lemma GopherDecoded(u: Field)
    requires u == Plain(["User"], Record(NameFields()))
    ensures DecodeObject([u], ZeroFields([u]), GopherData()) == DecodedFields([Fields([Held(JString("Gopher"))])], None)
  {
    var fs := u.kind.fields;
    WordKey(u, "User", "user") by {
      assert Lower("User") == "user";
    }
    WordKey(fs[0], "Name", "name") by {
      assert Lower("Name") == "name";
    }
    FieldForAt(fs, "name", 0);
    assert ZeroFields(fs) == [Blank];
    NestedMember(u, "user", Member("name", JString("Gopher")), 0, Held(JString("Gopher")));
    assert [Blank][0 := Held(JString("Gopher"))] == [Held(JString("Gopher"))];
  }

  /** `ID` tagged `id`, `Name` tagged `name`, `Ignored` tagged `-`. */
  function IgnoreFields(): seq<Field>
  {
    [Tagged(["ID"], "id", Leaf), Tagged(["Name"], "name", Leaf), Tagged(["Ignored"], "-", Leaf)]
  }

  function IgnoreShape(): seq<Field>
  {
    [Plain(["User"], Record(IgnoreFields()))]
  }

  lemma IgnoreQuery(u: Field)
    requires u == Plain(["User"], Record(IgnoreFields()))
    ensures ConstructQuery(Record([u]), map[], []) == Success("{user{id,name}}")
  {
    var fs := u.kind.fields;
    LeafPart(fs[0]);
    LeafPart(fs[1]);
    ConsExcluded(fs[2], []);
    assert [fs[2]] + [] == [fs[2]];
    ConsPart(fs[1], [fs[2]], "name", []);
    assert [fs[1]] + [fs[2]] == fs[1..];
    assert ["name"] + [] == ["name"];
    ConsPart(fs[0], fs[1..], "id", ["name"]);
    assert [fs[0]] + fs[1..] == fs;
    assert ["id"] + ["name"] == ["id", "name"];
    assert LowerCamelCase(["User"]) == "user" by {
      assert Lower("User") == "user";
    }
    NamedRecord(u, ["User"], "user", fs, ["id", "name"]);
    JoinTwo(",", "id", "name");
    IgnoreTexts();
    OnlyPart(u, "user{id,name}");
    JoinOne(",", "user{id,name}");
    RootQuery([u], ["user{id,name}"], "user{id,name}");
  }

  // Joins string literals only. It is a lemma of its own so that the caller's
  // proof stays small and stable on every solver seed.
  lemma IgnoreTexts()
    ensures "user" + "{" + ("id" + "," + "name") + "}" == "user{id,name}"
    ensures "{" + "user{id,name}" + "}" == "{user{id,name}}"
  {
  }

  lemma IgnoreDecoded(u: Field)
    requires u == Plain(["User"], Record(IgnoreFields()))
    ensures DecodeObject([u], ZeroFields([u]), GopherData()) == DecodedFields([Fields([Blank, Held(JString("Gopher")), Blank])], None)
  {
    var fs := u.kind.fields;
    WordKey(u, "User", "user") by {
      assert Lower("User") == "user";
    }
    IgnoreKey(fs);
    IgnoreZeros(fs);
    NestedMember(u, "user", Member("name", JString("Gopher")), 1, Held(JString("Gopher")));
    assert [Blank, Blank, Blank][1 := Held(JString("Gopher"))] == [Blank, Held(JString("Gopher")), Blank];
  }

  lemma IgnoreZeros(fs: seq<Field>)
    requires fs == IgnoreFields()
    ensures ZeroFields(fs) == [Blank, Blank, Blank]
  {
  }

  /** `name` goes past the field tagged `id` to the one tagged `name`. */
  lemma IgnoreKey(fs: seq<Field>)
    requires fs == IgnoreFields()
    ensures FieldFor(fs, "name") == Some(1)
  {
    TagKeyOnly(fs[0], "id", "name");
    TagKeyOnly(fs[1], "name", "name");
    FieldForAt(fs, "name", 1);
  }

  /** An ignored field (graphql_test.go:285-316): it is absent from the
      document sent, and after decoding it still holds its zero value. */
  lemma IgnoredFieldExample(c: Client, body: string)
    ensures Build(QueryOperation, Record(IgnoreShape()), map[], []) == Success("{user{id,name}}")
    ensures RequestBody("{user{id,name}}", map[], []) == "{\"query\":\"" + "{user{id,name}}" + "\"}\n"
    ensures c.Run(QueryOperation, IgnoreShape(), ZeroFields(IgnoreShape()), map[], [], GopherReply(body))
         == Outcome([Fields([Blank, Held(JString("Gopher")), Blank])], [])
  {
    IgnoreQuery(IgnoreShape()[0]);
    IgnorePlain();
    PlainBody("{user{id,name}}");
    IgnoreRun(c, IgnoreShape(), body);
  }

  lemma IgnorePlain()
    ensures JsonPlain("{user{id,name}}")
  {
  }

  lemma IgnoreRun(c: Client, fs: seq<Field>, body: string)
    requires fs == IgnoreShape()
    requires Build(QueryOperation, Record(fs), map[], []) == Success("{user{id,name}}")
    ensures c.Run(QueryOperation, fs, ZeroFields(fs), map[], [], GopherReply(body))
         == Outcome([Fields([Blank, Held(JString("Gopher")), Blank])], [])
  {
    IgnoreDecoded(fs[0]);
    assert [fs[0]] == fs;
    RunOk(c, fs, ZeroFields(fs), "{user{id,name}}", "200 OK", body, GopherData(), [],
          [Fields([Blank, Held(JString("Gopher")), Blank])]);
  }
}
