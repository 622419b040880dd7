/**
 * Documents the builder writes for shapes taken from the client's own
 * test tables.
 */
module QueryExamples {
  import opened Wrappers
  import opened Text
  import opened Ident
  import opened Options
  import opened Arguments
  import opened Query

  /** An untagged, non-embedded field. */
  function Plain(words: seq<string>, kind: Kind): Field
  {
    Field(words, None, false, false, kind)
  }

  function Tagged(words: seq<string>, tag: string, kind: Kind): Field
  {
    Field(words, Some(tag), false, false, kind)
  }

  /** A leaf field is written as its name alone. */
  lemma LeafPart(f: Field)
    requires !f.Excluded() && f.kind == Leaf
    ensures FieldPart(f) == Success(f.Name())
  {
    if !f.scalar {
      assert f.Name() + "" == f.Name();
    }
  }

  /** A field list none of whose fields is excluded gives the parts of its
      fields. */
  lemma {:induction false} AllWritten(fs: seq<Field>, ps: seq<string>)
    requires |fs| == |ps|
    requires forall i | 0 <= i < |fs| :: !fs[i].Excluded() && FieldPart(fs[i]) == Success(ps[i])
    ensures FieldParts(fs) == Success(ps)
  {
    if |fs| > 0 {
      AllWritten(fs[1..], ps[1..]);
      assert [ps[0]] + ps[1..] == ps;
    }
  }

  lemma ConsPart(f: Field, fs: seq<Field>, part: string, rest: seq<string>)
    requires !f.Excluded() && FieldPart(f) == Success(part) && FieldParts(fs) == Success(rest)
    ensures FieldParts([f] + fs) == Success([part] + rest)
  {
    assert ([f] + fs)[0] == f && ([f] + fs)[1..] == fs;
  }

  lemma OnlyPart(f: Field, part: string)
    requires !f.Excluded() && FieldPart(f) == Success(part)
    ensures FieldParts([f]) == Success([part])
  {
    assert [f][1..] == [];
    assert [part] + [] == [part];
  }

  lemma ConsExcluded(f: Field, fs: seq<Field>)
    requires f.Excluded()
    ensures FieldParts([f] + fs) == FieldParts(fs)
  {
    assert ([f] + fs)[0] == f && ([f] + fs)[1..] == fs;
  }

  lemma JoinCons(sep: string, x: string, rest: seq<string>)
    requires |rest| > 0
    ensures Join(sep, [x] + rest) == x + sep + Join(sep, rest)
  {
    assert ([x] + rest)[1..] == rest;
  }

  lemma RecordPart(f: Field, parts: seq<string>)
    requires !f.Excluded() && !f.scalar && !f.Inline() && f.kind.Record?
    requires FieldParts(f.kind.fields) == Success(parts)
    ensures FieldPart(f) == Success(f.Name() + "{" + Join(",", parts) + "}")
  {
    assert f.Name() + ("{" + Join(",", parts) + "}") == f.Name() + "{" + Join(",", parts) + "}";
  }

  lemma RecordPartIs(f: Field, parts: seq<string>, joined: string, r: string)
    requires !f.Excluded() && !f.scalar && !f.Inline() && f.kind.Record?
    requires FieldParts(f.kind.fields) == Success(parts)
    requires Join(",", parts) == joined && f.Name() + "{" + joined + "}" == r
    ensures FieldPart(f) == Success(r)
  {
    RecordPart(f, parts);
  }

  lemma RecordWalk(fs: seq<Field>, parts: seq<string>)
    requires FieldParts(fs) == Success(parts)
    ensures Walk(Record(fs), false) == Success("{" + Join(",", parts) + "}")
  {
  }

  /** With no variables and no options, a query is its selection set. */
  lemma QueryShorthand(root: Kind)
    ensures ConstructQuery(root, map[], []) == Walk(root, false)
  {
    assert Anonymous(map[], []);
  }

  lemma Names()
    ensures LowerCamelCase(["Login"]) == "login"
    ensures LowerCamelCase(["Viewer"]) == "viewer"
  {
    assert Lower("Login") == "login";
    assert Lower("Viewer") == "viewer";
  }

  lemma NameDatabaseID()
    ensures LowerCamelCase(["Database", "ID"]) == "databaseId"
  {
    assert Lower("Database") == "database";
    assert Capitalized("ID") == "Id";
  }

  lemma JoinTwo(sep: string, x: string, y: string)
    ensures Join(sep, [x, y]) == x + sep + y
  {
    assert [x, y][1..] == [y];
  }

  lemma JoinFour(sep: string, w: string, x: string, y: string, z: string)
    ensures Join(sep, [w, x, y, z]) == w + sep + x + sep + y + sep + z
  {
    assert [w, x, y, z][1..] == [x, y, z];
    assert [x, y, z][1..] == [y, z];
    JoinTwo(sep, y, z);
  }

  lemma PairsCons(p: Pair, ps: seq<Pair>, sub: string, rest: string)
    requires Walk(p.value, false) == Success(sub) && PairsText(ps) == Success(rest)
    ensures PairsText([p] + ps) == Success(p.selection + sub + rest)
  {
    assert ([p] + ps)[0] == p && ([p] + ps)[1..] == ps;
  }

  /** Two names in ascending order are listed in that order. */
  lemma SortedTwo(x: string, y: string)
    requires Below(x, y)
    ensures SortedNames({x, y}) == [x, y]
  {
    BelowIrreflexive(x);
    assert x != y;
    SortedUnique([x, y], SortedNames({x, y}));
  }

  /** Three names in ascending order are listed in that order. */
  lemma SortedThree(x: string, y: string, z: string)
    requires Below(x, y) && Below(y, z)
    ensures SortedNames({x, y, z}) == [x, y, z]
  {
    BelowTransitive(x, y, z);
    BelowIrreflexive(x);
    BelowIrreflexive(y);
    assert x != y && y != z && x != z;
    SortedUnique([x, y, z], SortedNames({x, y, z}));
  }

  // ---------------------------------------------------------------------
  // Steps shared by the examples. Each takes its field as a parameter, so
  // that the texts are assembled from facts about the parts.

  /** An untagged leaf field is written as its camel-case name. */
  lemma LeafNamed(f: Field, words: seq<string>, name: string)
    requires f == Plain(words, Leaf) && LowerCamelCase(words) == name
    ensures FieldPart(f) == Success(name)
  {
    LeafPart(f);
  }

  /** An untagged field holding a record: its camel-case name, then its
      fields' parts in braces. */
  lemma NamedRecord(f: Field, words: seq<string>, name: string, inner: seq<Field>, parts: seq<string>)
    requires f == Plain(words, Record(inner)) && LowerCamelCase(words) == name
    requires FieldParts(inner) == Success(parts)
    ensures FieldPart(f) == Success(name + "{" + Join(",", parts) + "}")
  {
    RecordPart(f, parts);
  }

  /** A tagged field holding a record: the tag, then the record in braces,
      whether or not the field is embedded. */
  lemma TaggedRecord(f: Field, tag: string, inner: seq<Field>, parts: seq<string>)
    requires f.tag == Some(tag) && tag != "-" && !f.scalar && f.kind == Record(inner)
    requires FieldParts(inner) == Success(parts)
    ensures FieldPart(f) == Success(tag + "{" + Join(",", parts) + "}")
  {
    RecordPart(f, parts);
  }

  /** A query with no variables and no options over a record root. */
  lemma RootQuery(fs: seq<Field>, parts: seq<string>, joined: string)
    requires FieldParts(fs) == Success(parts) && Join(",", parts) == joined
    ensures ConstructQuery(Record(fs), map[], []) == Success("{" + joined + "}")
  {
    QueryShorthand(Record(fs));
  }

  lemma JoinOne(sep: string, x: string)
    ensures Join(sep, [x]) == x
  {
  }

  // ---------------------------------------------------------------------
  // Examples

  /** Excluded fields vanish from the selection (`ID` and `CreatedAt` are
      tagged `graphql:"-"`). */
  lemma ExcludedFieldsExample()
    ensures ConstructQuery(Record([Plain(["Viewer"], Record(ViewerFields()))]), map[], [])
      == Success("{viewer{login,databaseId}}")
  {
    ViewerQuery(Plain(["Viewer"], Record(ViewerFields())));
  }

  lemma ViewerQuery(v: Field)
    requires v == Plain(["Viewer"], Record(ViewerFields()))
    ensures ConstructQuery(Record([v]), map[], []) == Success("{viewer{login,databaseId}}")
  {
    ViewerParts();
    assert LowerCamelCase(["Viewer"]) == "viewer" by {
      Names();
    }
    NamedRecord(v, ["Viewer"], "viewer", v.kind.fields, ["login", "databaseId"]);
    JoinTwo(",", "login", "databaseId");
    ViewerText();
    OnlyPart(v, "viewer{login,databaseId}");
    JoinOne(",", "viewer{login,databaseId}");
    RootQuery([v], ["viewer{login,databaseId}"], "viewer{login,databaseId}");
    ViewerQueryText();
  }

  // Joins string literals only. It is a lemma of its own so that the caller's
  // proof stays small and stable on every solver seed.
  lemma ViewerText()
    ensures "viewer" + "{" + ("login" + "," + "databaseId") + "}" == "viewer{login,databaseId}"
  {
  }

  // Joins string literals only. It is a lemma of its own so that the caller's
  // proof stays small and stable on every solver seed.
  lemma ViewerQueryText()
    ensures "{" + "viewer{login,databaseId}" + "}" == "{viewer{login,databaseId}}"
  {
  }

  function ViewerFields(): seq<Field>
  {
    [Tagged(["ID"], "-", Leaf), Plain(["Login"], Leaf), Tagged(["Created", "At"], "-", Leaf), Plain(["Database", "ID"], Leaf)]
  }

  lemma ViewerParts()
    ensures FieldParts(ViewerFields()) == Success(["login", "databaseId"])
  {
    var fs := ViewerFields();
    assert LowerCamelCase(["Login"]) == "login" by {
      Names();
    }
    LeafNamed(fs[1], ["Login"], "login");
    assert LowerCamelCase(["Database", "ID"]) == "databaseId" by {
      NameDatabaseID();
    }
    LeafNamed(fs[3], ["Database", "ID"], "databaseId");
    SecondAndFourth(fs, "login", "databaseId");
  }

  /** Four fields of which the first and the third are excluded. */
  lemma SecondAndFourth(fs: seq<Field>, x: string, y: string)
    requires |fs| == 4 && fs[0].Excluded() && fs[2].Excluded() && !fs[1].Excluded() && !fs[3].Excluded()
    requires FieldPart(fs[1]) == Success(x) && FieldPart(fs[3]) == Success(y)
    ensures FieldParts(fs) == Success([x, y])
  {
    OnlyPart(fs[3], y);
    ConsExcluded(fs[2], [fs[3]]);
    ConsPart(fs[1], [fs[2]] + [fs[3]], x, [y]);
    ConsExcluded(fs[0], [fs[1]] + ([fs[2]] + [fs[3]]));
    assert fs == [fs[0]] + ([fs[1]] + ([fs[2]] + [fs[3]]));
    assert [x] + [y] == [x, y];
  }

  /** Four written fields. */
  lemma FourParts(fs: seq<Field>, w: string, x: string, y: string, z: string)
    requires |fs| == 4 && !fs[0].Excluded() && !fs[1].Excluded() && !fs[2].Excluded() && !fs[3].Excluded()
    requires FieldPart(fs[0]) == Success(w) && FieldPart(fs[1]) == Success(x)
    requires FieldPart(fs[2]) == Success(y) && FieldPart(fs[3]) == Success(z)
    ensures FieldParts(fs) == Success([w, x, y, z])
  {
    OnlyPart(fs[3], z);
    ConsPart(fs[2], [fs[3]], y, [z]);
    ConsPart(fs[1], [fs[2]] + [fs[3]], x, [y] + [z]);
    ConsPart(fs[0], [fs[1]] + ([fs[2]] + [fs[3]]), w, [x] + ([y] + [z]));
    assert fs == [fs[0]] + ([fs[1]] + ([fs[2]] + [fs[3]]));
    assert [w] + ([x] + ([y] + [z])) == [w, x, y, z];
  }

  /** A map tagged `scalar:"true"` is written as a bare name; untagged, it is
      an error. */
  lemma ScalarMapExample()
    ensures ConstructQuery(Record(TagsFields()), map[], []) == Success("{viewer{id,login},tags}")
  {
    ScalarMapQuery(TagsFields());
  }

  lemma UnsupportedMapExample()
    ensures ConstructQuery(Record([Plain(["Tags"], MapOf("map[string]interface {}"))]), map[], [])
      == Failure(MapError("map[string]interface {}"))
  {
    UnsupportedMapQuery(Plain(["Tags"], MapOf("map[string]interface {}")), "map[string]interface {}");
  }

  function TagsFields(): seq<Field>
  {
    [Plain(["Viewer"], Record(IdLoginFields())), Field(["Tags"], None, true, false, MapOf("map[string]interface {}"))]
  }

  function IdLoginFields(): seq<Field>
  {
    [Plain(["ID"], Leaf), Plain(["Login"], Leaf)]
  }

  lemma IdLoginParts(fs: seq<Field>)
    requires fs == IdLoginFields()
    ensures FieldParts(fs) == Success(["id", "login"])
  {
    Names();
    assert LowerCamelCase(["ID"]) == "id" by {
      OneWord("ID", "id");
    }
    LeafPart(fs[0]);
    LeafPart(fs[1]);
    AllWritten(fs, ["id", "login"]);
  }

  lemma ScalarMapQuery(fs: seq<Field>)
    requires fs == TagsFields()
    ensures ConstructQuery(Record(fs), map[], []) == Success("{viewer{id,login},tags}")
  {
    IdLoginParts(fs[0].kind.fields);
    assert LowerCamelCase(["Viewer"]) == "viewer" by {
      Names();
    }
    NamedRecord(fs[0], ["Viewer"], "viewer", fs[0].kind.fields, ["id", "login"]);
    JoinTwo(",", "id", "login");
    ScalarMapTexts();
    assert LowerCamelCase(["Tags"]) == "tags" by {
      OneWord("Tags", "tags");
    }
    assert FieldPart(fs[1]) == Success("tags");
    AllWritten(fs, ["viewer{id,login}", "tags"]);
    JoinTwo(",", "viewer{id,login}", "tags");
    RootQuery(fs, ["viewer{id,login}", "tags"], "viewer{id,login}" + "," + "tags");
  }

  // Joins string literals only. It is a lemma of its own so that the caller's
  // proof stays small and stable on every solver seed.
  lemma ScalarMapTexts()
    ensures "viewer" + "{" + ("id" + "," + "login") + "}" == "viewer{id,login}"
    ensures "{" + ("viewer{id,login}" + "," + "tags") + "}" == "{viewer{id,login},tags}"
  {
  }

  lemma UnsupportedMapQuery(f: Field, t: string)
    requires f == Plain(["Tags"], MapOf(t))
    ensures ConstructQuery(Record([f]), map[], []) == Failure(MapError(t))
  {
    assert FieldPart(f) == Failure(MapError(t));
    assert FieldParts([f]) == Failure(MapError(t));
    QueryShorthand(Record([f]));
  }

  /** An untagged embedded struct is spliced in place; a tagged one is a
      named child of its own. */
  lemma EmbeddedExample()
    ensures ConstructQuery(Record(EventFields()), map[], [])
      == Success("{" + ("actor{login,url}" + "," + "createdAt" + "," + "... on IssueComment{body}" + "," + "currentTitle") + "}")
  {
    EventQuery(EventFields());
  }

  lemma EventQuery(fs: seq<Field>)
    requires fs == EventFields()
    ensures ConstructQuery(Record(fs), map[], [])
      == Success("{" + ("actor{login,url}" + "," + "createdAt" + "," + "... on IssueComment{body}" + "," + "currentTitle") + "}")
  {
    EventSpliced(fs);
    assert fs[0].kind.fields + fs[1..] == EventFlat();
    QueryShorthand(Record(fs));
    FlatQuery(EventFlat());
  }

  lemma FlatQuery(flat: seq<Field>)
    requires flat == EventFlat()
    ensures Walk(Record(flat), false)
      == Success("{" + ("actor{login,url}" + "," + "createdAt" + "," + "... on IssueComment{body}" + "," + "currentTitle") + "}")
  {
    QueryShorthand(Record(flat));
    FrontParts(flat[0], flat[1]);
    BackParts(flat[2], flat[3]);
    FourFieldQuery(flat, "actor{login,url}", "createdAt", "... on IssueComment{body}", "currentTitle");
  }

  /** Four written fields make the document of their parts. */
  lemma FourFieldQuery(fs: seq<Field>, w: string, x: string, y: string, z: string)
    requires |fs| == 4 && !fs[0].Excluded() && !fs[1].Excluded() && !fs[2].Excluded() && !fs[3].Excluded()
    requires FieldPart(fs[0]) == Success(w) && FieldPart(fs[1]) == Success(x)
    requires FieldPart(fs[2]) == Success(y) && FieldPart(fs[3]) == Success(z)
    ensures ConstructQuery(Record(fs), map[], []) == Success("{" + (w + "," + x + "," + y + "," + z) + "}")
  {
    FourParts(fs, w, x, y, z);
    JoinFour(",", w, x, y, z);
    RootQuery(fs, [w, x, y, z], w + "," + x + "," + y + "," + z);
  }

  lemma FrontParts(actor: Field, createdAt: Field)
    requires actor == Plain(["Actor"], Record(ActorFields())) && createdAt == Plain(["Created", "At"], Leaf)
    ensures !actor.Excluded() && !createdAt.Excluded()
    ensures FieldPart(actor) == Success("actor{login,url}") && FieldPart(createdAt) == Success("createdAt")
  {
    ActorPart(actor);
    CreatedAtPart(createdAt);
  }

  lemma BackParts(comment: Field, currentTitle: Field)
    requires comment == CommentField() && currentTitle == Plain(["Current", "Title"], Leaf)
    ensures !comment.Excluded() && !currentTitle.Excluded()
    ensures FieldPart(comment) == Success("... on IssueComment{body}") && FieldPart(currentTitle) == Success("currentTitle")
  {
    CommentPart(comment);
    CurrentTitlePart(currentTitle);
  }

  lemma CreatedAtPart(f: Field)
    requires f == Plain(["Created", "At"], Leaf)
    ensures FieldPart(f) == Success("createdAt")
  {
    CamelCreatedAt();
    LeafNamed(f, ["Created", "At"], "createdAt");
  }

  lemma CurrentTitlePart(f: Field)
    requires f == Plain(["Current", "Title"], Leaf)
    ensures FieldPart(f) == Success("currentTitle")
  {
    CamelCurrentTitle();
    LeafNamed(f, ["Current", "Title"], "currentTitle");
  }

  function EventFields(): seq<Field>
  {
    [Field(["event"], None, false, true, Record([Plain(["Actor"], Record(ActorFields())), Plain(["Created", "At"], Leaf)])),
     CommentField(), Plain(["Current", "Title"], Leaf)]
  }

  function ActorFields(): seq<Field>
  {
    [Plain(["Login"], Leaf), Plain(["URL"], Leaf)]
  }

  lemma EventSpliced(fs: seq<Field>)
    requires fs == EventFields()
    ensures Walk(Record(fs), false) == Walk(Record(fs[0].kind.fields + fs[1..]), false)
  {
    var event := fs[0].kind.fields;
    assert fs == [] + [fs[0]] + fs[1..];
    assert Visible(event)[0] == event[0];
    EmbeddedFieldsSpliced([], fs[0], fs[1..], false);
    assert [] + event + fs[1..] == event + fs[1..];
  }

  /** The event's fields once the embedded struct is spliced in. */
  function EventFlat(): seq<Field>
  {
    [Plain(["Actor"], Record(ActorFields())), Plain(["Created", "At"], Leaf), CommentField(), Plain(["Current", "Title"], Leaf)]
  }

  function CommentField(): Field
  {
    Field(["Issue", "Comment"], Some("... on IssueComment"), false, true, Record([Plain(["Body"], Leaf)]))
  }

  lemma ActorPart(actor: Field)
    requires actor == Plain(["Actor"], Record(ActorFields()))
    ensures FieldPart(actor) == Success("actor{login,url}")
  {
    ActorFieldParts(actor.kind.fields);
    CamelActor();
    NamedRecord(actor, ["Actor"], "actor", actor.kind.fields, ["login", "url"]);
    JoinTwo(",", "login", "url");
    ActorText();
  }

  // Joins string literals only. It is a lemma of its own so that the caller's
  // proof stays small and stable on every solver seed.
  lemma ActorText()
    ensures "actor" + "{" + ("login" + "," + "url") + "}" == "actor{login,url}"
  {
  }

  lemma ActorFieldParts(inner: seq<Field>)
    requires inner == ActorFields()
    ensures FieldParts(inner) == Success(["login", "url"])
  {
    Names();
    CamelUrl();
    LeafPart(inner[0]);
    LeafPart(inner[1]);
    AllWritten(inner, ["login", "url"]);
  }

  lemma CommentPart(comment: Field)
    requires comment == CommentField()
    ensures FieldPart(comment) == Success("... on IssueComment{body}")
  {
    var inner := comment.kind.fields;
    CamelBody();
    LeafNamed(inner[0], ["Body"], "body");
    OnlyPart(inner[0], "body");
    TaggedRecord(comment, "... on IssueComment", inner, ["body"]);
    JoinOne(",", "body");
    CommentText();
  }

  // Joins string literals only. It is a lemma of its own so that the caller's
  // proof stays small and stable on every solver seed.
  lemma CommentText()
    ensures "... on IssueComment" + "{" + "body" + "}" == "... on IssueComment{body}"
  {
  }

  lemma CamelActor()
    ensures LowerCamelCase(["Actor"]) == "actor"
  {
    OneWord("Actor", "actor");
  }

  lemma CamelUrl()
    ensures LowerCamelCase(["URL"]) == "url"
  {
    OneWord("URL", "url");
  }

  lemma CamelBody()
    ensures LowerCamelCase(["Body"]) == "body"
  {
    OneWord("Body", "body");
  }

  lemma CamelCreatedAt()
    ensures LowerCamelCase(["Created", "At"]) == "createdAt"
  {
    TwoWords("Created", "At", "created", "At");
  }

  lemma CamelCurrentTitle()
    ensures LowerCamelCase(["Current", "Title"]) == "currentTitle"
  {
    TwoWords("Current", "Title", "current", "Title");
  }

  lemma OneWord(w: string, r: string)
    requires Lower(w) == r
    ensures LowerCamelCase([w]) == r
  {
    assert [w][1..] == [];
  }

  lemma TwoWords(w1: string, w2: string, r1: string, r2: string)
    requires Lower(w1) == r1 && Capitalized(w2) == r2
    ensures LowerCamelCase([w1, w2]) == r1 + r2
  {
    assert [w1, w2][1..] == [w2] && [w2][1..] == [];
  }

  /** A root pair list of two mutations, with their variables: the entries
      follow each other with no comma. */
  lemma PairListMutationExample()
    ensures ConstructMutation(Pairs(UserPairs()), LoginVariables(), [])
      == Success("mutation" + (" (" + "$login1:String!$login2:String!" + ")")
                 + ("{" + ("createUser(login:$login1){login}" + "deleteUser(login:$login2){login}") + "}"))
  {
    PairListMutation(UserPairs(), LoginVariables());
  }

  lemma PairListMutation(ps: seq<Pair>, vars: map<string, Variable>)
    requires ps == UserPairs() && vars == LoginVariables()
    ensures ConstructMutation(Pairs(ps), vars, [])
      == Success("mutation" + (" (" + "$login1:String!$login2:String!" + ")")
                 + ("{" + ("createUser(login:$login1){login}" + "deleteUser(login:$login2){login}") + "}"))
  {
    var body := "createUser(login:$login1){login}" + "deleteUser(login:$login2){login}";
    UserPairsText(ps);
    assert Walk(Pairs(ps), false) == Success("{" + body + "}");
    LoginHeader(vars);
    assert "login1" in vars;
    MutationOf(Pairs(ps), vars, " (" + "$login1:String!$login2:String!" + ")", "{" + body + "}");
  }

  function UserPairs(): seq<Pair>
  {
    [Pair("createUser(login:$login1)", Pointer(Record([Plain(["Login"], Leaf)]))),
     Pair("deleteUser(login:$login2)", Pointer(Record([Plain(["Login"], Leaf)])))]
  }

  function LoginVariables(): map<string, Variable>
  {
    map["login1" := Variable(Named("String"), "\"grihabor\""), "login2" := Variable(Named("String"), "\"diman\"")]
  }

  /** The walk of `*struct{ Login string }`. */
  lemma LoginRecord(k: Kind)
    requires k == Pointer(Record([Plain(["Login"], Leaf)]))
    ensures Walk(k, false) == Success("{login}")
  {
    var user := k.elem.fields;
    assert LowerCamelCase(["Login"]) == "login" by {
      Names();
    }
    LeafNamed(user[0], ["Login"], "login");
    OnlyPart(user[0], "login");
    RecordWalk(user, ["login"]);
    JoinOne(",", "login");
    LoginText();
  }

  // Joins string literals only. It is a lemma of its own so that the caller's
  // proof stays small and stable on every solver seed.
  lemma LoginText()
    ensures "{" + "login" + "}" == "{login}"
  {
  }

  /** A mutation with variables and no options: the keyword, the header and
      the selection set. */
  lemma MutationOf(root: Kind, vars: map<string, Variable>, tail: string, body: string)
    requires Walk(root, false) == Success(body) && |vars| > 0 && HeaderTail(vars, []) == tail
    ensures ConstructMutation(root, vars, []) == Success("mutation" + tail + body)
  {
  }

  lemma UserPairsText(ps: seq<Pair>)
    requires ps == UserPairs()
    ensures PairsText(ps) == Success("createUser(login:$login1){login}" + "deleteUser(login:$login2){login}")
  {
    LoginRecord(ps[0].value);
    LoginRecord(ps[1].value);
    PairsCons(ps[1], [], "{login}", "");
    assert [ps[1]] + [] == ps[1..];
    PairsCons(ps[0], ps[1..], "{login}", ps[1].selection + "{login}" + "");
    assert [ps[0]] + ps[1..] == ps;
    PairTexts();
    assert "deleteUser(login:$login2){login}" + "" == "deleteUser(login:$login2){login}";
  }

  // Joins string literals only. It is a lemma of its own so that the caller's
  // proof stays small and stable on every solver seed.
  lemma PairTexts()
    ensures "createUser(login:$login1)" + "{login}" == "createUser(login:$login1){login}"
    ensures "deleteUser(login:$login2)" + "{login}" == "deleteUser(login:$login2){login}"
  {
  }

  lemma LoginHeader(vars: map<string, Variable>)
    requires vars == LoginVariables()
    ensures HeaderTail(vars, []) == " (" + "$login1:String!$login2:String!" + ")"
  {
    HeaderText();
    assert vars.Keys == {"login1", "login2"};
    assert Below("login1", "login2") by {
      BelowLogins();
    }
    SortedTwo("login1", "login2");
    LoginDeclarations(vars);
  }

  lemma BelowLogins()
    ensures Below("login1", "login2")
  {
  }

  lemma LoginDeclarations(vars: map<string, Variable>)
    requires vars == LoginVariables()
    ensures DeclarationsOf(["login1", "login2"], vars) == "$login1:String!$login2:String!"
  {
    var names := ["login1", "login2"];
    assert names[1..] == ["login2"] && names[1..][1..] == [];
  }

  // Joins string literals only. It is a lemma of its own so that the caller's
  // proof stays small and stable on every solver seed.
  lemma HeaderText()
    ensures " " + "" + ("(" + "$login1:String!$login2:String!" + ")") + "" == " (" + "$login1:String!$login2:String!" + ")"
  {
  }

  /** The header of a named query with a `@cached` directive. */
  lemma NamedHeaderExample()
    ensures HeaderTail(map[], [OperationName("GetRepository"), CachedDirective(0).AsOption()]) == " GetRepository @cached "
  {
    NamedHeader([OperationName("GetRepository"), CachedDirective(0).AsOption()]);
  }

  lemma NamedHeader(options: seq<QueryOption>)
    requires options == [OperationName("GetRepository"), CachedDirective(0).AsOption()]
    ensures HeaderTail(map[], options) == " GetRepository @cached "
  {
    var name, cd := options[..1], CachedDirective(0);
    assert options == name + [cd.AsOption()];
    assert name[..0] == [];
    assert NameOf(name) == "GetRepository" && DirectivesOf(name) == [];
    CachedDirectiveIsDirective(cd, name);
    assert cd.String() == "@cached";
    assert [] + ["@cached"] == ["@cached"];
    JoinOne(" ", "@cached");
    HeaderOf(map[], options, "GetRepository", " " + "@cached" + " ");
    NamedHeaderText();
  }

  /** A header with no variables: a space, the name, then the directive part. */
  lemma HeaderOf(vars: map<string, Variable>, options: seq<QueryOption>, n: string, t: string)
    requires |vars| == 0 && NameOf(options) == n && DirectivesText(DirectivesOf(options)) == t
    ensures HeaderTail(vars, options) == " " + n + t
  {
    assert " " + n + "" + t == " " + n + t;
  }

  // Joins string literals only. It is a lemma of its own so that the caller's
  // proof stays small and stable on every solver seed.
  lemma NamedHeaderText()
    ensures " " + "GetRepository" + (" " + "@cached" + " ") == " GetRepository @cached "
  {
  }

  /** A whole query document with three variables: the header declares
      them in ascending order of name, and the tags refer to them. */
  lemma IssueBodyExample()
    ensures ConstructQuery(Record(IssueFields()), IssueVariables(), [])
      == Success("query " + ("(" + ("$issueNumber:Int!" + "$repositoryName:String!" + "$repositoryOwner:String!") + ")")
                 + ("{" + "repository(owner: $repositoryOwner, name: $repositoryName){issue(number: $issueNumber){body}}" + "}"))
  {
    IssueBodyQuery(Record(IssueFields()), IssueVariables());
  }

  function IssueFields(): seq<Field>
  {
    [Tagged(["Repository"], "repository(owner: $repositoryOwner, name: $repositoryName)",
       Record([Tagged(["Issue"], "issue(number: $issueNumber)", Record([Plain(["Body"], Leaf)]))]))]
  }

  function IssueVariables(): map<string, Variable>
  {
    map["repositoryOwner" := Variable(Named("String"), "\"shurcooL-test\""),
        "repositoryName" := Variable(Named("String"), "\"test-repo\""),
        "issueNumber" := Variable(Named("Int"), "1")]
  }

  lemma IssueBodyQuery(root: Kind, vars: map<string, Variable>)
    requires root == Record(IssueFields()) && vars == IssueVariables()
    ensures ConstructQuery(root, vars, [])
      == Success("query " + ("(" + ("$issueNumber:Int!" + "$repositoryName:String!" + "$repositoryOwner:String!") + ")")
                 + ("{" + "repository(owner: $repositoryOwner, name: $repositoryName){issue(number: $issueNumber){body}}" + "}"))
  {
    IssueWalk(root);
    IssueArguments(vars);
    QueryWithVariables(root, vars, "$issueNumber:Int!" + "$repositoryName:String!" + "$repositoryOwner:String!",
      "{" + "repository(owner: $repositoryOwner, name: $repositoryName){issue(number: $issueNumber){body}}" + "}");
  }

  /** A query with variables and no options: the keyword, the declarations
      in parentheses and the selection set. */
  lemma QueryWithVariables(root: Kind, vars: map<string, Variable>, decls: string, body: string)
    requires Walk(root, false) == Success(body) && |vars| > 0 && ArgumentsText(vars) == decls
    ensures ConstructQuery(root, vars, []) == Success("query " + ("(" + decls + ")") + body)
  {
    WalkSupported(root, false);
    assert |DirectivesOf([])| == 0;
    OperationLayout(root, vars, []);
    assert "query " + "" + ("(" + decls + ")") + "" == "query " + ("(" + decls + ")");
  }

  /** The selection set: each tag, then the record it holds in braces. */
  lemma IssueWalk(root: Kind)
    requires root == Record(IssueFields())
    ensures Walk(root, false) == Success("{" + "repository(owner: $repositoryOwner, name: $repositoryName){issue(number: $issueNumber){body}}" + "}")
  {
    var repository := root.fields[0];
    var issue := repository.kind.fields[0];
    var body := issue.kind.fields[0];
    IssueTexts();
    CamelBody();
    LeafNamed(body, ["Body"], "body");
    OnlyPart(body, "body");
    JoinOne(",", "body");
    TaggedRecord(issue, "issue(number: $issueNumber)", [body], ["body"]);
    OnlyPart(issue, "issue(number: $issueNumber){body}");
    JoinOne(",", "issue(number: $issueNumber){body}");
    TaggedRecord(repository, "repository(owner: $repositoryOwner, name: $repositoryName)", [issue], ["issue(number: $issueNumber){body}"]);
    OnlyPart(repository, "repository(owner: $repositoryOwner, name: $repositoryName){issue(number: $issueNumber){body}}");
    RecordWalk(root.fields, ["repository(owner: $repositoryOwner, name: $repositoryName){issue(number: $issueNumber){body}}"]);
    JoinOne(",", "repository(owner: $repositoryOwner, name: $repositoryName){issue(number: $issueNumber){body}}");
  }

  // Joins string literals only. It is a lemma of its own so that the caller's
  // proof stays small and stable on every solver seed.
  lemma IssueTexts()
    ensures "issue(number: $issueNumber)" + "{" + "body" + "}" == "issue(number: $issueNumber){body}"
    ensures "repository(owner: $repositoryOwner, name: $repositoryName)" + "{" + "issue(number: $issueNumber){body}" + "}"
         == "repository(owner: $repositoryOwner, name: $repositoryName){issue(number: $issueNumber){body}}"
  {
  }

  /** `issueNumber` sorts before `repositoryName`, which sorts before
      `repositoryOwner`. */
  lemma IssueArguments(vars: map<string, Variable>)
    requires vars == IssueVariables()
    ensures |vars| == 3
    ensures ArgumentsText(vars) == "$issueNumber:Int!" + "$repositoryName:String!" + "$repositoryOwner:String!"
  {
    assert vars.Keys == {"issueNumber", "repositoryName", "repositoryOwner"};
    BelowIssueNames();
    SortedThree("issueNumber", "repositoryName", "repositoryOwner");
    IssueDeclarations(vars);
  }

  lemma BelowIssueNames()
    ensures Below("issueNumber", "repositoryName") && Below("repositoryName", "repositoryOwner")
  {
  }

  lemma IssueDeclarations(vars: map<string, Variable>)
    requires vars == IssueVariables()
    ensures DeclarationsOf(["issueNumber", "repositoryName", "repositoryOwner"], vars)
      == "$issueNumber:Int!" + "$repositoryName:String!" + "$repositoryOwner:String!"
  {
    var names := ["issueNumber", "repositoryName", "repositoryOwner"];
    assert names[1..] == ["repositoryName", "repositoryOwner"];
    assert names[1..][1..] == ["repositoryOwner"] && names[1..][1..][1..] == [];
    assert TypeText(Named("Int"), true) == "Int!" && TypeText(Named("String"), true) == "String!";
    IssueDeclarationTexts();
    ThreeAppended("$issueNumber:Int!", "$repositoryName:String!", "$repositoryOwner:String!");
  }

  lemma ThreeAppended(a: string, b: string, c: string)
    ensures a + (b + (c + "")) == a + b + c
  {
  }

  // Joins string literals only. It is a lemma of its own so that the caller's
  // proof stays small and stable on every solver seed.
  lemma IssueDeclarationTexts()
    ensures "$" + "issueNumber" + ":" + "Int!" == "$issueNumber:Int!"
    ensures "$" + "repositoryName" + ":" + "String!" == "$repositoryName:String!"
    ensures "$" + "repositoryOwner" + ":" + "String!" == "$repositoryOwner:String!"
  {
  }

  // ---------------------------------------------------------------------
  // Variable declarations

  /** The types written for the test table's values. */
  lemma TypeTextExamples()
    ensures TypeText(Named("Int"), true) == "Int!"
    ensures TypeText(PointerTo(Named("Boolean")), true) == "Boolean"
    ensures TypeText(SliceOf(Named("ID")), true) == "[ID!]!"
    ensures TypeText(PointerTo(SliceOf(Named("ID"))), true) == "[ID!]"
    ensures TypeText(ArrayOf(2, Named("IssueState")), true) == "[IssueState!]!"
    ensures TypeText(PointerTo(ArrayOf(2, Named("IssueState"))), true) == "[IssueState!]"
  {
    ScalarTypeTexts();
    IdListTypeTexts();
    StateListTypeTexts();
  }

  lemma ScalarTypeTexts()
    ensures TypeText(Named("Int"), true) == "Int!"
    ensures TypeText(PointerTo(Named("Boolean")), true) == "Boolean"
  {
  }

  lemma IdListTypeTexts()
    ensures TypeText(SliceOf(Named("ID")), true) == "[ID!]!"
    ensures TypeText(PointerTo(SliceOf(Named("ID"))), true) == "[ID!]"
  {
  }

  lemma StateListTypeTexts()
    ensures TypeText(ArrayOf(2, Named("IssueState")), true) == "[IssueState!]!"
    ensures TypeText(PointerTo(ArrayOf(2, Named("IssueState"))), true) == "[IssueState!]"
  {
  }

  /** A required value and an optional one, listed by name. */
  lemma ArgumentsExample()
    ensures ArgumentsText(map["a" := Variable(Named("Int"), "123"), "b" := Variable(PointerTo(Named("Boolean")), "true")])
      == "$a:Int!" + "$b:Boolean"
  {
    TwoDeclarations(map["a" := Variable(Named("Int"), "123"), "b" := Variable(PointerTo(Named("Boolean")), "true")], "a", "b");
  }

  /** The declarations of two variables in ascending order of name. */
  lemma TwoDeclarations(vars: map<string, Variable>, x: string, y: string)
    requires vars.Keys == {x, y} && Below(x, y)
    ensures ArgumentsText(vars) == Declaration(x, vars[x]) + Declaration(y, vars[y])
  {
    SortedTwo(x, y);
    var names := [x, y];
    assert names[1..] == [y] && names[1..][1..] == [];
    assert DeclarationsOf(names[1..][1..], vars) == "";
    assert DeclarationsOf(names[1..], vars) == Declaration(y, vars[y]) + "";
    assert Declaration(y, vars[y]) + "" == Declaration(y, vars[y]);
  }

  /** The slice and the pointer to a slice: `optional` comes first. */
  lemma ListArgumentsExample()
    ensures ArgumentsText(IssueStateVariables(SliceOf(Named("IssueState")))) == "$optional:[IssueState!]" + "$required:[IssueState!]!"
    ensures ArgumentsText(IssueStateVariables(ArrayOf(2, Named("IssueState")))) == "$optional:[IssueState!]" + "$required:[IssueState!]!"
  {
    TypeTextExamples();
    ListArguments(SliceOf(Named("IssueState")));
    ListArguments(ArrayOf(2, Named("IssueState")));
  }

  function IssueStateVariables(required: GoType): map<string, Variable>
  {
    map["required" := Variable(required, "[\"OPEN\",\"CLOSED\"]"), "optional" := Variable(PointerTo(required), "[\"OPEN\",\"CLOSED\"]")]
  }

  lemma ListArguments(required: GoType)
    requires TypeText(required, true) == "[IssueState!]!" && TypeText(PointerTo(required), true) == "[IssueState!]"
    ensures ArgumentsText(IssueStateVariables(required)) == "$optional:[IssueState!]" + "$required:[IssueState!]!"
  {
    var vars := IssueStateVariables(required);
    assert vars.Keys == {"optional", "required"};
    BelowOptional();
    TwoDeclarations(vars, "optional", "required");
    DeclarationTexts();
  }

  // Joins string literals only. It is a lemma of its own so that the caller's
  // proof stays small and stable on every solver seed.
  lemma DeclarationTexts()
    ensures "$" + "optional" + ":" + "[IssueState!]" == "$optional:[IssueState!]"
    ensures "$" + "required" + ":" + "[IssueState!]!" == "$required:[IssueState!]!"
  {
  }

  lemma BelowOptional()
    ensures Below("optional", "required")
  {
  }
}
