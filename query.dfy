/**
 * The operation-document builder (`ConstructQuery`, `ConstructMutation`,
 * `ConstructSubscription`): a description of the shape of the caller's value
 * is walked into a minified GraphQL selection set, which is prefixed by the
 * operation header (keyword, name, variable declarations, directives).
 */
module Query {
  import opened Wrappers
  import opened Text
  import opened Ident
  import opened Options
  import opened Arguments

  /** The shape of a Go type as the builder walks it. */
  datatype Kind =
    | Leaf                      // Go scalars, interface{}, and types that decode themselves (DateTime, URI)
    | Record(fields: seq<Field>)  // a struct, fields in declaration order
    | ListOf(elem: Kind)          // a slice or array other than [][2]interface{}
    | Pointer(elem: Kind)         // *T
    | Pairs(entries: seq<Pair>)   // a [][2]interface{} value: an ordered list of (selection, value)
    | MapOf(typeName: string)     // a Go map, shown by its type as `%v` prints it

  /** A struct field: its identifier split into words (`DatabaseID` is
      ["Database", "ID"]), its `graphql` tag if it has one, whether it is
      tagged `scalar:"true"`, and whether it is an embedded (anonymous) member. */
  datatype Field = Field(words: seq<string>, tag: Option<string>, scalar: bool, embedded: bool, kind: Kind)
  {
    /** `graphql:"-"`: the field takes no part in the document. */
    predicate Excluded()
    {
      tag == Some("-")
    }

    /** An untagged embedded member: its fields are written in place. */
    predicate Inline()
    {
      embedded && tag.None?
    }

    /** The text written for the field before its selection set. */
    function Name(): string
    {
      if Inline() then "" else if tag.Some? then tag.value else LowerCamelCase(words)
    }
  }

  /** An entry of a pair list: the literal selection text and the value whose
      shape follows it. */
  datatype Pair = Pair(selection: string, value: Kind)

  const UnsupportedSuffix := " is not supported, use [][2]interface{} instead"

  /** The error for a map that is walked. */
  function MapError(typeName: string): string
  {
    "type " + typeName + UnsupportedSuffix
  }

  predicate IsMapError(e: string)
  {
    |e| >= 5 + |UnsupportedSuffix| && e[..5] == "type " && e[|e| - |UnsupportedSuffix|..] == UnsupportedSuffix
  }

  /** The shapes the builder accepts: no map is walked, that is, every map
      sits behind a `scalar:"true"` field or an excluded one. */
  predicate Supported(k: Kind)
    decreases k
  {
    match k
    case Leaf => true
    case Pointer(e) => Supported(e)
    case ListOf(e) => Supported(e)
    case MapOf(_) => false
    case Record(fs) => forall i | 0 <= i < |fs| :: fs[i].Excluded() || fs[i].scalar || Supported(fs[i].kind)
    case Pairs(ps) => forall i | 0 <= i < |ps| :: Supported(ps[i].value)
  }

  /** The fields that are written, in order. */
  function Visible(fs: seq<Field>): (vs: seq<Field>)
    ensures |vs| <= |fs|
    ensures forall f | f in vs :: f in fs && !f.Excluded()
    ensures forall f | f in fs && !f.Excluded() :: f in vs
  {
    if |fs| == 0 then []
    else if fs[0].Excluded() then Visible(fs[1..])
    else [fs[0]] + Visible(fs[1..])
  }

  /** The written fields keep their declaration order: those of two field
      lists are those of the first followed by those of the second. */
  lemma {:induction false} VisibleAppend(a: seq<Field>, b: seq<Field>)
    ensures Visible(a + b) == Visible(a) + Visible(b)
    decreases |a|
  {
    if |a| == 0 {
      assert a + b == b;
    } else {
      assert (a + b)[1..] == a[1..] + b;
      VisibleAppend(a[1..], b);
      if !a[0].Excluded() {
        assert [a[0]] + (Visible(a[1..]) + Visible(b)) == [a[0]] + Visible(a[1..]) + Visible(b);
      }
    }
  }

  // ---------------------------------------------------------------------
  // The selection set

  /** Walks a shape. A record is wrapped in braces unless it is written
      inline; slices and pointers add no level; a pair list is a selection
      set whose entries follow each other with no separator; leaves add
      nothing; a map is an error. */
  function Walk(k: Kind, inline: bool): Result<string, string>
    decreases k
  {
    match k
    case Leaf => Success("")
    case Pointer(e) => Walk(e, false)
    case ListOf(e) => Walk(e, false)
    case MapOf(t) => Failure(MapError(t))
    case Record(fs) =>
      var parts :- FieldParts(fs);
      var body := Join(",", parts);
      Success(if inline then body else "{" + body + "}")
    case Pairs(ps) =>
      var body :- PairsText(ps);
      Success("{" + body + "}")
  }

  /** The text of each written field of a record, in declaration order; the
      first failing field decides the error. */
  function FieldParts(fs: seq<Field>): Result<seq<string>, string>
    decreases fs
  {
    if |fs| == 0 then Success([])
    else if fs[0].Excluded() then FieldParts(fs[1..])
    else
      var part :- FieldPart(fs[0]);
      var rest :- FieldParts(fs[1..]);
      Success([part] + rest)
  }

  /** One written field: its name, then its selection set unless it is a
      scalar. An untagged embedded member has no name and no braces. */
  function FieldPart(f: Field): (r: Result<string, string>)
    requires !f.Excluded()
    ensures r.Success? ==> |f.Name()| <= |r.value| && r.value[..|f.Name()|] == f.Name()
    decreases f
  {
    if f.scalar then Success(f.Name())
    else
      var sub :- Walk(f.kind, f.Inline());
      Success(f.Name() + sub)
  }

  /** The entries of a pair list: each selection text followed by the walk
      of its value. */
  function PairsText(ps: seq<Pair>): Result<string, string>
    decreases ps
  {
    if |ps| == 0 then Success("")
    else
      var sub :- Walk(ps[0].value, false);
      var rest :- PairsText(ps[1..]);
      Success(ps[0].selection + sub + rest)
  }

  /** A shape is written exactly when it is supported; otherwise the error
      names the map that was walked. */
  lemma {:induction false} WalkSupported(k: Kind, inline: bool)
    ensures Walk(k, inline).Success? <==> Supported(k)
    ensures Walk(k, inline).Failure? ==> IsMapError(Walk(k, inline).error)
    decreases k
  {
    match k
    case Leaf =>
    case Pointer(e) => WalkSupported(e, false);
    case ListOf(e) => WalkSupported(e, false);
    case MapOf(t) =>
    case Record(fs) => FieldPartsSupported(fs);
    case Pairs(ps) => PairsTextSupported(ps);
  }

  /** A field list is written exactly when every field is excluded, a scalar
      or of a supported shape; it then gives one part per written field. */
  lemma {:induction false} FieldPartsSupported(fs: seq<Field>)
    ensures FieldParts(fs).Success? <==> forall i | 0 <= i < |fs| :: fs[i].Excluded() || fs[i].scalar || Supported(fs[i].kind)
    ensures FieldParts(fs).Success? ==> |FieldParts(fs).value| == |Visible(fs)|
    ensures FieldParts(fs).Failure? ==> IsMapError(FieldParts(fs).error)
    decreases fs
  {
    if |fs| > 0 {
      FieldPartsSupported(fs[1..]);
      if !fs[0].Excluded() {
        FieldPartSupported(fs[0]);
      }
      assert forall i | 1 <= i < |fs| :: fs[i] == fs[1..][i - 1];
    }
  }

  lemma {:induction false} FieldPartSupported(f: Field)
    requires !f.Excluded()
    ensures FieldPart(f).Success? <==> f.scalar || Supported(f.kind)
    ensures FieldPart(f).Failure? ==> IsMapError(FieldPart(f).error)
    decreases f
  {
    if !f.scalar {
      WalkSupported(f.kind, f.Inline());
    }
  }

  lemma {:induction false} PairsTextSupported(ps: seq<Pair>)
    ensures PairsText(ps).Success? <==> forall i | 0 <= i < |ps| :: Supported(ps[i].value)
    ensures PairsText(ps).Failure? ==> IsMapError(PairsText(ps).error)
    decreases ps
  {
    if |ps| > 0 {
      WalkSupported(ps[0].value, false);
      PairsTextSupported(ps[1..]);
      assert forall i | 1 <= i < |ps| :: ps[i] == ps[1..][i - 1];
    }
  }

  // ---------------------------------------------------------------------
  // The operation

  /** What follows the keyword in a header: ` name(declarations) directives`,
      the declarations only when there are variables. */
  function HeaderTail(vars: map<string, Variable>, options: seq<QueryOption>): string
  {
    var declarations := if |vars| > 0 then "(" + ArgumentsText(vars) + ")" else "";
    " " + NameOf(options) + declarations + DirectivesText(DirectivesOf(options))
  }

  /** No variables, no name and no directive option. */
  predicate Anonymous(vars: map<string, Variable>, options: seq<QueryOption>)
  {
    |vars| == 0 && NameOf(options) == "" && |DirectivesOf(options)| == 0
  }

  /** The document of an operation: the header, then the walked root. An
      anonymous operation writes `anonymous` before the root instead of a
      header when the operation has such a short form. */
  function Document(keyword: string, anonymous: Option<string>, root: Kind, vars: map<string, Variable>, options: seq<QueryOption>): (r: Result<string, string>)
    ensures r.Success? <==> Supported(root)
    ensures r.Failure? ==> IsMapError(r.error)
    ensures r.Success? ==> Walk(root, false).Success? && EndsWith(r.value, Walk(root, false).value)
    ensures r.Success? && !(Anonymous(vars, options) && anonymous.Some?) ==>
      r.value == keyword + " " + NameOf(options) + (if |vars| > 0 then "(" + ArgumentsText(vars) + ")" else "")
                 + DirectivesText(DirectivesOf(options)) + Walk(root, false).value
  {
    WalkSupported(root, false);
    var body :- Walk(root, false);
    HeaderLayout(keyword, vars, options, body);
    if Anonymous(vars, options) && anonymous.Some? then Success(anonymous.value + body)
    else Success(keyword + HeaderTail(vars, options) + body)
  }

  /** A query document; with no variables, name or directives it is the bare
      selection set (the query shorthand of the GraphQL specification,
      section 2.3). */
  function ConstructQuery(root: Kind, vars: map<string, Variable>, options: seq<QueryOption>): (r: Result<string, string>)
    ensures r.Success? <==> Supported(root)
    ensures r.Failure? ==> IsMapError(r.error)
    ensures r.Success? ==> Walk(root, false).Success? && (r.value == Walk(root, false).value <==> Anonymous(vars, options))
    ensures r.Success? ==> Walk(root, false).Success? && EndsWith(r.value, Walk(root, false).value)
  {
    WalkSupported(root, false);
    Document("query", Some(""), root, vars, options)
  }

  /** A mutation document: the keyword is always written, followed by a
      space. */
  function ConstructMutation(root: Kind, vars: map<string, Variable>, options: seq<QueryOption>): (r: Result<string, string>)
    ensures r.Success? <==> Supported(root)
    ensures r.Failure? ==> IsMapError(r.error)
    ensures r.Success? ==> |r.value| >= 9 && r.value[..9] == "mutation "
    ensures r.Success? ==> Walk(root, false).Success? && EndsWith(r.value, Walk(root, false).value)
  {
    WalkSupported(root, false);
    Document("mutation", None, root, vars, options)
  }

  /** A subscription document: the keyword is always written, directly
      before the selection set when there is nothing else. */
  function ConstructSubscription(root: Kind, vars: map<string, Variable>, options: seq<QueryOption>): (r: Result<string, string>)
    ensures r.Success? <==> Supported(root)
    ensures r.Failure? ==> IsMapError(r.error)
    ensures r.Success? ==> |r.value| >= 12 && r.value[..12] == "subscription"
    ensures r.Success? ==> Walk(root, false).Success? && (r.value == "subscription" + Walk(root, false).value <==> Anonymous(vars, options))
    ensures r.Success? ==> Walk(root, false).Success? && EndsWith(r.value, Walk(root, false).value)
  {
    WalkSupported(root, false);
    Document("subscription", Some("subscription"), root, vars, options)
  }

  /** The layout of an operation document (GraphQL specification, section
      2.3): the keyword and a space, the name, the declarations in
      parentheses when there are variables, the directives with a space on
      either side, then the selection set. Only the anonymous query and the
      anonymous subscription take a shorter form. */
  lemma OperationLayout(root: Kind, vars: map<string, Variable>, options: seq<QueryOption>)
    requires Supported(root)
    ensures Walk(root, false).Success?
    ensures ConstructMutation(root, vars, options).value
         == "mutation " + NameOf(options) + (if |vars| > 0 then "(" + ArgumentsText(vars) + ")" else "")
            + DirectivesText(DirectivesOf(options)) + Walk(root, false).value
    ensures !Anonymous(vars, options) ==>
      ConstructQuery(root, vars, options).value
        == "query " + NameOf(options) + (if |vars| > 0 then "(" + ArgumentsText(vars) + ")" else "")
           + DirectivesText(DirectivesOf(options)) + Walk(root, false).value
    ensures !Anonymous(vars, options) ==>
      ConstructSubscription(root, vars, options).value
        == "subscription " + NameOf(options) + (if |vars| > 0 then "(" + ArgumentsText(vars) + ")" else "")
           + DirectivesText(DirectivesOf(options)) + Walk(root, false).value
  {
    WalkSupported(root, false);
    assert "mutation" + " " == "mutation ";
    assert "query" + " " == "query ";
    assert "subscription" + " " == "subscription ";
  }

  /** The header after the keyword: a space, the name, the declarations in
      parentheses when there are variables, then the directives. */
  lemma HeaderLayout(keyword: string, vars: map<string, Variable>, options: seq<QueryOption>, body: string)
    ensures keyword + HeaderTail(vars, options) + body
         == keyword + " " + NameOf(options) + (if |vars| > 0 then "(" + ArgumentsText(vars) + ")" else "")
            + DirectivesText(DirectivesOf(options)) + body
  {
    var n, d, t := NameOf(options), (if |vars| > 0 then "(" + ArgumentsText(vars) + ")" else ""), DirectivesText(DirectivesOf(options));
    assert HeaderTail(vars, options) == " " + n + d + t;
    Regroup(keyword, n, d, t, body);
  }

  lemma Regroup(keyword: string, n: string, d: string, t: string, body: string)
    ensures keyword + (" " + n + d + t) + body == keyword + " " + n + d + t + body
  {
  }

  predicate EndsWith(s: string, suffix: string)
  {
    |suffix| <= |s| && s[|s| - |suffix|..] == suffix
  }

  // ---------------------------------------------------------------------
  // Properties of the selection set

  /** The parts of two field lists, the first one's error first. */
  function Chain(x: Result<seq<string>, string>, y: Result<seq<string>, string>): Result<seq<string>, string>
  {
    if x.Failure? then x else if y.Failure? then y else Success(x.value + y.value)
  }

  lemma ChainAssociative(x: Result<seq<string>, string>, y: Result<seq<string>, string>, z: Result<seq<string>, string>)
    ensures Chain(x, Chain(y, z)) == Chain(Chain(x, y), z)
  {
    if x.Success? && y.Success? && z.Success? {
      assert x.value + (y.value + z.value) == x.value + y.value + z.value;
    }
  }

  lemma {:induction false} FieldPartsAppend(a: seq<Field>, b: seq<Field>)
    ensures FieldParts(a + b) == Chain(FieldParts(a), FieldParts(b))
  {
    if |a| == 0 {
      assert a + b == b;
      if FieldParts(b).Success? {
        assert [] + FieldParts(b).value == FieldParts(b).value;
      }
    } else {
      var ab := a + b;
      assert ab[0] == a[0] && ab[1..] == a[1..] + b;
      FieldPartsAppend(a[1..], b);
      if !a[0].Excluded() && FieldPart(a[0]).Success? {
        var part := FieldPart(a[0]).value;
        assert FieldParts(a) == Chain(Success([part]), FieldParts(a[1..]));
        assert FieldParts(ab) == Chain(Success([part]), FieldParts(ab[1..]));
        ChainAssociative(Success([part]), FieldParts(a[1..]), FieldParts(b));
      }
    }
  }

  /** A `graphql:"-"` field leaves the document as if it were not declared:
      the other fields keep their order and separators. */
  lemma ExcludedFieldIgnored(a: seq<Field>, x: Field, b: seq<Field>, inline: bool)
    requires x.Excluded()
    ensures Walk(Record(a + [x] + b), inline) == Walk(Record(a + b), inline)
  {
    assert a + [x] + b == a + ([x] + b);
    FieldPartsAppend(a, [x] + b);
    FieldPartsAppend(a, b);
    assert ([x] + b)[1..] == b;
  }

  /** An untagged embedded struct with at least one written field reads as if
      its fields were declared in its place. */
  lemma EmbeddedFieldsSpliced(a: seq<Field>, e: Field, b: seq<Field>, inline: bool)
    requires e.embedded && e.tag.None? && !e.scalar && e.kind.Record?
    requires Visible(e.kind.fields) != []
    ensures Walk(Record(a + [e] + b), inline) == Walk(Record(a + e.kind.fields + b), inline)
  {
    var inner := e.kind.fields;
    FieldPartsSupported(inner);
    assert a + [e] + b == a + ([e] + b);
    assert a + inner + b == a + (inner + b);
    FieldPartsAppend(a, [e] + b);
    FieldPartsAppend(a, inner + b);
    FieldPartsAppend(inner, b);
    EmbeddedPart(e, b);
    var pa, pi, pb := FieldParts(a), FieldParts(inner), FieldParts(b);
    if pa.Success? && pi.Success? && pb.Success? {
      JoinSplice(",", pa.value, pi.value, pb.value);
    }
  }

  /** The parts of an untagged embedded struct followed by other fields: the
      struct's own fields joined into one part. */
  lemma EmbeddedPart(e: Field, b: seq<Field>)
    requires e.embedded && e.tag.None? && !e.scalar && e.kind.Record?
    ensures var pi := FieldParts(e.kind.fields);
      FieldParts([e] + b) == Chain(if pi.Success? then Success([Join(",", pi.value)]) else pi, FieldParts(b))
  {
    assert ([e] + b)[0] == e && ([e] + b)[1..] == b;
    assert e.Name() == "";
    var w := Walk(e.kind, true);
    if w.Success? {
      assert FieldPart(e) == Success("" + w.value);
      assert "" + w.value == w.value;
    }
  }

  /** A field holding a one-entry pair list reads as a struct field whose only
      member carries the entry's selection as its tag. */
  lemma SinglePairIsRecord(words: seq<string>, selection: string, value: Kind)
    requires selection != "-"
    ensures Walk(Pairs([Pair(selection, value)]), false) == Walk(Record([Field(words, Some(selection), false, false, value)]), false)
  {
    var f := Field(words, Some(selection), false, false, value);
    assert [f][1..] == [];
    assert [Pair(selection, value)][1..] == [];
    match Walk(value, false)
    case Failure(_) =>
    case Success(sub) =>
      assert PairsText([Pair(selection, value)]) == Success(selection + sub + "");
      assert f.Name() == selection;
      assert FieldPart(f) == Success(selection + sub);
      assert FieldParts([f]) == Success([selection + sub] + []);
      assert [selection + sub] + [] == [selection + sub];
      assert selection + sub + "" == selection + sub;
      assert Join(",", [selection + sub]) == selection + sub;
  }

  /** Slices and pointers, however nested, add no level to the document. */
  function Wrapped(layers: seq<bool>, k: Kind): Kind
  {
    if |layers| == 0 then k
    else if layers[0] then ListOf(Wrapped(layers[1..], k))
    else Pointer(Wrapped(layers[1..], k))
  }

  lemma {:induction false} WrappersAddNoLevel(layers: seq<bool>, k: Kind, inline: bool)
    requires |layers| > 0
    ensures Walk(Wrapped(layers, k), inline) == Walk(k, false)
  {
    if |layers| > 1 {
      WrappersAddNoLevel(layers[1..], k, false);
    }
  }

  /** The three operations share their header after the keyword; only the
      anonymous query drops its keyword and only the anonymous subscription
      drops the space after it. */
  lemma OperationKeywords(root: Kind, vars: map<string, Variable>, options: seq<QueryOption>)
    requires Supported(root)
    ensures var q, m, s := ConstructQuery(root, vars, options).value, ConstructMutation(root, vars, options).value,
              ConstructSubscription(root, vars, options).value;
      if Anonymous(vars, options) then m == "mutation " + q && s == "subscription" + q
      else q[..5] == "query" && m == "mutation" + q[5..] && s == "subscription" + q[5..]
  {
    if Anonymous(vars, options) {
      AnonymousKeywords(root, vars, options);
    } else {
      NamedKeywords(root, vars, options);
    }
  }

  lemma AnonymousKeywords(root: Kind, vars: map<string, Variable>, options: seq<QueryOption>)
    requires Supported(root) && Anonymous(vars, options)
    ensures ConstructMutation(root, vars, options).value == "mutation " + ConstructQuery(root, vars, options).value
    ensures ConstructSubscription(root, vars, options).value == "subscription" + ConstructQuery(root, vars, options).value
  {
    assert DirectivesOf(options) == [];
    assert HeaderTail(vars, options) == " ";
  }

  lemma NamedKeywords(root: Kind, vars: map<string, Variable>, options: seq<QueryOption>)
    requires Supported(root) && !Anonymous(vars, options)
    ensures var q := ConstructQuery(root, vars, options).value;
      q[..5] == "query" && ConstructMutation(root, vars, options).value == "mutation" + q[5..]
      && ConstructSubscription(root, vars, options).value == "subscription" + q[5..]
  {
    WalkSupported(root, false);
    var t := HeaderTail(vars, options) + Walk(root, false).value;
    NamedDocument("query", Some(""), root, vars, options);
    NamedDocument("mutation", None, root, vars, options);
    NamedDocument("subscription", Some("subscription"), root, vars, options);
    PrefixSplit("query", t);
  }

  lemma NamedDocument(keyword: string, anonymous: Option<string>, root: Kind, vars: map<string, Variable>, options: seq<QueryOption>)
    requires Supported(root) && !Anonymous(vars, options)
    ensures Document(keyword, anonymous, root, vars, options).value == keyword + (HeaderTail(vars, options) + Walk(root, false).value)
  {
  }

  lemma PrefixSplit(p: string, t: string)
    ensures (p + t)[..|p|] == p && (p + t)[|p|..] == t
  {
  }
}
