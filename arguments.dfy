/**
 * Variable declarations of an operation (`queryArguments` and
 * `writeArgumentType`): each variable is declared as `$name:Type`, with no
 * separator, in ascending order of name; its GraphQL type is inferred from
 * the static Go type of its value.
 */
module Arguments {
  import opened Wrappers
  import opened Text

  /** The static type of a variable's value, which is all the type mapper
      reads: a nil slice or a nil pointer has the same type as a non-nil one. */
  datatype GoType =
    | Named(name: string)              // Int, ID, IssueState, AddReactionInput, ...
    | PointerTo(elem: GoType)          // *T: an optional value
    | SliceOf(elem: GoType)            // []T
    | ArrayOf(length: nat, elem: GoType)  // [N]T

  /** A bound variable: the type of its value, and the value as JSON text
      for the request's `variables` member. */
  datatype Variable = Variable(goType: GoType, json: string)

  function Bang(required: bool): string
  {
    if required then "!" else ""
  }

  /** The minified GraphQL type written for a value of type `t`. A value
      type is required (`!`), a pointer makes it optional, and a slice or
      array is a list of required items. */
  function TypeText(t: GoType, required: bool): string
  {
    match t
    case PointerTo(e) => TypeText(e, false)
    case SliceOf(e) => "[" + TypeText(e, true) + "]" + Bang(required)
    case ArrayOf(_, e) => "[" + TypeText(e, true) + "]" + Bang(required)
    case Named(n) => n + Bang(required)
  }

  // ---------------------------------------------------------------------
  // Type references of the GraphQL specification (October 2021), section
  // 2.11: Type := NamedType | ListType | NonNullType, where a non-null type
  // wraps a named or a list type.

  datatype TypeRef = NamedType(name: string) | ListType(item: TypeRef) | NonNullType(inner: TypeRef)

  function Print(r: TypeRef): string
  {
    match r
    case NamedType(n) => n
    case ListType(i) => "[" + Print(i) + "]"
    case NonNullType(i) => Print(i) + "!"
  }

  predicate IsNameStart(c: char)
  {
    'A' <= c <= 'Z' || 'a' <= c <= 'z' || c == '_'
  }

  predicate IsNameContinue(c: char)
  {
    IsNameStart(c) || '0' <= c <= '9'
  }

  /** A GraphQL Name (section 2.1.9). */
  predicate IsName(s: string)
  {
    |s| > 0 && IsNameStart(s[0]) && forall i | 1 <= i < |s| :: IsNameContinue(s[i])
  }

  predicate WellFormed(r: TypeRef)
  {
    match r
    case NamedType(n) => IsName(n)
    case ListType(i) => WellFormed(i)
    case NonNullType(i) => !i.NonNullType? && WellFormed(i)
  }

  /** Reads a type reference back from its text. */
  function ParseTypeRef(s: string): Option<TypeRef>
    decreases |s|
  {
    if |s| == 0 then None
    else if s[|s| - 1] == '!' then
      match ParseTypeRef(s[..|s| - 1])
      case Some(inner) => if inner.NonNullType? then None else Some(NonNullType(inner))
      case None => None
    else if |s| >= 2 && s[0] == '[' && s[|s| - 1] == ']' then
      match ParseTypeRef(s[1..|s| - 1])
      case Some(item) => Some(ListType(item))
      case None => None
    else if IsName(s) then Some(NamedType(s))
    else None
  }

  /** Printing a well-formed type reference loses nothing. */
  lemma {:induction false} PrintParse(r: TypeRef)
    requires WellFormed(r)
    ensures ParseTypeRef(Print(r)) == Some(r)
  {
    match r
    case NamedType(n) =>
    case ListType(i) =>
      var s := Print(r);
      assert s[1..|s| - 1] == Print(i);
      PrintParse(i);
    case NonNullType(i) =>
      var s := Print(r);
      assert s[..|s| - 1] == Print(i);
      PrintParse(i);
  }

  /** The type reference the mapper means for a value of type `t`. */
  function TypeRefOf(t: GoType, required: bool): TypeRef
  {
    match t
    case PointerTo(e) => TypeRefOf(e, false)
    case SliceOf(e) => Required(ListType(TypeRefOf(e, true)), required)
    case ArrayOf(_, e) => Required(ListType(TypeRefOf(e, true)), required)
    case Named(n) => Required(NamedType(n), required)
  }

  function Required(r: TypeRef, required: bool): TypeRef
  {
    if required then NonNullType(r) else r
  }

  /** Every named type in `t` is a GraphQL Name. */
  predicate ValidNames(t: GoType)
  {
    match t
    case Named(n) => IsName(n)
    case PointerTo(e) => ValidNames(e)
    case SliceOf(e) => ValidNames(e)
    case ArrayOf(_, e) => ValidNames(e)
  }

  /** What the mapper writes is a well-formed GraphQL type reference, read
      back as `TypeRefOf`: required exactly when asked for and not behind a
      pointer. */
  lemma {:induction false} TypeTextMeaning(t: GoType, required: bool)
    requires ValidNames(t)
    ensures WellFormed(TypeRefOf(t, required))
    ensures ParseTypeRef(TypeText(t, required)) == Some(TypeRefOf(t, required))
    ensures TypeRefOf(t, required).NonNullType? <==> required && !t.PointerTo?
  {
    TypeTextIsPrint(t, required);
    match t
    case Named(n) =>
      PrintParse(TypeRefOf(t, required));
    case PointerTo(e) =>
      TypeTextMeaning(e, false);
    case SliceOf(e) =>
      TypeTextMeaning(e, true);
      PrintParse(TypeRefOf(t, required));
    case ArrayOf(_, e) =>
      TypeTextMeaning(e, true);
      PrintParse(TypeRefOf(t, required));
  }

  lemma {:induction false} TypeTextIsPrint(t: GoType, required: bool)
    ensures TypeText(t, required) == Print(TypeRefOf(t, required))
  {
    match t
    case Named(n) =>
    case PointerTo(e) =>
      TypeTextIsPrint(e, false);
    case SliceOf(e) =>
      TypeTextIsPrint(e, true);
    case ArrayOf(_, e) =>
      TypeTextIsPrint(e, true);
  }

  /** A pointer only drops the outer `!`: `*Boolean` is `Boolean` where
      `Boolean` is `Boolean!`, `*[]ID` is `[ID!]` where `[]ID` is `[ID!]!`;
      further pointers change nothing. */
  lemma PointerDropsBang(t: GoType)
    ensures !t.PointerTo? ==> TypeText(t, true) == TypeText(PointerTo(t), true) + "!"
    ensures TypeText(PointerTo(PointerTo(t)), true) == TypeText(PointerTo(t), true)
  {
  }

  // ---------------------------------------------------------------------
  // The declarations

  /** `$name:Type` for one variable. */
  function Declaration(name: string, v: Variable): string
  {
    "$" + name + ":" + TypeText(v.goType, true)
  }

  /** The declarations of `names`, in that order, with no separator. */
  function DeclarationsOf(names: seq<string>, vars: map<string, Variable>): string
    requires forall n | n in names :: n in vars
  {
    if |names| == 0 then ""
    else Declaration(names[0], vars[names[0]]) + DeclarationsOf(names[1..], vars)
  }

  /** The declaration list of a variable table: every variable once, in
      ascending order of name. */
  function ArgumentsText(vars: map<string, Variable>): string
  {
    DeclarationsOf(SortedNames(vars.Keys), vars)
  }

  lemma {:induction false} DeclarationsOfAppend(a: seq<string>, b: seq<string>, vars: map<string, Variable>)
    requires forall n | n in a + b :: n in vars
    ensures DeclarationsOf(a + b, vars) == DeclarationsOf(a, vars) + DeclarationsOf(b, vars)
  {
    if |a| == 0 {
      assert a + b == b;
    } else {
      assert (a + b)[1..] == a[1..] + b;
      DeclarationsOfAppend(a[1..], b, vars);
    }
  }

  lemma {:induction false} DeclarationsOfSubmap(names: seq<string>, sub: map<string, Variable>, vars: map<string, Variable>)
    requires forall n | n in names :: n in sub && n in vars && sub[n] == vars[n]
    ensures DeclarationsOf(names, sub) == DeclarationsOf(names, vars)
  {
    if |names| > 0 {
      DeclarationsOfSubmap(names[1..], sub, vars);
    }
  }

  /** The variables whose names are below `pivot`. */
  function NamesBelow(vars: map<string, Variable>, pivot: string): map<string, Variable>
  {
    map n | n in vars && Below(n, pivot) :: vars[n]
  }

  /** The variables whose names are not below `pivot`. */
  function NamesFrom(vars: map<string, Variable>, pivot: string): map<string, Variable>
  {
    map n | n in vars && !Below(n, pivot) :: vars[n]
  }

  /** Declarations are ordered by name: for any pivot name, all declarations
      of names below it come first, then all the others, whatever order the
      table was filled in. */
  lemma ArgumentsOrderedByName(vars: map<string, Variable>, pivot: string)
    ensures ArgumentsText(vars) == ArgumentsText(NamesBelow(vars, pivot)) + ArgumentsText(NamesFrom(vars, pivot))
  {
    var lo, hi := NamesBelow(vars, pivot), NamesFrom(vars, pivot);
    forall x, y | x in lo.Keys && y in hi.Keys
      ensures Below(x, y)
    {
      if x != y {
        BelowTotal(x, y);
        if Below(y, x) {
          BelowTransitive(y, x, pivot);
        }
      } else {
        assert false;
      }
    }
    assert vars.Keys == lo.Keys + hi.Keys;
    SortedNamesSplit(lo.Keys, hi.Keys);
    DeclarationsOfAppend(SortedNames(lo.Keys), SortedNames(hi.Keys), vars);
    DeclarationsOfSubmap(SortedNames(lo.Keys), lo, vars);
    DeclarationsOfSubmap(SortedNames(hi.Keys), hi, vars);
  }

  /** Builds the declaration list the way the client does: collect the keys
      of the table in the unspecified order in which a map is ranged over,
      sort them, and write one declaration per key. The result does not
      depend on that order. */
  method QueryArguments(vars: map<string, Variable>) returns (s: string)
    ensures s == ArgumentsText(vars)
  {
    var keys := MapKeys(vars);
    var sorted := SortDistinct(keys);
    assert sorted == SortedNames(vars.Keys) by {
      SortedUnique(sorted, SortedNames(vars.Keys));
    }
    s := WriteDeclarations(sorted, vars);
  }

  /** Writes the declarations of `names` one after another. */
  method WriteDeclarations(names: seq<string>, vars: map<string, Variable>) returns (s: string)
    requires forall n | n in names :: n in vars
    ensures s == DeclarationsOf(names, vars)
  {
    s := "";
    var i := 0;
    while i < |names|
      invariant 0 <= i <= |names|
      invariant s + DeclarationsOf(names[i..], vars) == DeclarationsOf(names, vars)
    {
      assert names[i..][1..] == names[i + 1..];
      var d := "$" + names[i] + ":" + TypeText(vars[names[i]].goType, true);
      assert DeclarationsOf(names[i..], vars) == d + DeclarationsOf(names[i + 1..], vars);
      assert s + d + DeclarationsOf(names[i + 1..], vars) == s + (d + DeclarationsOf(names[i + 1..], vars));
      s := s + d;
      i := i + 1;
    }
    assert names[i..] == [];
  }

  /** The keys of a table, each once, in the unspecified order in which Go
      ranges over a map. */
  method MapKeys(vars: map<string, Variable>) returns (keys: seq<string>)
    ensures Distinct(keys) && |keys| == |vars.Keys|
    ensures forall k :: k in keys <==> k in vars
  {
    keys := [];
    var remaining := vars.Keys;
    while remaining != {}
      invariant remaining <= vars.Keys
      invariant Distinct(keys)
      invariant forall k :: k in keys <==> k in vars && k !in remaining
      invariant |keys| + |remaining| == |vars.Keys|
      decreases remaining
    {
      var k :| k in remaining;
      keys := keys + [k];
      remaining := remaining - {k};
    }
  }
}
