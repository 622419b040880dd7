/**
 * Options of the document builders: the operation name and operation
 * directives, and the `@cached` directive used by the builder's tests.
 */
module Options {
  import opened Wrappers
  import opened Text

  datatype OptionType = OptionTypeOperationName | OptionTypeOperationDirective

  /** An option as the builders see it: its type and its text (`Type()` and
      `String()` of the option interface). */
  datatype QueryOption = QueryOption(kind: OptionType, text: string)

  /** The option that names the operation. */
  function OperationName(name: string): QueryOption
  {
    QueryOption(OptionTypeOperationName, name)
  }

  /** The `@cached` operation directive, with an optional time to live. */
  datatype CachedDirective = CachedDirective(ttl: int) {

    function Type(): OptionType
    {
      OptionTypeOperationDirective
    }

    /** `@cached` when no positive time to live is set, `@cached(ttl: N)`
        otherwise. */
    function String(): (s: string)
      ensures s == "@cached" <==> ttl <= 0
      ensures |s| >= 7 && s[..7] == "@cached"
    {
      if ttl <= 0 then "@cached" else "@cached(ttl: " + IntToString(ttl) + ")"
    }

    function AsOption(): QueryOption
    {
      QueryOption(Type(), String())
    }
  }

  /** Reads the time to live back from a `@cached` directive: 0 for the bare
      directive. */
  function CachedTtl(s: string): Option<int>
  {
    if s == "@cached" then Some(0)
    else if |s| > 14 && s[..13] == "@cached(ttl: " && s[|s| - 1] == ')' then
      ParseInt(s[13..|s| - 1])
    else None
  }

  /** The directive text keeps exactly the positive time to live. */
  lemma CachedDirectiveRoundTrip(cd: CachedDirective)
    ensures CachedTtl(cd.String()) == Some(if cd.ttl <= 0 then 0 else cd.ttl)
  {
    if cd.ttl > 0 {
      var s := cd.String();
      assert s[13..|s| - 1] == IntToString(cd.ttl);
      IntRoundTrip(cd.ttl);
    }
  }

  /** The operation name: the text of the last name option, "" if none. */
  function NameOf(options: seq<QueryOption>): string
  {
    if |options| == 0 then ""
    else if options[|options| - 1].kind == OptionTypeOperationName then options[|options| - 1].text
    else NameOf(options[..|options| - 1])
  }

  /** With no name option the operation is anonymous. */
  lemma {:induction false} NameOfNone(options: seq<QueryOption>)
    requires forall i | 0 <= i < |options| :: options[i].kind != OptionTypeOperationName
    ensures NameOf(options) == ""
  {
    if |options| > 0 {
      NameOfNone(options[..|options| - 1]);
    }
  }

  /** The last name option given wins. */
  lemma {:induction false} NameOfLast(options: seq<QueryOption>, i: nat)
    requires i < |options| && options[i].kind == OptionTypeOperationName
    requires forall j | i < j < |options| :: options[j].kind != OptionTypeOperationName
    ensures NameOf(options) == options[i].text
  {
    if i < |options| - 1 {
      NameOfLast(options[..|options| - 1], i);
    }
  }

  /** The texts of the directive options, in the order given. */
  function DirectivesOf(options: seq<QueryOption>): (ds: seq<string>)
    ensures |ds| <= |options|
    ensures forall d | d in ds :: exists i | 0 <= i < |options| ::
      options[i].kind == OptionTypeOperationDirective && options[i].text == d
    ensures forall i | 0 <= i < |options| && options[i].kind == OptionTypeOperationDirective :: options[i].text in ds
  {
    if |options| == 0 then []
    else
      var init := DirectivesOf(options[..|options| - 1]);
      var last := options[|options| - 1];
      if last.kind == OptionTypeOperationDirective then init + [last.text] else init
  }

  /** Directive options contribute in the order they are given: the
      directives of two option lists are those of the first followed by those
      of the second. */
  lemma {:induction false} DirectivesOfAppend(a: seq<QueryOption>, b: seq<QueryOption>)
    ensures DirectivesOf(a + b) == DirectivesOf(a) + DirectivesOf(b)
    decreases |b|
  {
    if |b| > 0 {
      assert (a + b)[..|a + b| - 1] == a + b[..|b| - 1];
      DirectivesOfAppend(a, b[..|b| - 1]);
    } else {
      assert a + b == a;
    }
  }

  /** The directives part of an operation header: nothing when the directives
      join to the empty text, otherwise the space-joined texts with a space
      before and after. */
  function DirectivesText(directives: seq<string>): (s: string)
    ensures s == "" <==> Join(" ", directives) == ""
    ensures s != "" ==> |s| >= 2 && s[0] == ' ' && s[|s| - 1] == ' ' && s[1..|s| - 1] == Join(" ", directives)
  {
    var joined := Join(" ", directives);
    if joined == "" then "" else " " + joined + " "
  }

  /** A `@cached` option is a directive and never a name: added to any
      options it appends its text to the directives and leaves the operation
      name as it was. */
  lemma CachedDirectiveIsDirective(cd: CachedDirective, options: seq<QueryOption>)
    ensures DirectivesOf(options + [cd.AsOption()]) == DirectivesOf(options) + [cd.String()]
    ensures NameOf(options + [cd.AsOption()]) == NameOf(options)
  {
    var all := options + [cd.AsOption()];
    assert all[..|all| - 1] == options;
  }
}
