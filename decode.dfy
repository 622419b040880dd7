/**
 * Decoding the `data` member of a response into the caller's value. The
 * value is described by the same shape the builder walks, so the keys the
 * server answers with are the names the builder wrote: an untagged field
 * is found by its Go identifier compared without regard to case, a tagged
 * one by the response key its tag starts with.
 */
module JsonUtil {
  import opened Wrappers
  import opened Text
  import opened Ident
  import opened Quote
  import opened Query

  /** A parsed JSON value; numbers keep their text. */
  datatype Json =
    | JNull
    | JBool(b: bool)
    | JNumber(text: string)
    | JString(s: string)
    | JArray(items: seq<Json>)
    | JObject(members: seq<Member>)

  /** An object member, in the order the server sent it. */
  datatype Member = Member(key: string, value: Json)

  /** The caller's value as the decoder sees it. */
  datatype Value =
    | Blank                     // the zero value of a leaf
    | Held(json: Json)          // a leaf holding what the server sent
    | Nil                       // a nil pointer, slice or map
    | Ref(target: Value)        // a pointer to a value
    | Fields(values: seq<Value>)  // a struct, one value per field
    | Items(values: seq<Value>)   // a non-nil slice

  function JsonSize(j: Json): nat
    decreases j, 1
  {
    match j
    case JArray(items) => 1 + ItemsSize(items)
    case JObject(ms) => 1 + MembersSize(ms)
    case _ => 1
  }

  function ItemsSize(items: seq<Json>): nat
    decreases items
  {
    if |items| == 0 then 0 else 1 + JsonSize(items[0]) + ItemsSize(items[1..])
  }

  function MembersSize(ms: seq<Member>): nat
    decreases ms
  {
    if |ms| == 0 then 0 else 1 + JsonSize(ms[0].value) + MembersSize(ms[1..])
  }

  /** The zero value of a shape. */
  function ZeroOf(k: Kind): (v: Value)
    ensures Conforms(k, v)
    decreases k, 1
  {
    match k
    case Leaf => Blank
    case Record(fs) => Fields(seq(|fs|, i requires 0 <= i < |fs| => ZeroOf(fs[i].kind)))
    case _ => Nil
  }

  /** The zero values of a struct's fields. */
  function ZeroFields(fs: seq<Field>): (vs: seq<Value>)
    ensures FieldsConform(fs, vs)
    ensures forall i | 0 <= i < |fs| :: vs[i] == ZeroOf(fs[i].kind)
  {
    ZeroOf(Record(fs)).values
  }

  /** The values a shape can hold. */
  predicate Conforms(k: Kind, v: Value)
    decreases k
  {
    match k
    case Leaf => v.Blank? || v.Held?
    case Pointer(e) => v.Nil? || (v.Ref? && Conforms(e, v.target))
    case ListOf(e) => v.Nil? || (v.Items? && forall i | 0 <= i < |v.values| :: Conforms(e, v.values[i]))
    case Record(fs) => v.Fields? && FieldsConform(fs, v.values)
    case Pairs(_) => v.Nil? || v.Held?
    case MapOf(_) => v.Nil? || v.Held?
  }

  predicate FieldsConform(fs: seq<Field>, vs: seq<Value>)
    decreases Record(fs), 0
  {
    |vs| == |fs| && forall i | 0 <= i < |fs| :: Conforms(fs[i].kind, vs[i])
  }

  // ---------------------------------------------------------------------
  // Matching keys to fields

  predicate IsSpace(c: char)
  {
    c == ' ' || c == '\t' || c == '\n' || c == '\r' || c == '\U{b}' || c == '\U{c}'
  }

  function TrimLeft(s: string): string
  {
    if |s| > 0 && IsSpace(s[0]) then TrimLeft(s[1..]) else s
  }

  function TrimRight(s: string): string
  {
    if |s| > 0 && IsSpace(s[|s| - 1]) then TrimRight(s[..|s| - 1]) else s
  }

  function TrimSpace(s: string): string
  {
    TrimRight(TrimLeft(s))
  }

  predicate EndsName(c: char)
  {
    c == '(' || c == ':' || c == '@'
  }

  /** The text before the first `(`, `:` or `@`: what follows a field's
      name (arguments, the aliased field, directives) is cut off. */
  function CutName(t: string): string
  {
    if |t| == 0 || EndsName(t[0]) then "" else [t[0]] + CutName(t[1..])
  }

  /** The response key a tag stands for: its name or alias, with what
      follows cut off; a fragment (`...`) has none. */
  function ResponseKey(tag: string): Option<string>
  {
    var t := TrimSpace(tag);
    if |t| >= 3 && t[0] == '.' && t[1] == '.' && t[2] == '.' then None else Some(TrimSpace(CutName(t)))
  }

  /** Whether a field receives the member with this key. An untagged field
      takes the key equal to its identifier up to case; a tagged one takes
      the response key of its trimmed tag. */
  predicate HasGraphQLName(f: Field, key: string)
  {
    if f.tag.None? then EqualFold(Concat(f.words), key) else ResponseKey(f.tag.value) == Some(key)
  }

  /** The first field that takes the key. */
  function FieldFor(fs: seq<Field>, key: string): (r: Option<nat>)
    ensures r.Some? ==> r.value < |fs| && HasGraphQLName(fs[r.value], key)
    ensures r.Some? ==> forall j | 0 <= j < r.value :: !HasGraphQLName(fs[j], key)
    ensures r.None? ==> forall j | 0 <= j < |fs| :: !HasGraphQLName(fs[j], key)
  {
    if |fs| == 0 then None
    else if HasGraphQLName(fs[0], key) then Some(0)
    else
      var r := FieldFor(fs[1..], key);
      if r.Some? then Some(r.value + 1) else None
  }

  // ---------------------------------------------------------------------
  // Decoding

  function UnknownFieldError(key: string): string
  {
    "struct field for " + GoQuote(key) + " doesn't exist in any of 1 places to unmarshal"
  }

  /** A JSON value of the wrong kind for its place (an array for a struct,
      an object for a slice). */
  const MismatchError := "unexpected JSON value for the destination type"

  datatype Decoded = Decoded(value: Value, error: Option<string>)

  datatype DecodedFields = DecodedFields(values: seq<Value>, error: Option<string>)

  /** The values of a struct: the current ones if they fit, else zeros. */
  function FieldsOf(fs: seq<Field>, v: Value): (vs: seq<Value>)
    ensures |vs| == |fs|
  {
    if v.Fields? && |v.values| == |fs| then v.values else ZeroFields(fs)
  }

  /** Decodes a JSON value into the current value of a place of shape `k`.
      A null sets a pointer, slice or map to nil and leaves anything else
      as it is; a pointer decodes into its target, allocating one if it is
      nil; a slice is rebuilt from the array's items; a struct decodes the
      object's members into its fields. */
  function Decode(k: Kind, current: Value, j: Json): Decoded
    decreases JsonSize(j), k, 1
  {
    match k
    case Leaf => if j.JNull? then Decoded(current, None) else Decoded(Held(j), None)
    case Pairs(_) => if j.JNull? then Decoded(Nil, None) else Decoded(Held(j), None)
    case MapOf(_) => if j.JNull? then Decoded(Nil, None) else Decoded(Held(j), None)
    case Pointer(e) =>
      if j.JNull? then Decoded(Nil, None)
      else
        var target := if current.Ref? then current.target else ZeroOf(e);
        var d := Decode(e, target, j);
        Decoded(Ref(d.value), d.error)
    case ListOf(e) =>
      if j.JNull? then Decoded(Nil, None)
      else if j.JArray? then
        var d := DecodeItems(e, j.items);
        Decoded(Items(d.values), d.error)
      else Decoded(current, Some(MismatchError))
    case Record(fs) =>
      var d := DecodeObject(fs, FieldsOf(fs, current), j);
      Decoded(Fields(d.values), d.error)
  }

  /** Decodes into a struct's field values: null leaves them, an object
      decodes its members, anything else is a mismatch. */
  function DecodeObject(fs: seq<Field>, values: seq<Value>, j: Json): (r: DecodedFields)
    requires |values| == |fs|
    ensures |r.values| == |fs|
    decreases JsonSize(j), Record(fs), 0
  {
    match j
    case JNull => DecodedFields(values, None)
    case JObject(ms) => DecodeMembers(fs, values, ms)
    case _ => DecodedFields(values, Some(MismatchError))
  }

  /** The members in order, each into the first field that takes its key;
      an unknown key or a failing member stops the decoding, keeping what
      was decoded before it. */
  function DecodeMembers(fs: seq<Field>, values: seq<Value>, ms: seq<Member>): (r: DecodedFields)
    requires |values| == |fs|
    ensures |r.values| == |fs|
    decreases MembersSize(ms), Record(fs), 0
  {
    if |ms| == 0 then DecodedFields(values, None)
    else
      var i := FieldFor(fs, ms[0].key);
      if i.None? then DecodedFields(values, Some(UnknownFieldError(ms[0].key)))
      else
        var d := Decode(fs[i.value].kind, values[i.value], ms[0].value);
        if d.error.Some? then DecodedFields(values[i.value := d.value], d.error)
        else DecodeMembers(fs, values[i.value := d.value], ms[1..])
  }

  /** The items of an array, each decoded into a fresh zero value. */
  function DecodeItems(e: Kind, items: seq<Json>): (r: DecodedFields)
    ensures r.error.None? ==> |r.values| == |items|
    decreases ItemsSize(items), ListOf(e), 0
  {
    if |items| == 0 then DecodedFields([], None)
    else
      var d := Decode(e, ZeroOf(e), items[0]);
      if d.error.Some? then DecodedFields([d.value], d.error)
      else
        var rest := DecodeItems(e, items[1..]);
        DecodedFields([d.value] + rest.values, rest.error)
  }

  // ---------------------------------------------------------------------
  // The destination

  /** The caller's struct: the fields of its type and their current values,
      which decoding updates in place. */
  class Destination {
    const shape: seq<Field>
    var values: seq<Value>

    ghost predicate Valid()
      reads this
    {
      FieldsConform(shape, values)
    }

    /** A fresh destination: every field holds its zero value. */
    constructor (fs: seq<Field>)
      ensures Valid()
      ensures shape == fs && values == ZeroFields(fs)
    {
      shape := fs;
      values := ZeroFields(fs);
    }

    /** Decodes the `data` member of a response into the fields. */
    method Absorb(data: Json) returns (error: Option<string>)
      requires Valid()
      modifies this
      ensures Valid()
      ensures values == DecodeObject(shape, old(values), data).values
      ensures error == DecodeObject(shape, old(values), data).error
    {
      if data.JNull? {
        return None;
      }
      if !data.JObject? {
        return Some(MismatchError);
      }
      var ms := data.members;
      var i := 0;
      while i < |ms|
        invariant 0 <= i <= |ms|
        invariant FieldsConform(shape, values)
        invariant DecodeMembers(shape, values, ms[i..]) == DecodeMembers(shape, old(values), ms)
      {
        assert ms[i..][1..] == ms[i + 1..];
        var key := ms[i].key;
        var k := FieldFor(shape, key);
        if k.None? {
          return Some(UnknownFieldError(key));
        }
        var f := k.value;
        var d := Decode(shape[f].kind, values[f], ms[i].value);
        DecodeConforms(shape[f].kind, values[f], ms[i].value);
        values := values[f := d.value];
        if d.error.Some? {
          return d.error;
        }
        i := i + 1;
      }
      assert ms[i..] == [];
      return None;
    }
  }

  // ---------------------------------------------------------------------
  // Properties

  /** Decoding keeps a value within its shape. */
  lemma {:induction false} DecodeConforms(k: Kind, current: Value, j: Json)
    requires Conforms(k, current)
    ensures Conforms(k, Decode(k, current, j).value)
    decreases JsonSize(j), k, 1
  {
    match k
    case Leaf =>
    case Pairs(_) =>
    case MapOf(_) =>
    case Pointer(e) =>
      if !j.JNull? {
        var target := if current.Ref? then current.target else ZeroOf(e);
        DecodeConforms(e, target, j);
      }
    case ListOf(e) =>
      if j.JArray? {
        DecodeItemsConform(e, j.items);
      }
    case Record(fs) =>
      DecodeObjectConforms(fs, FieldsOf(fs, current), j);
  }

  lemma {:induction false} DecodeObjectConforms(fs: seq<Field>, values: seq<Value>, j: Json)
    requires FieldsConform(fs, values)
    ensures FieldsConform(fs, DecodeObject(fs, values, j).values)
    decreases JsonSize(j), Record(fs), 0
  {
    if j.JObject? {
      DecodeMembersConform(fs, values, j.members);
    }
  }

  lemma {:induction false} DecodeMembersConform(fs: seq<Field>, values: seq<Value>, ms: seq<Member>)
    requires FieldsConform(fs, values)
    ensures FieldsConform(fs, DecodeMembers(fs, values, ms).values)
    decreases MembersSize(ms), Record(fs), 0
  {
    if |ms| > 0 {
      var i := FieldFor(fs, ms[0].key);
      if i.Some? {
        var f := i.value;
        DecodeConforms(fs[f].kind, values[f], ms[0].value);
        var d := Decode(fs[f].kind, values[f], ms[0].value);
        if d.error.None? {
          DecodeMembersConform(fs, values[f := d.value], ms[1..]);
        }
      }
    }
  }

  lemma {:induction false} DecodeItemsConform(e: Kind, items: seq<Json>)
    ensures forall i | 0 <= i < |DecodeItems(e, items).values| :: Conforms(e, DecodeItems(e, items).values[i])
    decreases ItemsSize(items), ListOf(e), 0
  {
    if |items| > 0 {
      DecodeConforms(e, ZeroOf(e), items[0]);
      var d := Decode(e, ZeroOf(e), items[0]);
      if d.error.None? {
        DecodeItemsConform(e, items[1..]);
      }
    }
  }

  /** Decoding touches only the fields that some member's key leads to. */
  lemma {:induction false} UntouchedFieldKept(fs: seq<Field>, values: seq<Value>, ms: seq<Member>, f: nat)
    requires |values| == |fs| && f < |fs|
    requires forall m | m in ms :: FieldFor(fs, m.key) != Some(f)
    ensures DecodeMembers(fs, values, ms).values[f] == values[f]
    decreases |ms|
  {
    if |ms| > 0 {
      var i := FieldFor(fs, ms[0].key);
      assert ms[0] in ms;
      if i.Some? {
        var d := Decode(fs[i.value].kind, values[i.value], ms[0].value);
        if d.error.None? {
          forall m | m in ms[1..]
            ensures FieldFor(fs, m.key) != Some(f)
          {
            assert m in ms;
          }
          UntouchedFieldKept(fs, values[i.value := d.value], ms[1..], f);
        }
      }
    }
  }

  /** A field tagged `-` takes only the key `-`. */
  lemma ExcludedTakesDash(f: Field, key: string)
    requires f.Excluded() && HasGraphQLName(f, key)
    ensures key == "-"
  {
    var t := f.tag.value;
    assert t == "-";
    Untrimmed(t);
    assert CutName(t[1..]) == "";
    assert CutName(t) == t;
  }

  /** A field tagged `-` keeps its value unless the server sends a `-` key. */
  lemma ExcludedFieldKept(fs: seq<Field>, values: seq<Value>, ms: seq<Member>, f: nat)
    requires |values| == |fs| && f < |fs| && fs[f].Excluded()
    requires forall m | m in ms :: m.key != "-"
    ensures DecodeMembers(fs, values, ms).values[f] == values[f]
  {
    forall m | m in ms
      ensures FieldFor(fs, m.key) != Some(f)
    {
      if FieldFor(fs, m.key) == Some(f) {
        ExcludedTakesDash(fs[f], m.key);
      }
    }
    UntouchedFieldKept(fs, values, ms, f);
  }

  /** Decoding stops without error only when every key led to a field. */
  lemma {:induction false} NoErrorEveryKeyKnown(fs: seq<Field>, values: seq<Value>, ms: seq<Member>)
    requires |values| == |fs|
    requires DecodeMembers(fs, values, ms).error.None?
    ensures forall m | m in ms :: FieldFor(fs, m.key).Some?
    decreases |ms|
  {
    if |ms| > 0 {
      var i := FieldFor(fs, ms[0].key);
      var d := Decode(fs[i.value].kind, values[i.value], ms[0].value);
      NoErrorEveryKeyKnown(fs, values[i.value := d.value], ms[1..]);
      forall m | m in ms
        ensures FieldFor(fs, m.key).Some?
      {
        if m != ms[0] {
          var n :| 0 <= n < |ms| && ms[n] == m;
          assert ms[1..][n - 1] == m;
        }
      }
    }
  }

  /** An unknown key ends decoding with the error that names it; the
      members before it are decoded. */
  lemma {:induction false} UnknownKeyStops(fs: seq<Field>, values: seq<Value>, ms: seq<Member>, key: string, v: Json)
    requires |values| == |fs|
    requires forall j | 0 <= j < |fs| :: !HasGraphQLName(fs[j], key)
    requires DecodeMembers(fs, values, ms).error.None?
    ensures DecodeMembers(fs, values, ms + [Member(key, v)])
         == DecodedFields(DecodeMembers(fs, values, ms).values, Some(UnknownFieldError(key)))
    decreases |ms|
  {
    if |ms| == 0 {
      assert ms + [Member(key, v)] == [Member(key, v)];
    } else {
      var i := FieldFor(fs, ms[0].key);
      var d := Decode(fs[i.value].kind, values[i.value], ms[0].value);
      assert (ms + [Member(key, v)])[1..] == ms[1..] + [Member(key, v)];
      UnknownKeyStops(fs, values[i.value := d.value], ms[1..], key, v);
    }
  }

  /** The name the builder writes for an untagged field is a key the
      decoder sends to that field. */
  lemma BuilderNameFound(f: Field)
    requires f.tag.None? && !f.embedded
    ensures HasGraphQLName(f, f.Name())
  {
    var r := LowerCamelCase(f.words);
    var w := Concat(f.words);
    assert EqualFold(r, w);
    assert forall i | 0 <= i < |w| :: Fold(w[i]) == Fold(r[i]);
  }

  /** A tagged field is found by the alias or name its tag begins with,
      whatever arguments or directives follow, and by no other key. */
  lemma AliasFound(f: Field, alias: string, rest: string, key: string)
    requires f.tag == Some(alias + rest)
    requires |alias| > 0 && !IsSpace(alias[0]) && !IsSpace(alias[|alias| - 1]) && alias[0] != '.'
    requires forall i | 0 <= i < |alias| :: !EndsName(alias[i])
    requires |rest| > 0 ==> EndsName(rest[0]) && !IsSpace(rest[|rest| - 1])
    ensures HasGraphQLName(f, key) <==> key == alias
  {
    TagKey(alias, rest);
  }

  lemma TagKey(alias: string, rest: string)
    requires |alias| > 0 && !IsSpace(alias[0]) && !IsSpace(alias[|alias| - 1]) && alias[0] != '.'
    requires forall i | 0 <= i < |alias| :: !EndsName(alias[i])
    requires |rest| > 0 ==> EndsName(rest[0]) && !IsSpace(rest[|rest| - 1])
    ensures ResponseKey(alias + rest) == Some(alias)
  {
    TagTrimmed(alias, rest);
    TagName(alias, rest);
    assert (alias + rest)[0] == alias[0];
  }

  lemma TagTrimmed(alias: string, rest: string)
    requires |alias| > 0 && !IsSpace(alias[0]) && !IsSpace(alias[|alias| - 1])
    requires |rest| > 0 ==> !IsSpace(rest[|rest| - 1])
    ensures TrimSpace(alias + rest) == alias + rest
  {
    var t := alias + rest;
    assert t[0] == alias[0];
    if |rest| > 0 {
      assert t[|t| - 1] == rest[|rest| - 1];
    } else {
      assert t == alias;
    }
    Untrimmed(t);
  }

  lemma TagName(alias: string, rest: string)
    requires |alias| > 0 && !IsSpace(alias[0]) && !IsSpace(alias[|alias| - 1])
    requires forall i | 0 <= i < |alias| :: !EndsName(alias[i])
    requires |rest| > 0 ==> EndsName(rest[0])
    ensures TrimSpace(CutName(alias + rest)) == alias
  {
    CutNameAt(alias, rest);
    Untrimmed(alias);
  }

  /** Text that neither begins nor ends with a space is not trimmed. */
  lemma Untrimmed(t: string)
    requires |t| > 0 && !IsSpace(t[0]) && !IsSpace(t[|t| - 1])
    ensures TrimSpace(t) == t
  {
    assert TrimLeft(t) == t;
  }

  lemma {:induction false} CutNameAt(alias: string, rest: string)
    requires forall i | 0 <= i < |alias| :: !EndsName(alias[i])
    requires |rest| > 0 ==> EndsName(rest[0])
    ensures CutName(alias + rest) == alias
  {
    if |alias| > 0 {
      assert (alias + rest)[1..] == alias[1..] + rest;
      CutNameAt(alias[1..], rest);
      assert [alias[0]] + alias[1..] == alias;
    } else {
      assert alias + rest == rest;
    }
  }
}
