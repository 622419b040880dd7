/**
 * Field names in the document: a Go identifier, already split into its words
 * (`DatabaseID` is ["Database", "ID"]), is written in lowerCamelCase with
 * initialisms lowered (`databaseId`). Case mapping is ASCII.
 */
module Ident {
  import opened Text

  predicate IsUpper(c: char)
  {
    'A' <= c <= 'Z'
  }

  predicate IsLower(c: char)
  {
    'a' <= c <= 'z'
  }

  function ToLower(c: char): char
  {
    if IsUpper(c) then ((c as int) + 32) as char else c
  }

  function ToUpper(c: char): char
  {
    if IsLower(c) then ((c as int) - 32) as char else c
  }

  /** Case folding as `strings.EqualFold` applies it to ASCII letters. */
  function Fold(c: char): char
  {
    ToLower(c)
  }

  /** `strings.EqualFold`: equal up to the case of letters. */
  predicate EqualFold(a: string, b: string)
  {
    |a| == |b| && forall i | 0 <= i < |a| :: Fold(a[i]) == Fold(b[i])
  }

  /** Two characters that fold alike are turned into the same character by
      both case mappings. */
  lemma SameFoldSameCase(c: char, d: char)
    requires Fold(c) == Fold(d)
    ensures ToLower(c) == ToLower(d) && ToUpper(c) == ToUpper(d)
  {
  }

  lemma EqualFoldAppend(a: string, b: string, c: string, d: string)
    requires EqualFold(a, c) && EqualFold(b, d)
    ensures EqualFold(a + b, c + d)
  {
    forall i | 0 <= i < |a + b|
      ensures Fold((a + b)[i]) == Fold((c + d)[i])
    {
      if i >= |a| {
        assert (a + b)[i] == b[i - |a|] && (c + d)[i] == d[i - |c|];
      }
    }
  }

  /** `strings.ToLower`. */
  function Lower(w: string): (r: string)
    ensures |r| == |w|
    ensures forall i | 0 <= i < |w| :: r[i] == ToLower(w[i])
  {
    seq(|w|, i requires 0 <= i < |w| => ToLower(w[i]))
  }

  /** A later word of a camel-case name: its first letter upper case, the
      rest lower case. */
  function Capitalized(w: string): (r: string)
    ensures EqualFold(r, w)
  {
    if |w| == 0 then "" else [ToUpper(w[0])] + Lower(w[1..])
  }

  /** The later words of a lowerCamelCase name, each capitalized. */
  function CapitalizedWords(words: seq<string>): (r: string)
    ensures EqualFold(r, Concat(words))
  {
    if |words| == 0 then ""
    else
      var head, rest := Capitalized(words[0]), CapitalizedWords(words[1..]);
      EqualFoldAppend(head, rest, words[0], Concat(words[1..]));
      head + rest
  }

  /** The document name of an untagged field: the first word lowered
      entirely, the later words capitalized. It spells the Go identifier up
      to case, which is how the decoder finds the field again. */
  function LowerCamelCase(words: seq<string>): (r: string)
    ensures EqualFold(r, Concat(words))
  {
    if |words| == 0 then ""
    else
      var head, rest := Lower(words[0]), CapitalizedWords(words[1..]);
      EqualFoldAppend(head, rest, words[0], Concat(words[1..]));
      head + rest
  }

  predicate SameWordsUpToCase(v: seq<string>, w: seq<string>)
  {
    |v| == |w| && forall k | 0 <= k < |v| :: EqualFold(v[k], w[k])
  }

  lemma LowerUpToCase(v: string, w: string)
    requires EqualFold(v, w)
    ensures Lower(v) == Lower(w)
  {
    forall i | 0 <= i < |v|
      ensures Lower(v)[i] == Lower(w)[i]
    {
      SameFoldSameCase(v[i], w[i]);
    }
  }

  lemma CapitalizedUpToCase(v: string, w: string)
    requires EqualFold(v, w)
    ensures Capitalized(v) == Capitalized(w)
  {
    if |v| > 0 {
      SameFoldSameCase(v[0], w[0]);
      LowerUpToCase(v[1..], w[1..]);
    }
  }

  lemma {:induction false} CapitalizedWordsUpToCase(v: seq<string>, w: seq<string>)
    requires SameWordsUpToCase(v, w)
    ensures CapitalizedWords(v) == CapitalizedWords(w)
  {
    if |v| > 0 {
      CapitalizedUpToCase(v[0], w[0]);
      CapitalizedWordsUpToCase(v[1..], w[1..]);
    }
  }

  /** The document name depends on the words only up to case: `DatabaseID`
      and `DatabaseId` are both `databaseId`, `URL` and `Url` both `url`. */
  lemma LowerCamelCaseIgnoresCase(v: seq<string>, w: seq<string>)
    requires SameWordsUpToCase(v, w)
    ensures LowerCamelCase(v) == LowerCamelCase(w)
  {
    if |v| > 0 {
      LowerUpToCase(v[0], w[0]);
      CapitalizedWordsUpToCase(v[1..], w[1..]);
    }
  }
}
