# go-graphql-client core in Dafny

This project models the two parts of the Go GraphQL client that its test
suites pin down exactly.

**The operation-document builder.** This is `ConstructQuery`,
`ConstructMutation`, `ConstructSubscription` and `queryArguments`.
- The caller's Go type is described by an explicit shape: `Query.Kind` and
  `Query.Field`.
- The builder walks the shape into a minified GraphQL selection set (section
  2.4 of the GraphQL specification, October 2021). It prefixes the operation
  header of section 2.3: the keyword, the name, the variable declarations and
  the directives.
- Variable types are inferred from the static Go type of each value
  (`Arguments.TypeText`). Their written form is checked against the
  type-reference grammar of section 2.11.
- The `@cached` directive of the test file is modelled as written
  (`Options.CachedDirective`).

**The client's handling of a reply.** This is `Client.Query`, `Mutate`,
`QueryRaw` and `MutateRaw`, with the HTTP exchange given as a parameter.
- The request body is the query as a JSON string, the variables when there
  are some, and the operation name when it is not empty.
- The reply is one of:
  - a transport failure;
  - a status other than 200;
  - a body that does not parse;
  - an envelope with an optional `data` member and the server's errors.
- `data` is decoded into the caller's value, a `JsonUtil.Destination` whose
  field values `Absorb` updates in place. Partial data is kept beside the
  server's errors.
- Errors have the canonical text `Message: m, Locations: [{Line:L Column:C}]`
  (`Errors.ErrorsText`).
- In debug mode every error of an operation that was sent also records the
  request body under the `internal` extension. The encode error is made
  before anything is sent, so it records nothing.

Modules:
- `Wrappers`: Option and Result.
- `Text`: joining, `%d`, Go string order and sorting.
- `Ident`: lowerCamelCase field names.
- `Options`: operation name and directives.
- `Arguments`: variable declarations.
- `Query`: the builder.
- `Quote`: JSON strings and `%q`.
- `Errors`: the error value and its text.
- `JsonUtil`: decoding.
- `Graphql`: the client.
- `QueryExamples` and `ClientExamples`: the test tables as lemmas.

## Model

| member | source | states |
|---|---|---|
| Options.CachedDirective.String | query_test.go:18-23 | the text is exactly `@cached` iff the time to live is not positive; it always begins with `@cached` |
| Options.CachedDirectiveRoundTrip | query_test.go:18-23 | the time to live can be read back from the text: a positive one exactly, any other as 0 |
| Options.CachedDirectiveIsDirective | query_test.go:14-16 | a `@cached` option is an operation directive: it adds its text to the directives and does not change the operation name |
| Options.NameOfNone | query_test.go:25-47 | with no name option the operation name is empty, so the operation is anonymous |
| Options.NameOfLast | query_test.go:50-74 | the last name option given decides the operation name |
| Options.DirectivesOf | query_test.go:74 | a text is a directive iff it is the text of a directive option, and there are no more directives than options |
| Options.DirectivesOfAppend | query_test.go:189-208 | directive options contribute in the order they are given |
| Options.DirectivesText | query_test.go:74 | the directive part is empty iff the space-joined directives are empty; otherwise it is those joined directives with one space before and one after |
| Arguments.TypeTextMeaning | query_test.go:649-685 | the written type parses back as a well-formed GraphQL type reference; the outer type is non-null iff the value is required and not a pointer |
| Arguments.PrintParse | query_test.go:649-685 | printing a well-formed type reference loses nothing: parsing it gives the reference back |
| Arguments.TypeTextIsPrint | query_test.go:649-685 | the mapper's text is the printed form of the type reference it means |
| Arguments.PointerDropsBang | query_test.go:650-651 | a pointer drops only the outer `!`, and a pointer to a pointer adds nothing more |
| Arguments.DeclarationsOfAppend | query_test.go:181-186 | the declarations of two name lists are the declarations of the first followed by those of the second |
| Arguments.DeclarationsOfSubmap | query_test.go:181-186 | the declarations of some names depend only on those names' variables |
| Arguments.ArgumentsOrderedByName | query_test.go:181-186 | for any pivot name, every declaration below the pivot comes before every other, so the declarations are in ascending order of name |
| Arguments.QueryArguments | query_test.go:644-693 | collecting the keys in any map order, sorting them and writing `$name:Type` for each gives exactly the name-ordered declaration list |
| Arguments.WriteDeclarations | query_test.go:650-651 | the declarations of the given names, in that order, with no separator |
| Arguments.MapKeys | query_test.go:644-693 | the keys of the variable table, each exactly once |
| Text.SortedNames | query_test.go:181-186 | the names of a set in strictly ascending Go string order, each once |
| Text.SortedUnique | query_test.go:181-186 | two strictly ascending lists of the same names are equal, so the declaration order does not depend on map order |
| Text.SortedNamesSplit | query_test.go:181-186 | when every name of one set is below every name of another, the sorted union is the two sorted lists one after the other |
| Text.Insert | query_test.go:181-186 | inserting a new name into an ascending list keeps it ascending and adds exactly that name |
| Text.SortDistinct | query_test.go:181-186 | insertion sort of distinct names gives an ascending list of the same names |
| Text.BelowTotal | query_test.go:181-186 | Go string order is total on distinct strings (the other order lemmas show it is irreflexive, asymmetric and transitive) |
| Text.IntRoundTrip | graphql_test.go:64 | the decimal text of an integer reads back as that integer |
| Text.JoinSplice | query_test.go:285-295 | a comma-joined list written in place of one element reads as its items spliced in |
| Ident.LowerCamelCase | query_test.go:34-47 | an untagged field's name equals its identifier up to case |
| Ident.LowerCamelCaseIgnoresCase | query_test.go:78-108 | the name depends on the identifier's words only up to case, so initialisms are lowered (`DatabaseID` and `DatabaseId` give `databaseId`) |
| Ident.CapitalizedWordsUpToCase | query_test.go:78-108 | the later words of a name are written the same way whatever their case |
| Query.Visible | query_test.go:331-340 | a field of the record is written iff it is not tagged `-` |
| Query.VisibleAppend | query_test.go:331-340 | the written fields keep declaration order: those of two field lists are those of the first, then those of the second |
| Query.FieldPart | query_test.go:70-74 | a written field begins with its name, whether that is the tag text or the lowerCamelCase identifier |
| Query.WalkSupported | query_test.go:308-318 | a shape is written iff no map is walked; otherwise the error names the map type and says to use `[][2]interface{}` |
| Query.FieldPartsSupported | query_test.go:308-329 | a field list is written iff every field is excluded, marked scalar or supported; it has one part per visible field |
| Query.FieldPartSupported | query_test.go:316-318 | a `scalar:"true"` field is always written, even a map |
| Query.PairsTextSupported | query_test.go:208-267 | a pair list is written iff every value in it is supported |
| Query.Document | query_test.go:47-74 | a document exists iff the root is supported, and it always ends with the root's selection set; unless it takes the short anonymous form it is the keyword, a space, the name, the declarations in parentheses when there are variables, the directives, then the selection set |
| Query.HeaderLayout | query_test.go:50-74 | the header after the keyword is a space, the name, the parenthesised declarations when there are variables, then the directives |
| Query.OperationLayout | query_test.go:173-208 | for a supported root, a mutation, and a query or subscription that is not anonymous, is its keyword, a space, the operation name, `(` the declarations `)` when there are variables, the directive part, then the selection set |
| Query.ConstructQuery | query_test.go:25-351 | success iff the shape is supported, else the map error; the document is the bare selection set iff there are no variables, name or directives; it always ends with the selection set |
| Query.ConstructMutation | query_test.go:361-407 | success iff the shape is supported; the document begins with `mutation ` and ends with the selection set |
| Query.ConstructSubscription | query_test.go:409-642 | success iff the shape is supported; the document begins with `subscription`, is `subscription` plus the selection set iff anonymous, and ends with the selection set |
| Query.OperationKeywords | query_test.go:409-592 | the three operations share everything after their keyword; only the anonymous query drops the keyword, and only the anonymous subscription drops the space after it |
| Query.AnonymousKeywords | query_test.go:409-431 | an anonymous mutation is `mutation ` plus the query, and an anonymous subscription is `subscription` plus the query |
| Query.NamedKeywords | query_test.go:432-458 | with a name, variables or directives, the query begins with `query`, and the mutation and subscription replace only that keyword |
| Query.ChainAssociative | query_test.go:285-295 | combining the parts of consecutive field lists is associative, and the first error wins |
| Query.FieldPartsAppend | query_test.go:285-295 | the parts of two field lists are those of the first, then those of the second |
| Query.ExcludedFieldIgnored | query_test.go:331-340 | a field tagged `-` leaves the document as if it were not declared |
| Query.EmbeddedFieldsSpliced | query_test.go:270-295 | an untagged embedded struct with a written field reads as if its fields were declared in its place |
| Query.EmbeddedPart | query_test.go:285-295 | the parts of an untagged embedded struct come first, then those of the fields after it |
| Query.SinglePairIsRecord | query_test.go:208-267 | a one-entry pair list is written exactly like a struct with one field tagged with the entry's selection |
| Query.WrappersAddNoLevel | query_test.go:58-74 | slices and pointers, however nested, add no level to the document |
| QueryExamples.NameDatabaseID | query_test.go:47 | `DatabaseID` is written `databaseId` |
| QueryExamples.ExcludedFieldsExample | query_test.go:331-340 | the viewer struct with two excluded fields gives `{viewer{login,databaseId}}` |
| QueryExamples.ScalarMapExample | query_test.go:308-318 | a map tagged `scalar:"true"` is a bare name: `{viewer{id,login},tags}` (a two-field viewer) |
| QueryExamples.UnsupportedMapExample | query_test.go:308-318 | the same map without the scalar tag gives the map error |
| QueryExamples.EmbeddedExample | query_test.go:270-295 | an untagged embedded struct is spliced and a tagged one is its own child: `{actor{login,url},createdAt,... on IssueComment{body},currentTitle}` (a reduced event struct) |
| QueryExamples.PairListMutationExample | query_test.go:387-396 | a root pair list of two mutations gives `mutation ($login1:String!$login2:String!){createUser(login:$login1){login}deleteUser(login:$login2){login}}` |
| QueryExamples.NamedHeaderExample | query_test.go:50-74 | a name option and a bare `@cached` give the header ` GetRepository @cached ` |
| QueryExamples.IssueBodyExample | query_test.go:173-186 | the nested tagged struct with three variables gives the whole document `query ($issueNumber:Int!$repositoryName:String!$repositoryOwner:String!){repository(owner: $repositoryOwner, name: $repositoryName){issue(number: $issueNumber){body}}}` |
| QueryExamples.SortedThree | query_test.go:182-186 | a set of three names in ascending Go string order is listed in that order, the order in which they are declared |
| QueryExamples.TypeTextExamples | query_test.go:674-685 | `Int!`, `Boolean`, `[ID!]!`, `[ID!]`, `[IssueState!]!` and `[IssueState!]` for the table's value types |
| QueryExamples.ArgumentsExample | query_test.go:648-651 | `$a:Int!$b:Boolean` |
| QueryExamples.ListArgumentsExample | query_test.go:653-672 | `$optional:[IssueState!]$required:[IssueState!]!` for slices and for arrays |
| Quote.JsonString | graphql_test.go:262 | a JSON string literal is enclosed in double quotes |
| Quote.JsonEscapeRoundTrip | graphql_test.go:262 | JSON escaping, HTML-safe escapes included, reads back as the text it was written from |
| Quote.JsonStringRoundTrip | graphql_test.go:262 | the query in a request body reads back as the query |
| Quote.JsonPlainText | graphql_test.go:262 | text with no character JSON escapes is written as is |
| Quote.GoQuote | graphql_test.go:219 | `%q` of a body is enclosed in double quotes |
| Quote.GoEscapeRoundTrip | graphql_test.go:219 | Go escaping reads back as the bytes it was written from |
| Quote.GoQuoteRoundTrip | graphql_test.go:219 | a `%q`-quoted body reads back as the body |
| Quote.PlainTextUnescaped | graphql_test.go:219 | printable ASCII with no quote or backslash is quoted as is |
| Quote.GoEscapeAppend | graphql_test.go:219 | escaping works character by character |
| Errors.NewError | graphql_test.go:219-228 | an error made by the client has the given message, no locations, no path, and only the `code` extension |
| Errors.WithRequest | graphql_test.go:196-199 | debug mode keeps the message, locations, path and every other extension, and adds `internal` holding the request body |
| Errors.ErrorString | graphql_test.go:55-73 | writing each error's text into a builder gives the canonical text of the error list |
| Errors.OneErrorText | graphql_test.go:64 | a list of one error reads as `Message: m, Locations: [...]` |
| Errors.NewErrorText | graphql_test.go:219 | an error of the client's own reads `Message: m, Locations: []` |
| Errors.WithRequestKeepsText | graphql_test.go:134-137 | debug mode does not change an error's text |
| Errors.LocationRoundTrip | graphql_test.go:64 | `{Line:L Column:C}` reads back as the location |
| Errors.LocationsRoundTrip | graphql_test.go:64 | the location list of an error's text reads back as the locations |
| Errors.ErrorTextRoundTrip | graphql_test.go:64 | the text of an error determines its message and its locations, even when the message holds commas |
| JsonUtil.ZeroOf | graphql_test.go:45-52 | the zero value of a shape fits the shape |
| JsonUtil.ZeroFields | graphql_test.go:45-52 | every field of a fresh struct holds its zero value |
| JsonUtil.FieldFor | graphql_test.go:45-52 | a key goes to the first field that takes it, and to none if no field takes it |
| JsonUtil.DecodeObject | graphql_test.go:55-73 | decoding keeps one value per field |
| JsonUtil.Destination.constructor | graphql_test.go:45-52 | a fresh destination holds the zero value of each field |
| JsonUtil.Destination.Absorb | graphql_test.go:55-73 | the fields and the error become those of decoding `data` into the current field values |
| JsonUtil.DecodeConforms | graphql_test.go:55-73 | decoding keeps every value within its shape |
| JsonUtil.DecodeObjectConforms | graphql_test.go:55-73 | decoding into a struct keeps every field within its shape |
| JsonUtil.UntouchedFieldKept | graphql_test.go:70-73 | a field that no member's key leads to keeps its value |
| JsonUtil.ExcludedTakesDash | graphql_test.go:300-304 | a field tagged `-` takes only the key `-` |
| JsonUtil.ExcludedFieldKept | graphql_test.go:313-315 | a field tagged `-` keeps its value unless the server sends a `-` key |
| JsonUtil.NoErrorEveryKeyKnown | graphql_test.go:55-73 | decoding ends without error only when every key led to a field |
| JsonUtil.UnknownKeyStops | graphql_test.go:55-73 | a key no field takes, after an error-free prefix, ends decoding with the error naming that key |
| JsonUtil.BuilderNameFound | graphql_test.go:161-172 | the name the builder writes for an untagged field is a key the decoder matches to that field |
| JsonUtil.AliasFound | graphql_test.go:45-52 | a tagged field takes exactly the alias or name its tag begins with |
| Graphql.VariableMembers | graphql_test.go:259-263 | one `"name":value` member per variable, in the given order |
| Graphql.Client.WithDebug | graphql_test.go:125 | the copy has the same URL and the debug mode given |
| Graphql.Client.DebuggedAll | graphql_test.go:182-200 | every server error is passed through debug mode, one for one |
| Graphql.Client.Run | graphql_test.go:16-316 | an operation keeps one value per destination field; its errors, including the decoding error that records the request in debug mode, are stated by PartialData, StatusError and DebugRecordsEveryError |
| Graphql.Client.Query | graphql_test.go:55-73 | the destination's fields and the errors returned are those of the operation on the destination's current values |
| Graphql.Client.Mutate | graphql_test.go:16-316 | the same for a mutation document |
| Graphql.Client.Do | graphql_test.go:16-316 | absorbing `data` into the destination and appending a decoding error, which records the request in debug mode, gives the operation's outcome |
| Graphql.StatusError | graphql_test.go:203-255 | a status other than 200 gives exactly one `request_error` whatever the body: message `status; body: "…"`, text with `Locations: []`, `internal` present iff debug mode and then holding the request body; the destination is unchanged |
| Graphql.StatusOutcome | graphql_test.go:203-255 | a failing status leaves the destination values as they were, with the one `request_error` of the exchange as the only error |
| Graphql.RequestErrorShape | graphql_test.go:219-231 | an error of the client's own keeps its message, text and code in debug mode and gains `internal` only then |
| Graphql.StatusRaw | graphql_test.go:203-255 | behind a failing status there is no data and one error |
| Graphql.RunWithoutData | graphql_test.go:140-174 | with no `data` member the destination is left as it was and the errors are those of the exchange |
| Graphql.DebugOnlyRecordsRequest | graphql_test.go:182-200 | debug mode changes neither the data, nor the number, messages or text of the errors, and every error gains `internal` |
| Graphql.ExchangeDebugOnly | graphql_test.go:182-200 | the exchange in debug mode has the same data and the same number of errors, each the plain error with the request recorded |
| Graphql.DebugRecordsEveryError | graphql_test.go:182-200 | in debug mode every error of an operation that was sent records the request body under `internal`: transport, status, server and decoding errors alike |
| Graphql.ExchangeRecords | graphql_test.go:182-200 | in debug mode every error of the exchange records the request body |
| Graphql.WithRequestKeepsTexts | graphql_test.go:134-137 | recording the request in every error keeps the text of the error list |
| Graphql.ServerErrorsUnchanged | graphql_test.go:55-73 | without debug mode the server's data and errors are passed on unchanged |
| Graphql.PartialData | graphql_test.go:16-73 | with no `data` the destination is unchanged; with `data` it is decoded even beside server errors, the server's errors come first, and a decoding error is the only addition |
| Graphql.EncodeFailure | query_test.go:308-318 | a shape the builder refuses gives one `graphql_encode_error` with the map error, no `internal`, and an unchanged destination |
| Graphql.EmptyVariablesOmitted | graphql_test.go:259-263 | an empty variable map sends `{"query":…}` with no `variables` member |
| Graphql.QueryReadsBack | graphql_test.go:259-263 | every request body begins with `{"query":` and a JSON string that reads back as the query |
| ClientExamples.PartialDataExample | graphql_test.go:16-73 | `node1` is decoded, the null `node2` stays nil, and the one error reads `Message: Could not resolve …, Locations: [{Line:10 Column:4}]` |
| ClientExamples.RawMessageExample | graphql_test.go:76-121 | a raw-message field holds the `node1` value itself; the error is the same |
| ClientExamples.NoDataExample | graphql_test.go:140-200 | with no `data` the struct keeps its zero value; the error reads with line 7 column 3, and in debug mode records `{"query":"{user{name}}"}` |
| ClientExamples.StatusExample | graphql_test.go:203-255 | a 500 reply gives one `request_error` reading `Message: 500 Internal Server Error; body: "important message\n", Locations: []`, recording the request in debug mode |
| ClientExamples.EmptyVariablesExample | graphql_test.go:259-284 | the body is `{"query":"{user{name}}"}` and the name `Gopher` is decoded with no error |
| ClientExamples.IgnoredFieldExample | graphql_test.go:287-316 | the document is `{user{id,name}}`, `Gopher` is decoded and the ignored field keeps its zero value |

## Left out

- Go reflection: the caller's type is given as a `Query.Kind` shape. Identifiers come already split into words, because the splitting of mixed-case identifiers is not part of this model.
- Case mapping, space trimming and printability are ASCII only. There is no Unicode case folding.
- The HTTP transport, the request context, gzip and the client's URL. The reply, or the transport failure, is a parameter: a status code, a status line, a body and its parsed envelope.
- Byte-level JSON parsing and the compaction of raw messages. The envelope arrives parsed, and a raw-message field holds the parsed value.
- Subscriptions over a socket. Only the subscription document is modelled.
- JsonUtil.Decode: it does not convert JSON values into Go scalar types. A leaf holds the JSON value it was sent.
- JsonUtil.Decode: a JSON value of the wrong kind for its place gives one fixed message, `JsonUtil.MismatchError`, in place of the decoder's detailed one.
- JsonUtil.Decode: embedded structs, inline fragments and pair lists are not split across the response's keys. A pair list or map holds the JSON value as sent.
- Arguments.TypeText: the caller gives the GraphQL name of each scalar type (`Named`). The table from Go scalar types to names, a value's own type-name override and the failure for a kind with no mapping are not modelled.
- Quote.JsonEscapeChar: the `\b` and `\f` escapes of newer Go versions are not modelled (those characters take the `\u00XX` form), and neither is invalid UTF-8.
- Quote.GoEscapeChar: non-printable characters above ASCII are not modelled.
- Errors.WithRequest: the `internal` extension holds only the request body. The request headers and the response are not part of this model.
- Graphql.Client.Exchange: a failing status is any status other than 200, following the client's check. Other 2xx statuses count as failures too.
- Graphql.Client.Exchange: members of a server error other than message, locations, path and extensions are dropped.
- QueryExamples.ScalarMapExample, QueryExamples.EmbeddedExample: these examples use shorter structs than the test table rows they follow. The other long table rows are covered only by the general lemmas.
