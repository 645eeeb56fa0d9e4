# A verified model of the bareish BARE-schema front end

This project models the schema front end of lotor's `bareish` package in Dafny:

- the lexer for the BARE schema language;
- the recursive-descent parser that turns a schema document into a list of user-defined types and enums;
- the type tree those declarations are made of;
- `baregen`, which sorts the parsed declarations and renders them as Go source through its templates;
- the unparser, which goes the other way, from a Go type description to BARE schema text.

The code is modelled as it is written, including its quirks.

Layout:

- `results.dfy`: `Option`, and a `Result` usable with `:-`.
- `strconv.dfy`: Go's `strconv.ParseUint` in base 10 and its inverse. A syntax error gives 0 and an overflow saturates at the bit size's maximum, because the parser throws the error away and keeps the value.
- `ast.dfy` and `ast_props.dfy`: the schema type tree, `TypeKind` with its numeric codes and names, and each node's `Kind()`.
- `lex.dfy` and `lex_props.dfy`:
  - tokens and their spelling;
  - a pure single-token scanner (`Scan`, `NextToken` over a `LexState` of unread input plus a push-back queue);
  - the `Scanner` class, whose methods update `rest` and `pushback` in place and are proved equal to `NextToken` / `Pushed`.
- `grammar.dfy` and `grammar_props.dfy`:
  - the grammar of `parser.go` as total functions over `LexState`, which serve as the reference definitions;
  - the numbering of enum values and union tags as separate functions (`AssignValues`, `AssignTags`);
  - lemmas about them: the order of declarations, the closed forms of the numbering, whole-document examples and error cases.
- `parser.dfy`: the parser as imperative methods over a `Scanner`, with the union and enum loops kept as loops. Each method's `ensures` says that its result and the scanner's new state are exactly those of the matching grammar function.
- `baregen.dfy`:
  - the `Types` record and the classification loop of `parseSchema`;
  - the template helpers (`typeKind`, `primitiveType`, `structTag`, `capitalize`, `last`);
  - the type, user-type, enum and union templates as string functions with `Result` errors where Go would panic;
  - a characterisation of when generation succeeds.
- `unparse.dfy`:
  - `SchemaFor` / `SchemaForType` over a `Descriptor` datatype that stands in for `reflect.Type`;
  - the imperative `schemaForStruct` loop;
  - the leftmost-match semantics of `tagFieldNameRE`.

Where this model follows the code rather than the schema-language description:

- End of input inside a declaration ends `Parse` successfully, and the unfinished declaration is dropped. This is because `parseSchemaType` passes the scanner's `io.EOF` through unchanged, and `Parse` treats any `io.EOF` as the end of the document.
- An enum value given without `= N` right after one given as `= N` gets that same N, not N+1. This is because the explicit branch sets the counter without incrementing it.
- Names are checked with unanchored regular expressions, so a name is accepted when it *contains* a match. A type's name is checked only after its whole type has parsed, and an enum's name only after its closing `}`.
- `parseStructType` reports `[` as the expected text when the opening token is not `{`.

## Model

| member | source | states |
|---|---|---|
| Lex.Scanner.Next | bareish/schema/lex.go:29-91 | The returned token or error, and the new unread input and push-back queue, equal `NextToken` of the old state. A queued token comes first; blanks and `#` comments are skipped; end of input is an error. |
| Lex.Scanner.PushBack | bareish/schema/lex.go:95-97 | The token is appended to the push-back queue and the unread input is unchanged. |
| Lex.Scanner.ScanWord | bareish/schema/lex.go:108-173 | Consumes the longest run of word characters and returns it as the keyword token it spells, or else as a name token. The queue is unchanged. |
| Lex.Scanner.ScanInteger | bareish/schema/lex.go:175-196 | Consumes the longest run of decimal digits and returns it as an integer token. The queue is unchanged. |
| Lex.Scanner.ReadLine | bareish/schema/lex.go:60-62 | Drops the input up to and including the next newline, or all of it when there is none. |
| Lex.NextToken | bareish/schema/lex.go:29-91 | The state never grows, and a successful read strictly shrinks it. |
| Lex.Scan | bareish/schema/lex.go:36-90 | The unread input after a scan is a suffix of the input. A token consumes at least one character. End of input leaves nothing unread. |
| Lex.WordLength | bareish/schema/lex.go:108-173 | The result is the length of the longest prefix of word characters. The character after it is not a word character. |
| Lex.DigitLength | bareish/schema/lex.go:175-196 | The result is the length of the longest prefix of decimal digits. |
| Lex.AfterLine | bareish/schema/lex.go:60-62 | The result is a suffix of the input, and it is empty when there is no newline. |
| LexProps.KeywordTableMatchesSpelling | bareish/schema/lex.go:128-172 | A word is classified as keyword k exactly when k is a keyword and `Token.String()` of k spells that word. |
| LexProps.KeywordTableSpellsKeywords | bareish/schema/lex.go:258-329 | Every word the keyword table maps to k is the spelling `String()` gives k. |
| LexProps.SpellingsAreInKeywordTable | bareish/schema/lex.go:128-172 | The table maps each keyword's spelling back to that keyword. |
| LexProps.ScanKeywordAlone | bareish/schema/lex.go:108-173 | Scanning a keyword's spelling on its own yields exactly that keyword token and consumes all of it. |
| LexProps.WordLengthOfWord | bareish/schema/lex.go:108-126 | A word followed by a non-word character is scanned for exactly its length. |
| LexProps.DigitLengthOfDigits | bareish/schema/lex.go:175-196 | A digit run followed by a non-digit is scanned for exactly its length. |
| LexProps.ScanWordToken | bareish/schema/lex.go:50-53 | A word followed by a non-word character scans as that word's token, leaving the rest. A non-keyword becomes a name token carrying the word. |
| LexProps.ScanIntegerToken | bareish/schema/lex.go:54-57 | A digit run scans as one integer token carrying exactly the digits. |
| LexProps.PunctuationCharacters | bareish/schema/lex.go:59-85 | A character is punctuation exactly when it is one of `< > { } [ ] ( ) \| = :`. |
| LexProps.ScanPunctuationToken | bareish/schema/lex.go:63-84 | A punctuation character scans as its one-character token. |
| LexProps.PunctuationSpelling | bareish/schema/lex.go:258-329 | `String()` of a punctuation token is the character it was scanned from. |
| LexProps.ScanUnknownCharacter | bareish/schema/lex.go:87 | Any other non-blank, non-comment character is an unknown-token error naming that character. |
| LexProps.NoTokenIffBlank | bareish/schema/lex.go:41-90 | Scanning reports end of input exactly when the input holds only white space and comments. |
| LexProps.ScanSkipsSpace | bareish/schema/lex.go:47-49 | Leading white space does not change the scan. |
| LexProps.ScanSkipsComment | bareish/schema/lex.go:60-62 | A `#` comment up to its newline does not change the scan. |
| LexProps.PushedTokensComeOutInOrder | bareish/schema/lex.go:30-34 | Pushed-back tokens are read back first, oldest first, before any more input is scanned. |
| LexProps.FifoPushBack | bareish/schema/lex.go:95-97 | Two pushed-back tokens come out first-in, first-out. |
| LexProps.EndOfInputIsSticky | bareish/schema/lex.go:41-90 | At blank input with an empty queue, reading yields end of input, and reading again changes nothing. |
| Grammar.MatchString | bareish/schema/parser.go:10-15 | For each unanchored name pattern, a string matches exactly when it contains a match. |
| Grammar.MatchesIffHeadOccurs | bareish/schema/parser.go:10-15 | An unanchored pattern `[X][Y]*` matches exactly when some character of the string is in class X. |
| Grammar.Inc64 | bareish/schema/parser.go:453 | A 64-bit increment wraps from the maximum to 0. |
| Grammar.AssignTags | bareish/schema/parser.go:436-453 | Union numbering keeps every member, in order, with its own subtype. |
| Grammar.AssignValues | bareish/schema/parser.go:160-178 | Enum numbering keeps every value, in order, with its own name. |
| Grammar.Declaration | bareish/schema/parser.go:45-61 | A declaration that parses is well formed and consumed input. Anything other than `type` or `enum` is an unexpected token. |
| Grammar.UserTypeDecl | bareish/schema/parser.go:63-91 | A parsed user type is well formed, so its name contains a user-type match. |
| Grammar.EnumKind | bareish/schema/parser.go:112-129 | An enum's kind is always u8, u16, u32, u64 or uint. |
| Grammar.UserEnumDecl | bareish/schema/parser.go:93-199 | A parsed enum is well formed. It has at least one value, every value name contains an enum-value match, and the enum name contains an enum-name match. |
| Grammar.EnumEntry | bareish/schema/parser.go:142-176 | An entry's name contains an enum-value match. An explicit value is at most 2^32-1, because it is read with 32-bit ParseUint. |
| Grammar.EnumEntries | bareish/schema/parser.go:139-192 | The loop adds at least one entry and keeps every name valid. |
| Grammar.PrimitiveOfToken | bareish/schema/parser.go:207-237 | Only primitive kinds are produced from a primitive keyword. |
| Grammar.TypeExpr | bareish/schema/parser.go:201-261 | A parsed type is well formed, meaning every struct field name contains a field-name match, and it consumed input. |
| Grammar.OptionalExpr | bareish/schema/parser.go:263-293 | `optional<T>` parses to a well-formed type. |
| Grammar.DataExpr | bareish/schema/parser.go:295-331 | `data` and `data<N>` parse to a well-formed type. |
| Grammar.MapExpr | bareish/schema/parser.go:333-369 | `map[K]V` parses to a well-formed type. |
| Grammar.ArrayExpr | bareish/schema/parser.go:371-411 | `[]T` and `[N]T` parse to a well-formed type. |
| Grammar.UnionExpr | bareish/schema/parser.go:413-470 | A union parses to a well-formed type. |
| Grammar.UnionAlternatives | bareish/schema/parser.go:426-467 | The loop keeps at least one member and keeps every member well formed. |
| Grammar.StructExpr | bareish/schema/parser.go:472-518 | A struct parses to a well-formed type. |
| Grammar.StructFields | bareish/schema/parser.go:482-515 | Every field the loop collects is well formed. |
| Grammar.Declarations | bareish/schema/parser.go:33-42 | The document loop never reports end of input as an error, and every declaration it keeps is well formed. |
| Grammar.Document | bareish/schema/parser.go:30-43 | `Parse` either fails with a real error or returns well-formed declarations. |
| Grammar.AssignTagsAppend | bareish/schema/parser.go:449-453 | Numbering one more union member extends the earlier numbering by exactly that member's tag. |
| Grammar.AssignValuesAppend | bareish/schema/parser.go:169-178 | Numbering one more enum value extends the earlier numbering by exactly that value. |
| GrammarProps.TagsClosedForm | bareish/schema/parser.go:436-453 | A labelled union member gets its label. The first unlabelled member gets the starting tag. Any later unlabelled member gets its predecessor's tag plus one, wrapping at 2^64. |
| GrammarProps.TagsCountUp | bareish/schema/parser.go:422-453 | With no labels, member i gets tag i (mod 2^64). |
| GrammarProps.TagAfterExplicitIncrements | bareish/schema/parser.go:444-453 | After `T = n`, the next unlabelled member gets n+1. |
| GrammarProps.ExplicitValuesAreKept | bareish/schema/parser.go:169-171 | A value given as `= N` is N, and a leading unlabelled value gets the starting counter. |
| GrammarProps.ValueAfterExplicitIsRepeated | bareish/schema/parser.go:160-176 | An unlabelled value right after an explicit one gets the same number. |
| GrammarProps.ValueAfterImplicitIncrements | bareish/schema/parser.go:172-176 | An unlabelled value right after an unlabelled one gets its predecessor's number plus one, mod 2^64. |
| GrammarProps.ValuesCountUp | bareish/schema/parser.go:139-176 | With no explicit values, value i is i (mod 2^64). |
| GrammarProps.ImplicitValueAfterExplicitRepeats | bareish/schema/parser.go:160-176 | `A = n, B` numbers both A and B as n. |
| GrammarProps.DeclarationsKeepOrder | bareish/schema/parser.go:33-42 | Declarations are returned in source order, and an error discards all of them. |
| GrammarProps.FirstDeclarationComesFirst | bareish/schema/parser.go:33-42 | The document's first declaration heads the result. |
| GrammarProps.BlankDocumentIsEmpty | bareish/schema/parser.go:33-36 | A document of only white space and comments parses to no declarations. |
| GrammarProps.MisplacedTokenIsRejected | bareish/schema/parser.go:45-61 | A document whose first token is neither `type` nor `enum` fails with that token and "'type' or 'enum'". |
| GrammarProps.UnknownCharacterIsRejected | bareish/schema/parser.go:45-49 | A lexer error other than end of input is passed through as the result of `Parse`. |
| GrammarProps.UnfinishedDeclarationIsDropped | bareish/schema/parser.go:33-42 | `type N {` followed by end of input parses successfully to no declarations. |
| GrammarProps.TruncatedDeclarationIsDropped | bareish/schema/parser.go:33-42 | The text `type T {` plus blanks parses to an empty list. |
| GrammarProps.TypeExprAtData | bareish/schema/parser.go:241-243 | A type that starts with `data` is parsed by the data rule, with `data` pushed back. |
| GrammarProps.TypeExprAtBracket | bareish/schema/parser.go:247-249 | A type that starts with `[` is parsed by the array rule, with `[` pushed back. |
| GrammarProps.TypeExprAtPrimitive | bareish/schema/parser.go:201-237 | A primitive keyword is on its own the whole type, and nothing after it is read. |
| GrammarProps.DataWithoutLength | bareish/schema/parser.go:304-311 | `data` followed by anything but `<` is variable-length data, length 0, and that next token is pushed back. |
| GrammarProps.DataWithLength | bareish/schema/parser.go:313-330 | `data<N>` has length ParseUint(N) with a 32-bit bound, and the parse ends after `>`. |
| GrammarProps.DataCutShort | bareish/schema/parser.go:304-307 | End of input right after `data` is returned as the end-of-input error, not as `data` of length 0. |
| GrammarProps.ArrayWithoutLength | bareish/schema/parser.go:380-410 | `[]T` is an array of T with length 0. |
| GrammarProps.ArrayWithLength | bareish/schema/parser.go:386-410 | `[N]T` is an array of T with length ParseUint(N) with a 32-bit bound. |
| GrammarProps.ArrayLengthIsRejected | bareish/schema/parser.go:401-402 | After `[`, a token that is neither an integer nor `]` fails with that token and expected "]". |
| GrammarProps.StructFieldsAtClose | bareish/schema/parser.go:485-491 | `}` ends the field loop with exactly the fields collected so far. |
| GrammarProps.StructFieldsStep | bareish/schema/parser.go:492-514 | A valid field name, `:` and a type append exactly that one field at the end, and the loop goes on after the type. |
| GrammarProps.StructOfFields | bareish/schema/parser.go:472-517 | `{` and then fields fs end up as the struct with fields fs. |
| GrammarProps.StructFieldsKeepOrder | bareish/schema/parser.go:481-515 | The loop's result is the fields already collected followed by the fields parsed from the rest, in source order. Any error stays that same error. |
| GrammarProps.SoleUserType | bareish/schema/parser.go:30-88 | `type Name T` followed by blanks parses to exactly one declaration of Name as T. |
| GrammarProps.FinalDataDeclarationIsDropped | bareish/schema/parser.go:30-43 | When `type Name data` is the end of the input, the look-ahead for `<` meets end of input, and `Parse` returns no declarations. |
| GrammarProps.DataOfLengthText | bareish/schema/parser.go:241-243 | A text with the tokens `data < N >` is read as data of length ParseUint(N). |
| GrammarProps.ArrayOfLengthText | bareish/schema/parser.go:247-249 | A text with the tokens `[ N ]` and then T is read as an array of T of length ParseUint(N). |
| GrammarProps.ArrayOfNoLengthText | bareish/schema/parser.go:247-249 | A text with the tokens `[ ]` and then T is read as an array of T of length 0. |
| GrammarProps.StructOfText | bareish/schema/parser.go:253-255 | A text with `{` and then the fields fs is read as the struct with fields fs. |
| GrammarProps.PrimitiveFieldText | bareish/schema/parser.go:492-514 | The text `name: primitive` appends the field with that name and primitive type. |
| GrammarProps.SizedDataDeclaration | bareish/schema/parser.go:313-330 | `type D data<128>` followed by blanks declares D as data of length 128. |
| GrammarProps.FinalDataIsDropped | bareish/schema/parser.go:304-307 | `type D data` followed by blanks parses to no declarations. |
| GrammarProps.SizedArrayDeclaration | bareish/schema/parser.go:386-410 | `type A [4] u8` followed by blanks declares A as an array of u8 of length 4. |
| GrammarProps.UnsizedArrayDeclaration | bareish/schema/parser.go:399-410 | `type A [] u8` followed by blanks declares A as an array of u8 of length 0. |
| GrammarProps.StructDeclaration | bareish/schema/parser.go:472-518 | `type S {` and then fields fs followed by blanks declares S as the struct with fields fs. |
| GrammarProps.EmptyStructDeclaration | bareish/schema/parser.go:489-491 | `type S { }` declares S as a struct with no fields. |
| GrammarProps.TwoFieldStructDeclaration | bareish/schema/parser.go:482-517 | `type S { a: u8 b: bool }` declares S with the fields a then b, in source order. |
| GrammarProps.NonWidthKindIsRejected | bareish/schema/parser.go:112-137 | In `enum N X`, a token X that is neither u8–u64 nor `{` is pushed back, and the error names X with expected "{". |
| GrammarProps.ExplicitUintEnumKindIsRejected | bareish/schema/parser.go:117-137 | `enum E uint` is rejected: `uint` is not an accepted kind token, so it is then read where `{` was expected. |
| GrammarProps.TypeNameIsCheckedLast | bareish/schema/parser.go:80-88 | A bad user-type name is reported only after its type has parsed. |
| GrammarProps.InvalidTypeNameIsReportedLazily | bareish/schema/parser.go:80-88 | `type a u8` fails with the invalid-name error for `a`. |
| GrammarProps.ImplicitValueRepeatsExplicit | bareish/schema/parser.go:93-199 | Through the whole parser, `enum E { A = n B }` yields A and B both with value n. |
| GrammarProps.ValueAfterExplicitRepeats | bareish/schema/parser.go:93-199 | `enum E { A = 5 B }` parses to one uint enum with A = 5 and B = 5. |
| Parser.Parse | bareish/schema/parser.go:30-43 | The imperative loop returns exactly `Document(input)`. |
| Parser.ParseSchemaType | bareish/schema/parser.go:45-61 | Result and new scanner state equal `Declaration` of the old state. |
| Parser.ParseUserType | bareish/schema/parser.go:63-91 | Result and new scanner state equal `UserTypeDecl` of the old state. |
| Parser.ParseUserEnum | bareish/schema/parser.go:93-199 | Result and new scanner state equal `UserEnumDecl` of the old state. |
| Parser.ParseEnumKind | bareish/schema/parser.go:112-129 | Result and new scanner state equal `EnumKind` of the old state, including the push-back of a non-kind token. |
| Parser.ParseEnumBody | bareish/schema/parser.go:131-198 | The value loop and the late name check equal `EnumBody`, including the running counter. |
| Parser.ParseEnumValue | bareish/schema/parser.go:142-176 | One value name with an optional `= N` equals `EnumEntry`. |
| Parser.AppendValue | bareish/schema/parser.go:169-178 | One loop step keeps the list and the counter equal to `AssignValues` / `CounterAfter` of the entries read so far. |
| Parser.ParseType | bareish/schema/parser.go:201-261 | Result and new scanner state equal `TypeExpr` of the old state. |
| Parser.ParseOptionalType | bareish/schema/parser.go:263-293 | Result and new state equal `OptionalExpr`. |
| Parser.ParseDataType | bareish/schema/parser.go:295-331 | Result and new state equal `DataExpr`. |
| Parser.ParseMapType | bareish/schema/parser.go:333-369 | Result and new state equal `MapExpr`. |
| Parser.ParseArrayType | bareish/schema/parser.go:371-411 | Result and new state equal `ArrayExpr`. |
| Parser.ParseLabel | bareish/schema/parser.go:432-447 | An optional `= N` label, read with ParseUint at the given bit size, equals `OptionalLabel`. |
| Parser.ParseUnionMember | bareish/schema/parser.go:427-447 | One union member and its optional label equal `UnionMember`. |
| Parser.AppendMember | bareish/schema/parser.go:449-453 | One loop step keeps the list and the tag equal to `AssignTags` / `TagAfter` of the members read so far. |
| Parser.ParseUnionType | bareish/schema/parser.go:413-470 | Result and new state equal `UnionExpr`. |
| Parser.ParseStructType | bareish/schema/parser.go:472-518 | Result and new state equal `StructExpr`. |
| Ast.Code | bareish/schema/ast.go:53-93 | Every kind has a numeric code below the number of kinds. |
| AstProps.DataKindByLength | bareish/schema/ast.go:182-187 | A data type is `DataSlice` exactly when its length is 0, and `DataArray` otherwise. |
| AstProps.ArrayKindByLength | bareish/schema/ast.go:215-220 | An array type is `Slice` exactly when its length is 0, and `Array` otherwise. |
| AstProps.CompositeKindsAreConstant | bareish/schema/ast.go:162-289 | Optional, map, union, struct and named types report their fixed kind. A primitive type reports its own kind. |
| AstProps.DataAndDataFixedNeverReported | bareish/schema/ast.go:162-289 | No node reports `Data` or `DataFixed`, and only primitive nodes report primitive kinds. |
| AstProps.KindStringNamesEveryKind | bareish/schema/ast.go:95-152 | `String()` is "?" exactly for codes outside the enumeration. |
| AstProps.KindCodeRoundTrip | bareish/schema/ast.go:53-152 | From a kind's code you get the kind back, and its `String()` is that kind's name. |
| AstProps.KindNamesAreDistinct | bareish/schema/ast.go:95-152 | No two kinds have the same name. |
| Strconv.ParseUint | bareish/schema/parser.go:169 | The value read never exceeds the bit size's maximum. |
| Strconv.AccumulateSaturates | bareish/schema/parser.go:320 | Reading a digit string gives its decimal value, saturated at the maximum. |
| Strconv.ParseUintOfDigits | bareish/schema/parser.go:388 | For a non-empty digit string, ParseUint is its decimal value, or the maximum on overflow. |
| Strconv.FormatUint | bareish/baregen/baregen.go:70 | A number prints as a non-empty digit string. |
| Strconv.FormatUintValue | bareish/baregen/baregen.go:70 | The printed digits have exactly the printed number's value. |
| Strconv.ParseFormatRoundTrip | bareish/schema/parser.go:444 | Reading back a printed number within range gives the number. |
| Strconv.ParseUintOverflow | bareish/schema/parser.go:169 | Reading back a printed number above the maximum gives the maximum. |
| Baregen.BucketOf | bareish/baregen/baregen.go:253-264 | Enums go to the enum bucket and union-typed user types to the union bucket; in a well-formed schema nothing else does. |
| Baregen.Select | bareish/baregen/baregen.go:252-265 | A bucket's list holds only declarations of that bucket. |
| Baregen.ClassifyDeclarations | bareish/baregen/baregen.go:250-271 | The loop with `continue` builds exactly `Classification`: the three buckets in source order, with `NeedErrors` set when there is an enum. |
| Baregen.SelectMembership | bareish/baregen/baregen.go:252-265 | A declaration is in a bucket's list exactly when it is in the schema and belongs to that bucket. |
| Baregen.SelectConcat | bareish/baregen/baregen.go:252-265 | Classifying two schemas one after the other concatenates their buckets. |
| Baregen.ClassificationPartitions | bareish/baregen/baregen.go:252-265 | The three lists together are a permutation of the declarations: none is lost or duplicated. |
| Baregen.NeedErrorsIffEnum | bareish/baregen/baregen.go:267-269 | `NeedErrors` is true exactly when the schema declares an enum. |
| Baregen.TypeKindName | bareish/baregen/baregen.go:111-130 | `typeKind` succeeds on every node except a union, where Go panics. |
| Baregen.PrimitiveGoType | bareish/baregen/baregen.go:131-165 | `primitiveType` succeeds exactly on the primitive kinds. |
| Baregen.PrimitiveGoTypeInvertible | bareish/baregen/baregen.go:131-165 | Distinct primitive kinds get distinct Go names, and each kind can be recovered from its name. |
| Baregen.Capitalize | bareish/baregen/baregen.go:169-171 | `capitalize` fails on the empty string, where Go's `s[:1]` panics. Otherwise it upper-cases only the first character, and a lower-case letter becomes upper-case. |
| Baregen.CapitalizeIdempotent | bareish/baregen/baregen.go:169-171 | Capitalizing twice is the same as once. |
| Baregen.StructTag | bareish/baregen/baregen.go:166-168 | The tag is `` `bare:" `` + name + `` "` ``, and the name can be sliced back out. |
| Baregen.LengthText | bareish/baregen/baregen.go:31-33 | A length prints as nothing exactly when it is 0; otherwise it prints digits that read back as the length. |
| Baregen.GoTypeRendersIffNoUnion | bareish/baregen/baregen.go:27-47 | For a well-formed type, the type template renders exactly when no union occurs anywhere inside it. |
| Baregen.FieldsRenderIffNoUnion | bareish/baregen/baregen.go:34-39 | A struct's fields render exactly when no field's type contains a union. |
| Baregen.ConcatEach | bareish/baregen/baregen.go:51-83 | A `range` template succeeds exactly when every instance succeeds. |
| Baregen.UserTypeText | bareish/baregen/baregen.go:51-61 | A user type renders exactly when its type does. |
| Baregen.ConstLines | bareish/baregen/baregen.go:68-72 | There is one constant line per value, in order: name, enum type name, `=`, decimal value. |
| Baregen.ConstValueReadsBack | bareish/baregen/baregen.go:68-72 | Each constant line's number reads back as that value. |
| Baregen.EnumStringOf | bareish/baregen/baregen.go:74-82 | The generated `String()` finds no case, and so would panic, exactly when no value has that number. |
| Baregen.EnumStringNamesEachValue | bareish/baregen/baregen.go:74-82 | When the numbers are distinct, `String()` maps each value to its own name. |
| Baregen.EnumText | bareish/baregen/baregen.go:63-83 | An enum renders exactly when its kind is primitive. |
| Baregen.IsUnionMethods | bareish/baregen/baregen.go:91-93 | The `IsUnion` methods render exactly when every member is a named user type, because only those have `.Name`. |
| Baregen.MemberCalls | bareish/baregen/baregen.go:100-102 | There is one `Member` call per union member, and they render exactly when every member type renders. |
| Baregen.MemberChainJoins | bareish/baregen/baregen.go:99-102 | `last` puts a `.` between consecutive `Member` calls and none after the last one. |
| Baregen.UnionDeclText | bareish/baregen/baregen.go:86-94 | A union declaration renders exactly when every member is a named user type. |
| Baregen.RegistrationText | bareish/baregen/baregen.go:97-103 | A union registration renders exactly when every member type renders. |
| Baregen.UnionsText | bareish/baregen/baregen.go:85-105 | With no unions nothing is emitted, and no `init` either. Otherwise the output renders exactly when every union does. |
| Baregen.GenerateByParts | bareish/baregen/baregen.go:49-107 | The whole template succeeds exactly when the user-type, enum and union sections all do. |
| Baregen.GeneratableByBucket | bareish/baregen/baregen.go:252-265 | A schema is generatable exactly when each of its three buckets is. |
| Baregen.SelectKeepsWellFormed | bareish/baregen/baregen.go:252-265 | Classifying keeps declarations well formed. |
| Baregen.PlainTypesGenerate | bareish/baregen/baregen.go:51-61 | The user-type section succeeds exactly when each user type is generatable. |
| Baregen.EnumsGenerate | bareish/baregen/baregen.go:63-83 | The enum section always succeeds on parsed enums. |
| Baregen.UnionGenerates | bareish/baregen/baregen.go:86-103 | A parsed union renders exactly when it is generatable. |
| Baregen.UnionsGenerate | bareish/baregen/baregen.go:85-105 | The union section succeeds exactly when every union is generatable. |
| Baregen.GenerationSucceedsIff | bareish/baregen/baregen.go:238-272 | For any parsed schema, classify-then-generate succeeds exactly when every declaration is generatable. A non-union user type is generatable when it contains no union; a union, when its members are named types without unions. |
| Unparse.SchemaFor | bareish/schema/unparse.go:26-34 | A non-pointer fails; a pointer gives the schema of its element. |
| Unparse.SupportedIffUnparses | bareish/schema/unparse.go:38-89 | `SchemaForType` succeeds exactly on pointers, scalars and structs built from supported types. Everything else is `UnsupportedTypeError`. |
| Unparse.FieldsSupportedIffUnparse | bareish/schema/unparse.go:93-113 | A struct's fields unparse exactly when every field type is supported. |
| Unparse.PointersNestOptionals | bareish/schema/unparse.go:40-46 | n pointer levels give n nested `optional<…>` around the element's schema. An error in the element propagates unchanged. |
| Unparse.PointerWraps | bareish/schema/unparse.go:40-46 | One pointer level wraps the schema in `optional<` `>`. |
| Unparse.ScalarSchemaSpellsKeyword | bareish/schema/unparse.go:48-83 | Each scalar's schema text is the spelling of a lexer keyword. |
| Unparse.ScalarSchemaLexesBack | bareish/schema/unparse.go:48-83 | Each scalar's schema text lexes back to a keyword that the parser maps to the matching BARE kind. |
| Unparse.AlnumRunEnd | bareish/schema/unparse.go:91 | The result is the end of the longest run of `[A-Za-z0-9]` from the given index. |
| Unparse.MatchEndIsTheMatch | bareish/schema/unparse.go:91 | At a given index the pattern matches at most one span, and `MatchEnd` finds it. |
| Unparse.FindFromIsLeftmost | bareish/schema/unparse.go:91 | `FindString` from an index returns the leftmost match, or "" when there is none. |
| Unparse.FindQuotedNameIsLeftmost | bareish/schema/unparse.go:91 | `FindString` returns the leftmost match anywhere in the tag, or "" exactly when there is none. |
| Unparse.TagWithoutQuoteIsIgnored | bareish/schema/unparse.go:102-108 | A `bare` tag with no `"` in its value leaves the Go field name. |
| Unparse.QuotedTagNamesField | bareish/schema/unparse.go:102-108 | A tag value `"name"` (name lower-case alphanumeric) renames the field to `"name"`, quotes included. |
| Unparse.FieldLinesStep | bareish/schema/unparse.go:95-110 | One loop step appends `\t name: schema\n` for the next field. |
| Unparse.FieldLinesStepFails | bareish/schema/unparse.go:97-100 | The first field whose type fails aborts the struct with that error. |
| Unparse.FieldLinesPrefixFails | bareish/schema/unparse.go:95-100 | Once a prefix of the fields fails, the whole struct fails with the same error. |
| Unparse.FieldLinesConcat | bareish/schema/unparse.go:95-110 | The field lines of two field lists are concatenated, and the first error wins. |
| Unparse.SchemaForStruct | bareish/schema/unparse.go:93-113 | The imperative buffer loop gives exactly `StructSchema`: `{\n`, one line per field, `}`, or the first field error. |

## Left out

- Non-ASCII letters and digits. `unicode.IsLetter` and `unicode.IsDigit` are restricted to ASCII. `unicode.IsSpace` is modelled exactly.
- Read errors other than end of input from `bufio.Reader`. The input is a string.
- The `regexp` engine. The four parser patterns and `tagFieldNameRE` are predicates with the same match semantics.
- The `fmt` message text of the errors. Errors are datatypes carrying the same data: token, expected text, name.
- `main`, `parseArgs`, file I/O and `log.Fatalf` in baregen. `parseSchema` starts from the parsed declarations.
- The exact whitespace of the generated Go code, the `go/format` pass and the template engine itself. The templates are string functions with the same structure, order and failure points. A panic is an `Err`.
- The compile-time failure of generated enums whose values repeat a number, which gives duplicate `switch` cases. It is stated instead as the precondition of `Baregen.EnumStringNamesEachValue`.
- Registering unions at run time (`bareish.RegisterUnion`). Only the text of the registration is modelled.
- `reflect`. A Go type is a `Descriptor`: pointer, struct with fields, or a basic kind. `intType` / `uintType` are the `Named` marks on the int and uint kinds.
- `Tag.Lookup`'s parsing of the struct tag. The looked-up value of the `bare` key is given directly as a field's `tag: Option<string>`. Lookup strips the quotes around the value, so a tag written `bare:"name"` yields `name` without quotes. That value never matches ``"[a-z][A-Za-z0-9]*"``, so such a tag never renames a field (`Unparse.TagWithoutQuoteIsIgnored`).
- Recursive Go types such as `type L struct { Next *L }`. A `Descriptor` is a finite tree, so it cannot describe one. On such a type `SchemaForType` (bareish/schema/unparse.go:40-46, 85) recurses through the pointer and the struct without end.
- `SchemaFor` of a nil interface, where `reflect.TypeOf` returns nil and Go panics. A `Descriptor` is never nil.
- The platform width of Go's `uint`, fixed here at 64 bits. It is the enum counter and data and array lengths.
- Floating-point values. Only the `f32` / `f64` keywords and kinds occur.
- The Go tests.
