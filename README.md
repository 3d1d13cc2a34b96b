# monolog-logfmt in Dafny

A model of `LogfmtFormatter`, the Monolog formatter that renders a normalised
log record as one logfmt line: `key=value` tokens separated by single spaces,
followed by a terminator (a newline by default).

The formatter's rules, as modelled here:

- **Identifier validity.** A key or value may appear bare when it passes
  `isValidIdent`. A string passes when it is non-empty and free of control
  characters, DEL, whitespace, `"` and `=`. Ints and floats always pass.
  Booleans, null, arrays and objects never do.
- **Value rendering.** `stringifyVal` writes a valid value as its own text.
  Null becomes `NULL`, a boolean becomes `true` or `false`, and anything else
  goes to the JSON encoder.
- **Line assembly.** `format` first writes the standard fields: time, level,
  channel and message, each under its configured key and only if that key is
  valid. It then walks the context entries, then the extra entries. An entry
  whose key is already present, or whose key is not a valid identifier, is
  skipped. Finally the pair texts are joined with spaces and the terminator is
  appended.
- **Flattening.** When enabled, `addValue` expands an array (or an object the
  normaliser turns into an array) into one pair per leaf, named
  `key_k1_k2…` after the member names on the way to the leaf. Derived names
  are neither validated nor checked for collisions: a derived name equal to
  an existing key overwrites that pair's text where it stands, standard
  fields included (see Findings).
- **Batches.** `formatBatch` concatenates the lines of its records.

Modules:

- `Values` holds the `Value` datatype, identifier validity and value rendering.
- `Text` holds PHP's `trim` and `implode(' ', …)`, plus the splitting inverse
  used to state what a reader recovers from a line.
- `Pairs` models the `$pairs` associative array. Assigning to a present key
  replaces its text in place; assigning to a new key appends.
- `Logfmt` holds the specification functions and the `LogfmtFormatter` class.
  `Format`, `FormatBatch`, `AddValue` and `AddMembers` are methods with the
  source's loops. Each is proved equal to a specification function: `Line`,
  `Batch`, or `PutAll` over `Leaves`/`MemberLeaves`.
- `LogfmtProperties` proves what the formatter promises about those functions,
  including a reference definition of flattening by leaf paths.
- `LogfmtPrecedence` exhibits the flattening overwrite of a standard field and
  proves the documented precedence of a corrected merge.
- `LogfmtExamples` restates the repository's test cases as concrete lines,
  with the datetime as a parameter and the JSON encoder left abstract (a
  quoted value reads `json(value)`). Covered: plain, quoted and scalar
  messages; context and extra; context over extra; invalid entry names;
  nested values without flattening; flattened lists, associative arrays and
  nested arrays; customised, excluded and protected keys; batches; the null
  terminator. The date-time, object, exception and cyclic-reference tests are
  not restated (see Left out).

## Model

| member | source | states |
|---|---|---|
| Values.InForbiddenClass | src/Monolog/Formatter/LogfmtFormatter.php:143-144 | The regex class `[\x00-\x1F\x7F"=\s]` (with `\s` as PCRE's non-UTF whitespace) is exactly: code point at most 0x20, DEL, `"` or `=` |
| Values.ValidStringIff | src/Monolog/Formatter/LogfmtFormatter.php:140-149 | A string is a valid identifier iff it is non-empty and contains no character of the class |
| Values.MatchesClass | src/Monolog/Formatter/LogfmtFormatter.php:143-144 | The model of `preg_match` with the class `[\x00-\x1F\x7F"=\s]` finding a match: some character of the string is in the class; `ValidStringIff` and `ValidIdentIff` state how it decides validity |
| Values.ValidIdentIff | src/Monolog/Formatter/LogfmtFormatter.php:140-156 | A value is valid iff it is an int, a float, or a non-empty string with no control character, DEL, whitespace, `"` or `=`; booleans, null, arrays and objects never are |
| Values.IsValidIdent | src/Monolog/Formatter/LogfmtFormatter.php:140-156 | The model of `isValidIdent`; its characterisation is `ValidIdentIff` |
| Values.Digits | src/Monolog/Formatter/LogfmtFormatter.php:134 | The decimal text of a natural number is non-empty and made only of digits |
| Values.DigitsRoundTrip | src/Monolog/Formatter/LogfmtFormatter.php:134 | Reading the decimal text of `n` back gives `n` |
| Values.IntText | src/Monolog/Formatter/LogfmtFormatter.php:134 | The model of `(string) $int`: a minus sign for negatives, then the digits of the magnitude; its properties are `IntTextIsBare`, `IntTextValue` and `IntTextClean` |
| Values.IntTextIsBare | src/Monolog/Formatter/LogfmtFormatter.php:133-134 | An int's string cast is a valid bare identifier, and it reads back as the int (a minus sign, then the magnitude, for negatives) |
| Values.IntTextValue | src/Monolog/Formatter/LogfmtFormatter.php:134 | The digits of an int's text read back as its magnitude; a negative int's text starts with `-` |
| Values.IntTextClean | src/Monolog/Formatter/LogfmtFormatter.php:133-134 | No character of an int's text is in the forbidden class |
| Values.ConvertToString | src/Monolog/Formatter/LogfmtFormatter.php:158-165 | Null gives `NULL`, booleans give `true`/`false` (as `var_export` writes them), everything else gives the JSON encoder's output |
| Values.StringifyVal | src/Monolog/Formatter/LogfmtFormatter.php:131-138 | A valid string is written unchanged, an int as its decimal text, a float as its own text; null, booleans and every invalid value fall through to `convertToString` |
| Values.BareTextIsClean | src/Monolog/Formatter/LogfmtFormatter.php:131-149 | Text written bare for a string or int is non-empty and free of spaces, quotes and `=`, so a reader can split on it |
| Text.LeadingTrim | src/Monolog/Formatter/LogfmtFormatter.php:64-67 | The count of leading characters of `trim`'s default set: all of them are trim characters and the next one is not |
| Text.TrailingTrim | src/Monolog/Formatter/LogfmtFormatter.php:64-67 | The same count at the end of the string |
| Text.Trim | src/Monolog/Formatter/LogfmtFormatter.php:64-67 | `trim` returns the middle slice of its argument; everything cut off is a trim character, the result neither starts nor ends with one, and it is empty iff the whole argument is made of trim characters |
| Text.IsTrimChar | src/Monolog/Formatter/LogfmtFormatter.php:64-67 | The characters `trim` removes by default (space, tab, newline, carriage return, NUL, vertical tab); `Trim` states that everything cut off is one of them and that the result neither starts nor ends with one |
| Text.Join | src/Monolog/Formatter/LogfmtFormatter.php:118 | The model of `implode(' ', …)`; its inverse is `Split` (`SplitJoin`) and it distributes over appending (`JoinAppend`) |
| Text.JoinAppend | src/Monolog/Formatter/LogfmtFormatter.php:118 | Joining two non-empty runs of texts is joining each, with one space between |
| Text.SplitJoin | src/Monolog/Formatter/LogfmtFormatter.php:118 | Splitting `implode(' ', ts)` at spaces gives `ts` back when no text contains a space |
| Pairs.Texts | src/Monolog/Formatter/LogfmtFormatter.php:118 | The values of `$pairs` in their order, as `implode` reads them; its ensures keeps the length and the text of every pair; `LineShape` and `SplitJoin` use it to recover the pairs from the line |
| Text.SplitAfter | src/Monolog/Formatter/LogfmtFormatter.php:118 | A space-free word followed by a space and a rest splits into the word and the pieces of the rest |
| Text.SplitNoSpace | src/Monolog/Formatter/LogfmtFormatter.php:118 | A text without spaces splits to itself |
| Pairs.Keys | src/Monolog/Formatter/LogfmtFormatter.php:82-94 | The keys of the array, one per pair, in order |
| Pairs.KeysAppend | src/Monolog/Formatter/LogfmtFormatter.php:82-94 | The keys of two arrays appended are the keys of the first, then those of the second |
| Pairs.IndexOf | src/Monolog/Formatter/LogfmtFormatter.php:97 | For a present key, finds the first position holding it |
| Pairs.IndexOfUnique | src/Monolog/Formatter/LogfmtFormatter.php:97 | The first position holding a key is the one `IndexOf` returns |
| Pairs.Get | src/Monolog/Formatter/LogfmtFormatter.php:97 | Reading a key gives nothing iff `array_key_exists` would say no, and otherwise the text of a pair stored under that key |
| Pairs.Put | src/Monolog/Formatter/LogfmtFormatter.php:192-233 | Assigning a new key appends its pair. Assigning a present key keeps length and key order and replaces only that key's text. Keys stay distinct |
| Pairs.PutHead | src/Monolog/Formatter/LogfmtFormatter.php:192-233 | Assigning the first key of an array rewrites that pair's text and leaves the rest as it was |
| Pairs.GetPut | src/Monolog/Formatter/LogfmtFormatter.php:192-233 | After an assignment, the key reads the new text and every other key reads as before |
| Pairs.GetAt | src/Monolog/Formatter/LogfmtFormatter.php:97 | With distinct keys, a key reads the text stored at its position |
| Pairs.GetPrefix | src/Monolog/Formatter/LogfmtFormatter.php:96-116 | Pairs appended after a key do not change what it reads |
| Pairs.PutAll | src/Monolog/Formatter/LogfmtFormatter.php:202-205 | The model of a run of `$pairs[$k] = $text` assignments, in order; its properties are the `PutAll…` lemmas |
| Pairs.PutAllAppend | src/Monolog/Formatter/LogfmtFormatter.php:202-205 | Two runs of assignments in a row are one run over both |
| Pairs.PutAllKeepsKeys | src/Monolog/Formatter/LogfmtFormatter.php:192-233 | Assignments never move or remove a key: the old keys stay a prefix of the new ones |
| Pairs.PutAllKeyAbsent | src/Monolog/Formatter/LogfmtFormatter.php:192-233 | A key that is neither present nor assigned stays absent |
| Pairs.PutAllFresh | src/Monolog/Formatter/LogfmtFormatter.php:192-233 | Assignments to distinct keys that are all absent only append: the array becomes the old pairs followed by the new ones |
| Pairs.PutAllDistinct | src/Monolog/Formatter/LogfmtFormatter.php:192-233 | Assignments keep the keys distinct |
| Pairs.DistinctAppend | src/Monolog/Formatter/LogfmtFormatter.php:82-116 | Two arrays whose concatenation has distinct keys each have distinct keys and share none |
| Pairs.DistinctConcat | src/Monolog/Formatter/LogfmtFormatter.php:82-116 | Two arrays with distinct keys and none in common concatenate to an array with distinct keys |
| Logfmt.ConfiguredKey | src/Monolog/Formatter/LogfmtFormatter.php:64-67 | The model of `$key ? trim($key) : null` (null, `""` and `"0"` give null); its properties are `KeyEnabledIff`, `BlankKeyDisables` and `PaddedKeyIsTrimmed` |
| Logfmt.IsFalsy | src/Monolog/Formatter/LogfmtFormatter.php:64 | PHP truthiness of a string key argument: `""` and `"0"` are falsy; `KeyEnabledIff` states that exactly these, null and blank arguments disable a field, and `PaddedKeyIsTrimmed` that other arguments are trimmed |
| Logfmt.KeyValid | src/Monolog/Formatter/LogfmtFormatter.php:68-71 | The model of the cached flags: `isValidIdent` of a stored key, never true of null; characterised by `KeyEnabledIff` |
| Logfmt.StandardPairs | src/Monolog/Formatter/LogfmtFormatter.php:82-94 | The model of the four guarded assignments; their order, collisions and distinctness are `StandardPairsInOrder`, `StandardGet`, `TimeAndMessageShareKey` and `StandardPairsDistinct` |
| Logfmt.PutField | src/Monolog/Formatter/LogfmtFormatter.php:83-94 | One guarded assignment `$pairs[$key] = …`; `PutFieldAppends` states that a valid new key appends its pair and an invalid key changes nothing, and `StandardGet` which text each key reads after all four |
| Logfmt.PairText | src/Monolog/Formatter/LogfmtFormatter.php:195 | The text `$keyPrefix=stringifyVal($value)` written for an entry; `NonFlattenStep` states that it is appended for a new valid key, `Rendered` that every surviving entry gets it, and `ScalarLeaf` that a flattened scalar gets it too (:232) |
| Logfmt.FinalPairs | src/Monolog/Formatter/LogfmtFormatter.php:82-116 | The contents of `$pairs` after both loops; `StandardSlotsFirst` states that the standard keys come first and every key is distinct, `NonFlattenPairs` and `FlattenPairs` give its closed form, `LineShape` that the line joins its texts |
| Logfmt.TerminatorText | src/Monolog/Formatter/LogfmtFormatter.php:118 | The record terminator appended to the line, nothing when it is null; `LineShape` states both cases |
| Logfmt.Step | src/Monolog/Formatter/LogfmtFormatter.php:96-105 | The model of one iteration of the entry loop: skip a present or invalid key, else make `addValue`'s assignments; see `NonFlattenStep` and `FlattenStep` |
| Logfmt.AddEntries | src/Monolog/Formatter/LogfmtFormatter.php:96-116 | The model of the context (or extra) loop; see `NonFlattenEntries`, `FlattenEntries`, `AddEntriesKeepsKeys`, `AddEntriesAppend` |
| Logfmt.Leaves | src/Monolog/Formatter/LogfmtFormatter.php:192-233 | The model of `addValue`'s assignments; its reference definition by leaf paths is `LeavesFollowPaths` |
| Logfmt.MemberLeaves | src/Monolog/Formatter/LogfmtFormatter.php:201-207 | The model of the `foreach` over an array's members; see `MemberLeavesFollowPaths` and `MemberKeysExtend` |
| Logfmt.Line | src/Monolog/Formatter/LogfmtFormatter.php:78-119 | The model of `format`'s result; its shape is `LineShape` and the method `Format` is proved equal to it |
| Logfmt.Batch | src/Monolog/Formatter/LogfmtFormatter.php:121-129 | The model of `formatBatch`'s result; see `BatchIsConcatenation` and the method `FormatBatch` |
| Logfmt.ConcatMap | src/Monolog/Formatter/LogfmtFormatter.php:123-126 | The string the `.=` loop builds; `ConcatMapAppend` states that it distributes over appending and `BatchIsConcatenation` what it gives for none, one and two lists of records |
| Logfmt.ConcatMapAppend | src/Monolog/Formatter/LogfmtFormatter.php:123-126 | Appending the texts of two lists equals appending the texts of each |
| Logfmt.BatchAppend | src/Monolog/Formatter/LogfmtFormatter.php:121-129 | The batch of two lists of records is the batch of the first followed by the batch of the second |
| Logfmt.LogfmtFormatter.constructor | src/Monolog/Formatter/LogfmtFormatter.php:55-76 | Each key argument is stored as `null` when falsy (null, `""` or `"0"`) and trimmed otherwise; each validity flag is `isValidIdent` of its stored key; the terminator is stored as given; flattening is on only for `true`; the JSON encoder is the one given |
| Logfmt.LogfmtFormatter.Format | src/Monolog/Formatter/LogfmtFormatter.php:78-119 | The four guarded assignments, the context loop, the extra loop and the final `implode` produce exactly `Line` of the configuration and record |
| Logfmt.LogfmtFormatter.FormatBatch | src/Monolog/Formatter/LogfmtFormatter.php:121-129 | The accumulating loop returns `Batch`: every record's line, in order |
| Logfmt.LogfmtFormatter.AddValue | src/Monolog/Formatter/LogfmtFormatter.php:192-233 | The array after `addValue` is the array with the value's assignments made in order: one pair without flattening; one per leaf of an array or normalised object with flattening; the sentinel pair when normalisation fails |
| Logfmt.LogfmtFormatter.AddMembers | src/Monolog/Formatter/LogfmtFormatter.php:201-219 | The `foreach` over an array's members makes each member's assignments under `prefix_member`, in iteration order |
| LogfmtProperties.KeyEnabledIff | src/Monolog/Formatter/LogfmtFormatter.php:64-71 | A standard field is enabled iff its key argument is a truthy string whose trimmed form is non-empty and has no forbidden character |
| LogfmtProperties.BlankKeyDisables | src/Monolog/Formatter/LogfmtFormatter.php:64-71 | A key made only of whitespace (or empty) disables its field |
| LogfmtProperties.PaddedKeyIsTrimmed | src/Monolog/Formatter/LogfmtFormatter.php:64-71 | Surrounding whitespace is trimmed before validation (`" msg\t"` is stored as `msg`, which is valid), and `"0"` counts as absent |
| LogfmtProperties.PutFieldAppends | src/Monolog/Formatter/LogfmtFormatter.php:83-94 | A standard field whose key is new appends its single pair, or nothing when its key is invalid |
| LogfmtProperties.FieldKeys | src/Monolog/Formatter/LogfmtFormatter.php:83-94 | A standard field contributes its key when valid and no key otherwise |
| LogfmtProperties.StandardPairsInOrder | src/Monolog/Formatter/LogfmtFormatter.php:83-94 | With distinct keys, the enabled standard fields appear in the order time, level, channel, message; time and level text verbatim, channel and message through `stringifyVal` |
| LogfmtProperties.StandardGet | src/Monolog/Formatter/LogfmtFormatter.php:83-94 | A standard key reads the text of the last enabled field configured with it, so fields sharing a key collapse into one slot holding the later value |
| LogfmtProperties.TimeAndMessageShareKey | src/Monolog/Formatter/LogfmtFormatter.php:83-94 | Time and message under one key, with level and channel enabled or not under keys of their own: the shared key keeps the time field's first slot and holds the message, and level and channel follow in their slots |
| LogfmtProperties.FirstKeyRewritten | src/Monolog/Formatter/LogfmtFormatter.php:83-94 | Four field writes whose last reuses the first key leave one pair in the first slot with the last text, the middle fields after it |
| LogfmtProperties.ThreeFieldsAppend | src/Monolog/Formatter/LogfmtFormatter.php:83-91 | Three field writes under distinct keys append their pairs in order |
| LogfmtProperties.StandardPairsDistinct | src/Monolog/Formatter/LogfmtFormatter.php:83-94 | The standard pairs never repeat a key |
| LogfmtProperties.OnlyMessagePairs | src/Monolog/Formatter/LogfmtFormatter.php:83-94 | With only the message key enabled, the standard pairs are the single message pair |
| LogfmtProperties.AddEntriesKeepsKeys | src/Monolog/Formatter/LogfmtFormatter.php:96-116 | The entry loop never moves or removes a pair's key and keeps keys distinct |
| LogfmtProperties.AddEntriesAppend | src/Monolog/Formatter/LogfmtFormatter.php:96-116 | The extra loop continues where the context loop stopped: the two loops are one loop over context followed by extra |
| LogfmtProperties.OneContextEntry | src/Monolog/Formatter/LogfmtFormatter.php:96-116 | A record with one context entry and no extra gets its pairs from one loop step after the standard pairs |
| LogfmtProperties.StandardSlotsFirst | src/Monolog/Formatter/LogfmtFormatter.php:82-116 | In every mode the standard fields hold the first slots of the line, in their order, and no key occurs twice in a line |
| LogfmtProperties.LineShape | src/Monolog/Formatter/LogfmtFormatter.php:118 | The line is the pair texts joined by single spaces followed by the terminator (nothing for null); splitting a terminator-free line at spaces gives the pair texts back when none contains a space |
| LogfmtProperties.EntryKeys | src/Monolog/Formatter/LogfmtFormatter.php:96-116 | The keys of a list of entries, in order |
| LogfmtProperties.Rendered | src/Monolog/Formatter/LogfmtFormatter.php:195 | One pair `key=stringifyVal(value)` per entry, in order |
| LogfmtProperties.RenderedAppend | src/Monolog/Formatter/LogfmtFormatter.php:195 | Rendering two lists of entries is rendering each |
| LogfmtProperties.SurvivorsSound | src/Monolog/Formatter/LogfmtFormatter.php:96-116 | Every surviving entry is an entry with a valid key that was not already present, and survivors never share a key |
| LogfmtProperties.FirstOccurrenceSurvives | src/Monolog/Formatter/LogfmtFormatter.php:96-116 | The first entry with a given valid key that is not already present always survives |
| LogfmtProperties.NonFlattenStep | src/Monolog/Formatter/LogfmtFormatter.php:194-197 | Without flattening, an entry with a new valid key appends exactly its one pair |
| LogfmtProperties.NonFlattenEntries | src/Monolog/Formatter/LogfmtFormatter.php:96-116 | Without flattening, the entry loop appends exactly the rendered survivors: entries whose key is valid and neither present nor taken by an earlier entry, in order |
| LogfmtProperties.NonFlattenPairs | src/Monolog/Formatter/LogfmtFormatter.php:82-116 | Without flattening, a line's pairs are the standard pairs followed by one pair per surviving context-then-extra entry |
| LogfmtProperties.NonFlattenStandardKept | src/Monolog/Formatter/LogfmtFormatter.php:96-116 | Without flattening, context and extra never change a standard pair |
| LogfmtProperties.ContextBeatsExtra | src/Monolog/Formatter/LogfmtFormatter.php:96-116 | Without flattening, the first context entry with a valid key unused by the standard fields is written with its own value, whatever extra holds |
| LogfmtProperties.StandardBeatsEntries | src/Monolog/Formatter/LogfmtFormatter.php:96-116 | Without flattening, an entry whose key a standard field uses is dropped; the field keeps its text |
| LogfmtProperties.LeafKeysExtend | src/Monolog/Formatter/LogfmtFormatter.php:192-233 | Every pair flattening writes for a value is named after its key, and for an array or array-normalised object after `key_` |
| LogfmtProperties.MemberKeysExtend | src/Monolog/Formatter/LogfmtFormatter.php:201-205 | Every pair written for an array's members is named `prefix_…` |
| LogfmtProperties.FlattenedKeyStaysFree | src/Monolog/Formatter/LogfmtFormatter.php:201-207 | With flattening, an array entry never writes its own key, so a later entry with that key still passes the skip check |
| LogfmtProperties.FlatArrayOfScalars | src/Monolog/Formatter/LogfmtFormatter.php:201-207 | Flattening an array of scalars writes one pair `key_member=stringifyVal(v)` per member, in order; an empty array writes nothing |
| LogfmtProperties.FlattenOverwritesInPlace | src/Monolog/Formatter/LogfmtFormatter.php:201-205 | A flattened pair whose derived name is already present overwrites that pair's text where it stands instead of being skipped |
| LogfmtProperties.FlattenStep | src/Monolog/Formatter/LogfmtFormatter.php:96-105 | With flattening, an entry with a new valid key whose derived names are distinct and absent appends exactly its leaves |
| LogfmtProperties.FlattenEntries | src/Monolog/Formatter/LogfmtFormatter.php:96-116 | With flattening and no name clashes, the entry loop appends every entry's leaves in order |
| LogfmtProperties.FlattenEntriesShift | src/Monolog/Formatter/LogfmtFormatter.php:96-116 | The no-clash condition of the entry loop holds again after its first step |
| LogfmtProperties.FlatLeavesAppend | src/Monolog/Formatter/LogfmtFormatter.php:96-116 | The leaves of two lists of entries are the leaves of each |
| LogfmtProperties.FlattenPairs | src/Monolog/Formatter/LogfmtFormatter.php:82-116 | With flattening and no name clashes, a line's pairs are the standard pairs, then every context entry's leaves, then every extra entry's leaves |
| LogfmtProperties.Paths | src/Monolog/Formatter/LogfmtFormatter.php:192-233 | Reference leaves of a value by path: no leaf holds an array, and every leaf of an array has a non-empty path |
| LogfmtProperties.MemberPaths | src/Monolog/Formatter/LogfmtFormatter.php:201-207 | The leaves of an array's members, each path led by its member's name |
| LogfmtProperties.Under | src/Monolog/Formatter/LogfmtFormatter.php:203-204 | Putting leaves one level deeper prefixes every path with the member name |
| LogfmtProperties.LeafPairs | src/Monolog/Formatter/LogfmtFormatter.php:192-233 | One pair per leaf, in order, named after its path under the prefix |
| LogfmtProperties.LeavesFollowPaths | src/Monolog/Formatter/LogfmtFormatter.php:192-233 | At every depth, flattening a value under `key` writes one pair per leaf in iteration order, named `key_k1_k2…` after its path: a scalar through `stringifyVal`, an unconvertible object as the sentinel |
| LogfmtProperties.MemberLeavesFollowPaths | src/Monolog/Formatter/LogfmtFormatter.php:201-207 | The members' assignments are the pairs of the members' leaves, named after their paths |
| LogfmtProperties.LeafPairsUnder | src/Monolog/Formatter/LogfmtFormatter.php:203 | Naming leaves under `prefix_k` is naming them one level deeper under `prefix` |
| LogfmtProperties.LeafPairsAppend | src/Monolog/Formatter/LogfmtFormatter.php:202-205 | The pairs of two runs of leaves are the pairs of each |
| LogfmtProperties.BatchIsConcatenation | src/Monolog/Formatter/LogfmtFormatter.php:121-129 | The empty batch is `""`, a one-record batch is that record's line, and a batch of two parts is the concatenation of their batches |
| LogfmtPrecedence.StepOverwritesHead | src/Monolog/Formatter/LogfmtFormatter.php:201-205 | A valid new entry whose only leaf has the first pair's key rewrites that pair in place |
| LogfmtPrecedence.FlattenedEntryOverwritesStandardField | src/Monolog/Formatter/LogfmtFormatter.php:201-205 | With only the message field, keyed `user_id`, and message 7, the standard pair is `user_id=7`, but the flattened context entry `user => ['id' => 5]` leaves the line with `user_id=5` alone |
| LogfmtPrecedence.PutAllIfAbsentExtends | src/Monolog/Formatter/LogfmtFormatter.php:43-45 | The corrected merge never changes or moves a written pair; it only appends |
| LogfmtPrecedence.AddEntriesFirstWinsExtends | src/Monolog/Formatter/LogfmtFormatter.php:43-45 | The corrected entry loop only appends |
| LogfmtPrecedence.StandardFieldsWin | src/Monolog/Formatter/LogfmtFormatter.php:43-45 | With the corrected merge, in either mode, the standard pairs open the line unchanged and every standard key keeps its field's text |
| LogfmtPrecedence.StepKeepsHead | src/Monolog/Formatter/LogfmtFormatter.php:43-45 | With the corrected merge, a derived pair whose key is present is dropped |
| LogfmtPrecedence.FirstWinsKeepsStandardField | src/Monolog/Formatter/LogfmtFormatter.php:43-45 | On the `user_id` record, the corrected merge keeps `user_id=7` |
| LogfmtPrecedence.FirstWinsAgreesWithoutFlatten | src/Monolog/Formatter/LogfmtFormatter.php:194-197 | Without flattening, the corrected entry loop and the code's entry loop give the same pairs |
| LogfmtPrecedence.FinalPairsAgreeWithoutFlatten | src/Monolog/Formatter/LogfmtFormatter.php:96-116 | Without flattening, the corrected line pairs are exactly those the code writes |
| LogfmtExamples.TrimKeepsCleanKey | src/Monolog/Formatter/LogfmtFormatter.php:64-67 | A key with nothing to trim at either end is stored unchanged by `trim` |
| LogfmtExamples.CleanKeyKept | src/Monolog/Formatter/LogfmtFormatter.php:64-67 | A truthy key argument with nothing to trim is stored as given |
| LogfmtExamples.ForbiddenKeyDisables | src/Monolog/Formatter/LogfmtFormatter.php:64-71 | A key argument that keeps a forbidden character after trimming disables its field |
| LogfmtExamples.DefaultConstructorKeys | src/Monolog/Formatter/LogfmtFormatter.php:55-67 | The default key arguments `ts`, `lvl`, `chan`, `msg` are stored unchanged |
| LogfmtExamples.CleanKeysKept | src/Monolog/Formatter/LogfmtFormatter.php:64-67 | Any four key arguments that are truthy and have nothing to trim at either end are stored unchanged |
| LogfmtExamples.PrintableValid | src/Monolog/Formatter/LogfmtFormatter.php:140-149 | A non-empty string of printable ASCII without `"` or `=` is a valid identifier |
| LogfmtExamples.DefaultLine | src/Monolog/Formatter/LogfmtFormatter.php:78-119 | With the default keys and no surviving entries, the line is `ts=<t> lvl=INFO chan=app msg=<message>` followed by the terminator |
| LogfmtExamples.DefaultEntriesLine | src/Monolog/Formatter/LogfmtFormatter.php:78-119 | With the default keys, the line is the four standard pairs, a space, the surviving entries' texts and the newline |
| LogfmtExamples.FlatEntryLine | src/Monolog/Formatter/LogfmtFormatter.php:78-119 | With the default keys and flattening, one context entry with fresh leaves is written as the standard pairs followed by its leaves |
| LogfmtExamples.ListOfThreeLeaves | src/Monolog/Formatter/LogfmtFormatter.php:201-207 | A three-member list of bare words flattens to `key_0`, `key_1`, `key_2` pairs, in order |
| LogfmtExamples.ScalarLeaf | src/Monolog/Formatter/LogfmtFormatter.php:232 | A scalar flattens to its own `key=value` pair |
| LogfmtExamples.TwoMembers | src/Monolog/Formatter/LogfmtFormatter.php:201-207 | A two-member array flattens to its members' leaves under `prefix_member`, in order |
| LogfmtExamples.ThreeMembers | src/Monolog/Formatter/LogfmtFormatter.php:201-207 | A three-member array flattens to its members' leaves under `prefix_member`, in order |
| LogfmtExamples.OneMember | src/Monolog/Formatter/LogfmtFormatter.php:201-207 | A one-member array flattens to its member's leaves under `prefix_member` |
| LogfmtExamples.DefaultMessageLine | tests/Monolog/Formatter/LogfmtFormatterTest.php:15-75 | A record with no entries, under the default keys, is written as the four standard pairs |
| LogfmtExamples.PlainMessages | tests/Monolog/Formatter/LogfmtFormatterTest.php:15-25 | `Hi` and `åéü` are written bare |
| LogfmtExamples.QuotedMessages | tests/Monolog/Formatter/LogfmtFormatterTest.php:27-51 | Messages with a space, `=`, double quotes, nothing at all or line breaks go to the JSON encoder |
| LogfmtExamples.ScalarMessages | tests/Monolog/Formatter/LogfmtFormatterTest.php:53-75 | Messages `1`, `1.1`, `true`, `false` and null are written as `msg=1`, `msg=1.1`, `msg=true`, `msg=false`, `msg=NULL` |
| LogfmtExamples.ContextIncluded | tests/Monolog/Formatter/LogfmtFormatterTest.php:77-89 | A context entry follows the standard fields: `foo=bar`, and a value with spaces through the encoder |
| LogfmtExamples.ExtraIncluded | tests/Monolog/Formatter/LogfmtFormatterTest.php:91-103 | Extra entries are written like context entries |
| LogfmtExamples.ContextOverridesExtra | tests/Monolog/Formatter/LogfmtFormatterTest.php:105-113 | Of a context and an extra entry under one name, the context value is written |
| LogfmtExamples.InvalidKeysIgnored | tests/Monolog/Formatter/LogfmtFormatterTest.php:115-133 | Entries named with a space, `=`, a tab, a line break or nothing are dropped; `cool%story=bro %^asdf=true` remain, in order |
| LogfmtExamples.NestedValuesEncoded | tests/Monolog/Formatter/LogfmtFormatterTest.php:168-188 | Without flattening, a nested array in context or extra is written as one pair through the JSON encoder |
| LogfmtExamples.FlattensList | tests/Monolog/Formatter/LogfmtFormatterTest.php:190-208 | With flattening, a list is written `items_0=apple items_1=banana items_2=cherry` |
| LogfmtExamples.UserArrayLeaves | tests/Monolog/Formatter/LogfmtFormatterTest.php:210-232 | The associative array of the test flattens to `user_id`, `user_name`, `user_roles_0`, `user_roles_1`, in order |
| LogfmtExamples.FlattensAssociativeArray | tests/Monolog/Formatter/LogfmtFormatterTest.php:210-232 | With flattening, that array is written `user_id=123 user_name=… user_roles_0=admin user_roles_1=editor` |
| LogfmtExamples.DataLeaves | tests/Monolog/Formatter/LogfmtFormatterTest.php:234-257 | The nested array of the test flattens to `data_items_0_id`, `data_items_0_name`, `data_items_1_id`, `data_items_1_name`, in order |
| LogfmtExamples.FlattensNestedArrays | tests/Monolog/Formatter/LogfmtFormatterTest.php:234-257 | With flattening, that array is written with every level's key in each name |
| LogfmtExamples.CustomKeys | tests/Monolog/Formatter/LogfmtFormatterTest.php:372-378 | Customised keys `date`, `level`, `channel`, `message` replace the default ones |
| LogfmtExamples.ForbiddenKeyArgumentsDisabled | tests/Monolog/Formatter/LogfmtFormatterTest.php:392-397 | Key arguments `time stamp`, `le"v"el` and `mess=age` each disable their field: trimming leaves them unchanged and each holds a character of the class |
| LogfmtExamples.BlankKeyExcluded | tests/Monolog/Formatter/LogfmtFormatterTest.php:392-397 | Key argument `" "` trims to the empty key and disables its field |
| LogfmtExamples.OnlyMessageKept | tests/Monolog/Formatter/LogfmtFormatterTest.php:380-385 | With an empty time key and null level and channel keys, the line is `msg=Message` |
| LogfmtExamples.LevelChannelLine | tests/Monolog/Formatter/LogfmtFormatterTest.php:387-390 | With only level and channel enabled, under their default keys, the line is `lvl=INFO chan=app` |
| LogfmtExamples.LevelAndChannelKept | tests/Monolog/Formatter/LogfmtFormatterTest.php:387-390 | With null time and empty message keys, the line is `lvl=INFO chan=app` |
| LogfmtExamples.InvalidKeyArgumentsExcluded | tests/Monolog/Formatter/LogfmtFormatterTest.php:392-397 | With every key argument invalid, only the context entry `foo=bar` is written |
| LogfmtExamples.DefaultKeysNotOverwritten | tests/Monolog/Formatter/LogfmtFormatterTest.php:400-409 | Context and extra entries named `ts`, `lvl`, `chan`, `msg` are dropped; the standard fields keep their values |
| LogfmtExamples.CustomKeysNotOverwritten | tests/Monolog/Formatter/LogfmtFormatterTest.php:411-419 | Entries named like customised keys are dropped in the same way |
| LogfmtExamples.TwoLineBatch | tests/Monolog/Formatter/LogfmtFormatterTest.php:421-433 | A batch of two records is their two lines, one after the other |
| LogfmtExamples.BatchOfTwo | tests/Monolog/Formatter/LogfmtFormatterTest.php:421-433 | The batch of `Message 1` and `Message 2` is two default lines, each message through the encoder |
| LogfmtExamples.NullTerminator | tests/Monolog/Formatter/LogfmtFormatterTest.php:435-441 | A null terminator appends nothing |
| LogfmtExamples.FormatPlainMessage | tests/Monolog/Formatter/LogfmtFormatterTest.php:15-20 | A formatter built with the default arguments writes `ts=<t> lvl=INFO chan=app msg=Hi` and a newline |

## Left out

- Record normalisation (`parent::format`, src/Monolog/Formatter/LogfmtFormatter.php:80) is outside the model: timestamp formatting with `DateTime::format`, depth limits and cycle detection all belong to Monolog's `NormalizerFormatter`, which is not part of this model. `Format` takes the normalised record: the datetime and level name as text, and channel, message, context and extra as values.
- The `$dateFormat` constructor argument is not modelled. It only reaches the normaliser (src/Monolog/Formatter/LogfmtFormatter.php:60,75), and the datetime arrives already formatted.
- JSON encoding (`toJson`, src/Monolog/Formatter/LogfmtFormatter.php:164) is an uninterpreted function `Value -> string`, supplied to the constructor. Nothing is proved about its output, so a test's expected quoted text appears in the model as `json(value)`.
- The `normalize` override (src/Monolog/Formatter/LogfmtFormatter.php:172-185) relies on reflection and a JSON round trip. An object is modelled only as its normalised form, `Obj(Some(v))`, or as `Obj(None)` when normalisation throws. `Obj(None)` yields the `"[object conversion error]"` pair.
- The date-time tests (tests/Monolog/Formatter/LogfmtFormatterTest.php:135-166), the object and exception flattening tests (:259-341) and the cyclic-reference test (:343-370) are not restated as lines: what they check is the normaliser's output (date formatting, the properties it extracts from objects and exceptions, cycle handling), which is outside the model. What the formatter does with a normalised object is covered by `Leaves` and `LeavesFollowPaths`.
- Float-to-text conversion is kept opaque: a float carries the text PHP's string cast gives it.
- Array keys are strings. PHP's conversion of numeric-string keys to ints is not modelled, and neither is the TypeError that an int key would raise under `strict_types` when passed as `string $keyPrefix`.
- Strings are sequences of characters, not bytes. Every character the formatter classifies (the regex class and `trim`'s set) is ASCII, so the two readings agree on UTF-8 text.
- The flag `timeKeyValid` and its siblings start as `true` in the source (src/Monolog/Formatter/LogfmtFormatter.php:32-35), but the constructor always overwrites them. The model only has the constructed state.
- Logfmt.LogfmtFormatter.AddValue: `$pairs` is passed by reference in the source. The model passes the array in and returns the updated array, so aliasing is not captured.

## Findings

| source | as written | input that shows it | evidently intended | confidence | as-written member | corrected member |
|---|---|---|---|---|---|---|
| src/Monolog/Formatter/LogfmtFormatter.php:201-205 | with flattening, a derived name is assigned with `$pairs[...] = ...` and overwrites a standard field of the same name | message key `user_id`, other keys null, message 7, flattening on, context `user => ['id' => 5]`: the line is `user_id=5` | the docblock at :43-45 says standard fields take precedence over context and extra fields of the same name, so `user_id=7` is kept | not executed | LogfmtPrecedence.FlattenedEntryOverwritesStandardField | LogfmtPrecedence.StandardFieldsWin |

`Format` and the rest of the model follow the code as written. `LogfmtPrecedence` gives the corrected merge (a derived pair whose name is present is dropped), proves the precedence rule of it in both modes, and proves that without flattening it writes exactly the pairs the code writes (`FinalPairsAgreeWithoutFlatten`).
