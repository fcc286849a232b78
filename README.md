# LogJam reflection formatter in Dafny

This project models the object formatter of LogJam's logging extensions.
The formatter walks an arbitrary runtime value by reflection and writes it to
an indent-aware text sink as a human-readable block. The model also covers the
property enumeration it relies on, the older formatter of the
`Microsoft.Extensions.Logging` adapter, and the default logger-entry
formatter with its severity tables, indent clamp and field order.

The model is organised by source file.

- `graph.dfy` (`ObjectGraph`, `Ancestry`): the runtime values as a heap of
  nodes with explicit reference identity. Each node has a runtime type, a
  getter outcome per property (a value or an exception text), and a shape:
  primitive, dictionary, other enumerable, or plain object. A collection may
  carry the exception its enumeration throws after the listed items. The
  lineage stack is a class whose `Push` and `Pop` update a `seq` in place.
- `sink.dfy` (`Sink`): the `FormatWriter` sink as a class that records its
  calls as tokens and holds a mutable `IndentLevel`. Each line break records
  the indent in force when it was written.
- `quoting.dfy` (`Quoting`): how primitives are quoted (`FormatAsPrimitive`),
  with the inverse that collapses doubled quotes, a round-trip lemma and
  injectivity.
- `reflection_extensions.dfy` (`ReflectionExtensions`): `GetReadablePublicProperties`,
  the walk up the base-type chain, as a specification function and as a loop.
- `render_spec.dfy` (`RenderSpec`): the reference semantics of the current
  formatter's `FormatObject`, `InnerFormatObject`, `FormatAsObject`,
  `FormatAsDictionary` and `FormatAsEnumerable`. Each function maps the sink
  and lineage state on entry to the state on exit and to an outcome. The
  outcome is either the maximum recursion level reached or an exception
  escaping the call. A `Cleanup` parameter selects the restoration rule:
  `AsWritten` restores the lineage and indent on normal return only, as the
  code does; `Finally` restores them on every exit.
- `reflection_formatter.dfy` (`Formatting`): the formatter as a class whose
  methods write to the sink and push and pop the lineage in place. Each
  method, including every loop, is proved equal to the matching `RenderSpec`
  function with `Cleanup.AsWritten`.
- `render_properties.dfy` (`RenderProperties`): layout properties of the
  current formatter. They cover check order, one-line rendering of flat
  values, the exact text of primitive collections, the depth limit on
  chains of objects, quoting, contained property errors, and what each
  opening and closing step writes.
- `layout_properties.dfy` (`LayoutProperties`): the exact layout of
  collections. Formatting only ever appends to the sink, so what a nested
  value writes does not depend on what the sink already holds. On that
  basis the model states the token sequence of a dictionary and of an
  enumerable: the separators, line ends, braces, brackets and `Key:` and
  `Value:` labels around each item's own output.
- `cleanup_properties.dfy` (`CleanupProperties`): the two restoration rules
  agree on every graph whose enumerations never fail and whose dictionaries
  have no null key. A concrete graph shows where they differ.
- `legacy_formatter.dfy` (`LegacySpec`, `LegacyFormatting`): the older
  formatter. It is modelled as a specification function parameterised by
  what is pushed on the lineage, plus a class whose methods are proved equal
  to it for the code as written (it pushes the formatter itself). Lemmas give
  the exact layout of an object, of each kind of property and of the
  top-level call, and bound how deep objects nest.
- `entry_formatter.dfy` (`EntryFormat`, `EntryFormatting`): the default logger
  entry formatter. It has the level-to-label and level-to-colour tables, the
  indent clamp, the sequence of writer calls for one entry, and the trimming
  of the message.

`InnerFormatObject` restores the indent and pops the lineage only when it
returns normally (`src/LogJam.Extensions.Logging/Format/ReflectionFormatter.cs`,
lines 118-142). The class follows the code; see Findings.

## Model

In the `RenderSpec` rows, "balanced" means restored to the value on entry
whenever `Balanced(k, g)` holds, that is, with `Cleanup.Finally` or on a
graph none of whose enumerations fails and none of whose dictionaries has a
null key.

| member | source | states |
|---|---|---|
| Quoting.DoubleQuotes | src/LogJam.Extensions.Logging/Format/ReflectionFormatter.cs:195 | doubling never shortens the text, keeps it empty exactly when it was empty, and keeps a leading quote |
| Quoting.Quote | src/LogJam.Extensions.Logging/Format/ReflectionFormatter.cs:189-202 | the result is wrapped in quotes exactly when the text holds a quote or a white-space character; otherwise it is the text unchanged |
| Quoting.CollapseUndoesDoubling | src/LogJam.Extensions.Logging/Format/ReflectionFormatter.cs:195 | collapsing `""` back to `"` undoes the doubling of every quote |
| Quoting.QuoteRoundTrip | src/LogJam.Extensions.Logging/Format/ReflectionFormatter.cs:189-202 | removing the outer quotes and collapsing doubled quotes recovers the primitive's text |
| Quoting.QuoteInjective | src/LogJam.Extensions.Logging/Format/ReflectionFormatter.cs:189-202 | two different texts are never written the same way |
| ReflectionExtensions.PublicGettersMembership | src/LogJam.Extensions.Logging/Format/ReflectionExtensions.cs:33-38 | a declared property is kept if and only if its getter exists and is public |
| ReflectionExtensions.ChainTerminates | src/LogJam.Extensions.Logging/Format/ReflectionExtensions.cs:30-41 | the base-type walk starts at the runtime type, follows `BaseType` link by link and stops at the type without a base |
| ReflectionExtensions.ReadableIsConcatenationOfLevels | src/LogJam.Extensions.Logging/Format/ReflectionExtensions.cs:30-42 | the result is exactly the concatenation of each level's filtered declared properties along the chain, without de-duplication |
| ReflectionExtensions.ReadableMembership | src/LogJam.Extensions.Logging/Format/ReflectionExtensions.cs:28-43 | a property is yielded if and only if it has a public getter and is declared on some type of the chain |
| ReflectionExtensions.OwnPropertiesFirst | src/LogJam.Extensions.Logging/Format/ReflectionExtensions.cs:30-42 | the properties declared on the runtime type come first, before any base type's |
| ReflectionExtensions.GetReadablePublicProperties | src/LogJam.Extensions.Logging/Format/ReflectionExtensions.cs:28-43 | the loop over the chain yields exactly the readable public properties |
| ReflectionExtensions.DeclaredPublicGetters | src/LogJam.Extensions.Logging/Format/ReflectionExtensions.cs:33-39 | the filter over one level keeps exactly the properties with a public getter, in order |
| Ancestry.Lineage.constructor | src/LogJam.Extensions.Logging/Format/ReflectionFormatter.cs:71 | a new lineage stack is empty |
| Ancestry.Lineage.Push | src/LogJam.Extensions.Logging/Format/ReflectionFormatter.cs:120 | the pushed object becomes the top of the lineage and the rest is kept |
| Ancestry.Lineage.Pop | src/LogJam.Extensions.Logging/Format/ReflectionFormatter.cs:142 | popping removes exactly the top of a non-empty lineage |
| RenderSpec.FirstIndex | src/LogJam.Extensions.Logging/Format/ReflectionFormatter.cs:99-109 | the parent number is the position of the nearest ancestor that is the same object |
| RenderSpec.Inner | src/LogJam.Extensions.Logging/Format/ReflectionFormatter.cs:85-144 | the returned level lies between the call's level and the larger of that level and `MaxDepth`; the indent is restored on normal return (on every exit with `Finally`); the lineage is restored when restoration is on every exit, or when no enumeration fails and no dictionary key is null; nothing escapes when no enumeration fails and no dictionary key is null |
| RenderSpec.Render | src/LogJam.Extensions.Logging/Format/ReflectionFormatter.cs:123-139 | the dispatch to the dictionary, enumerable or object renderer keeps the level between the call's level and `MaxDepth` and keeps the lineage balanced |
| RenderSpec.AsObject | src/LogJam.Extensions.Logging/Format/ReflectionFormatter.cs:213-301 | an object never throws, returns a level between its own and `MaxDepth`, and balances its indent and lineage |
| RenderSpec.ObjectProperties | src/LogJam.Extensions.Logging/Format/ReflectionFormatter.cs:235-289 | the property loop never lowers the running maximum level, stays within `MaxDepth` and keeps indent and lineage balanced |
| RenderSpec.OneProperty | src/LogJam.Extensions.Logging/Format/ReflectionFormatter.cs:237-288 | one property never lowers the running maximum, stays within `MaxDepth` and keeps indent and lineage balanced, whatever its getter or value does |
| RenderSpec.AsDictionary | src/LogJam.Extensions.Logging/Format/ReflectionFormatter.cs:313-394 | a dictionary returns a level between its own and `MaxDepth`, balances indent and lineage on normal return, and throws only if an enumeration fails or a key is null |
| RenderSpec.DictionaryPairs | src/LogJam.Extensions.Logging/Format/ReflectionFormatter.cs:340-385 | the pair loop never lowers the running maximum and stays within `MaxDepth`; it keeps indent and lineage balanced |
| RenderSpec.PrimitiveKeyPair | src/LogJam.Extensions.Logging/Format/ReflectionFormatter.cs:356-362 | a pair with a primitive key stays within `MaxDepth` and leaves the indent one below the pair's on normal return |
| RenderSpec.ObjectKeyPair | src/LogJam.Extensions.Logging/Format/ReflectionFormatter.cs:363-375 | a pair with an object key stays within `MaxDepth` and leaves the indent one below the pair's on normal return |
| RenderSpec.PairEnd | src/LogJam.Extensions.Logging/Format/ReflectionFormatter.cs:376-385 | closing a pair passes on the value's exception or lowers the indent by one and folds in the value's level |
| RenderSpec.AsEnumerable | src/LogJam.Extensions.Logging/Format/ReflectionFormatter.cs:404-458 | an enumerable returns a level between its own and `MaxDepth`, balances indent and lineage on normal return, and throws only if some enumeration in the graph fails or some dictionary key is null |
| RenderSpec.Elements | src/LogJam.Extensions.Logging/Format/ReflectionFormatter.cs:432-447 | the element loop never lowers the running maximum, stays within `MaxDepth` and keeps indent and lineage balanced |
| RenderSpec.FormatObject | src/LogJam.Extensions.Logging/Format/ReflectionFormatter.cs:55-74 | the top-level call restores the indent when it completes and completes whenever no enumeration fails and no dictionary key is null |
| ObjectGraph.PrimitiveClassification | src/LogJam.Extensions.Logging/Format/ReflectionFormatter.cs:145-158 | a reference is formatted as a primitive exactly when it is null, has a type code other than `Object`, or is a `Type` or `TypeInfo` |
| Formatting.FormatAsPrimitive | src/LogJam.Extensions.Logging/Format/ReflectionFormatter.cs:189-202 | appends exactly the quoted text of the primitive and leaves the indent alone |
| Formatting.WriteErrorAsPropertyValue | src/LogJam.Extensions.Logging/Format/ReflectionFormatter.cs:239-249 | appends one colon unless one was already written, then `!(`, the message and `)!` |
| Formatting.ReflectionFormatter.constructor | src/LogJam.Extensions.Logging/Format/ReflectionFormatter.cs:33-48 | type names are off and `MaxDepth` is 10 by default |
| Formatting.ReflectionFormatter.FormatObject | src/LogJam.Extensions.Logging/Format/ReflectionFormatter.cs:55-74 | the tokens, indent and completion are those of the reference semantics as written, from an empty lineage |
| Formatting.ReflectionFormatter.InnerFormatObject | src/LogJam.Extensions.Logging/Format/ReflectionFormatter.cs:85-144 | the new sink and lineage state and the outcome are those of `RenderSpec.Inner` as written |
| Formatting.ReflectionFormatter.FindInLineage | src/LogJam.Extensions.Logging/Format/ReflectionFormatter.cs:99-109 | the scan finds the object if and only if it is on the lineage, and then reports its nearest position |
| Formatting.ReflectionFormatter.FormatAsObject | src/LogJam.Extensions.Logging/Format/ReflectionFormatter.cs:213-301 | state and outcome equal `RenderSpec.AsObject` as written |
| Formatting.ReflectionFormatter.OpenObject | src/LogJam.Extensions.Logging/Format/ReflectionFormatter.cs:215-232 | writes the opening brace, a line break below the top level and, when shown, the type line, and raises the indent, as `RenderSpec.ObjectOpening` |
| Formatting.ReflectionFormatter.CloseObject | src/LogJam.Extensions.Logging/Format/ReflectionFormatter.cs:291-298 | lowers the indent and closes the object, with a line break only when the level reached is above 1 |
| Formatting.ReflectionFormatter.FormatProperties | src/LogJam.Extensions.Logging/Format/ReflectionFormatter.cs:234-289 | the property loop's state and maximum level equal `RenderSpec.ObjectProperties` |
| Formatting.ReflectionFormatter.FormatProperty | src/LogJam.Extensions.Logging/Format/ReflectionFormatter.cs:237-288 | one property's state and maximum level equal `RenderSpec.OneProperty` |
| Formatting.ReflectionFormatter.FormatAsDictionary | src/LogJam.Extensions.Logging/Format/ReflectionFormatter.cs:313-394 | state and outcome equal `RenderSpec.AsDictionary` as written |
| Formatting.ReflectionFormatter.OpenDictionary | src/LogJam.Extensions.Logging/Format/ReflectionFormatter.cs:327-338 | reports the first pair as first exactly when no type line is shown, and writes the opening as `RenderSpec.DictionaryOpening` |
| Formatting.ReflectionFormatter.CloseDictionary | src/LogJam.Extensions.Logging/Format/ReflectionFormatter.cs:387-390 | breaks the line, lowers the indent by one and writes `}` |
| Formatting.ReflectionFormatter.FormatPairs | src/LogJam.Extensions.Logging/Format/ReflectionFormatter.cs:340-385 | the pair loop's state and outcome equal `RenderSpec.DictionaryPairs` |
| Formatting.ReflectionFormatter.FormatPair | src/LogJam.Extensions.Logging/Format/ReflectionFormatter.cs:342-385 | one pair advances `RenderSpec.DictionaryPairs` by one pair, or ends it with the pair's exception |
| Formatting.ReflectionFormatter.FormatPrimitiveKeyPair | src/LogJam.Extensions.Logging/Format/ReflectionFormatter.cs:356-362 | the primitive-key pair leaves the state from which `RenderSpec.PairEnd` continues as `RenderSpec.PrimitiveKeyPair` does |
| Formatting.ReflectionFormatter.FormatObjectKeyPair | src/LogJam.Extensions.Logging/Format/ReflectionFormatter.cs:363-375 | the object-key pair leaves the state from which `RenderSpec.PairEnd` continues as `RenderSpec.ObjectKeyPair` does |
| Formatting.ReflectionFormatter.FormatValueOfObjectKey | src/LogJam.Extensions.Logging/Format/ReflectionFormatter.cs:370-374 | writes `,`, a line break and `Value:`, then the value one level deeper |
| Formatting.ReflectionFormatter.ClosePair | src/LogJam.Extensions.Logging/Format/ReflectionFormatter.cs:376-384 | closes the pair and hands the pair loop the larger of the running and the value's level |
| Formatting.ReflectionFormatter.FormatAsEnumerable | src/LogJam.Extensions.Logging/Format/ReflectionFormatter.cs:404-458 | state and outcome equal `RenderSpec.AsEnumerable` as written |
| Formatting.ReflectionFormatter.ScanElements | src/LogJam.Extensions.Logging/Format/ReflectionFormatter.cs:406-419 | the pre-scan reports emptiness exactly when there are no elements, and all-primitive exactly when every element is null or primitive |
| Formatting.ReflectionFormatter.FormatElements | src/LogJam.Extensions.Logging/Format/ReflectionFormatter.cs:431-447 | the element loop's state and outcome equal `RenderSpec.Elements` |
| Formatting.ReflectionFormatter.FormatElement | src/LogJam.Extensions.Logging/Format/ReflectionFormatter.cs:434-446 | one element advances `RenderSpec.Elements` by one element, or ends it with the element's exception |
| Formatting.ReflectionFormatter.CloseEnumerable | src/LogJam.Extensions.Logging/Format/ReflectionFormatter.cs:449-454 | lowers the indent, breaks the line unless all elements were primitive, and writes `]` |
| RenderProperties.CheckOrder | src/LogJam.Extensions.Logging/Format/ReflectionFormatter.cs:87-116 | null writes `(null)`, then any reference at or beyond `MaxDepth` (primitives included) writes the limit marker, then a lineage hit writes `(Parent N)` for the nearest equal ancestor N; each returns its own level and pushes nothing |
| RenderProperties.LeafOnOneLine | src/LogJam.Extensions.Logging/Format/ReflectionFormatter.cs:87-116 | null, a primitive, the depth limit and a lineage hit are written without a line break, return their own level and leave indent and lineage as they were; a null or primitive value writes exactly its leaf text: `(null)`, the limit marker, `(Parent N)` or the quoted primitive |
| RenderProperties.EmptyDictionary | src/LogJam.Extensions.Logging/Format/ReflectionFormatter.cs:320-324 | an empty dictionary writes `{}` and returns its own level, unless enumerating it throws |
| RenderProperties.EmptyEnumerable | src/LogJam.Extensions.Logging/Format/ReflectionFormatter.cs:410-425 | an empty enumerable writes `[]` and returns its own level, unless enumerating it throws |
| RenderProperties.PrimitiveElementsOnOneLine | src/LogJam.Extensions.Logging/Format/ReflectionFormatter.cs:432-447 | elements that are all null or primitive are joined on one line and keep indent and lineage |
| RenderProperties.PrimitiveEnumerableOnOneLine | src/LogJam.Extensions.Logging/Format/ReflectionFormatter.cs:404-458 | an all-primitive enumerable is written on one line and returns its level, plus one when it has elements |
| RenderProperties.PrimitiveElementsJoined | src/LogJam.Extensions.Logging/Format/ReflectionFormatter.cs:432-447 | elements that are all null or primitive are written as their leaf texts separated by `,`, with nothing else between them |
| RenderProperties.PrimitiveEnumerableJoined | src/LogJam.Extensions.Logging/Format/ReflectionFormatter.cs:404-458 | an all-primitive enumerable that enumerates without failing is written exactly `[]` when empty and otherwise `[`, the leaf texts separated by `,`, and `]` |
| RenderProperties.PrimitiveElementsMaxLevel | src/LogJam.Extensions.Logging/Format/ReflectionFormatter.cs:445-446 | primitive elements raise the running maximum to exactly one above the enumerable's level |
| RenderProperties.OnePropertyOnOneLine | src/LogJam.Extensions.Logging/Format/ReflectionFormatter.cs:237-288 | a property whose value is null, primitive or an error is written on one line and raises the level by at most one |
| RenderProperties.FlatPropertiesOnOneLine | src/LogJam.Extensions.Logging/Format/ReflectionFormatter.cs:235-289 | a run of such properties is written on one line |
| RenderProperties.FlatObjectOnOneLine | src/LogJam.Extensions.Logging/Format/ReflectionFormatter.cs:291-295 | a top-level object with only such properties stays on one line and reports level at most 1 |
| RenderProperties.ChainStopsAtLimit | src/LogJam.Extensions.Logging/Format/ReflectionFormatter.cs:93-97 | a chain of distinct objects, each with one property returning the next, that is linked down to the depth limit is cut there by the limit marker and reports `MaxDepth`, whatever the object at the limit is |
| RenderProperties.TwentyOneLinkChain | test/LogJam.Extensions.Logging.UnitTests/ReflectionFormatterTests.cs:108-123 | twenty-one objects whose last `Child` is null, formatted with the default limit of 10, contain the limit marker |
| RenderProperties.PrimitiveTokensSpellQuote | src/LogJam.Extensions.Logging/Format/ReflectionFormatter.cs:189-202 | what is written for a primitive spells its quoted text on one line, and unquoting it gives the text back |
| RenderProperties.ErrorValueText | src/LogJam.Extensions.Logging/Format/ReflectionFormatter.cs:239-249 | the error written in place of a value reads as a colon unless one is there, then `!(`, the message and `)!`, with no line break |
| RenderProperties.PropertyErrorsContained | src/LogJam.Extensions.Logging/Format/ReflectionFormatter.cs:251-288 | an indexed property or a throwing getter writes the name, one colon and `!(message)!`, and keeps the running level |
| RenderProperties.ObjectOpeningWrites | src/LogJam.Extensions.Logging/Format/ReflectionFormatter.cs:215-232 | an object opens with `{`, a line end unless it is at the top level, and one more indent, and shows a `type:` line exactly when type names are on and the property's declared type is not the runtime type; lineage untouched |
| RenderProperties.AfterPropertiesWrites | src/LogJam.Extensions.Logging/Format/ReflectionFormatter.cs:291-300 | an object closes one indent out with `}`, preceded by a line end exactly when something nested went deeper than level 1, and returns the level reached |
| RenderProperties.DictionaryOpeningWrites | src/LogJam.Extensions.Logging/Format/ReflectionFormatter.cs:326-338 | a non-empty dictionary opens with `{` and one more indent, and puts `type:` and the name on the same line exactly when type names are on and the declared type is not the runtime type |
| RenderProperties.AfterPairsWrites | src/LogJam.Extensions.Logging/Format/ReflectionFormatter.cs:340-391 | after its pairs a dictionary throws exactly when a pair threw (passed on unchanged) or its enumeration failed (nothing more written); otherwise it writes a line end and `}` one indent out and keeps the level |
| RenderProperties.AfterElementsWrites | src/LogJam.Extensions.Logging/Format/ReflectionFormatter.cs:432-454 | after its elements an enumerable throws exactly when an element threw or its enumeration failed; otherwise it writes `]` one indent out, on a line of its own exactly when some element is not primitive |
| LayoutProperties.PrescanDecides | src/LogJam.Extensions.Logging/Format/ReflectionFormatter.cs:406-425 | when the enumeration fails, the pre-scan reaches the failure before anything is written exactly when every element is primitive or null; otherwise `[` is written first; either way an exception escapes |
| LayoutProperties.InnerShifts | src/LogJam.Extensions.Logging/Format/ReflectionFormatter.cs:85-144 | formatting only appends: on a sink that already holds some tokens the result is those tokens followed by what the value writes on an empty sink, with the same indent, lineage and outcome |
| LayoutProperties.InnerWritesOwn | src/LogJam.Extensions.Logging/Format/ReflectionFormatter.cs:85-144 | the output is what the sink held followed by the value's own tokens, and the outcome does not depend on the sink |
| LayoutProperties.ItemWritesOwn | src/LogJam.Extensions.Logging/Format/ReflectionFormatter.cs:85-144 | a nested value that returns normally, under a balanced rule or when it is null or primitive, appends only its own tokens and leaves indent and lineage as it found them |
| LayoutProperties.OnePropertyLayout | src/LogJam.Extensions.Logging/Format/ReflectionFormatter.cs:251-287 | a readable property without index parameters is written as its name, `(<type>)` when type names are on and the value's runtime type differs, `:` and the value's own tokens one level deeper; when the value's formatting throws, the error text follows and the running maximum is kept, otherwise it is raised to the value's level |
| LayoutProperties.ElementsLayout | src/LogJam.Extensions.Logging/Format/ReflectionFormatter.cs:432-447 | the element loop writes, for each element, `,` unless it is the first, a line end unless all elements are primitive, then the element's own tokens |
| LayoutProperties.EnumerableLayout | src/LogJam.Extensions.Logging/Format/ReflectionFormatter.cs:404-458 | an enumerable that returns normally did not fail, and is written `[]` when empty, otherwise `[`, the elements one indent deeper joined as above, a line end unless all are primitive, and `]` |
| LayoutProperties.DictionaryPairsLayout | src/LogJam.Extensions.Logging/Format/ReflectionFormatter.cs:340-385 | the pair loop writes, for each pair, `,` unless it is the first, a line end, `{`, the pair's body one indent deeper and the pair's end |
| LayoutProperties.PrimitiveKeyPairLayout | src/LogJam.Extensions.Logging/Format/ReflectionFormatter.cs:356-362 | a pair with a primitive key is written as the delimiter, the quoted key, `:` and the value's own tokens, then its end one indent out (a line break after a value that is not primitive, and `}`); the loop goes on to the next pair from that sink, at the indent and lineage the pair started from |
| LayoutProperties.ObjectKeyPairLayout | src/LogJam.Extensions.Logging/Format/ReflectionFormatter.cs:363-375 | a pair with any other key is written as `Key:`, the key's own tokens, `,`, a line end, `Value:` and the value's own tokens, then its end one indent out (a line break after a value that is not primitive, and `}`); the loop goes on to the next pair from that sink, at the indent and lineage the pair started from |
| LayoutProperties.PairEndLayout | src/LogJam.Extensions.Logging/Format/ReflectionFormatter.cs:376-384 | a pair that returns normally ends with a line break when its value is not primitive and `}` one indent out, and the loop goes on to the next pair from that sink |
| LayoutProperties.DictionaryLayout | src/LogJam.Extensions.Logging/Format/ReflectionFormatter.cs:313-394 | a dictionary that returns normally did not fail, and is written `{}` when empty, otherwise `{`, the optional `type:` announcement, the pairs one indent deeper (the first with a leading `,` when the type was announced), a line end and `}` |
| LayoutProperties.NormalPairsHaveKeys | src/LogJam.Extensions.Logging/Format/ReflectionFormatter.cs:356-359 | the pairs are walked normally only when no key is null, because a null key is passed to `FormatAsPrimitive` |
| LayoutProperties.PrimitivePairsExact | src/LogJam.Extensions.Logging/Format/ReflectionFormatter.cs:340-385 | with every key present and primitive and every value null or primitive, each pair is `{`, the delimiter, the quoted key, `:`, the value's leaf text and `}` on a line of its own |
| LayoutProperties.PrimitiveDictionaryLayout | src/LogJam.Extensions.Logging/Format/ReflectionFormatter.cs:313-394 | a dictionary of primitive keys and values that returns normally has no null key and is written exactly `{}` or `{`, the optional `type:` announcement, those pairs, a line end and `}` |
| CleanupProperties.InnerAgrees | src/LogJam.Extensions.Logging/Format/ReflectionFormatter.cs:118-142 | when no enumeration fails and no dictionary key is null, restoring on normal return only and restoring on every exit give the same result |
| CleanupProperties.RenderAgrees | src/LogJam.Extensions.Logging/Format/ReflectionFormatter.cs:123-139 | the dispatch agrees under both restoration rules when no enumeration fails and no dictionary key is null |
| CleanupProperties.ObjectPropertiesAgrees | src/LogJam.Extensions.Logging/Format/ReflectionFormatter.cs:235-289 | the property loop agrees under both restoration rules when no enumeration fails and no dictionary key is null |
| CleanupProperties.OnePropertyAgrees | src/LogJam.Extensions.Logging/Format/ReflectionFormatter.cs:237-288 | one property agrees under both restoration rules when no enumeration fails and no dictionary key is null |
| CleanupProperties.AsDictionaryAgrees | src/LogJam.Extensions.Logging/Format/ReflectionFormatter.cs:313-394 | a dictionary agrees under both restoration rules when no enumeration fails and no dictionary key is null |
| CleanupProperties.DictionaryPairsAgrees | src/LogJam.Extensions.Logging/Format/ReflectionFormatter.cs:340-385 | the pair loop agrees under both restoration rules when no enumeration fails and no dictionary key is null |
| CleanupProperties.PrimitiveKeyPairAgrees | src/LogJam.Extensions.Logging/Format/ReflectionFormatter.cs:356-362 | a primitive-key pair agrees under both restoration rules when no enumeration fails and no dictionary key is null |
| CleanupProperties.ObjectKeyPairAgrees | src/LogJam.Extensions.Logging/Format/ReflectionFormatter.cs:363-375 | an object-key pair agrees under both restoration rules when no enumeration fails and no dictionary key is null |
| CleanupProperties.PairEndAgrees | src/LogJam.Extensions.Logging/Format/ReflectionFormatter.cs:376-385 | closing a pair agrees under both restoration rules |
| CleanupProperties.AsEnumerableAgrees | src/LogJam.Extensions.Logging/Format/ReflectionFormatter.cs:404-458 | an enumerable agrees under both restoration rules when no enumeration fails and no dictionary key is null |
| CleanupProperties.ElementsAgrees | src/LogJam.Extensions.Logging/Format/ReflectionFormatter.cs:432-447 | the element loop agrees under both restoration rules when no enumeration fails and no dictionary key is null |
| CleanupProperties.FormatObjectAgrees | src/LogJam.Extensions.Logging/Format/ReflectionFormatter.cs:55-74 | the top-level call agrees under both restoration rules when no enumeration fails and no dictionary key is null |
| CleanupProperties.DemoElement | src/LogJam.Extensions.Logging/Format/ReflectionFormatter.cs:213-301 | an object without properties at level 2 is written as `{`, two line breaks and `}` |
| CleanupProperties.DemoCollection | src/LogJam.Extensions.Logging/Format/ReflectionFormatter.cs:404-458 | a collection that throws after its first element leaves itself on the lineage and the indent raised as written, and restores both with `Finally` |
| CleanupProperties.DemoFailingProperty | src/LogJam.Extensions.Logging/Format/ReflectionFormatter.cs:282-288 | the property catch writes the error but, as written, keeps the stale lineage entry and indent |
| CleanupProperties.DemoRevisitedProperty | src/LogJam.Extensions.Logging/Format/ReflectionFormatter.cs:99-106 | with the stale entry on the lineage, the second property is reported as `(Parent 0)` |
| CleanupProperties.DemoWalk | src/LogJam.Extensions.Logging/Format/ReflectionFormatter.cs:235-289 | the property loop of the demo graph differs between the two restoration rules |
| CleanupProperties.DemoHolder | src/LogJam.Extensions.Logging/Format/ReflectionFormatter.cs:118-142 | the whole demo object under each restoration rule, tokens, indent and final lineage |
| CleanupProperties.StaleLineageCounterexample | src/LogJam.Extensions.Logging/Format/ReflectionFormatter.cs:118-142 | as written, the demo ends with a non-empty lineage and a false `(Parent 0)`; with `Finally` it ends with an empty lineage and both properties written in full |
| LegacySpec.Inner | src/LogJam.Microsoft.Extensions.Logging/Format/ReflectionFormatter.cs:55-128 | the older formatter only appends to the sink and always restores the indent and lineage |
| LegacySpec.Properties | src/LogJam.Microsoft.Extensions.Logging/Format/ReflectionFormatter.cs:81-123 | the property loop only appends and keeps indent and lineage |
| LegacySpec.Property | src/LogJam.Microsoft.Extensions.Logging/Format/ReflectionFormatter.cs:83-122 | one property only appends and keeps indent and lineage, whatever its getter does |
| LegacySpec.FormatObject | src/LogJam.Microsoft.Extensions.Logging/Format/ReflectionFormatter.cs:36-53 | the top-level call only appends and keeps the indent |
| LegacySpec.InnerShifts | src/LogJam.Microsoft.Extensions.Logging/Format/ReflectionFormatter.cs:55-128 | an object's call only appends: on a sink that already holds some tokens the result is those tokens followed by what the call writes on an empty sink, with the same indent and lineage |
| LegacySpec.PropertiesShifts | src/LogJam.Microsoft.Extensions.Logging/Format/ReflectionFormatter.cs:81-123 | the same for the property loop |
| LegacySpec.PropertyShifts | src/LogJam.Microsoft.Extensions.Logging/Format/ReflectionFormatter.cs:83-122 | the same for one property |
| LegacySpec.InnerWritesOwn | src/LogJam.Microsoft.Extensions.Logging/Format/ReflectionFormatter.cs:55-128 | an object's call writes what the sink held followed by the object's own tokens |
| LegacySpec.PropertyWritesOwn | src/LogJam.Microsoft.Extensions.Logging/Format/ReflectionFormatter.cs:83-122 | a property writes what the sink held followed by the property's own tokens |
| LegacySpec.PropertiesLayout | src/LogJam.Microsoft.Extensions.Logging/Format/ReflectionFormatter.cs:81-123 | the loop writes every runtime property in order, each at the same indent and lineage, whatever the getters before it did |
| LegacySpec.InnerLayout | src/LogJam.Microsoft.Extensions.Logging/Format/ReflectionFormatter.cs:55-128 | an object's own tokens are `(Recursion limit exceeded)` at level 10 or deeper, `(Cycle in object graph)` when it is on the lineage, and otherwise `{ `, `Type: `, the runtime type's full name, a space, its properties two indent levels deeper with the pushed entry on the lineage, and `}` |
| LegacySpec.InnerObjectLayout | src/LogJam.Microsoft.Extensions.Logging/Format/ReflectionFormatter.cs:68-127 | an object below the limit and not on the lineage is written as the header, its properties two levels deeper with the pushed entry on the lineage, and `}` |
| LegacySpec.ObjectWrites | src/LogJam.Microsoft.Extensions.Logging/Format/ReflectionFormatter.cs:68-127 | the same on any sink, with the lineage restored |
| LegacySpec.PropertyLayout | src/LogJam.Microsoft.Extensions.Logging/Format/ReflectionFormatter.cs:83-122 | a property is always `Name(PropertyType)`; only when it can be read it continues with `: ` and the exception's text, `(null)`, the value's text as a field, or the nested object between two line ends; it always ends with a space |
| LegacySpec.PropertyNested | src/LogJam.Microsoft.Extensions.Logging/Format/ReflectionFormatter.cs:106-112 | an object value is written after a line end, one level deeper, followed by a line end at the property's indent and a space |
| LegacySpec.FormatObjectLayout | src/LogJam.Microsoft.Extensions.Logging/Format/ReflectionFormatter.cs:36-53 | the top-level call writes `(null)` for null, a scalar's text as one field, and otherwise the object from level 0 with a fresh lineage: header, properties and `}` |
| LegacySpec.TopLevelObject | src/LogJam.Microsoft.Extensions.Logging/Format/ReflectionFormatter.cs:52 | a non-scalar top-level value is written with only its own entry on the lineage, and the lineage is empty afterwards |
| LegacySpec.NestingBounded | src/LogJam.Microsoft.Extensions.Logging/Format/ReflectionFormatter.cs:57-70 | objects nest at most ten levels: no line end the call writes is indented more than two levels per remaining level beyond where it starts |
| LegacySpec.PropertiesNestingBounded | src/LogJam.Microsoft.Extensions.Logging/Format/ReflectionFormatter.cs:81-123 | the same bound for the property loop, one level in |
| LegacySpec.PropertyNestingBounded | src/LogJam.Microsoft.Extensions.Logging/Format/ReflectionFormatter.cs:106-112 | the same bound for one property |
| LegacySpec.SelfLoopUnfolds | src/LogJam.Microsoft.Extensions.Logging/Format/ReflectionFormatter.cs:68-127 | an object whose only property returns itself is written as the header, the nested call one level deeper, a line break, a space and `}` |
| LegacySpec.SelfLoopReachesLimit | src/LogJam.Microsoft.Extensions.Logging/Format/ReflectionFormatter.cs:57-70 | as written, a self-referring object is expanded until `(Recursion limit exceeded)` and no cycle marker is ever written |
| LegacySpec.SelfLoopLevel | src/LogJam.Microsoft.Extensions.Logging/Format/ReflectionFormatter.cs:62-70 | one level of the self loop keeps the limit marker and the absence of the cycle marker of the level below |
| LegacySpec.SelfLoopReportedAsCycle | src/LogJam.Microsoft.Extensions.Logging/Format/ReflectionFormatter.cs:62-70 | pushing the object instead writes `(Cycle in object graph)` at the first revisit |
| LegacySpec.LineageIrrelevant | src/LogJam.Microsoft.Extensions.Logging/Format/ReflectionFormatter.cs:62-70 | as written, when the graph never contains the formatter, the output does not depend on the lineage at all |
| LegacySpec.PropertiesLineageIrrelevant | src/LogJam.Microsoft.Extensions.Logging/Format/ReflectionFormatter.cs:81-123 | the same for the property loop |
| LegacySpec.PropertyLineageIrrelevant | src/LogJam.Microsoft.Extensions.Logging/Format/ReflectionFormatter.cs:88-113 | the same for one property |
| LegacyFormatting.LegacyReflectionFormatter.constructor | src/LogJam.Microsoft.Extensions.Logging/Format/ReflectionFormatter.cs:70 | the formatter has the identity it pushes on the lineage |
| LegacyFormatting.LegacyReflectionFormatter.FormatObject | src/LogJam.Microsoft.Extensions.Logging/Format/ReflectionFormatter.cs:36-53 | the tokens and indent are those of `LegacySpec.FormatObject` as written |
| LegacyFormatting.LegacyReflectionFormatter.InnerFormatObject | src/LogJam.Microsoft.Extensions.Logging/Format/ReflectionFormatter.cs:55-128 | the sink and lineage state equal `LegacySpec.Inner` as written |
| LegacyFormatting.LegacyReflectionFormatter.FormatProperty | src/LogJam.Microsoft.Extensions.Logging/Format/ReflectionFormatter.cs:83-122 | the sink and lineage state equal `LegacySpec.Property` as written |
| EntryFormat.AddInt32 | src/LogJam.Microsoft.Extensions.Logging/Format/DefaultLoggerEntryFormatter.cs:78 | the sum is an `int`, congruent to the true sum modulo 2^32, and equal to it when it fits |
| EntryFormat.EntryIndentLevel | src/LogJam.Microsoft.Extensions.Logging/Format/DefaultLoggerEntryFormatter.cs:78-79 | the entry indent is the smaller of the writer's indent plus the relative indent, as an `int` sum, and `MaxIndentLevel` |
| EntryFormat.IndentOverflowWraps | src/LogJam.Microsoft.Extensions.Logging/Format/DefaultLoggerEntryFormatter.cs:78-81 | when the writer's indent plus the relative indent exceeds the `int` range, the entry indent wraps to a negative number 2^32 below the true sum |
| EntryFormat.LogLevelToLabel | src/LogJam.Microsoft.Extensions.Logging/Format/DefaultLoggerEntryFormatter.cs:134-155 | the label is empty exactly for a value outside the named levels, and fits the 7-wide column except for `CRITICAL` |
| EntryFormat.LogLevelToColorCategory | src/LogJam.Microsoft.Extensions.Logging/Format/DefaultLoggerEntryFormatter.cs:113-132 | the colour is `None` exactly outside Trace to Critical |
| EntryFormat.EntryColor | src/LogJam.Microsoft.Extensions.Logging/Format/DefaultLoggerEntryFormatter.cs:72-76 | the entry has no colour exactly when the sink has colour off or the level is outside Trace to Critical |
| EntryFormat.ExceptionColor | src/LogJam.Microsoft.Extensions.Logging/Format/DefaultLoggerEntryFormatter.cs:102-105 | exception lines are `Debug` exactly when the entry's colour is `Debug`, and `Detail` otherwise |
| EntryFormat.Trim | src/LogJam.Microsoft.Extensions.Logging/Format/DefaultLoggerEntryFormatter.cs:101 | the trimmed message is no longer than the message and neither starts nor ends with white space |
| EntryFormat.EntryCalls | src/LogJam.Microsoft.Extensions.Logging/Format/DefaultLoggerEntryFormatter.cs:70-109 | an entry is at least five calls, opening with `BeginEntry` at an indent no greater than `MaxIndentLevel` and ending with `EndEntry` |
| EntryFormat.TrimStart | src/LogJam.Microsoft.Extensions.Logging/Format/DefaultLoggerEntryFormatter.cs:101 | trimming the start never lengthens the text |
| EntryFormat.TrimEnd | src/LogJam.Microsoft.Extensions.Logging/Format/DefaultLoggerEntryFormatter.cs:101 | trimming the end never lengthens the text |
| EntryFormat.TrimStartShape | src/LogJam.Microsoft.Extensions.Logging/Format/DefaultLoggerEntryFormatter.cs:101 | the result is a suffix that starts with a non-white-space character, and everything dropped is white space |
| EntryFormat.TrimEndShape | src/LogJam.Microsoft.Extensions.Logging/Format/DefaultLoggerEntryFormatter.cs:101 | the result is a prefix that ends with a non-white-space character, and everything dropped is white space |
| EntryFormat.TrimKeepsRun | src/LogJam.Microsoft.Extensions.Logging/Format/DefaultLoggerEntryFormatter.cs:101 | the trimmed message is a contiguous run of the message with no white space at either end |
| EntryFormat.TrimDropsOnlyWhiteSpace | src/LogJam.Microsoft.Extensions.Logging/Format/DefaultLoggerEntryFormatter.cs:101 | everything before and after that run is white space |
| EntryFormat.TrimIdempotent | src/LogJam.Microsoft.Extensions.Logging/Format/DefaultLoggerEntryFormatter.cs:101 | a message without white space at its ends is unchanged, and trimming twice is trimming once |
| EntryFormat.LabelsDistinct | src/LogJam.Microsoft.Extensions.Logging/Format/DefaultLoggerEntryFormatter.cs:134-155 | the seven named levels have seven different labels |
| EntryFormat.LabelEmptyIffUnnamed | src/LogJam.Microsoft.Extensions.Logging/Format/DefaultLoggerEntryFormatter.cs:134-155 | the label is empty exactly for values outside the named levels |
| EntryFormat.ColorsDistinct | src/LogJam.Microsoft.Extensions.Logging/Format/DefaultLoggerEntryFormatter.cs:113-132 | the colour is `None` exactly outside Trace to Critical, and those six levels have six different colours |
| EntryFormat.IndentClamped | src/LogJam.Microsoft.Extensions.Logging/Format/DefaultLoggerEntryFormatter.cs:78-81 | the entry begins at an indent no greater than `MaxIndentLevel`, and at the unclamped indent whenever that sum is an `int` and fits |
| EntryFormat.BodyHasNoBoundary | src/LogJam.Microsoft.Extensions.Logging/Format/DefaultLoggerEntryFormatter.cs:81-108 | the body of an entry has at least three calls and none of them begins or ends an entry |
| EntryFormat.EntryIsBracketed | src/LogJam.Microsoft.Extensions.Logging/Format/DefaultLoggerEntryFormatter.cs:81-108 | an entry is one `BeginEntry`, at least three body calls, and one `EndEntry`, with no other boundary |
| EntryFormat.BodyLayout | src/LogJam.Microsoft.Extensions.Logging/Format/DefaultLoggerEntryFormatter.cs:83-106 | the body holds the optional date and timestamp, the level label of width 7, the category of width 36, the optional event id of width 6, the trimmed message and the optional exception lines, at these positions and no others |
| EntryFormat.FieldOrder | src/LogJam.Microsoft.Extensions.Logging/Format/DefaultLoggerEntryFormatter.cs:81-108 | the same order and widths counted over the whole entry, begin and end included |
| EntryFormat.FieldsInColor | src/LogJam.Microsoft.Extensions.Logging/Format/DefaultLoggerEntryFormatter.cs:92-101 | every field of the entry is written in the entry's colour |
| EntryFormat.StampsUncoloured | src/LogJam.Microsoft.Extensions.Logging/Format/DefaultLoggerEntryFormatter.cs:83-90 | the date and timestamp calls are neither fields nor exception lines |
| EntryFormat.ColorOff | src/LogJam.Microsoft.Extensions.Logging/Format/DefaultLoggerEntryFormatter.cs:72-76 | with colour disabled every field has colour `None` and exception lines use `Detail` |
| EntryFormat.ExceptionColorIsDebugOnlyForTrace | src/LogJam.Microsoft.Extensions.Logging/Format/DefaultLoggerEntryFormatter.cs:102-105 | exception lines use `Debug` exactly for Trace entries with colour on, and `Detail` otherwise |
| EntryFormatting.EntryWriter.constructor | src/LogJam.Microsoft.Extensions.Logging/Format/DefaultLoggerEntryFormatter.cs:73-78 | a new writer has the given colour switch and indent and no calls |
| EntryFormatting.EntryWriter.Write | src/LogJam.Microsoft.Extensions.Logging/Format/DefaultLoggerEntryFormatter.cs:81-108 | each writer call is appended and leaves the indent alone |
| EntryFormatting.DefaultLoggerEntryFormatter.constructor | src/LogJam.Microsoft.Extensions.Logging/Format/DefaultLoggerEntryFormatter.cs:28-37 | `MaxIndentLevel` is 4 and the timestamp is on; date, event id and the relative indent are off |
| EntryFormatting.DefaultLoggerEntryFormatter.Format | src/LogJam.Microsoft.Extensions.Logging/Format/DefaultLoggerEntryFormatter.cs:70-109 | appends exactly the calls of `EntryFormat.EntryCalls` for the writer's indent and colour switch, and leaves the indent alone |
| EntryFormatting.DefaultLoggerEntryFormatter.WriteStamps | src/LogJam.Microsoft.Extensions.Logging/Format/DefaultLoggerEntryFormatter.cs:83-90 | appends the optional date and timestamp |
| EntryFormatting.DefaultLoggerEntryFormatter.WriteFields | src/LogJam.Microsoft.Extensions.Logging/Format/DefaultLoggerEntryFormatter.cs:92-101 | appends the label, category, optional event id and trimmed message |
| EntryFormatting.DefaultLoggerEntryFormatter.WriteException | src/LogJam.Microsoft.Extensions.Logging/Format/DefaultLoggerEntryFormatter.cs:102-106 | appends the exception lines when there is an exception |

## Left out

- Colour categories of the reflection formatters are presentation only; the sink records text, fields and line breaks without them.
- The `FormatWriter` sink is external. It is modelled as a token recorder with an indent field; abbreviation, padding and the text layout of line breaks are not modelled.
- .NET reflection is replaced by data. The object graph gives each node a shape tag, so `IsDictionary` and `Convert.GetTypeCode` are not modelled. `ShouldFormatAsPrimitive` is a predicate on that tag.
- `ToString()`, `_typeNameFunc`, `FullName`, exception text, dates and event ids are opaque strings in the graph or the entry.
- `ReflectionFormatter` in `LogJam.Extensions.Logging` reads `TraceManagerConfig.DefaultTypeNameFunc`; TraceManagerConfig is not part of this model, and each type carries its display name instead.
- The entry's message formatter delegate (`DefaultFormatter`) is replaced by the message text it returns.
- `GenericLoggerBeginScopeEntryFormatter`, `GenericLoggerEndScopeEntryFormatter`, the entry structs, loggers, logger providers, scopes and dependency-injection and hosting glue are not modelled. They only forward calls or carry data.
- LegacySpec.Inner: its own contract states only that it appends and keeps indent and lineage; the layout is stated by `InnerLayout`, `InnerObjectLayout` and `NestingBounded`.
- LegacySpec.Property: its own contract states only that it appends and keeps indent and lineage; the layout of each case is stated by `PropertyLayout`.
- LegacySpec.FormatObject: its own contract states only that it appends and keeps the indent; the layout is stated by `FormatObjectLayout` and `TopLevelObject`.
- EntryFormat.TrimStart: its own contract states only that the result is no longer; what it keeps and drops is stated by `TrimStartShape`.
- EntryFormat.TrimEnd: its own contract states only that the result is no longer; what it keeps and drops is stated by `TrimEndShape`.
- The formatter classes run the code as written. `Formatting.ReflectionFormatter` restores on normal return only, and `LegacyFormatting.LegacyReflectionFormatter` pushes itself. The corrected behaviours are stated on the specification functions only.
- An exception raised by the sink itself, and exceptions other than enumeration failures and null dictionary keys escaping `InnerFormatObject`, are not modelled.
- Concurrent use of one formatter or one sink is not modelled.
- Each collection's items and failure, and each getter's outcome, are fixed data in the graph. `Any()` and the pair `foreach` of `FormatAsDictionary` (lines 320 and 340), and the pre-scan and the element `foreach` of `FormatAsEnumerable` (lines 410 and 432), therefore see the same items. A single-use or changing enumerable, or a getter that returns something new on each call, is not modelled; for example, a second pass that yields nothing after a non-primitive first element would write `[`, a line end and `]`.

## Findings

| source | as written | input that shows it | evidently intended | confidence | as-written member | corrected member |
|---|---|---|---|---|---|---|
| src/LogJam.Extensions.Logging/Format/ReflectionFormatter.cs:118-142 | the lineage pop and the indent restore run only on normal return, with no `finally`; an exception from enumerating a collection leaves the collection on the lineage and the indent raised, and the enclosing property's catch carries on with both | object 0 with properties P1 and P2 both returning collection 1, which yields object 2 and then throws `boom`: P2 is written as `(Parent 0)`, and the lineage ends as `[0]` instead of empty | restore lineage and indent on every exit | not executed | CleanupProperties.StaleLineageCounterexample | RenderSpec.Inner (with `Cleanup.Finally`) |
| src/LogJam.Microsoft.Extensions.Logging/Format/ReflectionFormatter.cs:62-70 | the cycle check compares ancestors with `o`, but the formatter pushes `this`, so the check never fires for a value of the graph | an object whose only property returns itself: it is expanded ten levels deep and ends in `(Recursion limit exceeded)`, with no `(Cycle in object graph)` | push `o` so that a revisited object is reported as a cycle | not executed | LegacySpec.SelfLoopReachesLimit | LegacySpec.SelfLoopReportedAsCycle |
