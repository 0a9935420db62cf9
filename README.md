# HtmlCleaner `CleanerProperties` in Dafny

This project models `CleanerProperties`. That class is the mutable configuration object that HtmlCleaner's parser, serializers and tag-info lookup all consult. The model is a Dafny `class` with the same fields:

- sixteen boolean switches;
- three optional-output directives;
- the comment hyphen replacement, the charset and the boolean-attribute rendering;
- the raw prune and allow tag lists;
- the two live condition sets derived from those lists;
- the transformation table;
- the tag-info provider;
- the list of modification listeners.

The behaviour beyond plain field assignment is modelled and proved:

- **`reset`** restores every documented default. Both constructors call it.
- **`setPruneTags` / `setAllowTags`** split a comma-separated list the way `java.util.StringTokenizer(list, ",")` does. Each token is trimmed and lower-cased. The result is rebuilt in place in the corresponding set, and the prune set always keeps the auto-generated condition.
- **`setBooleanAttributeValues`** accepts only `self`, `empty` and `true`, in any case, and falls back to `self` otherwise.
- **`isOmitDoctypeDeclaration`** is derived: omitting the html envelope always omits the doctype.
- **`setCleanerTransformations(null)`** empties the table it holds instead of storing null.
- **The four `fire*` methods** deliver an event to every registered listener, in registration order.

Modules:

| file | module | contents |
|---|---|---|
| `nullable.dfy` | `Nullable` | a Java reference that may be null |
| `text.dfy` | `Text` | `String.trim`, `toLowerCase` and `equalsIgnoreCase`, on ASCII |
| `tokenizer.dfy` | `Tokenizer` | `StringTokenizer` with the delimiter `,`: the token stream as a function, plus the two scanning loops |
| `conditions.dfy` | `Conditions` | tag-node conditions, and the `HashSet` of them as a class updated in place |
| `transformations.dfy` | `Transformations` | the transformation table, as an opaque set of rules |
| `audit.dfy` | `Audit` | listeners, events and the log of the calls made to listeners |
| `properties.dfy` | `Properties` | the `CleanerProperties` class |
| `scenarios.dfy` | `Scenarios` | worked examples that drive a fresh configuration and state the exact outcome |

Three details of the code that the model keeps:

- **`reset` keeps the transformation table object.** It clears the table it already holds (`src/org/htmlcleaner/CleanerProperties.java:448`), so the same object stays in place.
- **A blank field is a token.** Empty fields (`",,"`) yield nothing, because the tokenizer never hands them out. A field made only of blanks is a token: it trims to `""`, and the name condition `""` is added for it (`src/org/htmlcleaner/CleanerProperties.java:357-359`). `Scenarios.BlankTokenIsKept` shows this.
- **A failing listener stops the fan-out.** The `fire*` loops have no exception handling, so a listener that throws skips the listeners after it. The model does not isolate listeners.

## Model

| member | source | states |
|---|---|---|
| `Text.LeadingBlanks` | src/org/htmlcleaner/CleanerProperties.java:359 | the number of leading characters `trim()` removes: all of them are at most U+0020 and the next one is not |
| `Text.TrailingEnd` | src/org/htmlcleaner/CleanerProperties.java:359 | where `trim()` cuts the end: every character after it is at most U+0020 and the one before it is not |
| `Text.Trim` | src/org/htmlcleaner/CleanerProperties.java:359 | `trim()` never lengthens a string; a non-empty result starts and ends with a non-blank; an empty result means the input was all blanks |
| `Text.TrimSlice` | src/org/htmlcleaner/CleanerProperties.java:359 | `trim()` returns the part of the input that starts right after the leading blanks |
| `Text.TrimDecomposition` | src/org/htmlcleaner/CleanerProperties.java:359 | the input is exactly its leading blanks, then the trimmed text, then trailing blanks |
| `Text.TrimIdempotent` | src/org/htmlcleaner/CleanerProperties.java:359 | trimming twice is trimming once |
| `Text.LowerChar` | src/org/htmlcleaner/CleanerProperties.java:359 | an upper-case ASCII letter maps to its lower-case letter; every other character is unchanged |
| `Text.Lower` | src/org/htmlcleaner/CleanerProperties.java:359 | `toLowerCase()` keeps the length and maps each character by `LowerChar` |
| `Text.LowerIsLowerCase` | src/org/htmlcleaner/CleanerProperties.java:359 | a lower-cased string holds no upper-case letter, and lower-casing it again changes nothing |
| `Text.SplitInThree` | src/org/htmlcleaner/CleanerProperties.java:359 | cutting a string at two positions and gluing the pieces gives it back: the step that puts the trimmed text back between its leading and trailing blanks |
| `Text.LowerOfLowerCase` | src/org/htmlcleaner/CleanerProperties.java:390 | a string without upper-case letters is its own lower-case form |
| `Text.EqualsIgnoreCase` | src/org/htmlcleaner/CleanerProperties.java:387-389 | `equalsIgnoreCase` holds exactly when the lower-case forms are equal, in both directions |
| `Text.EqualsIgnoreCaseLiteral` | src/org/htmlcleaner/CleanerProperties.java:387-389 | against a lower-case literal, `equalsIgnoreCase` holds exactly when the other string lower-cases to that literal |
| `Tokenizer.TokenLength` | src/org/htmlcleaner/CleanerProperties.java:357-358 | a token runs up to, and not including, the first comma |
| `Tokenizer.Tokens` | src/org/htmlcleaner/CleanerProperties.java:357-358 | every token the tokenizer hands out is non-empty and holds no comma |
| `Tokenizer.TokenLengthUnique` | src/org/htmlcleaner/CleanerProperties.java:357-358 | the end of the first token is determined by the comma-free prefix and the comma after it |
| `Tokenizer.TokensOfField` | src/org/htmlcleaner/CleanerProperties.java:357-358 | a non-empty, comma-free list is one token |
| `Tokenizer.TokensSplit` | src/org/htmlcleaner/CleanerProperties.java:357-358 | a comma splits the token stream: the tokens of `a,b` are the tokens of `a` followed by those of `b` |
| `Tokenizer.TokensOfJoin` | src/org/htmlcleaner/CleanerProperties.java:357-358 | round trip: joining non-empty, comma-free fields with commas and tokenizing gives back exactly those fields |
| `Tokenizer.HandOutStep` | src/org/htmlcleaner/CleanerProperties.java:357-358 | handing out one token and skipping the commas after it leaves exactly the rest of the token stream |
| `Tokenizer.SkipDelimiters` | src/org/htmlcleaner/CleanerProperties.java:357 | finds the first non-comma at or after a position, skipping only commas and losing no token |
| `Tokenizer.ScanToken` | src/org/htmlcleaner/CleanerProperties.java:358 | finds the end of the token that starts at a position: it is the next token, and the rest of the stream follows it |
| `Conditions.ConditionSet.constructor` | src/org/htmlcleaner/CleanerProperties.java:110-114 | a new condition set is empty |
| `Conditions.ConditionSet.Add` | src/org/htmlcleaner/CleanerProperties.java:330 | `add` makes the set the old set plus the element; adding a present element changes nothing |
| `Conditions.ConditionSet.Clear` | src/org/htmlcleaner/CleanerProperties.java:347 | `clear` empties the set in place |
| `Conditions.NameCondition` | src/org/htmlcleaner/CleanerProperties.java:359 | the name made from a token is never longer than the token, holds no upper-case letter, and is empty exactly when the token is all blanks |
| `Conditions.ConditionsOfSnoc` | src/org/htmlcleaner/CleanerProperties.java:358-359 | handing out one more token adds exactly its trimmed, lower-cased name condition |
| `Conditions.ConditionsOfMembers` | src/org/htmlcleaner/CleanerProperties.java:357-360 | a condition is produced exactly when it is the name condition of one of the tokens, in both directions |
| `Conditions.ConditionsOfWitness` | src/org/htmlcleaner/CleanerProperties.java:357-360 | every produced condition comes from some token |
| `Conditions.ConditionsOfContains` | src/org/htmlcleaner/CleanerProperties.java:357-360 | every token's name condition is produced |
| `Conditions.NameConditionsAreNames` | src/org/htmlcleaner/CleanerProperties.java:355-362 | a tag list only yields name conditions, never the auto-generated one |
| `Conditions.NameConditionsMembers` | src/org/htmlcleaner/CleanerProperties.java:355-362 | a list yields a condition exactly when some token, trimmed and lower-cased, names it |
| `Transformations.CleanerTransformations.constructor` | src/org/htmlcleaner/CleanerProperties.java:103 | a new transformation table holds no rule |
| `Transformations.CleanerTransformations.Clear` | src/org/htmlcleaner/CleanerProperties.java:448 | clearing empties the same table object |
| `Audit.DeliveriesAt` | src/org/htmlcleaner/CleanerProperties.java:485-489 | fan-out makes exactly one call per list entry, duplicates included; the i-th call goes to the i-th entry with the unchanged event |
| `Audit.DeliveriesOfDuplicate` | src/org/htmlcleaner/CleanerProperties.java:480-482 | a listener registered twice is called twice |
| `Audit.CallLog.constructor` | src/org/htmlcleaner/CleanerProperties.java:485-489 | no listener has been called yet |
| `Audit.CallLog.Deliver` | src/org/htmlcleaner/CleanerProperties.java:487 | one listener call is appended to the log of calls |
| `Properties.BooleanAttributeValueCanonical` | src/org/htmlcleaner/CleanerProperties.java:386-394 | the stored rendering is always one of `self`, `empty` and `true`, and setting it to its own value keeps it |
| `Properties.LowerIsLiteral` | src/org/htmlcleaner/CleanerProperties.java:59-61 | the three accepted renderings are written in lower case |
| `Properties.CleanerProperties.constructor` | src/org/htmlcleaner/CleanerProperties.java:117-119 | a new configuration satisfies the invariant and has every default, the default tag-info provider included, with fresh condition sets and table |
| `Properties.CleanerProperties.WithTagInfoProvider` | src/org/htmlcleaner/CleanerProperties.java:124-127 | every default, then the given tag-info provider |
| `Properties.CleanerProperties.Reset` | src/org/htmlcleaner/CleanerProperties.java:423-452 | afterwards every option is at its documented default and the invariant holds: the prune set is exactly the auto-generated condition, the allow set is empty, no listener is registered, and the same table object is kept but emptied |
| `Properties.CleanerProperties.ResetOptions` | src/org/htmlcleaner/CleanerProperties.java:424-443 | the first twenty assignments of `reset` put every switch, every optional-output directive and the hyphen replacement at their defaults, and change no other field |
| `Properties.CleanerProperties.ResetSwitches` | src/org/htmlcleaner/CleanerProperties.java:424-432 | the escaping, unknown-tag, deprecated-tag and comment switches are at their defaults |
| `Properties.CleanerProperties.ResetOutputAndMarkup` | src/org/htmlcleaner/CleanerProperties.java:433-443 | the three directives are `alwaysOutput`, the markup and whitespace switches are at their defaults, and the hyphen replacement is `=` |
| `Properties.CleanerProperties.ResetTagLists` | src/org/htmlcleaner/CleanerProperties.java:444-445 | with no lists, the raw lists are null, the prune set holds only the auto-generated condition and the allow set is empty |
| `Properties.CleanerProperties.ResetRenderingAndCharset` | src/org/htmlcleaner/CleanerProperties.java:446-447 | the rendering is `self` and the charset is `UTF-8` |
| `Properties.CleanerProperties.ResetProviderAndListeners` | src/org/htmlcleaner/CleanerProperties.java:450-451 | the default provider is installed and the listener list is empty |
| `Properties.CleanerProperties.SetTagInfoProvider` | src/org/htmlcleaner/CleanerProperties.java:132-134 | only the provider field changes, to the argument |
| `Properties.CleanerProperties.SetAdvancedXmlEscape` | src/org/htmlcleaner/CleanerProperties.java:144-146 | only this switch changes, to the argument |
| `Properties.CleanerProperties.SetUseCdataForScriptAndStyle` | src/org/htmlcleaner/CleanerProperties.java:152-154 | only this switch changes, to the argument |
| `Properties.CleanerProperties.SetTranslateSpecialEntities` | src/org/htmlcleaner/CleanerProperties.java:164-166 | only this switch changes, to the argument |
| `Properties.CleanerProperties.SetRecognizeUnicodeChars` | src/org/htmlcleaner/CleanerProperties.java:172-174 | only this switch changes, to the argument |
| `Properties.CleanerProperties.SetOmitUnknownTags` | src/org/htmlcleaner/CleanerProperties.java:180-182 | only this switch changes, to the argument |
| `Properties.CleanerProperties.SetTreatUnknownTagsAsContent` | src/org/htmlcleaner/CleanerProperties.java:188-190 | only this switch changes, to the argument |
| `Properties.CleanerProperties.SetOmitDeprecatedTags` | src/org/htmlcleaner/CleanerProperties.java:196-198 | only this switch changes, to the argument |
| `Properties.CleanerProperties.SetTreatDeprecatedTagsAsContent` | src/org/htmlcleaner/CleanerProperties.java:204-206 | only this switch changes, to the argument |
| `Properties.CleanerProperties.SetOmitComments` | src/org/htmlcleaner/CleanerProperties.java:212-214 | only this switch changes, to the argument |
| `Properties.CleanerProperties.IsOmitXmlDeclaration` | src/org/htmlcleaner/CleanerProperties.java:216-218 | the XML declaration is reported omitted exactly when its directive is not `alwaysOutput` |
| `Properties.CleanerProperties.SetOmitXmlDeclaration` | src/org/htmlcleaner/CleanerProperties.java:216-222 | stores `omit` or `alwaysOutput`, and the XML-declaration getter then reports exactly the argument; nothing else changes |
| `Properties.CleanerProperties.IsOmitDoctypeDeclaration` | src/org/htmlcleaner/CleanerProperties.java:228-230 | the doctype is reported omitted whenever the envelope is omitted; otherwise exactly when its own directive is `omit` |
| `Properties.CleanerProperties.SetOmitDoctypeDeclaration` | src/org/htmlcleaner/CleanerProperties.java:232-234 | stores the doctype's own directive; the getter then reports the argument or an omitted envelope |
| `Properties.CleanerProperties.IsOmitHtmlEnvelope` | src/org/htmlcleaner/CleanerProperties.java:236-238 | the envelope is reported omitted exactly when its directive is not `alwaysOutput` |
| `Properties.CleanerProperties.SetOmitHtmlEnvelope` | src/org/htmlcleaner/CleanerProperties.java:236-242 | stores the envelope directive and leaves the doctype directive alone; an omitted envelope makes the doctype omitted, otherwise the doctype's own directive decides again |
| `Properties.CleanerProperties.SetUseEmptyElementTags` | src/org/htmlcleaner/CleanerProperties.java:248-250 | only this switch changes, to the argument |
| `Properties.CleanerProperties.SetAllowMultiWordAttributes` | src/org/htmlcleaner/CleanerProperties.java:256-258 | only this switch changes, to the argument |
| `Properties.CleanerProperties.SetAllowHtmlInsideAttributes` | src/org/htmlcleaner/CleanerProperties.java:264-266 | only this switch changes, to the argument |
| `Properties.CleanerProperties.SetIgnoreQuestAndExclam` | src/org/htmlcleaner/CleanerProperties.java:272-274 | only this switch changes, to the argument |
| `Properties.CleanerProperties.SetNamespacesAware` | src/org/htmlcleaner/CleanerProperties.java:280-282 | only this switch changes, to the argument |
| `Properties.CleanerProperties.SetAddNewlineToHeadAndBody` | src/org/htmlcleaner/CleanerProperties.java:288-290 | only this switch changes, to the argument |
| `Properties.CleanerProperties.SetKeepWhitespaceAndCommentsInHead` | src/org/htmlcleaner/CleanerProperties.java:296-298 | only this switch changes, to the argument |
| `Properties.CleanerProperties.SetHyphenReplacementInComment` | src/org/htmlcleaner/CleanerProperties.java:304-306 | only this field changes, to the argument, null included |
| `Properties.CleanerProperties.SetPruneTags` | src/org/htmlcleaner/CleanerProperties.java:318-322 | stores the raw list and makes the prune set exactly the auto-generated condition plus the list's name conditions; earlier contents, one-by-one additions included, are discarded; the allow set is unchanged; the invariant is preserved |
| `Properties.CleanerProperties.AddPruneTagNodeCondition` | src/org/htmlcleaner/CleanerProperties.java:329-331 | the prune set becomes the old set plus the condition; the raw list, the allow set and every other field are unchanged; the invariant is preserved |
| `Properties.CleanerProperties.SetAllowTags` | src/org/htmlcleaner/CleanerProperties.java:341-344 | stores the raw list and makes the allow set exactly the list's name conditions, empty for null; it holds only name conditions; the prune set is unchanged; the invariant is preserved |
| `Properties.CleanerProperties.SetAllowTagSet` | src/org/htmlcleaner/CleanerProperties.java:346-349 | the allow set is rebuilt from the list alone |
| `Properties.CleanerProperties.AddTagNameConditions` | src/org/htmlcleaner/CleanerProperties.java:355-362 | the tokenizer loop adds exactly the name condition of every token to the given set and nothing else; null adds nothing |
| `Properties.CleanerProperties.ResetPruneTagSet` | src/org/htmlcleaner/CleanerProperties.java:454-457 | the prune set is exactly the auto-generated condition |
| `Properties.CleanerProperties.SetCharset` | src/org/htmlcleaner/CleanerProperties.java:371-373 | only the charset changes, to the argument, null included |
| `Properties.CleanerProperties.SetBooleanAttributeValues` | src/org/htmlcleaner/CleanerProperties.java:386-394 | the three case-insensitive tests select the argument's lower-case form when it matches a literal, otherwise `self`; the stored value is always one of the three literals; the invariant is preserved |
| `Properties.CleanerProperties.SetCleanerTransformations` | src/org/htmlcleaner/CleanerProperties.java:466-472 | null empties the held table and keeps the same object; any other table replaces the reference, with neither the new table's rules nor the previously held table touched; the held table is never null; the invariant is preserved |
| `Properties.CleanerProperties.AddHtmlModificationListener` | src/org/htmlcleaner/CleanerProperties.java:480-482 | the listener is appended to the end of the list; duplicates are kept; the invariant is preserved |
| `Properties.CleanerProperties.Broadcast` | src/org/htmlcleaner/CleanerProperties.java:486-488 | the loop delivers the event to every registered listener in list order and changes only the call log |
| `Properties.CleanerProperties.FireConditionModification` | src/org/htmlcleaner/CleanerProperties.java:485-489 | one condition-modification call per registered listener, in order, with the same arguments |
| `Properties.CleanerProperties.FireHtmlError` | src/org/htmlcleaner/CleanerProperties.java:492-497 | one html-error call per registered listener, in order, with the same arguments |
| `Properties.CleanerProperties.FireUglyHtml` | src/org/htmlcleaner/CleanerProperties.java:500-504 | one ugly-html call per registered listener, in order, with the same arguments |
| `Properties.CleanerProperties.FireUserDefinedModification` | src/org/htmlcleaner/CleanerProperties.java:507-511 | one user-defined-modification call per registered listener, in order, with the same arguments |
| `Scenarios.MixedListTokens` | src/org/htmlcleaner/CleanerProperties.java:357-358 | `"DIV, Span , p"` has the tokens `"DIV"`, `" Span "`, `" p"` |
| `Scenarios.PaddedFieldName` | src/org/htmlcleaner/CleanerProperties.java:359 | `" Span "` becomes the name `span` |
| `Scenarios.PlainFieldNames` | src/org/htmlcleaner/CleanerProperties.java:359 | `"DIV"` becomes the name `div` and `" p"` the name `p` |
| `Scenarios.ConditionsOfThree` | src/org/htmlcleaner/CleanerProperties.java:357-360 | three tokens yield exactly their three name conditions |
| `Scenarios.MixedListNames` | src/org/htmlcleaner/CleanerProperties.java:357-360 | the three tokens yield `div`, `span` and `p` |
| `Scenarios.MixedListConditions` | src/org/htmlcleaner/CleanerProperties.java:355-362 | `"DIV, Span , p"` stands for exactly `div`, `span` and `p` |
| `Scenarios.BlankFieldTokens` | src/org/htmlcleaner/CleanerProperties.java:357-358 | in `",, ,div,"` the empty fields vanish and the single blank is a token |
| `Scenarios.BlankFieldNames` | src/org/htmlcleaner/CleanerProperties.java:357-359 | the blank token `" "` becomes the empty name, and `"div"` the name `div` |
| `Scenarios.BlankFieldConditions` | src/org/htmlcleaner/CleanerProperties.java:355-362 | `",, ,div,"` stands for the empty name and `div` |
| `Scenarios.ConditionsOfOne` | src/org/htmlcleaner/CleanerProperties.java:357-360 | one token yields exactly its name condition |
| `Scenarios.CapitalisedName` | src/org/htmlcleaner/CleanerProperties.java:359 | `"Script"` becomes the name `script` |
| `Scenarios.SingleNameConditions` | src/org/htmlcleaner/CleanerProperties.java:355-362 | `"Script"` stands for exactly `script` |
| `Scenarios.RenderingExamples` | src/org/htmlcleaner/CleanerProperties.java:386-394 | `"EMPTY"` selects `empty`; `"bogus"` and null select `self` |
| `Scenarios.AllowTagsAreNormalised` | src/org/htmlcleaner/CleanerProperties.java:341-362 | setting the allow list `"DIV, Span , p"` on a new configuration gives the allow set {`div`, `span`, `p`} and keeps the raw list |
| `Scenarios.BlankTokenIsKept` | src/org/htmlcleaner/CleanerProperties.java:318-322 | the prune list `",, ,div,"` prunes the auto-generated condition, the empty name and `div` |
| `Scenarios.PruneTagsReplaceEverything` | src/org/htmlcleaner/CleanerProperties.java:318-331 | a condition added one by one and an earlier list are both gone after the prune list is set again |
| `Scenarios.DuplicateConditionIsIgnored` | src/org/htmlcleaner/CleanerProperties.java:329-331 | adding the same condition twice leaves the prune set's size unchanged |
| `Scenarios.BooleanAttributeRenderings` | src/org/htmlcleaner/CleanerProperties.java:386-394 | setting `"EMPTY"`, `"bogus"` and null stores `empty`, `self` and `self` |
| `Scenarios.EnvelopeDominatesDoctype` | src/org/htmlcleaner/CleanerProperties.java:228-242 | with the envelope omitted the doctype is omitted although its own directive is `alwaysOutput`; with the envelope back it is not |
| `Scenarios.TransformationsAreNeverNull` | src/org/htmlcleaner/CleanerProperties.java:466-472 | clearing through the setter keeps and empties the held table; a non-null table is held as passed |
| `Scenarios.FanOutFollowsRegistration` | src/org/htmlcleaner/CleanerProperties.java:480-497 | listeners 1, 2, 1 receive the event in exactly that order, the duplicate twice |
| `Scenarios.ResetRestoresDefaults` | src/org/htmlcleaner/CleanerProperties.java:423-457 | after changes, a reset leaves the prune set exactly the auto-generated condition, the allow set empty, the rendering `self` and no listener |

## Left out

- **Unicode.** `Text.Lower`, `Text.LowerChar` and `Text.EqualsIgnoreCase` cover only the ASCII letters. Java's `toLowerCase` and `equalsIgnoreCase` use the full Unicode case mapping, and `toLowerCase` also depends on the default locale. `trim()` is modelled exactly: it strips characters up to U+0020.
- Properties.BooleanAttributeValueCanonical: holds for the ASCII case mapping of the model. Under Java's full Unicode mapping it can fail. For example, U+017F (long s) equals `s` ignoring case, so `"ſelf"` passes the test, and `toLowerCase` leaves it unchanged. The stored value would then not be one of the three literals. The model does not capture this.
- **Listener behaviour.** Listeners are opaque identities, and each call they receive is appended to a `CallLog`. The model does not cover what a listener does when called, a listener that throws (which stops the fan-out), or a listener that registers another listener during a fan-out (a concurrent modification in Java).
- **Condition matching.** The model does not cover how `TagNodeNameCondition` and `TagNodeAutoGeneratedCondition` match tag nodes. Set membership uses structural equality of the `Condition` datatype, which is what their `equals` is meant to give. Conditions of other kinds are `Other(id)`.
- **`CleanerTransformations` and `ITagInfoProvider`.** Their code is not part of this model. The table is a set of opaque rules that can be cleared in place. `Transformations.CleanerTransformations.AddTransformation` is there only so that the examples can fill a table. The provider is an opaque value.
- **Getters.** The plain getters (`isAdvancedXmlEscape`, `getPruneTags`, `getCharset`, ...) are direct reads of the corresponding fields. `isOmitXmlDeclaration` and `isOmitHtmlEnvelope` are the predicates of the same names.
- **Mutation through the returned sets.** `getPruneTagSet` and `getAllowTagSet` return the live sets, and in the model `pruneTagSet` and `allowTagSet` are public fields whose `Add` and `Clear` anyone may call. A caller can therefore clear the prune set and remove the auto-generated condition, in the model as in the code. This is why `Valid()` is not a class invariant: each operation of the configuration states only that it preserves `Valid()` when it held before, and the constructors and `Reset` re-establish it.
- **`OptionalOutput`.** The enum's declaration is not part of this model. The class assigns only `alwaysOutput` and `omit`, and the model's `OptionalOutput` has exactly these two values. The contracts of `IsOmitXmlDeclaration` and `IsOmitHtmlEnvelope` rely on that.
- **`reset` is split into helpers.** `Properties.CleanerProperties.Reset` performs the source's assignments in the source's order. The twenty plain assignments at its start are grouped into `ResetOptions` (through `ResetSwitches` and `ResetOutputAndMarkup`), the two tag-list calls into `ResetTagLists`, and the later pairs of assignments into `ResetRenderingAndCharset` and `ResetProviderAndListeners`. This keeps each proof small. No step is reordered.
- **The listener interface.** `CleanerProperties` itself implements `HtmlModificationListener`. The model gives it the four `fire*` methods, but it cannot be registered as a listener of another configuration.
