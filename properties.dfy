/** `CleanerProperties`: the mutable configuration record of the cleaner.
    Most options are plain fields with a setter; the logic lives in `Reset`,
    the tag-list setters that rebuild the prune and allow condition sets, the
    canonicalising boolean-attribute setter, the derived doctype getter, the
    null-safe transformations setter and the listener fan-out. */
module Properties {
  import opened Nullable
  import opened Text
  import opened Tokenizer
  import opened Conditions
  import opened Transformations
  import opened Audit

  const DEFAULT_CHARSET: string := "UTF-8"
  const BOOL_ATT_SELF: string := "self"
  const BOOL_ATT_EMPTY: string := "empty"
  const BOOL_ATT_TRUE: string := "true"

  /** The three renderings of boolean attributes the setter accepts. */
  const BOOLEAN_ATTRIBUTE_VALUES: set<string> := {BOOL_ATT_SELF, BOOL_ATT_EMPTY, BOOL_ATT_TRUE}

  /** Whether an optional part of the output is written or left out. */
  datatype OptionalOutput = AlwaysOutput | Omit

  /** An `ITagInfoProvider`: the built-in default one or another the caller supplies. */
  datatype TagInfoProvider = DefaultTagProvider | CustomTagProvider(id: nat)

  /** The boolean-attribute rendering that a setter argument selects: its
      lower-case form when that is one of the three accepted renderings,
      otherwise (null included) `"self"`. */
  function BooleanAttributeValue(requested: Nullable<string>): string {
    if requested.NonNull? && Lower(requested.value) in BOOLEAN_ATTRIBUTE_VALUES
    then Lower(requested.value)
    else BOOL_ATT_SELF
  }

  /** The selected rendering is always one of the accepted three, and
      selecting a rendering that is already canonical keeps it. */
  lemma BooleanAttributeValueCanonical(requested: Nullable<string>)
    ensures BooleanAttributeValue(requested) in BOOLEAN_ATTRIBUTE_VALUES
    ensures BooleanAttributeValue(NonNull(BooleanAttributeValue(requested))) == BooleanAttributeValue(requested)
  {
    var v := BooleanAttributeValue(requested);
    LowerIsLiteral(v);
  }

  /** Each accepted rendering is written in lower case. */
  lemma LowerIsLiteral(v: string)
    requires v in BOOLEAN_ATTRIBUTE_VALUES
    ensures Lower(v) == v
    ensures forall i :: 0 <= i < |v| ==> !IsUpper(v[i])
  {
    assert forall i :: 0 <= i < |v| ==> !IsUpper(v[i]);
    LowerOfLowerCase(v);
  }

  class CleanerProperties {
    var tagInfoProvider: Nullable<TagInfoProvider>
    var advancedXmlEscape: bool
    var useCdataForScriptAndStyle: bool
    var translateSpecialEntities: bool
    var recognizeUnicodeChars: bool
    var omitUnknownTags: bool
    var treatUnknownTagsAsContent: bool
    var omitDeprecatedTags: bool
    var omitComments: bool
    var treatDeprecatedTagsAsContent: bool
    var omitXmlDeclaration: OptionalOutput
    var omitDoctypeDeclaration: OptionalOutput
    var omitHtmlEnvelope: OptionalOutput
    var useEmptyElementTags: bool
    var allowMultiWordAttributes: bool
    var booleanAttributeValues: string
    var ignoreQuestAndExclam: bool
    var allowHtmlInsideAttributes: bool
    var namespacesAware: bool
    var addNewlineToHeadAndBody: bool
    var keepWhitespaceAndCommentsInHead: bool
    var hyphenReplacementInComment: Nullable<string>
    /** The raw comma-separated list of pruned tags. */
    var pruneTags: Nullable<string>
    /** The raw comma-separated list of allowed tags. */
    var allowTags: Nullable<string>
    var cleanerTransformations: CleanerTransformations
    var htmlModificationListeners: seq<ListenerId>
    /** The blacklist; the same set object for the whole life of the configuration. */
    const pruneTagSet: ConditionSet
    /** The whitelist; the same set object for the whole life of the configuration. */
    const allowTagSet: ConditionSet
    var charset: Nullable<string>

    /** The configuration's invariant: two separate condition sets, the
        auto-generated condition pruned, and a canonical boolean-attribute
        rendering. The constructors and `Reset` establish it and the other
        operations preserve it; a caller that clears `pruneTagSet` directly
        breaks it, so it is not required of every operation. */
    ghost predicate Valid()
      reads this, pruneTagSet
    {
      pruneTagSet != allowTagSet &&
      AutoGenerated in pruneTagSet.elems &&
      booleanAttributeValues in BOOLEAN_ATTRIBUTE_VALUES
    }

    /** Every option at its documented default, except the tag-info provider. */
    ghost predicate HasDefaultOptions()
      reads this, pruneTagSet, allowTagSet, cleanerTransformations
    {
      advancedXmlEscape && useCdataForScriptAndStyle && translateSpecialEntities &&
      recognizeUnicodeChars && !omitUnknownTags && !treatUnknownTagsAsContent &&
      !omitDeprecatedTags && !treatDeprecatedTagsAsContent && !omitComments &&
      omitXmlDeclaration == AlwaysOutput && omitDoctypeDeclaration == AlwaysOutput &&
      omitHtmlEnvelope == AlwaysOutput &&
      useEmptyElementTags && allowMultiWordAttributes && !allowHtmlInsideAttributes &&
      !ignoreQuestAndExclam && namespacesAware && addNewlineToHeadAndBody &&
      keepWhitespaceAndCommentsInHead &&
      hyphenReplacementInComment == NonNull("=") &&
      pruneTags == Null && allowTags == Null &&
      booleanAttributeValues == BOOL_ATT_SELF && charset == NonNull(DEFAULT_CHARSET) &&
      cleanerTransformations.rules == {} &&
      pruneTagSet.elems == {AutoGenerated} && allowTagSet.elems == {} &&
      htmlModificationListeners == []
    }

    /** Every option at its documented default. */
    ghost predicate HasDefaults()
      reads this, pruneTagSet, allowTagSet, cleanerTransformations
    {
      HasDefaultOptions() && tagInfoProvider == NonNull(DefaultTagProvider)
    }

    constructor ()
      ensures Valid() && HasDefaults()
      ensures fresh(pruneTagSet) && fresh(allowTagSet) && fresh(cleanerTransformations)
    {
      pruneTagSet := new ConditionSet();
      allowTagSet := new ConditionSet();
      cleanerTransformations := new CleanerTransformations();
      new;
      Reset();
    }

    /** The defaults, then the given tag-info provider. */
    constructor WithTagInfoProvider(tagInfoProvider: Nullable<TagInfoProvider>)
      ensures Valid() && HasDefaultOptions()
      ensures this.tagInfoProvider == tagInfoProvider
      ensures fresh(pruneTagSet) && fresh(allowTagSet) && fresh(cleanerTransformations)
    {
      pruneTagSet := new ConditionSet();
      allowTagSet := new ConditionSet();
      cleanerTransformations := new CleanerTransformations();
      new;
      Reset();
      this.tagInfoProvider := tagInfoProvider;
    }

    /** Puts every option back to its default, in the order of the source. The
        transformation table is cleared in place (the same object is kept);
        the listener list starts afresh. */
    method Reset()
      requires pruneTagSet != allowTagSet
      modifies this, pruneTagSet, allowTagSet, cleanerTransformations
      ensures Valid() && HasDefaults()
      ensures cleanerTransformations == old(cleanerTransformations)
    {
      var table := cleanerTransformations;
      ResetOptions();
      ResetTagLists();
      ResetRenderingAndCharset();
      table.Clear();
      ResetPruneTagSet();
      ResetProviderAndListeners();
    }

    /** The first twenty assignments of `reset`: every boolean switch, the
        optional-output directives and the comment hyphen replacement. */
    method ResetOptions()
      modifies this`advancedXmlEscape, this`useCdataForScriptAndStyle,
               this`translateSpecialEntities, this`recognizeUnicodeChars,
               this`omitUnknownTags, this`treatUnknownTagsAsContent, this`omitDeprecatedTags,
               this`treatDeprecatedTagsAsContent, this`omitComments,
               this`omitXmlDeclaration, this`omitDoctypeDeclaration, this`omitHtmlEnvelope,
               this`useEmptyElementTags, this`allowMultiWordAttributes, this`allowHtmlInsideAttributes,
               this`ignoreQuestAndExclam, this`namespacesAware, this`addNewlineToHeadAndBody,
               this`keepWhitespaceAndCommentsInHead, this`hyphenReplacementInComment
      ensures advancedXmlEscape && useCdataForScriptAndStyle && translateSpecialEntities &&
              recognizeUnicodeChars && !omitUnknownTags && !treatUnknownTagsAsContent &&
              !omitDeprecatedTags && !treatDeprecatedTagsAsContent && !omitComments &&
      omitXmlDeclaration == AlwaysOutput && omitDoctypeDeclaration == AlwaysOutput &&
              omitHtmlEnvelope == AlwaysOutput &&
              useEmptyElementTags && allowMultiWordAttributes && !allowHtmlInsideAttributes &&
              !ignoreQuestAndExclam && namespacesAware && addNewlineToHeadAndBody &&
              keepWhitespaceAndCommentsInHead && hyphenReplacementInComment == NonNull("=")
    {
      ResetSwitches();
      ResetOutputAndMarkup();
    }

    /** The first nine assignments of `reset`: escaping, unknown and
        deprecated tags, comments. */
    method ResetSwitches()
      modifies this`advancedXmlEscape, this`useCdataForScriptAndStyle,
               this`translateSpecialEntities, this`recognizeUnicodeChars,
               this`omitUnknownTags, this`treatUnknownTagsAsContent, this`omitDeprecatedTags,
               this`treatDeprecatedTagsAsContent, this`omitComments
      ensures advancedXmlEscape && useCdataForScriptAndStyle && translateSpecialEntities &&
              recognizeUnicodeChars && !omitUnknownTags && !treatUnknownTagsAsContent &&
              !omitDeprecatedTags && !treatDeprecatedTagsAsContent && !omitComments
    {
      advancedXmlEscape := true;
      useCdataForScriptAndStyle := true;
      translateSpecialEntities := true;
      recognizeUnicodeChars := true;
      omitUnknownTags := false;
      treatUnknownTagsAsContent := false;
      omitDeprecatedTags := false;
      treatDeprecatedTagsAsContent := false;
      omitComments := false;
    }

    /** The next assignments of `reset`: the optional-output directives, the
        markup and whitespace switches and the comment hyphen replacement. */
    method ResetOutputAndMarkup()
      modifies this`omitXmlDeclaration, this`omitDoctypeDeclaration, this`omitHtmlEnvelope,
               this`useEmptyElementTags, this`allowMultiWordAttributes, this`allowHtmlInsideAttributes,
               this`ignoreQuestAndExclam, this`namespacesAware, this`addNewlineToHeadAndBody,
               this`keepWhitespaceAndCommentsInHead, this`hyphenReplacementInComment
      ensures omitXmlDeclaration == AlwaysOutput && omitDoctypeDeclaration == AlwaysOutput &&
              omitHtmlEnvelope == AlwaysOutput &&
              useEmptyElementTags && allowMultiWordAttributes && !allowHtmlInsideAttributes &&
              !ignoreQuestAndExclam && namespacesAware && addNewlineToHeadAndBody &&
              keepWhitespaceAndCommentsInHead && hyphenReplacementInComment == NonNull("=")
    {
      omitXmlDeclaration := AlwaysOutput;
      omitDoctypeDeclaration := AlwaysOutput;
      omitHtmlEnvelope := AlwaysOutput;
      useEmptyElementTags := true;
      allowMultiWordAttributes := true;
      allowHtmlInsideAttributes := false;
      ignoreQuestAndExclam := false;
      namespacesAware := true;
      addNewlineToHeadAndBody := true;
      keepWhitespaceAndCommentsInHead := true;
      hyphenReplacementInComment := NonNull("=");
    }

    /** The two tag-list calls of `reset`: no list, so the prune set holds
        only the auto-generated condition and the allow set is empty. */
    method ResetTagLists()
      requires pruneTagSet != allowTagSet
      modifies this`pruneTags, this`allowTags, pruneTagSet, allowTagSet
      ensures pruneTags == Null && allowTags == Null
      ensures pruneTagSet.elems == {AutoGenerated} && allowTagSet.elems == {}
    {
      SetPruneTags(Null);
      SetAllowTags(Null);
    }

    /** The boolean-attribute rendering and the charset of `reset`. */
    method ResetRenderingAndCharset()
      modifies this`booleanAttributeValues, this`charset
      ensures booleanAttributeValues == BOOL_ATT_SELF && charset == NonNull(DEFAULT_CHARSET)
    {
      booleanAttributeValues := BOOL_ATT_SELF;
      charset := NonNull(DEFAULT_CHARSET);
    }

    /** The last two assignments of `reset`. */
    method ResetProviderAndListeners()
      modifies this`tagInfoProvider, this`htmlModificationListeners
      ensures tagInfoProvider == NonNull(DefaultTagProvider) && htmlModificationListeners == []
    {
      tagInfoProvider := NonNull(DefaultTagProvider);
      htmlModificationListeners := [];
    }

    /** Package-private in the source. */
    method SetTagInfoProvider(tagInfoProvider: Nullable<TagInfoProvider>)
      modifies this`tagInfoProvider
      ensures this.tagInfoProvider == tagInfoProvider
    {
      this.tagInfoProvider := tagInfoProvider;
    }

    method SetAdvancedXmlEscape(advancedXmlEscape: bool)
      modifies this`advancedXmlEscape
      ensures this.advancedXmlEscape == advancedXmlEscape
    {
      this.advancedXmlEscape := advancedXmlEscape;
    }

    method SetUseCdataForScriptAndStyle(useCdataForScriptAndStyle: bool)
      modifies this`useCdataForScriptAndStyle
      ensures this.useCdataForScriptAndStyle == useCdataForScriptAndStyle
    {
      this.useCdataForScriptAndStyle := useCdataForScriptAndStyle;
    }

    method SetTranslateSpecialEntities(translateSpecialEntities: bool)
      modifies this`translateSpecialEntities
      ensures this.translateSpecialEntities == translateSpecialEntities
    {
      this.translateSpecialEntities := translateSpecialEntities;
    }

    method SetRecognizeUnicodeChars(recognizeUnicodeChars: bool)
      modifies this`recognizeUnicodeChars
      ensures this.recognizeUnicodeChars == recognizeUnicodeChars
    {
      this.recognizeUnicodeChars := recognizeUnicodeChars;
    }

    method SetOmitUnknownTags(omitUnknownTags: bool)
      modifies this`omitUnknownTags
      ensures this.omitUnknownTags == omitUnknownTags
    {
      this.omitUnknownTags := omitUnknownTags;
    }

    method SetTreatUnknownTagsAsContent(treatUnknownTagsAsContent: bool)
      modifies this`treatUnknownTagsAsContent
      ensures this.treatUnknownTagsAsContent == treatUnknownTagsAsContent
    {
      this.treatUnknownTagsAsContent := treatUnknownTagsAsContent;
    }

    method SetOmitDeprecatedTags(omitDeprecatedTags: bool)
      modifies this`omitDeprecatedTags
      ensures this.omitDeprecatedTags == omitDeprecatedTags
    {
      this.omitDeprecatedTags := omitDeprecatedTags;
    }

    method SetTreatDeprecatedTagsAsContent(treatDeprecatedTagsAsContent: bool)
      modifies this`treatDeprecatedTagsAsContent
      ensures this.treatDeprecatedTagsAsContent == treatDeprecatedTagsAsContent
    {
      this.treatDeprecatedTagsAsContent := treatDeprecatedTagsAsContent;
    }

    method SetOmitComments(omitComments: bool)
      modifies this`omitComments
      ensures this.omitComments == omitComments
    {
      this.omitComments := omitComments;
    }

    /** Only the `omit` directive leaves the XML declaration out. */
    predicate IsOmitXmlDeclaration(): (omitted: bool)
      reads this
      ensures omitted <==> omitXmlDeclaration != AlwaysOutput
    {
      omitXmlDeclaration == Omit
    }

    method SetOmitXmlDeclaration(omit: bool)
      modifies this`omitXmlDeclaration
      ensures omitXmlDeclaration == (if omit then Omit else AlwaysOutput)
      ensures IsOmitXmlDeclaration() == omit
    {
      omitXmlDeclaration := if omit then Omit else AlwaysOutput;
    }

    /** Only the `omit` directive leaves the html envelope out. */
    predicate IsOmitHtmlEnvelope(): (omitted: bool)
      reads this
      ensures omitted <==> omitHtmlEnvelope != AlwaysOutput
    {
      omitHtmlEnvelope == Omit
    }

    /** The doctype is reported as omitted when its own directive says so or
        when the whole html envelope is omitted: omitting the envelope always
        wins. */
    function IsOmitDoctypeDeclaration(): (omitted: bool)
      reads this
      ensures IsOmitHtmlEnvelope() ==> omitted
      ensures !IsOmitHtmlEnvelope() ==> (omitted <==> omitDoctypeDeclaration == Omit)
    {
      omitDoctypeDeclaration == Omit || IsOmitHtmlEnvelope()
    }

    /** Stores the doctype's own directive; the envelope directive still
        decides what the getter reports when it is `Omit`. */
    method SetOmitDoctypeDeclaration(omit: bool)
      modifies this`omitDoctypeDeclaration
      ensures omitDoctypeDeclaration == (if omit then Omit else AlwaysOutput)
      ensures IsOmitDoctypeDeclaration() == (omit || IsOmitHtmlEnvelope())
    {
      omitDoctypeDeclaration := if omit then Omit else AlwaysOutput;
    }

    /** Stores the envelope directive; the stored doctype directive is left
        as it was. */
    method SetOmitHtmlEnvelope(omit: bool)
      modifies this`omitHtmlEnvelope
      ensures omitHtmlEnvelope == (if omit then Omit else AlwaysOutput)
      ensures IsOmitHtmlEnvelope() == omit
      ensures omit ==> IsOmitDoctypeDeclaration()
      ensures !omit ==> IsOmitDoctypeDeclaration() == (omitDoctypeDeclaration == Omit)
    {
      omitHtmlEnvelope := if omit then Omit else AlwaysOutput;
    }

    method SetUseEmptyElementTags(useEmptyElementTags: bool)
      modifies this`useEmptyElementTags
      ensures this.useEmptyElementTags == useEmptyElementTags
    {
      this.useEmptyElementTags := useEmptyElementTags;
    }

    method SetAllowMultiWordAttributes(allowMultiWordAttributes: bool)
      modifies this`allowMultiWordAttributes
      ensures this.allowMultiWordAttributes == allowMultiWordAttributes
    {
      this.allowMultiWordAttributes := allowMultiWordAttributes;
    }

    method SetAllowHtmlInsideAttributes(allowHtmlInsideAttributes: bool)
      modifies this`allowHtmlInsideAttributes
      ensures this.allowHtmlInsideAttributes == allowHtmlInsideAttributes
    {
      this.allowHtmlInsideAttributes := allowHtmlInsideAttributes;
    }

    method SetIgnoreQuestAndExclam(ignoreQuestAndExclam: bool)
      modifies this`ignoreQuestAndExclam
      ensures this.ignoreQuestAndExclam == ignoreQuestAndExclam
    {
      this.ignoreQuestAndExclam := ignoreQuestAndExclam;
    }

    method SetNamespacesAware(namespacesAware: bool)
      modifies this`namespacesAware
      ensures this.namespacesAware == namespacesAware
    {
      this.namespacesAware := namespacesAware;
    }

    method SetAddNewlineToHeadAndBody(addNewlineToHeadAndBody: bool)
      modifies this`addNewlineToHeadAndBody
      ensures this.addNewlineToHeadAndBody == addNewlineToHeadAndBody
    {
      this.addNewlineToHeadAndBody := addNewlineToHeadAndBody;
    }

    method SetKeepWhitespaceAndCommentsInHead(keepHeadWhitespace: bool)
      modifies this`keepWhitespaceAndCommentsInHead
      ensures keepWhitespaceAndCommentsInHead == keepHeadWhitespace
    {
      keepWhitespaceAndCommentsInHead := keepHeadWhitespace;
    }

    method SetHyphenReplacementInComment(hyphenReplacementInComment: Nullable<string>)
      modifies this`hyphenReplacementInComment
      ensures this.hyphenReplacementInComment == hyphenReplacementInComment
    {
      this.hyphenReplacementInComment := hyphenReplacementInComment;
    }

    /** Stores the raw list, then rebuilds the prune set from it alone:
        whatever the set held before, conditions added one by one included,
        is gone, and the auto-generated condition is back. */
    method SetPruneTags(pruneTags: Nullable<string>)
      requires pruneTagSet != allowTagSet
      modifies this`pruneTags, pruneTagSet
      ensures this.pruneTags == pruneTags
      ensures pruneTagSet.elems == {AutoGenerated} + NameConditions(pruneTags)
      ensures old(Valid()) ==> Valid()
      ensures allowTagSet.elems == old(allowTagSet.elems)
    {
      this.pruneTags := pruneTags;
      ResetPruneTagSet();
      AddTagNameConditions(pruneTagSet, pruneTags);
    }

    /** Adds one condition to the prune set; the raw list is not touched. */
    method AddPruneTagNodeCondition(condition: Condition)
      requires pruneTagSet != allowTagSet
      modifies pruneTagSet
      ensures pruneTagSet.elems == old(pruneTagSet.elems) + {condition}
      ensures old(Valid()) ==> Valid()
      ensures allowTagSet.elems == old(allowTagSet.elems)
    {
      pruneTagSet.Add(condition);
    }

    /** Stores the raw list, then rebuilds the allow set from it alone. The
        allow set never holds anything but name conditions. */
    method SetAllowTags(allowTags: Nullable<string>)
      requires pruneTagSet != allowTagSet
      modifies this`allowTags, allowTagSet
      ensures this.allowTags == allowTags
      ensures allowTagSet.elems == NameConditions(allowTags)
      ensures forall c :: c in allowTagSet.elems ==> c.Name?
      ensures old(Valid()) ==> Valid()
      ensures pruneTagSet.elems == old(pruneTagSet.elems)
    {
      this.allowTags := allowTags;
      SetAllowTagSet(allowTags);
      forall c | c in allowTagSet.elems
        ensures c.Name?
      {
        NameConditionsAreNames(allowTags, c);
      }
    }

    method SetAllowTagSet(allowTags: Nullable<string>)
      modifies allowTagSet
      ensures allowTagSet.elems == NameConditions(allowTags)
    {
      allowTagSet.Clear();
      AddTagNameConditions(allowTagSet, allowTags);
    }

    /** Adds to `tagSet` the name condition of every token of the list, one
        token at a time as the tokenizer hands them out. */
    method AddTagNameConditions(tagSet: ConditionSet, tagsNameStr: Nullable<string>)
      modifies tagSet
      ensures tagSet.elems == old(tagSet.elems) + NameConditions(tagsNameStr)
    {
      if tagsNameStr.NonNull? {
        var s := tagsNameStr.value;
        ghost var initial := tagSet.elems;
        var next := SkipDelimiters(s, 0);
        ghost var handedOut: seq<string> := [];
        assert s[0..] == s;
        while next < |s|
          invariant next <= |s|
          invariant next < |s| ==> s[next] != DELIMITER
          invariant Tokens(s) == handedOut + Tokens(s[next..])
          invariant tagSet.elems == initial + ConditionsOf(handedOut)
          decreases |s| - next
        {
          var start := next;
          var end := ScanToken(s, start);
          var token := s[start..end];
          tagSet.Add(NameCondition(token));
          next := SkipDelimiters(s, end);
          HandOutStep(s, handedOut, start, end, next);
          ConditionsOfSnoc(handedOut, token);
          handedOut := handedOut + [token];
        }
        assert Tokens(s[next..]) == [];
        assert handedOut == Tokens(s);
      }
    }

    method ResetPruneTagSet()
      modifies pruneTagSet
      ensures pruneTagSet.elems == {AutoGenerated}
    {
      pruneTagSet.Clear();
      pruneTagSet.Add(AutoGenerated);
    }

    method SetCharset(charset: Nullable<string>)
      modifies this`charset
      ensures this.charset == charset
    {
      this.charset := charset;
    }

    /** Accepts `"self"`, `"empty"` or `"true"` in any case and stores it in
        lower case; anything else, null included, stores `"self"`. */
    method SetBooleanAttributeValues(booleanAttributeValues: Nullable<string>)
      modifies this`booleanAttributeValues
      ensures this.booleanAttributeValues == BooleanAttributeValue(booleanAttributeValues)
      ensures this.booleanAttributeValues in BOOLEAN_ATTRIBUTE_VALUES
      ensures old(Valid()) ==> Valid()
    {
      if booleanAttributeValues.NonNull? &&
         (EqualsIgnoreCase(BOOL_ATT_SELF, booleanAttributeValues.value) ||
          EqualsIgnoreCase(BOOL_ATT_EMPTY, booleanAttributeValues.value) ||
          EqualsIgnoreCase(BOOL_ATT_TRUE, booleanAttributeValues.value))
      {
        this.booleanAttributeValues := Lower(booleanAttributeValues.value);
      } else {
        this.booleanAttributeValues := BOOL_ATT_SELF;
      }
      if booleanAttributeValues.NonNull? {
        var v := booleanAttributeValues.value;
        LowerIsLiteral(BOOL_ATT_SELF);
        LowerIsLiteral(BOOL_ATT_EMPTY);
        LowerIsLiteral(BOOL_ATT_TRUE);
        EqualsIgnoreCaseLiteral(BOOL_ATT_SELF, v);
        EqualsIgnoreCaseLiteral(BOOL_ATT_EMPTY, v);
        EqualsIgnoreCaseLiteral(BOOL_ATT_TRUE, v);
      }
    }

    /** A null table clears the one held (the held table is never null);
        any other table replaces it. */
    method SetCleanerTransformations(cleanerTransformations: CleanerTransformations?)
      modifies this`cleanerTransformations, this.cleanerTransformations
      ensures cleanerTransformations == null ==>
                this.cleanerTransformations == old(this.cleanerTransformations) &&
                this.cleanerTransformations.rules == {}
      ensures cleanerTransformations != null ==>
                this.cleanerTransformations == cleanerTransformations &&
                cleanerTransformations.rules == old(cleanerTransformations.rules) &&
                unchanged(old(this.cleanerTransformations))
      ensures old(Valid()) ==> Valid()
    {
      if cleanerTransformations == null {
        this.cleanerTransformations.Clear();
      } else {
        this.cleanerTransformations := cleanerTransformations;
      }
    }

    /** Registers a listener at the end of the list; registering the same
        listener again is allowed. */
    method AddHtmlModificationListener(listener: ListenerId)
      modifies this`htmlModificationListeners
      ensures htmlModificationListeners == old(htmlModificationListeners) + [listener]
      ensures old(Valid()) ==> Valid()
    {
      htmlModificationListeners := htmlModificationListeners + [listener];
    }

    /** Passes `event` to every registered listener in list order. Only the
        listeners' log changes; the configuration does not. */
    method Broadcast(event: Event, log: CallLog)
      modifies log
      ensures log.calls == old(log.calls) + Deliveries(htmlModificationListeners, event)
    {
      for i := 0 to |htmlModificationListeners|
        invariant log.calls == old(log.calls) + Deliveries(htmlModificationListeners[..i], event)
      {
        log.Deliver(htmlModificationListeners[i], event);
        assert htmlModificationListeners[..i + 1][..i] == htmlModificationListeners[..i];
      }
      assert htmlModificationListeners[..|htmlModificationListeners|] == htmlModificationListeners;
    }

    method FireConditionModification(condition: Condition, tagNode: TagNodeRef, log: CallLog)
      modifies log
      ensures log.calls == old(log.calls) + Deliveries(htmlModificationListeners, ConditionModification(condition, tagNode))
    {
      Broadcast(ConditionModification(condition, tagNode), log);
    }

    method FireHtmlError(certainty: bool, startTagToken: TagNodeRef, errorType: ErrorType, log: CallLog)
      modifies log
      ensures log.calls == old(log.calls) + Deliveries(htmlModificationListeners, HtmlError(certainty, startTagToken, errorType))
    {
      Broadcast(HtmlError(certainty, startTagToken, errorType), log);
    }

    method FireUglyHtml(certainty: bool, startTagToken: TagNodeRef, errorType: ErrorType, log: CallLog)
      modifies log
      ensures log.calls == old(log.calls) + Deliveries(htmlModificationListeners, UglyHtml(certainty, startTagToken, errorType))
    {
      Broadcast(UglyHtml(certainty, startTagToken, errorType), log);
    }

    method FireUserDefinedModification(certainty: bool, tagNode: TagNodeRef, errorType: ErrorType, log: CallLog)
      modifies log
      ensures log.calls == old(log.calls) + Deliveries(htmlModificationListeners, UserDefinedModification(certainty, tagNode, errorType))
    {
      Broadcast(UserDefinedModification(certainty, tagNode, errorType), log);
    }
  }
}
