/** Worked examples of the configuration: each method builds a fresh
    configuration, drives it through the public operations and states the
    exact outcome the documented behaviour promises. */
module Scenarios {
  import opened Nullable
  import opened Text
  import opened Tokenizer
  import opened Conditions
  import opened Transformations
  import opened Audit
  import opened Properties

  /** The tokens of a mixed-case list with blanks around its fields. */
  lemma MixedListTokens()
    ensures Tokens("DIV, Span , p") == ["DIV", " Span ", " p"]
  {
    assert "DIV, Span , p" == Join(["DIV", " Span ", " p"]);
    TokensOfJoin(["DIV", " Span ", " p"]);
  }

  /** The padded field is trimmed on both sides, then lower-cased. */
  lemma PaddedFieldName()
    ensures NameCondition(" Span ") == Name("span")
  {
    assert LeadingBlanks(" Span ") == 1;
    assert TrailingEnd(" Span ") == 5;
    assert " Span "[1..5] == "Span";
  }

  /** The other two fields of the mixed-case list. */
  lemma PlainFieldNames()
    ensures NameCondition("DIV") == Name("div")
    ensures NameCondition(" p") == Name("p")
  {
  }

  /** Three tokens stand for their three name conditions. */
  lemma ConditionsOfThree(a: string, b: string, c: string)
    ensures ConditionsOf([a, b, c]) == {NameCondition(a), NameCondition(b), NameCondition(c)}
  {
    ConditionsOfSnoc([a, b], c);
    ConditionsOfSnoc([a], b);
    ConditionsOfSnoc([], a);
    assert [a, b] + [c] == [a, b, c];
    assert [a] + [b] == [a, b];
    assert [] + [a] == [a];
  }

  /** The names the tokens of the mixed-case list stand for. */
  lemma MixedListNames()
    ensures ConditionsOf(["DIV", " Span ", " p"]) == {Name("div"), Name("span"), Name("p")}
  {
    PaddedFieldName();
    PlainFieldNames();
    ConditionsOfThree("DIV", " Span ", " p");
  }

  /** What the mixed-case list stands for: three lower-case names. */
  lemma MixedListConditions()
    ensures NameConditions(NonNull("DIV, Span , p")) == {Name("div"), Name("span"), Name("p")}
  {
    MixedListTokens();
    MixedListNames();
  }

  /** Empty fields vanish; a field of one blank is a token. */
  lemma BlankFieldTokens()
    ensures Tokens(",, ,div,") == [" ", "div"]
  {
    var fields := [DELIMITER] + [DELIMITER] + " ,div";
    assert ",, ,div," == fields + [DELIMITER] + [];
    TokensSplit(fields, []);
    assert " ,div" == Join([" ", "div"]);
    TokensOfJoin([" ", "div"]);
    assert fields[1..] == [DELIMITER] + " ,div";
    assert fields[1..][1..] == " ,div";
  }

  /** A field of one blank trims to the empty name. */
  lemma BlankFieldNames()
    ensures NameCondition(" ") == Name("")
    ensures NameCondition("div") == Name("div")
  {
  }

  /** The list with empty and blank fields stands for the empty name and one
      real name. */
  lemma BlankFieldConditions()
    ensures NameConditions(NonNull(",, ,div,")) == {Name(""), Name("div")}
  {
    BlankFieldTokens();
    BlankFieldNames();
    ConditionsOfSnoc([" "], "div");
    ConditionsOfSnoc([], " ");
  }

  /** One token stands for its name condition. */
  lemma ConditionsOfOne(a: string)
    ensures ConditionsOf([a]) == {NameCondition(a)}
  {
    ConditionsOfSnoc([], a);
    assert [] + [a] == [a];
  }

  /** A capitalised name is lower-cased. */
  lemma CapitalisedName()
    ensures NameCondition("Script") == Name("script")
  {
    assert Trim("Script") == "Script";
    assert Lower("Script") == "script";
  }

  /** A single capitalised name. */
  lemma SingleNameConditions()
    ensures NameConditions(NonNull("Script")) == {Name("script")}
  {
    TokensOfField("Script");
    ConditionsOfOne("Script");
    CapitalisedName();
  }

  /** The three renderings the examples select. */
  lemma RenderingExamples()
    ensures BooleanAttributeValue(NonNull("EMPTY")) == "empty"
    ensures BooleanAttributeValue(NonNull("bogus")) == "self"
    ensures BooleanAttributeValue(Null) == "self"
  {
    assert Lower("EMPTY") == "empty";
  }

  /** Tag names are split on commas, trimmed and lower-cased. */
  method AllowTagsAreNormalised() returns (allowed: set<Condition>, raw: Nullable<string>)
    ensures allowed == {Name("div"), Name("span"), Name("p")}
    ensures raw == NonNull("DIV, Span , p")
  {
    var p := new CleanerProperties();
    p.SetAllowTags(NonNull("DIV, Span , p"));
    MixedListConditions();
    allowed := p.allowTagSet.elems;
    raw := p.allowTags;
  }

  /** A field of blanks is still a token: it becomes the empty name, while
      empty fields between commas yield nothing. */
  method BlankTokenIsKept() returns (pruned: set<Condition>)
    ensures pruned == {AutoGenerated, Name(""), Name("div")}
  {
    var p := new CleanerProperties();
    p.SetPruneTags(NonNull(",, ,div,"));
    BlankFieldConditions();
    pruned := p.pruneTagSet.elems;
  }

  /** Setting the prune list discards every condition added before it, one
      by one or from an earlier list; the auto-generated condition survives. */
  method PruneTagsReplaceEverything() returns (pruned: set<Condition>)
    ensures pruned == {AutoGenerated, Name("script")}
  {
    var p := new CleanerProperties();
    p.AddPruneTagNodeCondition(Other(7));
    p.SetPruneTags(NonNull("style"));
    p.SetPruneTags(NonNull("Script"));
    SingleNameConditions();
    pruned := p.pruneTagSet.elems;
  }

  /** Adding a condition that is already there changes nothing. */
  method DuplicateConditionIsIgnored() returns (before: nat, after: nat)
    ensures before == after == 2
  {
    var p := new CleanerProperties();
    p.AddPruneTagNodeCondition(Other(1));
    before := |p.pruneTagSet.elems|;
    p.AddPruneTagNodeCondition(Other(1));
    after := |p.pruneTagSet.elems|;
  }

  /** The three accepted renderings in any case are lower-cased; anything
      else, null included, falls back to "self". */
  method BooleanAttributeRenderings() returns (upper: string, bogus: string, absent: string)
    ensures upper == "empty" && bogus == "self" && absent == "self"
  {
    RenderingExamples();
    var p := new CleanerProperties();
    p.SetBooleanAttributeValues(NonNull("EMPTY"));
    upper := p.booleanAttributeValues;
    p.SetBooleanAttributeValues(NonNull("bogus"));
    bogus := p.booleanAttributeValues;
    p.SetBooleanAttributeValues(Null);
    absent := p.booleanAttributeValues;
  }

  /** Omitting the envelope omits the doctype whatever its own directive;
      that directive is kept and applies again once the envelope is back. */
  method EnvelopeDominatesDoctype() returns (whileOmitted: bool, storedDoctype: OptionalOutput, afterwards: bool)
    ensures whileOmitted && storedDoctype == AlwaysOutput && !afterwards
  {
    var p := new CleanerProperties();
    p.SetOmitDoctypeDeclaration(false);
    p.SetOmitHtmlEnvelope(true);
    whileOmitted := p.IsOmitDoctypeDeclaration();
    storedDoctype := p.omitDoctypeDeclaration;
    p.SetOmitHtmlEnvelope(false);
    afterwards := p.IsOmitDoctypeDeclaration();
  }

  /** Clearing through the setter keeps the table object and empties it;
      a table passed in is held as it is. */
  method TransformationsAreNeverNull() returns (sameTable: bool, emptied: bool, replaced: bool)
    ensures sameTable && emptied && replaced
  {
    var p := new CleanerProperties();
    var held := p.cleanerTransformations;
    held.AddTransformation(Rule(3));
    p.SetCleanerTransformations(null);
    sameTable := p.cleanerTransformations == held;
    emptied := p.cleanerTransformations.rules == {};
    var other := new CleanerTransformations();
    other.AddTransformation(Rule(4));
    p.SetCleanerTransformations(other);
    replaced := p.cleanerTransformations == other && other.rules == {Rule(4)};
  }

  /** Every registration receives the event once, in registration order. */
  method FanOutFollowsRegistration() returns (calls: seq<Delivery>)
    ensures var e := HtmlError(true, TagNodeRef(0), ErrorType(2));
            calls == [Delivery(ListenerId(1), e), Delivery(ListenerId(2), e), Delivery(ListenerId(1), e)]
  {
    var p := new CleanerProperties();
    p.AddHtmlModificationListener(ListenerId(1));
    p.AddHtmlModificationListener(ListenerId(2));
    p.AddHtmlModificationListener(ListenerId(1));
    var log := new CallLog();
    p.FireHtmlError(true, TagNodeRef(0), ErrorType(2), log);
    calls := log.calls;
    DeliveriesAt(p.htmlModificationListeners, HtmlError(true, TagNodeRef(0), ErrorType(2)));
  }

  /** A reset after changes brings back every default, and the condition
      sets and transformation table are still the same objects. */
  method ResetRestoresDefaults() returns (pruned: set<Condition>, allowed: set<Condition>, rendering: string, listeners: nat)
    ensures pruned == {AutoGenerated} && allowed == {} && rendering == "self" && listeners == 0
  {
    var p := new CleanerProperties();
    p.AddPruneTagNodeCondition(Other(1));
    p.SetAllowTags(Null);
    p.SetBooleanAttributeValues(NonNull("true"));
    p.AddHtmlModificationListener(ListenerId(5));
    p.Reset();
    pruned := p.pruneTagSet.elems;
    allowed := p.allowTagSet.elems;
    rendering := p.booleanAttributeValues;
    listeners := |p.htmlModificationListeners|;
  }
}
