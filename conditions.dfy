/** Tag-node conditions and the mutable sets of them that the configuration
    owns: the prune set (blacklist) and the allow set (whitelist). */
module Conditions {
  import opened Nullable
  import opened Text
  import opened Tokenizer

  /** An `ITagNodeCondition`. `AutoGenerated` is the singleton that matches
      nodes the cleaner synthesised; `Name(n)` matches tags named `n`;
      `Other(id)` is any other condition object a caller adds. Set membership
      is structural equality, as the `equals` of these conditions intends. */
  datatype Condition = AutoGenerated | Name(name: string) | Other(id: nat)

  /** A `java.util.HashSet<ITagNodeCondition>`, updated in place. */
  class ConditionSet {
    var elems: set<Condition>

    constructor ()
      ensures elems == {}
    {
      elems := {};
    }

    /** `Set.add`: adding an element already present changes nothing. */
    method Add(c: Condition)
      modifies this
      ensures elems == old(elems) + {c}
    {
      elems := elems + {c};
    }

    /** `Set.clear`. */
    method Clear()
      modifies this
      ensures elems == {}
    {
      elems := {};
    }
  }

  /** The name condition built for one token of a tag list: trimmed, then
      lower-cased. The name is never longer than the token, holds no
      upper-case letter, and is empty exactly when the token is all blanks. */
  function NameCondition(token: string): (c: Condition)
    ensures c.Name? && |c.name| <= |token|
    ensures forall i :: 0 <= i < |c.name| ==> !IsUpper(c.name[i])
    ensures c.name == [] <==> forall i :: 0 <= i < |token| ==> IsTrimmed(token[i])
  {
    Name(Lower(Trim(token)))
  }

  /** The name conditions for a sequence of tokens, added one after another. */
  function ConditionsOf(tokens: seq<string>): set<Condition> {
    if tokens == [] then {}
    else ConditionsOf(tokens[..|tokens| - 1]) + {NameCondition(tokens[|tokens| - 1])}
  }

  /** Handing out one more token adds its name condition. */
  lemma ConditionsOfSnoc(tokens: seq<string>, token: string)
    ensures ConditionsOf(tokens + [token]) == ConditionsOf(tokens) + {NameCondition(token)}
  {
    assert (tokens + [token])[..|tokens|] == tokens;
  }

  /** A condition is in `ConditionsOf(tokens)` exactly when it is the name
      condition of one of the tokens. */
  lemma {:induction false} ConditionsOfMembers(tokens: seq<string>, c: Condition)
    ensures c in ConditionsOf(tokens) <==> exists i :: 0 <= i < |tokens| && c == NameCondition(tokens[i])
  {
    if c in ConditionsOf(tokens) {
      var i := ConditionsOfWitness(tokens, c);
    }
    if exists i :: 0 <= i < |tokens| && c == NameCondition(tokens[i]) {
      var i :| 0 <= i < |tokens| && c == NameCondition(tokens[i]);
      ConditionsOfContains(tokens, i);
    }
  }

  /** A member of `ConditionsOf(tokens)` comes from some token. */
  lemma {:induction false} ConditionsOfWitness(tokens: seq<string>, c: Condition) returns (i: nat)
    requires c in ConditionsOf(tokens)
    ensures i < |tokens| && c == NameCondition(tokens[i])
  {
    var init := tokens[..|tokens| - 1];
    if c == NameCondition(tokens[|tokens| - 1]) {
      i := |tokens| - 1;
    } else {
      i := ConditionsOfWitness(init, c);
      assert init[i] == tokens[i];
    }
  }

  /** Every token contributes its name condition. */
  lemma {:induction false} ConditionsOfContains(tokens: seq<string>, i: nat)
    requires i < |tokens|
    ensures NameCondition(tokens[i]) in ConditionsOf(tokens)
  {
    var init := tokens[..|tokens| - 1];
    if i < |init| {
      ConditionsOfContains(init, i);
      assert init[i] == tokens[i];
    }
  }

  /** The conditions a comma-separated tag list stands for (none for null). */
  function NameConditions(list: Nullable<string>): set<Condition> {
    if list.Null? then {} else ConditionsOf(Tokens(list.value))
  }

  /** A tag list only ever yields name conditions: never the auto-generated
      condition, nor any other kind. */
  lemma NameConditionsAreNames(list: Nullable<string>, c: Condition)
    requires c in NameConditions(list)
    ensures c.Name?
  {
    if list.NonNull? {
      ConditionsOfMembers(Tokens(list.value), c);
    }
  }

  /** Exactly the tokens of the list, trimmed and lower-cased, become
      conditions. */
  lemma NameConditionsMembers(list: string, c: Condition)
    ensures c in NameConditions(NonNull(list)) <==> exists t :: t in Tokens(list) && c == NameCondition(t)
  {
    var tokens := Tokens(list);
    ConditionsOfMembers(tokens, c);
    if exists t :: t in tokens && c == NameCondition(t) {
      var t :| t in tokens && c == NameCondition(t);
      var i :| 0 <= i < |tokens| && tokens[i] == t;
    }
  }
}
