/** The cleaner's transformation table (`CleanerTransformations`). Its rules
    and how they rewrite tags are not part of this model: the table is a set of
    opaque rule identifiers that can be added to and cleared in place. */
module Transformations {

  /** An opaque tag or attribute transformation rule. */
  datatype Rule = Rule(id: nat)

  class CleanerTransformations {
    var rules: set<Rule>

    constructor ()
      ensures rules == {}
    {
      rules := {};
    }

    /** Registers one more rule. */
    method AddTransformation(r: Rule)
      modifies this
      ensures rules == old(rules) + {r}
    {
      rules := rules + {r};
    }

    /** Drops every rule, keeping the table object itself. */
    method Clear()
      modifies this
      ensures rules == {}
    {
      rules := {};
    }
  }
}
