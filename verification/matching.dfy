/**
 * When a rule pays. The source has no matching code: its only statement of
 * the meaning of a rule is that -1 in a combination is a wildcard that
 * "connects with everything". Matches below is derived from that comment
 * and from the default rule table, not from code.
 */
module RuleMatching {
  import opened SlotTypes

  /** One combination position accepts a symbol a wheel shows. */
  predicate Accepts(r: RuleSym, s: Symbol)
  {
    r == Wildcard || r == Sym(s)
  }

  /** A rule matches the symbols the wheels show, one per wheel. */
  predicate Matches(rule: Rule, outcome: seq<Symbol>)
    requires |outcome| == MAX_WHEELS
  {
    forall p :: 0 <= p < MAX_WHEELS ==> Accepts(rule.symbols[p], outcome[p])
  }

  /** The combination that names exactly the given symbols. */
  function Exactly(outcome: seq<Symbol>): (c: Combination)
    requires |outcome| == MAX_WHEELS
  {
    [Sym(outcome[0]), Sym(outcome[1]), Sym(outcome[2])]
  }

  /** A rule without wildcards. */
  predicate WildcardFree(rule: Rule)
  {
    forall p :: 0 <= p < MAX_WHEELS ==> rule.symbols[p] != Wildcard
  }

  /** A rule whose combination names the shown symbols matches them. */
  lemma ExactCombinationMatches(rule: Rule, outcome: seq<Symbol>)
    requires |outcome| == MAX_WHEELS
    requires rule.symbols == Exactly(outcome)
    ensures Matches(rule, outcome)
  {
  }

  /**
   * A rule without wildcards matches one outcome and no other: the one its
   * combination names.
   */
  lemma WildcardFreeMatchesOnlyItself(rule: Rule, outcome: seq<Symbol>)
    requires |outcome| == MAX_WHEELS
    requires WildcardFree(rule)
    ensures Matches(rule, outcome) <==> rule.symbols == Exactly(outcome)
  {
  }

  /**
   * Changing the shown symbol at a concrete (non-wildcard) position of a
   * matching rule makes the rule fail.
   */
  lemma ConcreteMismatchFails(rule: Rule, outcome: seq<Symbol>, p: int, s: Symbol)
    requires |outcome| == MAX_WHEELS && 0 <= p < MAX_WHEELS
    requires Matches(rule, outcome)
    requires rule.symbols[p] != Wildcard && s != outcome[p]
    ensures !Matches(rule, outcome[p := s])
  {
  }

  /** The symbol shown under a wildcard position never decides a match. */
  lemma WildcardPositionIrrelevant(rule: Rule, outcome: seq<Symbol>, p: int, s: Symbol)
    requires |outcome| == MAX_WHEELS && 0 <= p < MAX_WHEELS
    requires rule.symbols[p] == Wildcard
    ensures Matches(rule, outcome[p := s]) <==> Matches(rule, outcome)
  {
  }
}
