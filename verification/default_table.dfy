/**
 * The hard-coded machine of the exam assignment: three weighted wheels of
 * twenty symbols, a spin price of five credits and twelve payout rules.
 */
module DefaultTable {
  import opened SlotTypes
  import opened RuleMatching

  /** The symbols of the three default wheels, wheel by wheel. */
  const DEFAULT_WHEEL_SYMBOLS: seq<seq<Symbol>> := [
    [Plum, Bar, Bar, Bar, Lemon, Lemon, Bell, Apple, Apple, Apple, Apple,
     Apple, Apple, Orange, Orange, Orange, Orange, Orange, Cherry, Cherry],
    [Plum, Bar, Bar, Lemon, Lemon, Bell, Bell, Bell, Bell, Bell, Apple, Apple,
     Orange, Orange, Orange, Cherry, Cherry, Cherry, Cherry, Cherry],
    [Plum, Bar, Lemon, Lemon, Bell, Bell, Bell, Bell, Bell, Bell, Bell,
     Bell, Apple, Apple, Orange, Orange, Grape, Grape, Grape, Grape]
  ]

  /** The credit price of one spin of the default machine. */
  const DEFAULT_SPIN_CREDIT_PRICE := 5

  /** The paying combinations of the default machine, in table order. */
  const DEFAULT_COMBINATIONS: seq<Combination> := [
    [Sym(Cherry), Wildcard, Wildcard],
    [Sym(Cherry), Sym(Cherry), Wildcard],
    [Sym(Orange), Sym(Orange), Sym(Bar)],
    [Sym(Orange), Sym(Orange), Sym(Orange)],
    [Sym(Apple), Sym(Apple), Sym(Bar)],
    [Sym(Apple), Sym(Apple), Sym(Apple)],
    [Sym(Bell), Sym(Bell), Sym(Bar)],
    [Sym(Bell), Sym(Bell), Sym(Bell)],
    [Sym(Lemon), Sym(Lemon), Sym(Bar)],
    [Sym(Lemon), Sym(Lemon), Sym(Lemon)],
    [Sym(Bar), Sym(Bar), Sym(Bar)],
    [Sym(Plum), Sym(Plum), Sym(Plum)]
  ]

  /** What each default combination pays, in the same order. */
  const DEFAULT_PRICES: seq<int> := [2, 5, 10, 10, 14, 14, 18, 18, 50, 50, 50, 100]

  /** The default rule at position k of the table. */
  function DefaultRule(k: int): (r: Rule)
    requires 0 <= k < |DEFAULT_PRICES|
  {
    Rule(DEFAULT_COMBINATIONS[k], DEFAULT_PRICES[k])
  }

  /** The default rule table. */
  const DEFAULT_RULES: seq<Rule> :=
    seq(|DEFAULT_PRICES|, k requires 0 <= k < |DEFAULT_PRICES| => DefaultRule(k))

  /** How often x occurs in s. */
  function Count(s: seq<Symbol>, x: Symbol): (n: nat)
  {
    if s == [] then 0 else (if s[0] == x then 1 else 0) + Count(s[1..], x)
  }

  /** A symbol occurring nowhere in s has count zero, and conversely. */
  lemma {:induction false} CountZero(s: seq<Symbol>, x: Symbol)
    ensures Count(s, x) == 0 <==> forall j :: 0 <= j < |s| ==> s[j] != x
  {
    if s != [] {
      CountZero(s[1..], x);
      assert forall j :: 0 < j < |s| ==> s[j] == s[1..][j - 1];
    }
  }

  /** A sequence that starts with x and has no other x holds x exactly once. */
  lemma OnlyFirstCounted(s: seq<Symbol>, x: Symbol)
    requires s != [] && s[0] == x
    requires forall j :: 0 < j < |s| ==> s[j] != x
    ensures Count(s, x) == 1
  {
    CountZero(s[1..], x);
  }

  /** On every default wheel, Plum is the symbol at index 0 and at no other. */
  lemma DefaultPlumOnlyAtZero()
    ensures forall i, j :: 0 <= i < MAX_WHEELS && 0 <= j < MAX_SYMBOLS ==>
      (DEFAULT_WHEEL_SYMBOLS[i][j] == Plum <==> j == 0)
  {
  }

  /** Every default wheel holds exactly one Plum. */
  lemma DefaultWheelsHaveOnePlum()
    ensures forall i :: 0 <= i < MAX_WHEELS ==> Count(DEFAULT_WHEEL_SYMBOLS[i], Plum) == 1
  {
    DefaultPlumOnlyAtZero();
    forall i | 0 <= i < MAX_WHEELS
      ensures Count(DEFAULT_WHEEL_SYMBOLS[i], Plum) == 1
    {
      OnlyFirstCounted(DEFAULT_WHEEL_SYMBOLS[i], Plum);
    }
  }

  /** The default table has three wheels of MAX_SYMBOLS symbols each. */
  lemma DefaultWheelsShape()
    ensures |DEFAULT_WHEEL_SYMBOLS| == MAX_WHEELS
    ensures forall i :: 0 <= i < MAX_WHEELS ==> |DEFAULT_WHEEL_SYMBOLS[i]| == MAX_SYMBOLS
  {
  }

  /** Each entry is at most every later one. */
  predicate NonDecreasing(s: seq<int>)
  {
    forall k, l :: 0 <= k <= l < |s| ==> s[k] <= s[l]
  }

  /** The prices of a rule table, in table order. */
  function Prices(rules: seq<Rule>): (ps: seq<int>)
  {
    seq(|rules|, k requires 0 <= k < |rules| => rules[k].price)
  }

  /**
   * Twelve rules, paying 2, 5, 10, 10, 14, 14, 18, 18, 50, 50, 50 and 100
   * credits, at a spin price of 5.
   */
  lemma DefaultRulesShape()
    ensures |DEFAULT_RULES| == 12
    ensures Prices(DEFAULT_RULES) == [2, 5, 10, 10, 14, 14, 18, 18, 50, 50, 50, 100]
    ensures DEFAULT_SPIN_CREDIT_PRICE == 5
  {
  }

  /** Later rules of the default table never pay less than earlier ones. */
  lemma DefaultPricesNonDecreasing()
    ensures NonDecreasing(Prices(DEFAULT_RULES))
  {
  }

  /**
   * The largest payout, 100, belongs to Plum, Plum, Plum alone, and the
   * smallest, 2, to a single Cherry on the first wheel alone.
   */
  lemma DefaultExtremePrices()
    ensures DEFAULT_RULES[11] == Rule([Sym(Plum), Sym(Plum), Sym(Plum)], 100)
    ensures forall k :: 0 <= k < 11 ==> DEFAULT_RULES[k].price < 100
    ensures DEFAULT_RULES[0] == Rule([Sym(Cherry), Wildcard, Wildcard], 2)
    ensures forall k :: 0 < k < 12 ==> DEFAULT_RULES[k].price > 2
  {
  }

  /**
   * The wildcard occurs only in the first two rules: in positions 1 and 2
   * of rule 0, and in position 2 of rule 1.
   */
  lemma DefaultWildcards()
    ensures forall k, p :: 0 <= k < |DEFAULT_RULES| && 0 <= p < MAX_WHEELS ==>
      (DEFAULT_RULES[k].symbols[p] == Wildcard <==> (k == 0 && p > 0) || (k == 1 && p == 2))
  {
  }

  /** Three Plums match the 100-credit rule, and no other outcome does. */
  lemma DefaultJackpotOutcome(outcome: seq<Symbol>)
    requires |outcome| == MAX_WHEELS
    ensures Matches(DEFAULT_RULES[11], outcome) <==> outcome == [Plum, Plum, Plum]
  {
  }

  /**
   * Rules overlap: three Cherries match rule 0 and rule 1 and no other,
   * and the table itself sets no precedence between them.
   */
  lemma DefaultRulesOverlap()
    ensures forall k :: 0 <= k < |DEFAULT_RULES| ==>
      (Matches(DEFAULT_RULES[k], [Cherry, Cherry, Cherry]) <==> k == 0 || k == 1)
  {
    var cherries := [Cherry, Cherry, Cherry];
    forall k | 1 < k < |DEFAULT_RULES|
      ensures !Matches(DEFAULT_RULES[k], cherries)
    {
      assert !Accepts(DEFAULT_RULES[k].symbols[0], cherries[0]);
    }
  }
}
