/**
 * The data model of the slot machine header: its two size constants, the
 * symbol enumeration with its integer numbering, the wildcard used in rule
 * combinations, rules and the machine configuration.
 */
module SlotTypes {

  /** Number of wheels of a machine, and of symbols in a rule combination. */
  const MAX_WHEELS := 3
  /** Number of symbols printed on one wheel. */
  const MAX_SYMBOLS := 20
  /** Number of values of the symbol enumeration. */
  const SYMBOL_COUNT := 8
  /** The integer that stands for "any symbol" in a rule combination. */
  const WILDCARD_CODE := -1

  datatype Option<T> = None | Some(value: T)

  /** The icons a wheel can show, in declaration order. */
  datatype Symbol = Apple | Bar | Bell | Cherry | Grape | Lemon | Orange | Plum

  /** The integer an enumeration value has: its position in the declaration. */
  function Ordinal(s: Symbol): (n: int)
    ensures 0 <= n < SYMBOL_COUNT
  {
    match s
    case Apple => 0
    case Bar => 1
    case Bell => 2
    case Cherry => 3
    case Grape => 4
    case Lemon => 5
    case Orange => 6
    case Plum => 7
  }

  /** The enumeration value numbered n, if there is one. */
  function SymbolOf(n: int): (r: Option<Symbol>)
  {
    if n == 0 then Some(Apple)
    else if n == 1 then Some(Bar)
    else if n == 2 then Some(Bell)
    else if n == 3 then Some(Cherry)
    else if n == 4 then Some(Grape)
    else if n == 5 then Some(Lemon)
    else if n == 6 then Some(Orange)
    else if n == 7 then Some(Plum)
    else None
  }

  /** Every symbol is found again from its number. */
  lemma OrdinalRoundTrip(s: Symbol)
    ensures SymbolOf(Ordinal(s)) == Some(s)
  {
  }

  /**
   * The numbering is exactly 0 .. SYMBOL_COUNT - 1: every number in that
   * range names one symbol, which carries that number, and no other number
   * names a symbol.
   */
  lemma SymbolOfRoundTrip(n: int)
    ensures SymbolOf(n).Some? <==> 0 <= n < SYMBOL_COUNT
    ensures SymbolOf(n).Some? ==> Ordinal(SymbolOf(n).value) == n
  {
  }

  /** Distinct symbols have distinct numbers. */
  lemma OrdinalInjective(s: Symbol, t: Symbol)
    ensures Ordinal(s) == Ordinal(t) <==> s == t
  {
  }

  /**
   * One position of a rule combination: a concrete symbol, or the wildcard
   * that the source writes as -1 in a symbol array.
   */
  datatype RuleSym = Wildcard | Sym(symbol: Symbol)

  /** The integer stored for a combination position. */
  function Code(r: RuleSym): (n: int)
    ensures n == WILDCARD_CODE <==> r.Wildcard?
    ensures r.Sym? ==> 0 <= n < SYMBOL_COUNT
  {
    match r
    case Wildcard => WILDCARD_CODE
    case Sym(s) => Ordinal(s)
  }

  /** The combination position an integer stands for, if any. */
  function Decode(n: int): (r: Option<RuleSym>)
  {
    if n == WILDCARD_CODE then Some(Wildcard)
    else match SymbolOf(n)
      case Some(s) => Some(Sym(s))
      case None => None
  }

  /** Decoding the stored integer gives back the combination position. */
  lemma CodeRoundTrip(r: RuleSym)
    ensures Decode(Code(r)) == Some(r)
  {
  }

  /**
   * Exactly -1 and 0 .. SYMBOL_COUNT - 1 are meaningful in a combination,
   * and the position decoded from one of them is stored as that integer.
   */
  lemma DecodeRoundTrip(n: int)
    ensures Decode(n).Some? <==> n == WILDCARD_CODE || 0 <= n < SYMBOL_COUNT
    ensures Decode(n).Some? ==> Code(Decode(n).value) == n
  {
  }

  /** The symbols of a rule: exactly one per wheel. */
  type Combination = s: seq<RuleSym> | |s| == MAX_WHEELS witness [Wildcard, Wildcard, Wildcard]

  /** A payout rule: the combination that pays, and what it pays in credits. */
  datatype Rule = Rule(symbols: Combination, price: int)

  /** The machine settings kept by the model: the credit price of one spin. */
  datatype Config = Config(spinCreditPrice: int)
}
