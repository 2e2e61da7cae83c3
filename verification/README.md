# Slot machine model

A Dafny model of the slot machine of an Arduino exam project. A machine has
three wheels of twenty symbols, a spin price in credits, and a table of
payout rules. In a rule combination, `-1` is a wildcard.

- `types.dfy`, module `SlotTypes`: the header's data model. It holds
  `MAX_WHEELS` = 3 and `MAX_SYMBOLS` = 20, and the symbol enumeration (Apple,
  Bar, Bell, Cherry, Grape, Lemon, Orange, Plum, numbered 0 to 7). A
  combination position is `RuleSym`, either `Wildcard` or `Sym(symbol)`.
  `Code`/`Decode` link it to the integers the source stores, with -1 for the
  wildcard. A `Rule` is a `Combination` of exactly `MAX_WHEELS` positions
  plus an integer price. `Config` holds the spin credit price.
- `slotmachine.dfy`, module `SlotMachine`: the operations.
  - `Wheel` is a class. Its `currentSymbol` index is updated in place, and
    its `symbols` array has `MAX_SYMBOLS` entries.
  - `Machine` is a class. It holds an array of `MAX_WHEELS` wheel
    references, the config, and an array of rules whose length is fixed on
    allocation. This models the trailing flexible array.
  - `CreateWheel`, `CreateRule` and `CreateMachine` copy their inputs with
    index loops, as the source does. `CreateConfig` builds the config
    value. `CreateDefaultMachine` wires up the hard-coded machine, and
    `CreateDefaultRules` builds its rule table.
    `Wheel.Spin` is spin_wheel.
- `default_table.dfy`, module `DefaultTable`: the constant tables of the
  default machine and the facts proved about them.
- `matching.dfy`, module `RuleMatching`: when a rule matches the symbols
  the wheels show. The source has no matching code. `Matches` is derived
  from the comment at `slotmachine.c:122-123` ("-1 is a wildcard (connects
  with everything)") and from the default table, not from code.
- `findings.dfy`, module `SpinFindings`: what the spin range implies (see
  Findings).
- `random.dfy`, module `Random`: stands in for `get_random_int` from
  `random.h`, which is not part of this model. It yields an arbitrary
  integer in the inclusive range it is given.

Two kinds of input become explicit parameters:

- Allocation failure: every allocating factory takes an `outOfMemory` flag.
  `CreateDefaultMachine` takes one flag per wheel and one for the machine.
- Randomness: `Random.RandomInt` chooses an arbitrary value in range.

Where the header and the code disagree, the model follows the code:

- The wheel comment says "10 symbols". The array length, `MAX_SYMBOLS` =
  20, is modelled.
- The conversion factor is a `float` in the header but an `int` parameter
  in the definition of `create_slotmachine_config`. It is left out (see
  below).

## Model

| member | source | states |
|---|---|---|
| `SlotTypes.Ordinal` | exam-project/arduino/sketch/slotmachine.h:14-24 | every symbol is numbered within 0 .. 7 |
| `SlotTypes.OrdinalRoundTrip` | exam-project/arduino/sketch/slotmachine.h:14-24 | a symbol is recovered from its number |
| `SlotTypes.SymbolOfRoundTrip` | exam-project/arduino/sketch/slotmachine.h:14-24 | the numbers naming a symbol are exactly 0 .. 7, and the symbol named by n is numbered n |
| `SlotTypes.OrdinalInjective` | exam-project/arduino/sketch/slotmachine.h:14-24 | two symbols share a number only if they are the same symbol |
| `SlotTypes.Code` | exam-project/arduino/sketch/slotmachine.c:121-126 | a combination position is stored as -1 exactly when it is the wildcard; a concrete symbol is stored as its number in 0 .. 7 |
| `SlotTypes.CodeRoundTrip` | exam-project/arduino/sketch/slotmachine.c:121-126 | decoding a stored position gives the position back, wildcard included |
| `SlotTypes.DecodeRoundTrip` | exam-project/arduino/sketch/slotmachine.c:121-126 | exactly -1 and 0 .. 7 are meaningful in a combination, and each decodes to a position that is stored as that same integer |
| `SlotMachine.Wheel.Allocate` | exam-project/arduino/sketch/slotmachine.c:52 | allocates a fresh wheel whose symbol storage is fresh and holds `MAX_SYMBOLS` entries |
| `SlotMachine.CreateWheel` | exam-project/arduino/sketch/slotmachine.c:49-71 | null exactly on allocation failure; otherwise a fresh wheel with fresh storage, index 0, and the first `MAX_SYMBOLS` input symbols in order |
| `SlotMachine.CreateRule` | exam-project/arduino/sketch/slotmachine.c:73-87 | the rule's price is the argument, and its combination is the first `MAX_WHEELS` input positions in order, wildcards kept |
| `SlotMachine.CreateConfig` | exam-project/arduino/sketch/slotmachine.c:38-47 | the config carries the given spin credit price |
| `SlotMachine.Machine.Allocate` | exam-project/arduino/sketch/slotmachine.c:12 | allocates a fresh machine with room for `MAX_WHEELS` wheel references and exactly `rulesSize` rules |
| `SlotMachine.CreateMachine` | exam-project/arduino/sketch/slotmachine.c:5-36 | null exactly on allocation failure, for any `rulesSize`; otherwise the config is stored unchanged, the wheel references are the input's first three (same objects), and the rules are the input's first `rulesSize` in order with their prices |
| `SlotMachine.CreateDefaultRules` | exam-project/arduino/sketch/slotmachine.c:121-154 | one `CreateRule` per default combination with its price gives exactly the default rule table, in table order |
| `SlotMachine.CreateDefaultMachine` | exam-project/arduino/sketch/slotmachine.c:89-160 | null exactly when the machine allocation fails. Otherwise: spin price 5; rules exactly the default table; wheel i null exactly when its allocation failed; the machine, its wheel array and its rule array fresh; every non-null wheel fresh with fresh symbol storage, distinct from the others, at index 0, holding default symbol row i |
| `SlotMachine.Wheel.Spin` | exam-project/arduino/sketch/slotmachine.c:169-173 | as written: the new index lies in 1 .. `MAX_SYMBOLS`, and the wheel's symbols are unchanged |
| `SlotMachine.Wheel.SpinCorrected` | exam-project/arduino/sketch/slotmachine.c:169-173 | corrected: the new index lies in 0 .. `MAX_SYMBOLS` - 1, the symbols are unchanged, and the wheel shows one of its own symbols |
| `Random.RandomInt` | exam-project/arduino/sketch/slotmachine.c:172 | the random source yields a value within the inclusive bounds requested |
| `RuleMatching.ExactCombinationMatches` | exam-project/arduino/sketch/slotmachine.c:121-123 | a rule whose combination names the shown symbols matches them |
| `RuleMatching.WildcardFreeMatchesOnlyItself` | exam-project/arduino/sketch/slotmachine.c:121-123 | a rule without wildcards matches an outcome if and only if its combination names that outcome |
| `RuleMatching.ConcreteMismatchFails` | exam-project/arduino/sketch/slotmachine.c:121-123 | in a matching outcome, changing the symbol under a non-wildcard position makes the rule fail |
| `RuleMatching.WildcardPositionIrrelevant` | exam-project/arduino/sketch/slotmachine.c:121-123 | the symbol under a wildcard position never changes whether the rule matches |
| `DefaultTable.DefaultWheelsShape` | exam-project/arduino/sketch/slotmachine.c:96-105 | the default table has `MAX_WHEELS` wheel rows of `MAX_SYMBOLS` symbols each |
| `DefaultTable.DefaultPlumOnlyAtZero` | exam-project/arduino/sketch/slotmachine.c:96-105 | on every default wheel, Plum is at index 0 and at no other index |
| `DefaultTable.DefaultWheelsHaveOnePlum` | exam-project/arduino/sketch/slotmachine.c:96-105 | every default wheel holds exactly one Plum |
| `DefaultTable.DefaultRulesShape` | exam-project/arduino/sketch/slotmachine.c:115-154 | twelve rules with prices 2, 5, 10, 10, 14, 14, 18, 18, 50, 50, 50, 100, at a spin price of 5 |
| `DefaultTable.DefaultPricesNonDecreasing` | exam-project/arduino/sketch/slotmachine.c:141-154 | no rule pays less than any rule before it in the table |
| `DefaultTable.DefaultExtremePrices` | exam-project/arduino/sketch/slotmachine.c:125-154 | the single maximum, 100, is Plum Plum Plum; the single minimum, 2, is Cherry on wheel one with wildcards after it |
| `DefaultTable.DefaultWildcards` | exam-project/arduino/sketch/slotmachine.c:125-138 | the wildcard occurs exactly at positions 1 and 2 of rule 0 and position 2 of rule 1 |
| `DefaultTable.DefaultJackpotOutcome` | exam-project/arduino/sketch/slotmachine.c:121-153 | the 100-credit rule matches an outcome if and only if it is three Plums |
| `DefaultTable.DefaultRulesOverlap` | exam-project/arduino/sketch/slotmachine.c:121-154 | three Cherries match rules 0 and 1 and no other, so rules overlap and the table sets no precedence |
| `SpinFindings.AsWrittenSpinCanLeaveWheel` | exam-project/arduino/sketch/slotmachine.c:172 | the largest as-written draw, `MAX_SYMBOLS`, names no symbol of a wheel |
| `SpinFindings.AsWrittenJackpotUnreachable` | exam-project/arduino/sketch/slotmachine.c:169-173 | with as-written draws on the default wheels, no outcome shown matches the 100-credit rule |
| `SpinFindings.CorrectedJackpotReachable` | exam-project/arduino/sketch/slotmachine.c:169-173 | with corrected draws, index 0 shows Plum on every default wheel and three Plums match the 100-credit rule |

## Left out

- `destroy_slotmachine` (slotmachine.c:162-167) is manual memory release, which has no counterpart in Dafny. As written, it frees `slotmachine->wheels`, an array embedded in the machine whose address is the machine's own. It then frees the machine a second time. No wheel is released, although the header (slotmachine.h:87-90) promises it.
- The USD-to-credit conversion factor is left out. It is a `float` in the struct and in the declaration, but an `int` in the definition. `STD_USD_CRED_CNV` is not part of this model. `Config` keeps only the spin credit price.
- `get_random_int` (`random.h`) is not part of this model. `Random.RandomInt` returns some value in the inclusive range and claims nothing about its distribution.
- Memory layout is not modelled: the `malloc` size arithmetic and the placement of the flexible array. What remains is that the rule array has exactly `rulesSize` entries.
- Integer widths: `int` and `size_t` are unbounded integers here. The one computation that can wrap is the allocation size at slotmachine.c:12, `sizeof(slotmachine_t) + sizeof(rule_t) * rules_size` in `size_t`; it is left out with the memory layout. The rule count at slotmachine.c:157, `sizeof(rules) / sizeof(rule_t)`, is modelled as the length of the default rule table, 12.
- Storage of the wildcard: the source writes `-1` into a `symbol_t` array (slotmachine.c:126-127). The value actually stored depends on the integer type the compiler picks for the enum; C only requires that type to hold the enumerators 0 .. 7, so an unsigned choice stores a large positive value instead. The model keeps the literal as `WILDCARD_CODE` and represents the position as `RuleSym.Wildcard`, so the wildcard cannot be confused with a symbol. A wheel holds only `Symbol` values.
- Symbol names for display, and all Arduino input and output, are not part of this model.
- `SlotMachine.CreateDefaultRules` is the rule-building part of `create_default_slotmachine`, split out as its own method. The source does it inline.

## Findings

| source | as written | input that shows it | evidently intended | confidence | as-written member | corrected member |
|---|---|---|---|---|---|---|
| exam-project/arduino/sketch/slotmachine.c:172 | `current_symbol` is drawn from 1 to `MAX_SYMBOLS` inclusive | A draw of 20 names `symbols[20]`, one past the end of the wheel. No draw is 0, and on all three default wheels the only Plum is at index 0. So three Plums, the 100-credit rule, never come up. | draw from 0 to `MAX_SYMBOLS` - 1 | high if `get_random_int` includes both bounds (its source is not part of this model) and if `current_symbol` is read as a 0-based index into `symbols` (no reader of it is in the modelled files); not executed | `SlotMachine.Wheel.Spin`, `SpinFindings.AsWrittenSpinCanLeaveWheel`, `SpinFindings.AsWrittenJackpotUnreachable` | `SlotMachine.Wheel.SpinCorrected`, `SpinFindings.CorrectedJackpotReachable` |
