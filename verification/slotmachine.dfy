/**
 * The slot machine's objects and operations: wheels and machines are heap
 * objects built by factory methods that may fail for lack of memory, rules
 * and the configuration are values, and spinning overwrites the current
 * symbol of one wheel.
 *
 * Allocation failure is the parameter `outOfMemory` of each allocating
 * factory; the random source is Random.RandomInt.
 */
module SlotMachine {
  import opened SlotTypes
  import opened DefaultTable
  import Random

  /**
   * The symbol a wheel shows when its current index is k; None when k is
   * not an index of the wheel, where reading the symbol would leave the
   * wheel's storage. A plain definition: the header's wheel comment says
   * that the current index tells which symbol is the current one.
   */
  function Showing(symbols: seq<Symbol>, k: int): (r: Option<Symbol>)
  {
    if 0 <= k < |symbols| then Some(symbols[k]) else None
  }

  /** One wheel: its printed symbols and the index of the one showing. */
  class Wheel {
    /** Index into symbols of the current symbol; 0 until the first spin. */
    var currentSymbol: int
    /** The symbols on the wheel, in order. */
    const symbols: array<Symbol>

    /** Room for one wheel, contents not yet set. */
    constructor Allocate()
      ensures fresh(symbols) && symbols.Length == MAX_SYMBOLS
    {
      symbols := new Symbol[MAX_SYMBOLS];
    }

    predicate Valid()
    {
      symbols.Length == MAX_SYMBOLS
    }

    /** The symbol the wheel shows, if its index lies on the wheel. */
    function Current(): (r: Option<Symbol>)
      reads this, symbols
    {
      Showing(symbols[..], currentSymbol)
    }

    /**
     * Spins the wheel as written: the new index is drawn from 1 to
     * MAX_SYMBOLS inclusive. The symbols on the wheel stay as they were.
     */
    method Spin()
      modifies this`currentSymbol
      ensures 1 <= currentSymbol <= MAX_SYMBOLS
      ensures symbols[..] == old(symbols[..])
    {
      currentSymbol := Random.RandomInt(1, MAX_SYMBOLS);
    }

    /**
     * Spins the wheel with the index range the wheel's storage has, 0 to
     * MAX_SYMBOLS - 1: the wheel then always shows one of its own symbols.
     */
    method SpinCorrected()
      requires Valid()
      modifies this`currentSymbol
      ensures 0 <= currentSymbol < MAX_SYMBOLS
      ensures symbols[..] == old(symbols[..])
      ensures Current().Some? && Current().value in old(symbols[..])
    {
      currentSymbol := Random.RandomInt(0, MAX_SYMBOLS - 1);
    }
  }

  /**
   * Creates a wheel showing index 0 and holding the first MAX_SYMBOLS of
   * the given symbols in order; null exactly when memory runs out.
   */
  method CreateWheel(symbols: seq<Symbol>, outOfMemory: bool) returns (wheel: Wheel?)
    requires |symbols| >= MAX_SYMBOLS
    ensures wheel == null <==> outOfMemory
    ensures wheel != null ==> fresh(wheel) && fresh(wheel.symbols) && wheel.Valid()
    ensures wheel != null ==> wheel.currentSymbol == 0 && wheel.symbols[..] == symbols[..MAX_SYMBOLS]
  {
    if outOfMemory {
      return null;
    }
    var w := new Wheel.Allocate();
    w.currentSymbol := 0;
    for i := 0 to MAX_SYMBOLS
      invariant w.currentSymbol == 0
      invariant w.symbols[..i] == symbols[..i]
    {
      w.symbols[i] := symbols[i];
    }
    return w;
  }

  /**
   * Creates a rule paying `price` for the first MAX_WHEELS of the given
   * combination positions, wildcards included, in order.
   */
  method CreateRule(symbols: seq<RuleSym>, price: int) returns (rule: Rule)
    requires |symbols| >= MAX_WHEELS
    ensures rule.price == price
    ensures rule.symbols == symbols[..MAX_WHEELS]
  {
    var combination: seq<RuleSym> := [];
    for i := 0 to MAX_WHEELS
      invariant combination == symbols[..i]
    {
      combination := combination + [symbols[i]];
    }
    rule := Rule(combination, price);
  }

  /** The configuration for a given spin price. */
  function CreateConfig(spinCreditPrice: int): (config: Config)
    ensures config.spinCreditPrice == spinCreditPrice
  {
    Config(spinCreditPrice)
  }

  /** A slot machine: three wheel references, its settings and its rules. */
  class Machine {
    /** The wheels, by reference; the machine does not own them. */
    const wheels: array<Wheel?>
    var config: Config
    /** The rules, stored with the machine; their number is fixed on allocation. */
    const rules: array<Rule>

    /** Room for a machine with rulesSize rules, contents not yet set. */
    constructor Allocate(rulesSize: nat)
      ensures fresh(wheels) && fresh(rules)
      ensures wheels.Length == MAX_WHEELS && rules.Length == rulesSize
    {
      wheels := new Wheel?[MAX_WHEELS];
      rules := new Rule[rulesSize];
    }
  }

  /**
   * Creates a machine holding the config, the first MAX_WHEELS wheel
   * references and the first rulesSize rules, in order; null exactly when
   * memory runs out, whatever rulesSize is.
   */
  method CreateMachine(config: Config, wheels: seq<Wheel?>, rules: seq<Rule>, rulesSize: nat, outOfMemory: bool)
    returns (machine: Machine?)
    requires |wheels| >= MAX_WHEELS && |rules| >= rulesSize
    ensures machine == null <==> outOfMemory
    ensures machine != null ==> fresh(machine) && fresh(machine.wheels) && fresh(machine.rules)
    ensures machine != null ==> machine.wheels.Length == MAX_WHEELS
    ensures machine != null ==> machine.config == config
    ensures machine != null ==> machine.wheels[..] == wheels[..MAX_WHEELS]
    ensures machine != null ==> machine.rules[..] == rules[..rulesSize]
  {
    if outOfMemory {
      return null;
    }
    var m := new Machine.Allocate(rulesSize);
    m.config := config;
    for i := 0 to MAX_WHEELS
      invariant m.config == config
      invariant m.wheels[..i] == wheels[..i]
    {
      m.wheels[i] := wheels[i];
    }
    for i := 0 to rulesSize
      invariant m.config == config
      invariant m.wheels[..] == wheels[..MAX_WHEELS]
      invariant m.rules[..i] == rules[..i]
    {
      m.rules[i] := rules[i];
    }
    return m;
  }

  /**
   * Builds the default rule table the way the default machine does: one
   * CreateRule per combination, with its price. The result is the default
   * table, in order.
   */
  method CreateDefaultRules() returns (rules: seq<Rule>)
    ensures rules == DEFAULT_RULES
  {
    var combinations := DEFAULT_COMBINATIONS;
    var r0 := CreateRule(combinations[0], 2);
    var r1 := CreateRule(combinations[1], 5);
    var r2 := CreateRule(combinations[2], 10);
    var r3 := CreateRule(combinations[3], 10);
    var r4 := CreateRule(combinations[4], 14);
    var r5 := CreateRule(combinations[5], 14);
    var r6 := CreateRule(combinations[6], 18);
    var r7 := CreateRule(combinations[7], 18);
    var r8 := CreateRule(combinations[8], 50);
    var r9 := CreateRule(combinations[9], 50);
    var r10 := CreateRule(combinations[10], 50);
    var r11 := CreateRule(combinations[11], 100);
    rules := [r0, r1, r2, r3, r4, r5, r6, r7, r8, r9, r10, r11];
    assert forall k | 0 <= k < 12 :: rules[k] == DEFAULT_RULES[k];
  }

  /**
   * Builds the default machine from the default tables. Each wheel is null
   * exactly when its own allocation fails, and is handed to the machine
   * unchecked; the machine is null exactly when its allocation fails.
   */
  method CreateDefaultMachine(wheelOutOfMemory: seq<bool>, outOfMemory: bool) returns (machine: Machine?)
    requires |wheelOutOfMemory| == MAX_WHEELS
    ensures machine == null <==> outOfMemory
    ensures machine != null ==> fresh(machine) && fresh(machine.wheels) && fresh(machine.rules)
    ensures machine != null ==> machine.wheels.Length == MAX_WHEELS
    ensures machine != null ==> machine.config.spinCreditPrice == DEFAULT_SPIN_CREDIT_PRICE
    ensures machine != null ==> machine.rules[..] == DEFAULT_RULES
    ensures machine != null ==> forall i :: 0 <= i < MAX_WHEELS ==>
      (machine.wheels[i] == null <==> wheelOutOfMemory[i])
    ensures machine != null ==> forall i :: 0 <= i < MAX_WHEELS && machine.wheels[i] != null ==>
      fresh(machine.wheels[i]) && fresh(machine.wheels[i].symbols) && machine.wheels[i].Valid() && machine.wheels[i].currentSymbol == 0 &&
      machine.wheels[i].symbols[..] == DEFAULT_WHEEL_SYMBOLS[i]
    ensures machine != null ==> forall i, j :: 0 <= i < j < MAX_WHEELS && machine.wheels[i] != null ==>
      machine.wheels[i] != machine.wheels[j]
  {
    var w0 := CreateWheel(DEFAULT_WHEEL_SYMBOLS[0], wheelOutOfMemory[0]);
    var w1 := CreateWheel(DEFAULT_WHEEL_SYMBOLS[1], wheelOutOfMemory[1]);
    var w2 := CreateWheel(DEFAULT_WHEEL_SYMBOLS[2], wheelOutOfMemory[2]);
    var wheels := [w0, w1, w2];

    var config := CreateConfig(DEFAULT_SPIN_CREDIT_PRICE);

    var rules := CreateDefaultRules();

    machine := CreateMachine(config, wheels, rules, |rules|, outOfMemory);
    if machine != null {
      assert machine.wheels[0] == w0 && machine.wheels[1] == w1 && machine.wheels[2] == w2;
    }
  }
}
