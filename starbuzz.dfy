/**
 * The three beverage designs of 3-decorators/index.ts, priced in integer
 * cents: a plain hierarchy with one constant price per roast, a flag-based
 * design whose cost adds a surcharge per selected condiment, and the
 * decorator design in which each condiment wraps the beverage it decorates.
 */
module Starbuzz {

  // ---------------------------------------------------------------------
  // First design: one class per roast, each with a constant cost.
  // ---------------------------------------------------------------------

  datatype Beverage = HouseBlend(description: string) | DarkRoast(description: string)

  /** The roast alone fixes the price; the description plays no part. */
  function BeverageCost(b: Beverage): (cents: nat)
    ensures b.HouseBlend? ==> cents == 245
    ensures b.DarkRoast? ==> cents == 310
  {
    match b
    case HouseBlend(_) => 245
    case DarkRoast(_) => 310
  }

  // ---------------------------------------------------------------------
  // Second design: condiment flags on the beverage itself.
  // ---------------------------------------------------------------------

  /** The concrete subclasses of BeverageTwo. */
  datatype BlendTwo = HouseBlendTwo | DarkRoastTwo

  /** Price of the blend itself: HouseBlendTwo overrides cost() to add 199; DarkRoastTwo does not override it. */
  function BlendTwoPrice(blend: BlendTwo): nat {
    if blend == HouseBlendTwo then 199 else 0
  }

  class BeverageTwo {
    const blend: BlendTwo
    const description: string
    var milk: bool
    var soy: bool
    var mocha: bool
    var whip: bool

    constructor (blend: BlendTwo, description: string)
      ensures this.blend == blend && this.description == description
      ensures !milk && !soy && !mocha && !whip
    {
      this.blend := blend;
      this.description := description;
      milk, soy, mocha, whip := false, false, false, false;
    }

    /** BeverageTwo.cost(): 50 cents when milk is selected; no other flag is priced. */
    method CondimentCost() returns (condimentCost: nat)
      ensures condimentCost == (if milk then 50 else 0)
    {
      condimentCost := 0;
      if HasMilk() {
        condimentCost := condimentCost + 50;
      }
    }

    /** The cost of the concrete beverage: its blend price plus the condiment surcharge. */
    method Cost() returns (cents: nat)
      ensures cents == BlendTwoPrice(blend) + (if milk then 50 else 0)
    {
      var condimentCost := CondimentCost();
      if blend == HouseBlendTwo {
        cents := 199 + condimentCost;
      } else {
        cents := condimentCost;
      }
    }

    predicate HasMilk()
      reads this
    {
      milk
    }

    /** Sets the milk flag to the given value; no other flag changes. */
    method SetMilk(hasMilk: bool)
      modifies this`milk
      ensures HasMilk() == hasMilk
      ensures soy == old(soy) && mocha == old(mocha) && whip == old(whip)
    {
      milk := hasMilk;
    }
  }

  /** A house blend with milk, as built at the end of the second design, costs 249 cents. */
  method HouseBlendTwoScenario() returns (cents: nat)
    ensures cents == 249
  {
    var houseBlendTwo := new BeverageTwo(HouseBlendTwo, "Second signature house blend.");
    houseBlendTwo.SetMilk(true);
    cents := houseBlendTwo.Cost();
  }

  // ---------------------------------------------------------------------
  // Third design: decorators.
  // ---------------------------------------------------------------------

  /** The condiment a decorator adds. */
  datatype Condiment = Milk | Mocha

  /** The cost a decorator adds, in cents. */
  function Increment(c: Condiment): nat {
    match c
    case Milk => 20
    case Mocha => 15
  }

  /** The text a decorator appends to the description. */
  function Suffix(c: Condiment): string {
    match c
    case Milk => ", with Milk"
    case Mocha => ", with Mocha"
  }

  /**
   * A BeverageThree: the HouseBlendThree base, or the object a decorator
   * returns, which holds the beverage it wraps.
   */
  datatype BeverageThree =
    | HouseBlendThree(baseDescription: string)
    | Decorated(inner: BeverageThree, condiment: Condiment)

  /** cost(): the base's constant, or the wrapped beverage's cost plus the decorator's increment. */
  function Cost(b: BeverageThree): nat {
    match b
    case HouseBlendThree(_) => 199
    case Decorated(inner, c) => Cost(inner) + Increment(c)
  }

  /** description: the base's own, or the wrapped beverage's followed by the decorator's suffix. */
  function Description(b: BeverageThree): string {
    match b
    case HouseBlendThree(d) => d
    case Decorated(inner, c) => Description(inner) + Suffix(c)
  }

  /** The description of the base at the centre of the chain. */
  function BaseDescription(b: BeverageThree): string {
    match b
    case HouseBlendThree(d) => d
    case Decorated(inner, _) => BaseDescription(inner)
  }

  /** The condiments of the chain in the order they were applied, innermost first. */
  function Condiments(b: BeverageThree): seq<Condiment> {
    match b
    case HouseBlendThree(_) => []
    case Decorated(inner, c) => Condiments(inner) + [c]
  }

  function MilkDecorator(beverage: BeverageThree): (r: BeverageThree)
    ensures Cost(r) == Cost(beverage) + 20
    ensures Description(r) == Description(beverage) + ", with Milk"
    ensures BaseDescription(r) == BaseDescription(beverage)
    ensures Condiments(r) == Condiments(beverage) + [Milk]
    ensures r.Decorated? && r.inner == beverage
  {
    Decorated(beverage, Milk)
  }

  function MochaDecorator(beverage: BeverageThree): (r: BeverageThree)
    ensures Cost(r) == Cost(beverage) + 15
    ensures Description(r) == Description(beverage) + ", with Mocha"
    ensures BaseDescription(r) == BaseDescription(beverage)
    ensures Condiments(r) == Condiments(beverage) + [Mocha]
    ensures r.Decorated? && r.inner == beverage
  {
    Decorated(beverage, Mocha)
  }

  /** Sum of the increments of a list of condiments. */
  function TotalIncrement(cs: seq<Condiment>): nat {
    if cs == [] then 0 else TotalIncrement(cs[..|cs| - 1]) + Increment(cs[|cs| - 1])
  }

  /** The suffixes of a list of condiments, left to right. */
  function Suffixes(cs: seq<Condiment>): string {
    if cs == [] then [] else Suffixes(cs[..|cs| - 1]) + Suffix(cs[|cs| - 1])
  }

  /** The cost of a chain is the base cost plus the increment of every decorator applied. */
  lemma {:induction false} CostIsBasePlusIncrements(b: BeverageThree)
    ensures Cost(b) == 199 + TotalIncrement(Condiments(b))
  {
    match b
    case HouseBlendThree(_) =>
    case Decorated(inner, c) =>
      CostIsBasePlusIncrements(inner);
      assert (Condiments(inner) + [c])[..|Condiments(inner)|] == Condiments(inner);
  }

  /** The description of a chain is the base's followed by every decorator's suffix, in wrap order. */
  lemma {:induction false} DescriptionFollowsWrapOrder(b: BeverageThree)
    ensures Description(b) == BaseDescription(b) + Suffixes(Condiments(b))
  {
    match b
    case HouseBlendThree(_) =>
    case Decorated(inner, c) =>
      DescriptionFollowsWrapOrder(inner);
      assert (Condiments(inner) + [c])[..|Condiments(inner)|] == Condiments(inner);
  }

  /** The total increment counts each condiment as often as it occurs: there is no deduplication. */
  lemma {:induction false} TotalIncrementCountsCondiments(cs: seq<Condiment>)
    ensures TotalIncrement(cs) == 20 * multiset(cs)[Milk] + 15 * multiset(cs)[Mocha]
  {
    if cs != [] {
      var init, last := cs[..|cs| - 1], cs[|cs| - 1];
      TotalIncrementCountsCondiments(init);
      assert cs == init + [last];
      assert multiset(cs) == multiset(init) + multiset{last};
    }
  }

  /** Two chains with the same condiments, in whatever order, cost the same. */
  lemma CostIndependentOfWrapOrder(a: BeverageThree, b: BeverageThree)
    requires multiset(Condiments(a)) == multiset(Condiments(b))
    ensures Cost(a) == Cost(b)
  {
    CostIsBasePlusIncrements(a);
    CostIsBasePlusIncrements(b);
    TotalIncrementCountsCondiments(Condiments(a));
    TotalIncrementCountsCondiments(Condiments(b));
  }

  /** Swapping two different decorators keeps the cost but changes the description. */
  lemma SwappedDecorators(x: BeverageThree, c1: Condiment, c2: Condiment)
    requires c1 != c2
    ensures Cost(Decorated(Decorated(x, c1), c2)) == Cost(Decorated(Decorated(x, c2), c1))
    ensures Description(Decorated(Decorated(x, c1), c2)) != Description(Decorated(Decorated(x, c2), c1))
  {
    var d := Description(x);
    var k := |d| + 8;
    assert Description(Decorated(Decorated(x, c1), c2)) == d + Suffix(c1) + Suffix(c2);
    assert Description(Decorated(Decorated(x, c2), c1)) == d + Suffix(c2) + Suffix(c1);
    assert (d + Suffix(c1) + Suffix(c2))[k] == Suffix(c1)[8];
    assert (d + Suffix(c2) + Suffix(c1))[k] == Suffix(c2)[8];
  }

  /** Two mochas add their increment twice and their suffix twice. */
  lemma DoubleMocha(x: BeverageThree)
    ensures Cost(MochaDecorator(MochaDecorator(x))) == Cost(x) + 30
    ensures Description(MochaDecorator(MochaDecorator(x))) == Description(x) + ", with Mocha, with Mocha"
    ensures multiset(Condiments(MochaDecorator(MochaDecorator(x))))[Mocha] ==
            multiset(Condiments(x))[Mocha] + 2
  {
  }

  /** The house blend with milk and a double mocha built at the end of the file. */
  lemma DoubleMochaWithMilkHouseBlendThree(d: string)
    ensures Cost(MochaDecorator(MochaDecorator(MilkDecorator(HouseBlendThree(d))))) == 249
    ensures Description(MochaDecorator(MochaDecorator(MilkDecorator(HouseBlendThree(d))))) ==
            d + ", with Milk, with Mocha, with Mocha"
  {
  }
}
