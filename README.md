# Design-pattern composition mechanisms, modelled in Dafny

This project models the three composition mechanisms of a TypeScript
design-patterns tutorial and proves what each one promises.

- **Strategy** (`strategy.dfy`, module `Strategy`, from `1-intro/index.ts`).
  A `Duck` class has two mutable slots, `flyBehavior` and `quackBehavior`.
  The behaviours are stateless datatype values. Each behaviour reports one
  line on a `Console`, a class holding the printed lines as a `seq<string>`.
  The setters overwrite one slot in place. The `perform*` methods change
  only the console.
- **Decorator** (`starbuzz.dfy`, module `Starbuzz`, from
  `3-decorators/index.ts`). All three beverage designs of that file are
  modelled. Prices are integer cents: 2.45 is 245, 3.10 is 310, 1.99 is 199,
  and the condiment prices .50, .20 and .15 are 50, 20 and 15.
  - The plain `Beverage` hierarchy is a datatype with a constant price per roast.
  - `BeverageTwo` is a class with four condiment flags and a `Cost` method.
  - `BeverageThree` is a recursive datatype: the `HouseBlendThree` base, or a
    decorator object wrapping another beverage. `Cost` and `Description` are
    defined recursively over it. `Condiments` lists the decorators in the
    order they were applied.
- **Factory** (`simple_factory.dfy`, module `SimpleFactory`, from
  `4-factory/index.ts`; `factory_method.dfy`, module `FactoryMethod`, from
  `4-factory/index-two.ts`). Pizza variants and lifecycle hooks are
  datatypes. The default hooks do nothing to the pizza, so each store's
  `OrderPizza` returns the pizza together with the trace of the calls it
  made. `null` is `Option.None` (`wrappers.dfy`).
  - The abstract store's `orderPizza` is `OrderPizzaWith`. It takes the
    concrete store's `createPizza` as a function argument, so it is proved
    once for every possible subclass.
  - `ConcreteStore` is the NY store and the Chicago store.

`DuckOne` adds nothing to `Duck`, so the demo builds a `Duck`.

The NY and Chicago stores of `4-factory/index-two.ts` return `null` for
every key, because their branches are commented out. The model follows the code.

## Model

| member | source | states |
|---|---|---|
| `Strategy.MessagesIdentifyBehavior` | 1-intro/index.ts:40-73 | Each behaviour reports its own fixed line. Two behaviours of one family report the same line only if they are the same behaviour. No fly line is also a quack line. |
| `Strategy.Duck.constructor` | 1-intro/index.ts:5-11 | The new duck's fly slot holds the given fly behaviour and its quack slot the given quack behaviour. |
| `Strategy.Duck.PerformFly` | 1-intro/index.ts:13-17 | Appends exactly one console line, the message of the fly behaviour bound now. Neither slot changes. |
| `Strategy.Duck.PerformQuack` | 1-intro/index.ts:19-23 | Appends exactly one console line, the message of the quack behaviour bound now. Neither slot changes. |
| `Strategy.Duck.SetFlyBehavior` | 1-intro/index.ts:26-28 | The fly slot becomes the argument. The quack slot is unchanged. The console is outside its frame. |
| `Strategy.Duck.SetQuackBehavior` | 1-intro/index.ts:30-32 | The quack slot becomes the argument. The fly slot is unchanged. The console is outside its frame. |
| `Strategy.SetBehaviorsTwice` | 1-intro/index.ts:26-32 | Setting each slot twice leaves exactly the last values, as one setting would. The console is unchanged. |
| `Strategy.DuckOneScenario` | 1-intro/index.ts:84-96 | The demo prints exactly "Regular fly with wings", "Regular quack!", "Cannot fly!", "Rubber ducky squeak.", in that order. |
| `Starbuzz.BeverageCost` | 3-decorators/index.ts:16-34 | A house blend costs 245 cents and a dark roast 310 cents, whatever the description. |
| `Starbuzz.BeverageTwo.constructor` | 3-decorators/index.ts:56-65 | A new beverage has the given description and no condiment flag set. |
| `Starbuzz.BeverageTwo.CondimentCost` | 3-decorators/index.ts:67-76 | The condiment cost is 50 cents exactly when milk is set, and 0 otherwise. Soy, mocha and whip are not priced. |
| `Starbuzz.BeverageTwo.Cost` | 3-decorators/index.ts:87-97 | A HouseBlendTwo costs 199 cents plus the milk surcharge. A DarkRoastTwo, which does not override `cost()`, costs the surcharge alone. |
| `Starbuzz.BeverageTwo.SetMilk` | 3-decorators/index.ts:78-83 | Afterwards `HasMilk()` gives the argument. The soy, mocha and whip flags are unchanged. |
| `Starbuzz.HouseBlendTwoScenario` | 3-decorators/index.ts:99-102 | A HouseBlendTwo with milk costs 249 cents. |
| `Starbuzz.MilkDecorator` | 3-decorators/index.ts:150-159 | The result costs 20 cents more than the wrapped beverage. Its description is the wrapped one followed by ", with Milk". It has the same base, and Milk is added last to its condiments. It holds the wrapped beverage unchanged. |
| `Starbuzz.MochaDecorator` | 3-decorators/index.ts:161-170 | The result costs 15 cents more than the wrapped beverage. Its description is the wrapped one followed by ", with Mocha". It has the same base, and Mocha is added last to its condiments. It holds the wrapped beverage unchanged. |
| `Starbuzz.CostIsBasePlusIncrements` | 3-decorators/index.ts:145-170 | The cost of any chain is the base's 199 cents plus the sum of the increments of all decorators applied. |
| `Starbuzz.DescriptionFollowsWrapOrder` | 3-decorators/index.ts:150-170 | The description of any chain is the base description followed by each decorator's suffix, in the order applied. |
| `Starbuzz.TotalIncrementCountsCondiments` | 3-decorators/index.ts:150-170 | The decorators' total increment is 20 cents per milk plus 15 cents per mocha, counting repeats. |
| `Starbuzz.CostIndependentOfWrapOrder` | 3-decorators/index.ts:156-167 | Two chains with the same condiments, in any order, cost the same. |
| `Starbuzz.SwappedDecorators` | 3-decorators/index.ts:150-170 | Swapping two different decorators keeps the cost and changes the description. |
| `Starbuzz.DoubleMocha` | 3-decorators/index.ts:161-170 | Two mochas add 30 cents and two ", with Mocha" suffixes. Mocha's count grows by two, so there is no deduplication. |
| `Starbuzz.DoubleMochaWithMilkHouseBlendThree` | 3-decorators/index.ts:172-177 | `mocha(mocha(milk(HouseBlendThree(d))))` costs 249 cents and is described as `d + ", with Milk, with Mocha, with Mocha"`. |
| `SimpleFactory.SimplePizzaFactory.CreatePizza` | 4-factory/index.ts:44-56 | Gives a pizza exactly when the key is "cheese", "greek" or "pepperoni". The pizza is never a plain one, and it is the variant that key names. Every other key gives `null`. |
| `SimpleFactory.CreateFromKey` | 4-factory/index.ts:47-53 | Creating from a variant's key gives back that variant. |
| `SimpleFactory.CreateIsCaseSensitive` | 4-factory/index.ts:45-55 | Keys that differ from a menu key only in case ("Cheese", "GREEK") give `null`. |
| `SimpleFactory.PizzaStore.OrderPizza` | 4-factory/index.ts:16-37 | Never absent. The result is a plain pizza exactly when the key is not on the menu, and otherwise the variant the key names. The trace is prepare, bake, cut, box, once each, in that order. |
| `SimpleFactory.PizzaStoreWithFactory.constructor` | 4-factory/index.ts:65-67 | The store keeps the given factory. |
| `SimpleFactory.PizzaStoreWithFactory.OrderPizza` | 4-factory/index.ts:69-80 | Returns what the factory creates, which is absent exactly for keys not on the menu. When absent, no hook runs. Otherwise the four hooks run once each, in order. |
| `SimpleFactory.StoresAgree` | 4-factory/index.ts:13-80 | For any key, the delegating store hands out the naive store's pizza unless that is the plain fallback, in which case it hands out `null`. The naive store always runs the four hooks in order. On a menu key the delegating store runs the same hooks; off the menu it runs none. |
| `SimpleFactory.UnknownKeyScenario` | 4-factory/index.ts:16-80 | For "anchovy", the naive store returns a plain pizza after all four hooks. The delegating store returns `null` and runs no hook. |
| `FactoryMethod.OrderPizzaWith` | 4-factory/index-two.ts:31-45 | For any factory method: it is called first, once, with the given type. The created pizza is returned unchanged. The four hooks follow, in order, exactly when a pizza was created. |
| `FactoryMethod.ConcreteStore.CreatePizza` | 4-factory/index-two.ts:70-107 | The NY store and the Chicago store create no pizza, whatever the type. |
| `FactoryMethod.ConcreteStore.OrderPizza` | 4-factory/index-two.ts:30-107 | Ordering from either concrete store gives `null`. The only call made is the factory method's, so no hook runs. |
| `FactoryMethod.NYCheeseScenario` | 4-factory/index-two.ts:109-110 | Ordering "cheese" from the NY store gives `null`, with the single call `createPizza("cheese")`. |

## Left out

- Floating-point prices and JavaScript number printing are not modelled; all prices are integer cents (the sum 1.99 + 0.20 + 0.15 + 0.15 is not exactly 2.49 as a double, the model's 249 is exact).
- `console.log` lines other than the behaviours' messages (prices and descriptions printed by the beverage demos, "PizzaStoreAbstract orderPizza called.", the NY store's `createPizza` log line) are not in any trace.
- `4-factory/index-three.ts` is not part of this model: its creator and product classes have empty bodies and an unimplemented abstract factory method.
- The commented-out NY and Chicago branches are not live code, and no regional pizza variant is modelled.
- TypeScript subclassing is not modelled: variants and behaviours are datatype constructors, the abstract store's subclasses are the `createPizza` function passed to `OrderPizzaWith`.
- Decorator descriptions: `Starbuzz.Description` recomputes a decorated beverage's description from the wrapped value. In the source, `description` is a public mutable field that the decorator copies when it wraps, while `cost()` is looked up only when called. Nothing in the source mutates a description after wrapping, so no result differs, but the model does not capture that copy-versus-delegate difference.
- Object identity of pizzas and beverages is not modelled: they are values, so "the same pizza is returned" and "the wrapped beverage is unchanged" are equalities of values.
- `BeverageTwo`'s `soy`, `mocha` and `whip` getters and setters exist only as a comment in the source and are not modelled; the flags are fields that nothing but the constructor sets.
- `FactoryMethod.NYCheeseScenario` instantiates the pizza type with the variants of `4-factory/index.ts`, because `4-factory/index-two.ts` declares no concrete pizza.
