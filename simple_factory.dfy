/**
 * 4-factory/index.ts: a store that builds pizzas itself, a simple factory
 * that maps a type key to a pizza variant or to nothing, and a store that
 * delegates creation to such a factory. Every Pizza hook is a no-op, so a
 * hook call is observable only as an entry in the trace the store returns.
 */
module SimpleFactory {
  import opened Wrappers

  /** Pizza and its subclasses. */
  datatype Pizza = PlainPizza | CheesePizza | GreekPizza | PepperoniPizza

  /** The lifecycle hooks of a pizza. */
  datatype Hook = Prepare | Bake | Cut | Box

  /** The order in which a store runs the hooks of a pizza it returns. */
  const Lifecycle: seq<Hook> := [Prepare, Bake, Cut, Box]

  /** The type keys that name a pizza variant. */
  const Menu: set<string> := {"cheese", "greek", "pepperoni"}

  /** The type key naming a variant; the plain pizza has none. */
  function Key(p: Pizza): string
    requires p != PlainPizza
  {
    match p
    case CheesePizza => "cheese"
    case GreekPizza => "greek"
    case PepperoniPizza => "pepperoni"
  }

  /** Different variants have different keys. */
  lemma KeyInjective(p: Pizza, q: Pizza)
    requires p != PlainPizza && q != PlainPizza
    ensures Key(p) == Key(q) <==> p == q
  {
  }

  class SimplePizzaFactory {
    constructor () {}

    /** Exact, case-sensitive match of the key against the menu; anything else gives no pizza. */
    function CreatePizza(pizzaType: string): (r: Option<Pizza>)
      ensures r.Some? <==> pizzaType in Menu
      ensures r.Some? ==> r.value != PlainPizza && Key(r.value) == pizzaType
    {
      if pizzaType == "cheese" then Some(CheesePizza)
      else if pizzaType == "greek" then Some(GreekPizza)
      else if pizzaType == "pepperoni" then Some(PepperoniPizza)
      else None
    }
  }

  /** Creating from a variant's key gives back that variant. */
  lemma CreateFromKey(factory: SimplePizzaFactory, p: Pizza)
    requires p != PlainPizza
    ensures factory.CreatePizza(Key(p)) == Some(p)
  {
  }

  /** A key differing only in case from a menu key names nothing. */
  lemma CreateIsCaseSensitive(factory: SimplePizzaFactory)
    ensures factory.CreatePizza("Cheese") == None
    ensures factory.CreatePizza("GREEK") == None
  {
  }

  /** The store that creates pizzas itself and falls back to a plain pizza. */
  class PizzaStore {
    constructor () {}

    /** Never absent: a menu key gives its variant, any other key a plain pizza; all four hooks run, in order. */
    method OrderPizza(pizzaType: string) returns (pizza: Pizza, hooks: seq<Hook>)
      ensures pizza == PlainPizza <==> pizzaType !in Menu
      ensures pizza != PlainPizza ==> Key(pizza) == pizzaType
      ensures hooks == Lifecycle
    {
      pizza := PlainPizza;
      if pizzaType == "cheese" {
        pizza := CheesePizza;
      } else if pizzaType == "greek" {
        pizza := GreekPizza;
      } else if pizzaType == "pepperoni" {
        pizza := PepperoniPizza;
      }
      hooks := [];
      hooks := hooks + [Prepare];
      hooks := hooks + [Bake];
      hooks := hooks + [Cut];
      hooks := hooks + [Box];
    }
  }

  /** The store composed with a factory. */
  class PizzaStoreWithFactory {
    const factory: SimplePizzaFactory

    constructor (factory: SimplePizzaFactory)
      ensures this.factory == factory
    {
      this.factory := factory;
    }

    /** Returns what the factory creates; when that is nothing no hook runs, otherwise all four run in order. */
    method OrderPizza(pizzaType: string) returns (pizza: Option<Pizza>, hooks: seq<Hook>)
      ensures pizza == factory.CreatePizza(pizzaType)
      ensures pizza.None? <==> pizzaType !in Menu
      ensures hooks == if pizza.None? then [] else Lifecycle
    {
      pizza := factory.CreatePizza(pizzaType);
      hooks := [];
      if pizza.None? {
        return None, hooks;
      }
      hooks := hooks + [Prepare];
      hooks := hooks + [Bake];
      hooks := hooks + [Cut];
      hooks := hooks + [Box];
    }
  }

  /**
   * Both stores on the same key: on a menu key they hand out the same variant
   * after the same hooks; off the menu the naive store still runs every hook
   * on a plain pizza while the delegating one hands out nothing and runs none.
   */
  method StoresAgree(pizzaType: string)
    returns (naive: Pizza, naiveHooks: seq<Hook>, delegated: Option<Pizza>, delegatedHooks: seq<Hook>)
    ensures delegated == (if naive == PlainPizza then None else Some(naive))
    ensures naiveHooks == Lifecycle
    ensures pizzaType in Menu ==> delegatedHooks == naiveHooks
    ensures pizzaType !in Menu ==> delegatedHooks == []
  {
    var store := new PizzaStore();
    naive, naiveHooks := store.OrderPizza(pizzaType);
    var factory := new SimplePizzaFactory();
    var storeWithFactory := new PizzaStoreWithFactory(factory);
    delegated, delegatedHooks := storeWithFactory.OrderPizza(pizzaType);
    if naive != PlainPizza {
      KeyInjective(naive, delegated.value);
    }
  }

  /** An unknown key: the naive store still hands out a plain pizza, the delegating one nothing and runs no hook. */
  method UnknownKeyScenario() returns (naive: Pizza, naiveHooks: seq<Hook>,
                                       delegated: Option<Pizza>, delegatedHooks: seq<Hook>)
    ensures naive == PlainPizza && naiveHooks == Lifecycle
    ensures delegated == None && delegatedHooks == []
  {
    var store := new PizzaStore();
    naive, naiveHooks := store.OrderPizza("anchovy");
    var factory := new SimplePizzaFactory();
    var storeWithFactory := new PizzaStoreWithFactory(factory);
    delegated, delegatedHooks := storeWithFactory.OrderPizza("anchovy");
  }
}
