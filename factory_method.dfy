/**
 * 4-factory/index-two.ts: the factory method. PizzaStoreAbstract.orderPizza
 * fixes the order procedure and leaves createPizza to the concrete store;
 * the NY and Chicago stores implement it by creating nothing.
 */
module FactoryMethod {
  import opened Wrappers
  import opened SimpleFactory

  /** One observable call made while ordering. */
  datatype Call = CreatePizzaCall(pizzaType: string) | HookCall(hook: Hook)

  /** The hook calls of the lifecycle, in order. */
  function LifecycleCalls(): (calls: seq<Call>)
    ensures |calls| == |Lifecycle|
    ensures forall i :: 0 <= i < |calls| ==> calls[i] == HookCall(Lifecycle[i])
  {
    [HookCall(Prepare), HookCall(Bake), HookCall(Cut), HookCall(Box)]
  }

  /**
   * PizzaStoreAbstract.orderPizza for a store whose factory method is
   * `createPizza`, over whatever pizza type that method produces. The hooks
   * are no-ops, so the pizza returned is the one created.
   */
  method OrderPizzaWith<P>(createPizza: string -> Option<P>, pizzaType: string)
    returns (pizza: Option<P>, calls: seq<Call>)
    ensures pizza == createPizza(pizzaType)
    ensures calls == [CreatePizzaCall(pizzaType)] + (if pizza.None? then [] else LifecycleCalls())
    ensures calls[0] == CreatePizzaCall(pizzaType)
    ensures forall i :: 0 < i < |calls| ==> calls[i].HookCall?
  {
    calls := [CreatePizzaCall(pizzaType)];
    pizza := createPizza(pizzaType);
    if pizza.None? {
      return None, calls;
    }
    calls := calls + [HookCall(Prepare)];
    calls := calls + [HookCall(Bake)];
    calls := calls + [HookCall(Cut)];
    calls := calls + [HookCall(Box)];
  }

  /** The concrete stores. */
  datatype ConcreteStore = NYStylePizzaStore | ChicagoStylePizzaStore {

    /** Both stores create no pizza, whatever the type. */
    function CreatePizza<P>(pizzaType: string): (r: Option<P>)
      ensures r.None?
    {
      None
    }

    /** Ordering from either store gives nothing, and only the factory method is called. */
    method OrderPizza<P>(pizzaType: string) returns (pizza: Option<P>, calls: seq<Call>)
      ensures pizza.None?
      ensures calls == [CreatePizzaCall(pizzaType)]
    {
      pizza, calls := OrderPizzaWith((t: string) => CreatePizza<P>(t), pizzaType);
    }
  }

  /** The order placed at the end of the file: a cheese pizza from the NY store. */
  method NYCheeseScenario() returns (pizza: Option<SimpleFactory.Pizza>, calls: seq<Call>)
    ensures pizza == None && calls == [CreatePizzaCall("cheese")]
  {
    pizza, calls := NYStylePizzaStore.OrderPizza("cheese");
  }
}
