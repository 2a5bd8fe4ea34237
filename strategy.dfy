/**
 * The strategy pattern of 1-intro/index.ts: a Duck holds a fly behaviour and
 * a quack behaviour, delegates to whichever is bound, and can have either
 * replaced at run time. The behaviours are stateless, so each is a datatype
 * value; what they do is report one line on the console.
 */
module Strategy {

  /** The fly family: FlyWithWings and FlyNoWay. */
  datatype FlyBehavior = FlyWithWings | FlyNoWay {
    /** The line this behaviour's fly() reports. */
    function Message(): string {
      match this
      case FlyWithWings => "Regular fly with wings"
      case FlyNoWay => "Cannot fly!"
    }
  }

  /** The quack family: Quack, Squeak and MuteQuack. */
  datatype QuackBehavior = Quack | Squeak | MuteQuack {
    /** The line this behaviour's quack() reports. */
    function Message(): string {
      match this
      case Quack => "Regular quack!"
      case Squeak => "Rubber ducky squeak."
      case MuteQuack => "No quack. Can't do anything"
    }
  }

  /** Every line a behaviour reported and where it came from can be told apart. */
  lemma MessagesIdentifyBehavior(f: FlyBehavior, g: FlyBehavior, q: QuackBehavior, r: QuackBehavior)
    ensures f.Message() == g.Message() <==> f == g
    ensures q.Message() == r.Message() <==> q == r
    ensures f.Message() != q.Message()
  {
  }

  /** The console the behaviours print to: the lines reported so far, oldest first. */
  class Console {
    var lines: seq<string>

    constructor ()
      ensures lines == []
    {
      lines := [];
    }

    method Log(line: string)
      modifies this
      ensures lines == old(lines) + [line]
    {
      lines := lines + [line];
    }
  }

  class Duck {
    var flyBehavior: FlyBehavior
    var quackBehavior: QuackBehavior

    constructor (flyBehavior: FlyBehavior, quackBehavior: QuackBehavior)
      ensures this.flyBehavior == flyBehavior && this.quackBehavior == quackBehavior
    {
      this.flyBehavior := flyBehavior;
      this.quackBehavior := quackBehavior;
    }

    /** Delegates to the bound fly behaviour: exactly its one line is reported. */
    method PerformFly(console: Console)
      modifies console
      ensures console.lines == old(console.lines) + [flyBehavior.Message()]
      ensures flyBehavior == old(flyBehavior) && quackBehavior == old(quackBehavior)
    {
      console.Log(flyBehavior.Message());
    }

    /** Delegates to the bound quack behaviour: exactly its one line is reported. */
    method PerformQuack(console: Console)
      modifies console
      ensures console.lines == old(console.lines) + [quackBehavior.Message()]
      ensures flyBehavior == old(flyBehavior) && quackBehavior == old(quackBehavior)
    {
      console.Log(quackBehavior.Message());
    }

    /** Replaces the fly slot only; the console is out of its reach. */
    method SetFlyBehavior(flyBehavior: FlyBehavior)
      modifies this
      ensures this.flyBehavior == flyBehavior && quackBehavior == old(quackBehavior)
    {
      this.flyBehavior := flyBehavior;
    }

    /** Replaces the quack slot only; the console is out of its reach. */
    method SetQuackBehavior(quackBehavior: QuackBehavior)
      modifies this
      ensures this.quackBehavior == quackBehavior && flyBehavior == old(flyBehavior)
    {
      this.quackBehavior := quackBehavior;
    }
  }

  /** Setting a slot twice leaves the duck as one setting to the last value would. */
  method SetBehaviorsTwice(duck: Duck, console: Console, f1: FlyBehavior, f2: FlyBehavior,
                           q1: QuackBehavior, q2: QuackBehavior)
    modifies duck
    ensures duck.flyBehavior == f2 && duck.quackBehavior == q2
    ensures console.lines == old(console.lines)
  {
    duck.SetFlyBehavior(f1);
    duck.SetFlyBehavior(f2);
    duck.SetQuackBehavior(q1);
    duck.SetQuackBehavior(q2);
  }

  /**
   * The DuckOne scenario (DuckOne adds nothing to Duck): fly and quack, swap
   * both behaviours, fly and quack again.
   */
  method DuckOneScenario(console: Console)
    modifies console
    ensures console.lines == old(console.lines) +
      ["Regular fly with wings", "Regular quack!", "Cannot fly!", "Rubber ducky squeak."]
  {
    var duckOne := new Duck(FlyWithWings, Quack);
    duckOne.PerformFly(console);
    duckOne.PerformQuack(console);
    duckOne.SetFlyBehavior(FlyNoWay);
    duckOne.SetQuackBehavior(Squeak);
    duckOne.PerformFly(console);
    duckOne.PerformQuack(console);
  }
}
