/**
 * Pin addresses, the closed set of component kinds with their fixed arities,
 * and the accessors that read or overwrite a single component's stored state.
 */
module Circuit {
  import opened Signal

  /**
   * Pin `index` of the component at `component` in the simulator's table.
   * A component's input pins are numbered `0 .. InputLen`, its output pins
   * follow at `InputLen .. InputLen + OutputLen`.
   */
  datatype Pin = Pin(component: nat, index: nat)

  /** A stable reference to a component, handed out by the simulator on insertion. */
  datatype Handle = Handle(index: nat)
  {
    /** Pin `pin` of this component. */
    function ToPin(pin: nat): (p: Pin)
    {
      Pin(index, pin)
    }
  }

  /** Two handed-out pins are the same exactly when they come from the same handle with the same number. */
  lemma ToPinIdentifies(h: Handle, i: nat, g: Handle, j: nat)
    ensures h.ToPin(i) == g.ToPin(j) <==> h == g && i == j
  {
  }

  /**
   * The component kinds. Only `Input` and `Output` carry a state: an input
   * emits its state, an output remembers the last value it settled to.
   * `Custom(n)` is a placeholder with `n` outputs.
   */
  datatype Component =
    | Input(state: State)
    | Output(state: State)
    | OrGate
    | AndGate
    | XorGate
    | NotGate
    | Custom(outputs: nat)

  predicate IsGate(c: Component)
  {
    c.OrGate? || c.AndGate? || c.XorGate? || c.NotGate?
  }

  /** The number of input pins: none for an input or a placeholder, one for an output or a NOT gate, two for the binary gates. */
  function InputLen(c: Component): (n: nat)
    ensures n <= 2
    ensures n == 0 <==> c.Input? || c.Custom?
    ensures n == 2 <==> c.OrGate? || c.AndGate? || c.XorGate?
  {
    match c
    case Input(_) => 0
    case Output(_) => 1
    case OrGate => 2
    case AndGate => 2
    case XorGate => 2
    case NotGate => 1
    case Custom(_) => 0
  }

  /** The number of output pins: one for an input and every gate, none for an output, as many as a placeholder declares. */
  function OutputLen(c: Component): (n: nat)
    ensures n == 0 <==> c.Output? || c == Custom(0)
    ensures n == 1 <==> IsGate(c) || c.Input? || c == Custom(1)
    ensures c.Custom? ==> n == c.outputs
  {
    match c
    case Input(_) => 1
    case Output(_) => 0
    case OrGate => 1
    case AndGate => 1
    case XorGate => 1
    case NotGate => 1
    case Custom(n) => n
  }

  /** The `k`-th input pin of the component `c` that `h` refers to. */
  function InputPin(h: Handle, c: Component, k: nat): (p: Pin)
    requires k < InputLen(c)
    ensures p.component == h.index && p.index < InputLen(c)
  {
    h.ToPin(k)
  }

  /** The `k`-th output pin: output pins are offset by the number of inputs. */
  function OutputPin(h: Handle, c: Component, k: nat): (p: Pin)
    requires k < OutputLen(c)
    ensures p.component == h.index
    ensures InputLen(c) <= p.index < InputLen(c) + OutputLen(c)
  {
    h.ToPin(InputLen(c) + k)
  }

  /**
   * The two numbering ranges never overlap; within each, distinct positions
   * get distinct pins, in the order of their positions.
   */
  lemma PinNumbering(h: Handle, c: Component, i: nat, i': nat, j: nat, k: nat)
    requires i < InputLen(c) && i' < InputLen(c) && j < OutputLen(c) && k < OutputLen(c)
    ensures InputPin(h, c, i) != OutputPin(h, c, j)
    ensures InputPin(h, c, i) == InputPin(h, c, i') <==> i == i'
    ensures i < i' ==> InputPin(h, c, i).index < InputPin(h, c, i').index
    ensures OutputPin(h, c, j) == OutputPin(h, c, k) <==> j == k
    ensures j < k ==> OutputPin(h, c, j).index < OutputPin(h, c, k).index
  {
  }

  /** Every pin number of a component is its input pin of that number or, past the inputs, one of its output pins. */
  lemma PinCoverage(h: Handle, c: Component, n: nat)
    requires n < InputLen(c) + OutputLen(c)
    ensures n < InputLen(c) ==> InputPin(h, c, n) == h.ToPin(n)
    ensures InputLen(c) <= n ==> OutputPin(h, c, n - InputLen(c)) == h.ToPin(n)
  {
  }

  /** The name a component is shown under; a gate's name ends in " gate". */
  function Label(c: Component): (s: string)
    ensures |s| >= 5
    ensures IsGate(c) <==> s[|s| - 5..] == " gate"
  {
    match c
    case Input(_) => "input"
    case Output(_) => "output"
    case OrGate => "or gate"
    case AndGate => "and gate"
    case XorGate => "xor gate"
    case NotGate => "not gate"
    case Custom(_) => "custom"
  }

  /** Two components have the same kind: the same constructor, whatever they carry. */
  predicate SameKind(a: Component, b: Component)
  {
    match a
    case Input(_) => b.Input?
    case Output(_) => b.Output?
    case OrGate => b.OrGate?
    case AndGate => b.AndGate?
    case XorGate => b.XorGate?
    case NotGate => b.NotGate?
    case Custom(_) => b.Custom?
  }

  /** A label names the kind of a component and nothing else. */
  lemma LabelNamesKind(a: Component, b: Component)
    ensures Label(a) == Label(b) <==> SameKind(a, b)
  {
  }

  /** Why an operation aborts. */
  datatype Fault =
    | NoInputPin          // set_pin on something other than an output
    | NoOutputPin         // get_pin on something other than an input
    | NotAnInput          // set_input on something other than an input
    | NotInspectable      // inspect_pin on a gate or a custom component
    | OutputPinNotZero(pin: Pin)  // an output asked for a pin other than 0
    | NoSuchComponent(index: nat) // a component index past the end of the table
    | AlreadyBorrowed(index: nat) // a component re-entered on the current evaluation path

  datatype Result<T> = Ok(value: T) | Err(fault: Fault)

  /** Overwrites the settled value of an output; the pin index is not consulted. */
  function SetPin(c: Component, pin: nat, value: State): (r: Result<Component>)
    ensures r.Ok? <==> c.Output?
    ensures r.Ok? ==> r.value == Output(value)
    ensures r.Err? ==> r.fault == NoInputPin
  {
    match c
    case Output(_) => Ok(Output(value))
    case _ => Err(NoInputPin)
  }

  /** Reads the value an input emits; the pin index is not consulted. */
  function GetPin(c: Component, pin: nat): (r: Result<State>)
    ensures r.Ok? <==> c.Input?
    ensures r.Ok? ==> c == Input(r.value)
    ensures r.Err? ==> r.fault == NoOutputPin
  {
    match c
    case Input(s) => Ok(s)
    case _ => Err(NoOutputPin)
  }

  /** Overwrites the value an input emits; the pin index is not consulted. */
  function SetInput(c: Component, pin: nat, value: State): (r: Result<Component>)
    ensures r.Ok? <==> c.Input?
    ensures r.Ok? ==> r.value == Input(value)
    ensures r.Err? ==> r.fault == NotAnInput
  {
    match c
    case Input(_) => Ok(Input(value))
    case _ => Err(NotAnInput)
  }

  /** The stored state of an input or an output; the pin index is not consulted. */
  function InspectPin(c: Component, pin: nat): (r: Result<State>)
    ensures r.Ok? <==> c.Input? || c.Output?
    ensures r.Ok? ==> r.value == c.state
    ensures r.Err? ==> r.fault == NotInspectable
  {
    match c
    case Input(s) => Ok(s)
    case Output(s) => Ok(s)
    case _ => Err(NotInspectable)
  }

  /** What `SetInput` stores is what `InspectPin` and `GetPin` read back, whatever pins are named. */
  lemma SetInputThenRead(c: Component, p: nat, q: nat, value: State)
    requires c.Input?
    ensures SetInput(c, p, value).Ok?
    ensures InspectPin(SetInput(c, p, value).value, q) == Ok(value)
    ensures GetPin(SetInput(c, p, value).value, q) == Ok(value)
  {
  }

  /** What `SetPin` stores in an output is what `InspectPin` reads back. */
  lemma SetPinThenInspect(c: Component, p: nat, q: nat, value: State)
    requires c.Output?
    ensures SetPin(c, p, value).Ok?
    ensures InspectPin(SetPin(c, p, value).value, q) == Ok(value)
  {
  }

  /**
   * Two components agree on everything evaluation may not change: they are
   * equal, or both are outputs (whose settled value evaluation overwrites).
   */
  predicate Agree(x: Component, y: Component)
  {
    x == y || (x.Output? && y.Output?)
  }

  /** Two tables that differ at most in the settled values of their outputs. */
  predicate SameShape(a: seq<Component>, b: seq<Component>)
  {
    |a| == |b| && forall i :: 0 <= i < |a| ==> Agree(a[i], b[i])
  }

  /** Agreeing in shape is transitive. */
  lemma SameShapeTrans(a: seq<Component>, b: seq<Component>, c: seq<Component>)
    requires SameShape(a, b) && SameShape(b, c)
    ensures SameShape(a, c)
  {
  }
}
