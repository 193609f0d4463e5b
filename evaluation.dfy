/**
 * The pull-based evaluator, as functions over an explicit evaluation state.
 *
 * Evaluating a pin walks backwards from a consumer pin to the pin driving it
 * (through the consumer-to-driver map `wires`), recursively, until it reaches
 * an input component or an unconnected pin. The state threaded through the
 * walk is the component table (outputs overwrite their settled value) and the
 * per-tick cache. `borrowed` is the set of components on the current call
 * path: each of them is exclusively borrowed, so reaching one of them again
 * aborts instead of recursing for ever.
 */
module Evaluation {
  import opened Signal
  import opened Circuit

  /** The consumer-to-driver connection map. */
  type Wires = map<Pin, Pin>

  /** The per-tick evaluation cache. */
  type Cache = map<Pin, State>

  /** The result of an evaluation step together with the state it leaves, or the fault that aborted it. */
  datatype Outcome<T> = Done(value: T, comps: seq<Component>, cache: Cache) | Panic(fault: Fault)

  datatype Option<T> = None | Some(value: T)

  /** The component indices that are not borrowed: the termination measure of the walk. */
  function Unborrowed(n: nat, borrowed: set<nat>): (free: set<nat>)
  {
    set i | 0 <= i < n && i !in borrowed
  }

  /** Borrowing one more component of the table shrinks the measure. */
  lemma BorrowShrinks(n: nat, borrowed: set<nat>, i: nat)
    requires i < n && i !in borrowed
    ensures Unborrowed(n, borrowed + {i}) < Unborrowed(n, borrowed)
  {
    assert i in Unborrowed(n, borrowed);
  }

  /** The operand pins a gate reads: its own input pins, in order. */
  function OperandPins(self: nat, g: Component): (pins: seq<Pin>)
    requires IsGate(g)
    ensures |pins| == InputLen(g)
    ensures forall k :: 0 <= k < |pins| ==> pins[k] == Pin(self, k)
  {
    match g
    case OrGate => [Pin(self, 0), Pin(self, 1)]
    case AndGate => [Pin(self, 0), Pin(self, 1)]
    case XorGate => [Pin(self, 0), Pin(self, 1)]
    case NotGate => [Pin(self, 0)]
  }

  /**
   * The truth table of gate `g` applied to its operand values: `Invalid`
   * exactly when some operand is, otherwise the gate's Boolean function.
   */
  function GateOutput(g: Component, operands: seq<State>): (r: State)
    requires IsGate(g) && |operands| == InputLen(g)
    ensures r == Invalid <==> Invalid in operands
    ensures g.OrGate? && Invalid !in operands ==> (r == High <==> High in operands)
    ensures g.AndGate? && Invalid !in operands ==> (r == High <==> operands == [High, High])
    ensures g.XorGate? && Invalid !in operands ==> (r == High <==> operands[0] != operands[1])
    ensures g.NotGate? && Invalid !in operands ==> (r == High <==> operands == [Low])
  {
    match g
    case OrGate => Or(operands[0], operands[1])
    case AndGate => And(operands[0], operands[1])
    case XorGate => Xor(operands[0], operands[1])
    case NotGate => Not(operands[0])
  }

  /**
   * Evaluates the component that owns `input` (already borrowed by the
   * caller), asked for pin `input`; `output` is the key under which an input
   * component records the value it emits.
   */
  function RevSim(comps: seq<Component>, wires: Wires, input: Pin, output: Pin,
                  borrowed: set<nat>, cache: Cache): (r: Outcome<State>)
    requires input.component < |comps| && input.component in borrowed
    ensures r.Done? ==> SameShape(comps, r.comps)
    decreases Unborrowed(|comps|, borrowed), 3
  {
    var self := input.component;
    match comps[self]
    case Input(s) => Done(s, comps, cache[output := s])
    case Output(_) =>
      if input.index != 0 then Panic(OutputPinNotZero(input))
      else if input !in wires then Done(Invalid, comps, cache)
      else
        var next := wires[input];
        if next in cache then Done(cache[next], comps, cache)
        else if next.component >= |comps| then Panic(NoSuchComponent(next.component))
        else if next.component in borrowed then Panic(AlreadyBorrowed(next.component))
        else
          BorrowShrinks(|comps|, borrowed, next.component);
          (match RevSim(comps, wires, next, input, borrowed + {next.component}, cache)
           case Panic(f) => Panic(f)
           case Done(v, c, k) => Done(v, c[self := Output(v)], k))
    case Custom(_) => Done(Low, comps, cache)
    case _ =>
      match Nsim(comps, wires, self, OperandPins(self, comps[self]), borrowed, cache)
      case Panic(f) => Panic(f)
      case Done(vs, c, k) => Done(GateOutput(comps[self], vs), c, k)
  }

  /** Resolves the operand pins of gate `caller` one after the other, left to right. */
  function Nsim(comps: seq<Component>, wires: Wires, caller: nat, pins: seq<Pin>,
                borrowed: set<nat>, cache: Cache): (r: Outcome<seq<State>>)
    ensures r.Done? ==> SameShape(comps, r.comps) && |r.value| == |pins|
    ensures r.Done? ==> forall j :: 0 <= j < |pins| && pins[j] !in wires ==> r.value[j] == Invalid
    decreases Unborrowed(|comps|, borrowed), 2, |pins|
  {
    if pins == [] then Done([], comps, cache)
    else
      match Nsim(comps, wires, caller, pins[..|pins| - 1], borrowed, cache)
      case Panic(f) => Panic(f)
      case Done(vs, c, k) =>
        match Operand(c, wires, caller, pins[|pins| - 1], borrowed, k)
        case Panic(f) => Panic(f)
        case Done(v, c', k') => Done(vs + [v], c', k')
  }

  /** One operand: `Invalid` when nothing drives `pin`, otherwise the value of its driver. */
  function Operand(comps: seq<Component>, wires: Wires, caller: nat, pin: Pin,
                   borrowed: set<nat>, cache: Cache): (r: Outcome<State>)
    ensures r.Done? ==> SameShape(comps, r.comps)
    ensures pin !in wires ==> r == Done(Invalid, comps, cache)
    decreases Unborrowed(|comps|, borrowed), 1
  {
    if pin !in wires then Done(Invalid, comps, cache)
    else SimPin(comps, wires, caller, wires[pin], borrowed, cache)
  }

  /**
   * The value of driver pin `d` as seen by gate `caller`: the cached value
   * if there is one, otherwise the driver is borrowed and evaluated, with
   * `Pin(caller, 1)` as the key an input component records itself under.
   */
  function SimPin(comps: seq<Component>, wires: Wires, caller: nat, d: Pin,
                  borrowed: set<nat>, cache: Cache): (r: Outcome<State>)
    ensures r.Done? ==> SameShape(comps, r.comps)
    decreases Unborrowed(|comps|, borrowed), 0
  {
    if d in cache then Done(cache[d], comps, cache)
    else if d.component >= |comps| then Panic(NoSuchComponent(d.component))
    else if d.component in borrowed then Panic(AlreadyBorrowed(d.component))
    else
      BorrowShrinks(|comps|, borrowed, d.component);
      RevSim(comps, wires, d, Pin(caller, 1), borrowed + {d.component}, cache)
  }

  /**
   * The two-operand resolver: `None` as soon as either operand pin is
   * unconnected, before anything is evaluated; otherwise both driver values.
   */
  function BinarySim(comps: seq<Component>, wires: Wires, caller: nat, left: Pin, right: Pin,
                     borrowed: set<nat>, cache: Cache): (r: Outcome<Option<(State, State)>>)
    ensures r.Done? ==> SameShape(comps, r.comps)
    decreases Unborrowed(|comps|, borrowed), 2
  {
    if left !in wires || right !in wires then Done(None, comps, cache)
    else
      match SimPin(comps, wires, caller, wires[left], borrowed, cache)
      case Panic(f) => Panic(f)
      case Done(l, c, k) =>
        match SimPin(c, wires, caller, wires[right], borrowed, k)
        case Panic(f) => Panic(f)
        case Done(rv, c', k') => Done(Some((l, rv)), c', k')
  }

  /** Evaluates output component `out` as a tick does: asked for its pin 0, with only itself borrowed. */
  function TickStep(comps: seq<Component>, wires: Wires, out: nat, cache: Cache): (r: Outcome<()>)
    ensures r.Done? ==> SameShape(comps, r.comps)
  {
    if out >= |comps| then Panic(NoSuchComponent(out))
    else
      match RevSim(comps, wires, Pin(out, 0), Pin(0, 0), {out}, cache)
      case Panic(f) => Panic(f)
      case Done(_, c, k) => Done((), c, k)
  }

  /** The state after a tick has evaluated the first `n` of the outputs `outs`, starting from an empty cache. */
  function TickPrefix(comps: seq<Component>, wires: Wires, outs: seq<nat>, n: nat): (r: Outcome<()>)
    requires n <= |outs|
    ensures r.Done? ==> SameShape(comps, r.comps)
  {
    if n == 0 then Done((), comps, map[])
    else
      match TickPrefix(comps, wires, outs, n - 1)
      case Panic(f) => Panic(f)
      case Done(_, c, k) => TickStep(c, wires, outs[n - 1], k)
  }

  /** A whole tick: every output in `outs`, in order, sharing one fresh cache. */
  function Tick(comps: seq<Component>, wires: Wires, outs: seq<nat>): (r: Outcome<()>)
    ensures r.Done? ==> SameShape(comps, r.comps)
  {
    TickPrefix(comps, wires, outs, |outs|)
  }

  /** Once resolving a prefix of the operands aborts, resolving all of them aborts with the same fault. */
  lemma {:induction false} NsimPrefixPanics(comps: seq<Component>, wires: Wires, caller: nat, pins: seq<Pin>, n: nat,
                                            borrowed: set<nat>, cache: Cache)
    requires n <= |pins| && Nsim(comps, wires, caller, pins[..n], borrowed, cache).Panic?
    ensures Nsim(comps, wires, caller, pins, borrowed, cache) == Nsim(comps, wires, caller, pins[..n], borrowed, cache)
    decreases |pins|
  {
    if n < |pins| {
      var front := pins[..|pins| - 1];
      assert front[..n] == pins[..n];
      NsimPrefixPanics(comps, wires, caller, front, n, borrowed, cache);
    } else {
      assert pins[..n] == pins;
    }
  }

  /** A tick that aborts while evaluating output `outs[n]` aborts as a whole, with that fault. */
  lemma TickStepPanics(comps: seq<Component>, wires: Wires, outs: seq<nat>, n: nat, c: seq<Component>, k: Cache)
    requires n < |outs| && TickPrefix(comps, wires, outs, n) == Done((), c, k)
    requires TickStep(c, wires, outs[n], k).Panic?
    ensures Tick(comps, wires, outs) == TickStep(c, wires, outs[n], k)
  {
    TickPrefixPanics(comps, wires, outs, n + 1, |outs|);
  }

  /**
   * One more output of a tick, stated on the evaluation it runs: an index
   * past the table or an aborted evaluation ends the whole tick with that
   * fault; a completed one extends the prefix with the table and cache it
   * leaves.
   */
  lemma TickPrefixAdvance(comps: seq<Component>, wires: Wires, outs: seq<nat>, n: nat, c: seq<Component>, k: Cache)
    requires n < |outs| && TickPrefix(comps, wires, outs, n) == Done((), c, k)
    ensures outs[n] >= |c| ==> Tick(comps, wires, outs) == Panic(NoSuchComponent(outs[n]))
    ensures outs[n] < |c| ==>
              var s := RevSim(c, wires, Pin(outs[n], 0), Pin(0, 0), {outs[n]}, k);
              && (s.Panic? ==> Tick(comps, wires, outs) == Panic(s.fault))
              && (s.Done? ==> TickPrefix(comps, wires, outs, n + 1) == Done((), s.comps, s.cache))
  {
    if TickStep(c, wires, outs[n], k).Panic? {
      TickStepPanics(comps, wires, outs, n, c, k);
    }
  }

  /** Once a tick aborts on one output, the whole tick aborts with the same fault. */
  lemma {:induction false} TickPrefixPanics(comps: seq<Component>, wires: Wires, outs: seq<nat>, n: nat, m: nat)
    requires n <= m <= |outs| && TickPrefix(comps, wires, outs, n).Panic?
    ensures TickPrefix(comps, wires, outs, m) == TickPrefix(comps, wires, outs, n)
    decreases m
  {
    if n < m {
      TickPrefixPanics(comps, wires, outs, n, m - 1);
    }
  }
}
