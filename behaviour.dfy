/**
 * How each component kind answers an evaluation request, stated per branch
 * of the evaluator, and how the unused two-operand resolver relates to the
 * operand loop the gates use.
 */
module Behaviour {
  import opened Signal
  import opened Circuit
  import opened Evaluation

  /** An input emits its stored value and records it under the key it was handed; nothing else changes. */
  lemma InputEvaluation(comps: seq<Component>, wires: Wires, input: Pin, output: Pin, borrowed: set<nat>, cache: Cache)
    requires input.component < |comps| && input.component in borrowed
    requires comps[input.component].Input?
    ensures RevSim(comps, wires, input, output, borrowed, cache)
         == Done(comps[input.component].state, comps, cache[output := comps[input.component].state])
  {
  }

  /**
   * An output must be asked for pin 0. Undriven, it yields `Invalid` and keeps
   * its settled value; when its driver pin is cached it returns the cached
   * value, again without storing it; otherwise it evaluates the driver and
   * stores the result as its settled value. Its driver must exist and must
   * not be on the current path (which includes the output itself).
   */
  lemma OutputEvaluation(comps: seq<Component>, wires: Wires, input: Pin, output: Pin, borrowed: set<nat>, cache: Cache)
    requires input.component < |comps| && input.component in borrowed
    requires comps[input.component].Output?
    ensures var r := RevSim(comps, wires, input, output, borrowed, cache);
            && (input.index != 0 ==> r == Panic(OutputPinNotZero(input)))
            && (input.index == 0 && input !in wires ==> r == Done(Invalid, comps, cache))
            && (input.index == 0 && input in wires && wires[input] in cache ==>
                  r == Done(cache[wires[input]], comps, cache))
            && (input.index == 0 && input in wires && wires[input] !in cache ==>
                  && (wires[input].component >= |comps| ==> r == Panic(NoSuchComponent(wires[input].component)))
                  && (wires[input].component < |comps| && wires[input].component in borrowed ==>
                        r == Panic(AlreadyBorrowed(wires[input].component)))
                  && (r.Done? ==> r.comps[input.component] == Output(r.value)))
  {
  }

  /** The placeholder component answers `Low` for every pin, reading and changing nothing. */
  lemma CustomEvaluation(comps: seq<Component>, wires: Wires, input: Pin, output: Pin, borrowed: set<nat>, cache: Cache)
    requires input.component < |comps| && input.component in borrowed
    requires comps[input.component].Custom?
    ensures RevSim(comps, wires, input, output, borrowed, cache) == Done(Low, comps, cache)
  {
  }

  /** A gate does not look at which of its pins was asked for, nor at the key it was handed. */
  lemma GateIgnoresRequestedPin(comps: seq<Component>, wires: Wires, self: nat, p: nat, q: nat,
                                o1: Pin, o2: Pin, borrowed: set<nat>, cache: Cache)
    requires self < |comps| && self in borrowed && IsGate(comps[self])
    ensures RevSim(comps, wires, Pin(self, p), o1, borrowed, cache) == RevSim(comps, wires, Pin(self, q), o2, borrowed, cache)
  {
  }

  /**
   * A gate applies its truth table to the operand values, read in pin order;
   * in particular an `Invalid` operand makes the result `Invalid`.
   */
  lemma GateEvaluation(comps: seq<Component>, wires: Wires, input: Pin, output: Pin, borrowed: set<nat>, cache: Cache)
    requires input.component < |comps| && input.component in borrowed
    requires IsGate(comps[input.component])
    ensures var g := comps[input.component];
            var ops := Nsim(comps, wires, input.component, OperandPins(input.component, g), borrowed, cache);
            var r := RevSim(comps, wires, input, output, borrowed, cache);
            && (ops.Panic? ==> r == Panic(ops.fault))
            && (ops.Done? ==> r == Done(GateOutput(g, ops.value), ops.comps, ops.cache))
            && (ops.Done? && Invalid in ops.value ==> r.value == Invalid)
  {
    var g := comps[input.component];
    var ops := Nsim(comps, wires, input.component, OperandPins(input.component, g), borrowed, cache);
    if ops.Done? && Invalid in ops.value {
      var j :| 0 <= j < |ops.value| && ops.value[j] == Invalid;
    }
  }

  /** A gate with an operand pin that nothing drives settles, when its evaluation completes, to `Invalid`. */
  lemma UnconnectedOperand(comps: seq<Component>, wires: Wires, input: Pin, output: Pin, borrowed: set<nat>,
                           cache: Cache, j: nat)
    requires input.component < |comps| && input.component in borrowed
    requires IsGate(comps[input.component]) && j < InputLen(comps[input.component])
    requires Pin(input.component, j) !in wires
    ensures var r := RevSim(comps, wires, input, output, borrowed, cache);
            r.Done? ==> r.value == Invalid
  {
    var self := input.component;
    var ops := Nsim(comps, wires, self, OperandPins(self, comps[self]), borrowed, cache);
    GateEvaluation(comps, wires, input, output, borrowed, cache);
    if ops.Done? {
      assert ops.value[j] == Invalid;
    }
  }

  /**
   * When every operand of a gate is unconnected nothing is evaluated: the
   * gate settles to `Invalid` and the table and cache are untouched.
   */
  lemma {:induction false} NsimUnconnected(comps: seq<Component>, wires: Wires, caller: nat, pins: seq<Pin>,
                                           borrowed: set<nat>, cache: Cache)
    requires forall j :: 0 <= j < |pins| ==> pins[j] !in wires
    ensures var r := Nsim(comps, wires, caller, pins, borrowed, cache);
            && r.Done? && r.comps == comps && r.cache == cache
            && forall j :: 0 <= j < |r.value| ==> r.value[j] == Invalid
    decreases |pins|
  {
    if pins != [] {
      NsimUnconnected(comps, wires, caller, pins[..|pins| - 1], borrowed, cache);
    }
  }

  /**
   * A driver pin found in the cache is answered from it, before anything is
   * borrowed, even when its component is on the current path; otherwise
   * re-entering a component on the path aborts.
   */
  lemma SimPinConsultsCacheFirst(comps: seq<Component>, wires: Wires, caller: nat, d: Pin, borrowed: set<nat>, cache: Cache)
    ensures d in cache ==> SimPin(comps, wires, caller, d, borrowed, cache) == Done(cache[d], comps, cache)
    ensures d !in cache && d.component < |comps| && d.component in borrowed ==>
              SimPin(comps, wires, caller, d, borrowed, cache) == Panic(AlreadyBorrowed(d.component))
    ensures d !in cache && d.component >= |comps| ==>
              SimPin(comps, wires, caller, d, borrowed, cache) == Panic(NoSuchComponent(d.component))
  {
  }

  /**
   * The two-operand resolver gives up with `None`, evaluating nothing, when
   * either operand is unconnected, where the operand loop would read
   * `Invalid` for it instead; with both connected the two agree.
   */
  lemma BinarySimAgreesWithNsim(comps: seq<Component>, wires: Wires, caller: nat, left: Pin, right: Pin,
                                borrowed: set<nat>, cache: Cache)
    ensures var b := BinarySim(comps, wires, caller, left, right, borrowed, cache);
            var n := Nsim(comps, wires, caller, [left, right], borrowed, cache);
            && (left !in wires || right !in wires ==> b == Done(None, comps, cache))
            && (left in wires && right in wires ==>
                  && (n.Panic? ==> b == Panic(n.fault))
                  && (n.Done? ==> b == Done(Some((n.value[0], n.value[1])), n.comps, n.cache)))
  {
    if left in wires && right in wires {
      assert [left, right][..1] == [left];
      assert [left][..0] == [];
      assert Nsim(comps, wires, caller, [], borrowed, cache) == Done([], comps, cache);
      var first := Nsim(comps, wires, caller, [left], borrowed, cache);
      var l := SimPin(comps, wires, caller, wires[left], borrowed, cache);
      assert Operand(comps, wires, caller, left, borrowed, cache) == l;
      assert first.Panic? <==> l.Panic?;
      if l.Done? {
        assert [] + [l.value] == [l.value];
        assert first == Done([l.value], l.comps, l.cache);
        var r := SimPin(l.comps, wires, caller, wires[right], borrowed, l.cache);
        var n := Nsim(comps, wires, caller, [left, right], borrowed, cache);
        assert Operand(l.comps, wires, caller, right, borrowed, l.cache) == r;
        assert n.Panic? <==> r.Panic?;
      }
    }
  }
}
