/**
 * Evaluation never reads the settled value of an output, only overwrites
 * it. So two tables that differ only in their outputs' settled values
 * evaluate alike: same value, same cache, same fault, and the same writes.
 * A consequence is that a second tick right after a first one changes nothing.
 */
module Frame {
  import opened Signal
  import opened Circuit
  import opened Evaluation

  /**
   * Running from `c0` to `r0` and from `c1` to `r1` wrote the same values to
   * the same places: every slot either ends equal in both runs, or was left
   * alone by both.
   */
  predicate Written(c0: seq<Component>, r0: seq<Component>, c1: seq<Component>, r1: seq<Component>)
  {
    && |r0| == |c0| && |c1| == |c0| && |r1| == |c0|
    && forall i :: 0 <= i < |c0| ==> r0[i] == r1[i] || (r0[i] == c0[i] && r1[i] == c1[i])
  }

  /** Two runs, from `c0` and from `c1`, that ended alike. */
  predicate Parallel<T(==)>(c0: seq<Component>, o0: Outcome<T>, c1: seq<Component>, o1: Outcome<T>)
  {
    match o0
    case Panic(f) => o1 == Panic(f)
    case Done(v, r0, k) => o1.Done? && o1.value == v && o1.cache == k && Written(c0, r0, c1, o1.comps)
  }

  lemma WrittenCompose(c0: seq<Component>, m0: seq<Component>, r0: seq<Component>,
                       c1: seq<Component>, m1: seq<Component>, r1: seq<Component>)
    requires Written(c0, m0, c1, m1) && Written(m0, r0, m1, r1)
    ensures Written(c0, r0, c1, r1)
  {
  }

  lemma ShapeChain(c0: seq<Component>, c1: seq<Component>, m0: seq<Component>, m1: seq<Component>)
    requires SameShape(c0, c1) && SameShape(c0, m0) && SameShape(c1, m1)
    ensures SameShape(m0, m1)
  {
    forall i | 0 <= i < |m0| ensures Agree(m0[i], m1[i]) {
      assert Agree(c0[i], c1[i]) && Agree(c0[i], m0[i]) && Agree(c1[i], m1[i]);
    }
  }

  lemma {:induction false} RevSimFrame(c0: seq<Component>, c1: seq<Component>, wires: Wires, input: Pin, output: Pin,
                                       borrowed: set<nat>, cache: Cache)
    requires SameShape(c0, c1)
    requires input.component < |c0| && input.component in borrowed
    ensures Parallel(c0, RevSim(c0, wires, input, output, borrowed, cache),
                     c1, RevSim(c1, wires, input, output, borrowed, cache))
    decreases Unborrowed(|c0|, borrowed), 3
  {
    var self := input.component;
    assert Agree(c0[self], c1[self]);
    match c0[self]
    case Input(s) =>
    case Output(_) =>
      if input.index == 0 && input in wires {
        var next := wires[input];
        if next !in cache && next.component < |c0| && next.component !in borrowed {
          BorrowShrinks(|c0|, borrowed, next.component);
          RevSimFrame(c0, c1, wires, next, input, borrowed + {next.component}, cache);
        }
      }
    case Custom(_) =>
    case OrGate => NsimFrame(c0, c1, wires, self, OperandPins(self, c0[self]), borrowed, cache);
    case AndGate => NsimFrame(c0, c1, wires, self, OperandPins(self, c0[self]), borrowed, cache);
    case XorGate => NsimFrame(c0, c1, wires, self, OperandPins(self, c0[self]), borrowed, cache);
    case NotGate => NsimFrame(c0, c1, wires, self, OperandPins(self, c0[self]), borrowed, cache);
  }

  lemma {:induction false} NsimFrame(c0: seq<Component>, c1: seq<Component>, wires: Wires, caller: nat, pins: seq<Pin>,
                                     borrowed: set<nat>, cache: Cache)
    requires SameShape(c0, c1)
    ensures Parallel(c0, Nsim(c0, wires, caller, pins, borrowed, cache),
                     c1, Nsim(c1, wires, caller, pins, borrowed, cache))
    decreases Unborrowed(|c0|, borrowed), 2, |pins|
  {
    if pins != [] {
      var front := pins[..|pins| - 1];
      NsimFrame(c0, c1, wires, caller, front, borrowed, cache);
      var o0 := Nsim(c0, wires, caller, front, borrowed, cache);
      var o1 := Nsim(c1, wires, caller, front, borrowed, cache);
      if o0.Done? {
        ShapeChain(c0, c1, o0.comps, o1.comps);
        OperandFrame(o0.comps, o1.comps, wires, caller, pins[|pins| - 1], borrowed, o0.cache);
        var p0 := Operand(o0.comps, wires, caller, pins[|pins| - 1], borrowed, o0.cache);
        var p1 := Operand(o1.comps, wires, caller, pins[|pins| - 1], borrowed, o0.cache);
        if p0.Done? {
          WrittenCompose(c0, o0.comps, p0.comps, c1, o1.comps, p1.comps);
        }
      }
    }
  }

  lemma {:induction false} OperandFrame(c0: seq<Component>, c1: seq<Component>, wires: Wires, caller: nat, pin: Pin,
                                        borrowed: set<nat>, cache: Cache)
    requires SameShape(c0, c1)
    ensures Parallel(c0, Operand(c0, wires, caller, pin, borrowed, cache),
                     c1, Operand(c1, wires, caller, pin, borrowed, cache))
    decreases Unborrowed(|c0|, borrowed), 1
  {
    if pin in wires {
      SimPinFrame(c0, c1, wires, caller, wires[pin], borrowed, cache);
    }
  }

  lemma {:induction false} SimPinFrame(c0: seq<Component>, c1: seq<Component>, wires: Wires, caller: nat, d: Pin,
                                       borrowed: set<nat>, cache: Cache)
    requires SameShape(c0, c1)
    ensures Parallel(c0, SimPin(c0, wires, caller, d, borrowed, cache),
                     c1, SimPin(c1, wires, caller, d, borrowed, cache))
    decreases Unborrowed(|c0|, borrowed), 0
  {
    if d !in cache && d.component < |c0| && d.component !in borrowed {
      BorrowShrinks(|c0|, borrowed, d.component);
      RevSimFrame(c0, c1, wires, d, Pin(caller, 1), borrowed + {d.component}, cache);
    }
  }

  lemma {:induction false} TickPrefixFrame(c0: seq<Component>, c1: seq<Component>, wires: Wires, outs: seq<nat>, n: nat)
    requires SameShape(c0, c1) && n <= |outs|
    ensures Parallel(c0, TickPrefix(c0, wires, outs, n), c1, TickPrefix(c1, wires, outs, n))
  {
    if n > 0 {
      TickPrefixFrame(c0, c1, wires, outs, n - 1);
      var o0 := TickPrefix(c0, wires, outs, n - 1);
      var o1 := TickPrefix(c1, wires, outs, n - 1);
      if o0.Done? {
        ShapeChain(c0, c1, o0.comps, o1.comps);
        var out := outs[n - 1];
        if out < |o0.comps| {
          RevSimFrame(o0.comps, o1.comps, wires, Pin(out, 0), Pin(0, 0), {out}, o0.cache);
          var s0 := TickStep(o0.comps, wires, out, o0.cache);
          var s1 := TickStep(o1.comps, wires, out, o0.cache);
          if s0.Done? {
            WrittenCompose(c0, o0.comps, s0.comps, c1, o1.comps, s1.comps);
          }
        }
      }
    }
  }

  /**
   * A tick's outcome does not depend on the outputs' previous settled values:
   * the same fault, or the same writes to the same outputs.
   */
  lemma TickFrame(c0: seq<Component>, c1: seq<Component>, wires: Wires, outs: seq<nat>)
    requires SameShape(c0, c1)
    ensures Parallel(c0, Tick(c0, wires, outs), c1, Tick(c1, wires, outs))
  {
    TickPrefixFrame(c0, c1, wires, outs, |outs|);
  }

  /** A second tick with nothing changed in between leaves every component as the first one left it. */
  lemma TickIdempotent(comps: seq<Component>, wires: Wires, outs: seq<nat>)
    requires Tick(comps, wires, outs).Done?
    ensures Tick(Tick(comps, wires, outs).comps, wires, outs).Done?
    ensures Tick(Tick(comps, wires, outs).comps, wires, outs).comps == Tick(comps, wires, outs).comps
  {
    var settled := Tick(comps, wires, outs).comps;
    TickFrame(comps, settled, wires, outs);
    var again := Tick(settled, wires, outs).comps;
    assert forall i :: 0 <= i < |settled| ==> again[i] == settled[i];
  }
}
