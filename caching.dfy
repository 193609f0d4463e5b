/**
 * What ends up in the per-tick cache. Only an input component writes it, so
 * every cached value is the state some input emits; the key is the pin the
 * request came through on the calling side: pin 0 of an output that reads the
 * input directly, or pin 1 of the gate whose operand it is. A gate's result
 * is never cached, and nothing is ever removed during a tick.
 */
module Caching {
  import opened Signal
  import opened Circuit
  import opened Evaluation

  /** A calling-side key: pin 0 of an output, or pin 1 of a gate. */
  predicate CallerKey(comps: seq<Component>, k: Pin)
  {
    && k.component < |comps|
    && ((comps[k.component].Output? && k.index == 0) || (IsGate(comps[k.component]) && k.index == 1))
  }

  /** Some input component of the table emits `v`. */
  predicate Emitted(comps: seq<Component>, v: State)
  {
    exists i :: 0 <= i < |comps| && comps[i] == Input(v)
  }

  /**
   * Going from cache `before` to cache `after` removed nothing, and every
   * entry it added or overwrote is keyed by `key` or by a calling-side pin
   * and holds a value some input emits.
   */
  predicate Disciplined(comps: seq<Component>, before: Cache, after: Cache, key: Pin)
  {
    && before.Keys <= after.Keys
    && forall k :: k in after && (k !in before || after[k] != before[k]) ==>
         (k == key || CallerKey(comps, k)) && Emitted(comps, after[k])
  }

  /** Discipline stated against one table holds against any table of the same shape. */
  lemma DisciplineTransfers(c0: seq<Component>, c1: seq<Component>, before: Cache, after: Cache, key: Pin)
    requires SameShape(c0, c1) && Disciplined(c1, before, after, key)
    ensures Disciplined(c0, before, after, key)
  {
    forall k | k in after && (k !in before || after[k] != before[k])
      ensures (k == key || CallerKey(c0, k)) && Emitted(c0, after[k])
    {
      if k != key {
        assert Agree(c0[k.component], c1[k.component]);
      }
      var i :| 0 <= i < |c1| && c1[i] == Input(after[k]);
      assert Agree(c0[i], c1[i]);
    }
  }

  lemma DisciplineCompose(comps: seq<Component>, a: Cache, b: Cache, c: Cache, key: Pin)
    requires Disciplined(comps, a, b, key) && Disciplined(comps, b, c, key)
    ensures Disciplined(comps, a, c, key)
  {
  }

  lemma {:induction false} RevSimCaches(comps: seq<Component>, wires: Wires, input: Pin, output: Pin,
                                        borrowed: set<nat>, cache: Cache)
    requires input.component < |comps| && input.component in borrowed
    ensures var r := RevSim(comps, wires, input, output, borrowed, cache);
            r.Done? ==> Disciplined(comps, cache, r.cache, output)
    decreases Unborrowed(|comps|, borrowed), 3
  {
    var self := input.component;
    match comps[self]
    case Input(s) =>
      assert comps[self] == Input(s);
    case Output(_) =>
      OutputCaches(comps, wires, input, output, borrowed, cache);
    case Custom(_) =>
    case OrGate => GateCaches(comps, wires, input, output, borrowed, cache);
    case AndGate => GateCaches(comps, wires, input, output, borrowed, cache);
    case XorGate => GateCaches(comps, wires, input, output, borrowed, cache);
    case NotGate => GateCaches(comps, wires, input, output, borrowed, cache);
  }

  /**
   * An output passes its own pin 0, not the key it was handed, down to its
   * driver: every entry its evaluation adds or overwrites is under some
   * calling-side pin, whatever that key is, and holds a value some input emits.
   */
  lemma {:induction false} OutputCaches(comps: seq<Component>, wires: Wires, input: Pin, output: Pin,
                                        borrowed: set<nat>, cache: Cache)
    requires input.component < |comps| && input.component in borrowed
    requires comps[input.component].Output?
    ensures var r := RevSim(comps, wires, input, output, borrowed, cache);
            r.Done? ==> forall k :: k in r.cache && (k !in cache || r.cache[k] != cache[k]) ==>
                          CallerKey(comps, k) && Emitted(comps, r.cache[k])
    ensures var r := RevSim(comps, wires, input, output, borrowed, cache);
            r.Done? ==> cache.Keys <= r.cache.Keys
    decreases Unborrowed(|comps|, borrowed), 2
  {
    if input.index == 0 && input in wires {
      var next := wires[input];
      if next !in cache && next.component < |comps| && next.component !in borrowed {
        BorrowShrinks(|comps|, borrowed, next.component);
        RevSimCaches(comps, wires, next, input, borrowed + {next.component}, cache);
      }
    }
  }

  /** A gate hands its own pin 1 to its operands: the discipline holds with that key, whatever key the gate was handed. */
  lemma {:induction false} GateCaches(comps: seq<Component>, wires: Wires, input: Pin, output: Pin,
                                      borrowed: set<nat>, cache: Cache)
    requires input.component < |comps| && input.component in borrowed
    requires IsGate(comps[input.component])
    ensures var r := RevSim(comps, wires, input, output, borrowed, cache);
            r.Done? ==> Disciplined(comps, cache, r.cache, Pin(input.component, 1))
    decreases Unborrowed(|comps|, borrowed), 2
  {
    var self := input.component;
    NsimCaches(comps, wires, self, OperandPins(self, comps[self]), borrowed, cache);
  }

  lemma {:induction false} NsimCaches(comps: seq<Component>, wires: Wires, caller: nat, pins: seq<Pin>,
                                      borrowed: set<nat>, cache: Cache)
    ensures var r := Nsim(comps, wires, caller, pins, borrowed, cache);
            r.Done? ==> Disciplined(comps, cache, r.cache, Pin(caller, 1))
    decreases Unborrowed(|comps|, borrowed), 1, |pins|
  {
    if pins != [] {
      var front := pins[..|pins| - 1];
      NsimCaches(comps, wires, caller, front, borrowed, cache);
      var o := Nsim(comps, wires, caller, front, borrowed, cache);
      if o.Done? {
        var last := pins[|pins| - 1];
        if last in wires {
          SimPinCaches(o.comps, wires, caller, wires[last], borrowed, o.cache);
          var p := Operand(o.comps, wires, caller, last, borrowed, o.cache);
          if p.Done? {
            DisciplineTransfers(comps, o.comps, o.cache, p.cache, Pin(caller, 1));
            DisciplineCompose(comps, cache, o.cache, p.cache, Pin(caller, 1));
          }
        }
      }
    }
  }

  lemma {:induction false} SimPinCaches(comps: seq<Component>, wires: Wires, caller: nat, d: Pin,
                                        borrowed: set<nat>, cache: Cache)
    ensures var r := SimPin(comps, wires, caller, d, borrowed, cache);
            r.Done? ==> Disciplined(comps, cache, r.cache, Pin(caller, 1))
    decreases Unborrowed(|comps|, borrowed), 0
  {
    if d !in cache && d.component < |comps| && d.component !in borrowed {
      BorrowShrinks(|comps|, borrowed, d.component);
      RevSimCaches(comps, wires, d, Pin(caller, 1), borrowed + {d.component}, cache);
    }
  }

  /** Every index in `outs` that is in the table names an output component. */
  predicate OutputsOnly(comps: seq<Component>, outs: seq<nat>)
  {
    forall j :: 0 <= j < |outs| && outs[j] < |comps| ==> comps[outs[j]].Output?
  }

  lemma {:induction false} TickPrefixCaches(comps: seq<Component>, wires: Wires, outs: seq<nat>, n: nat)
    requires n <= |outs| && OutputsOnly(comps, outs)
    ensures var r := TickPrefix(comps, wires, outs, n);
            r.Done? ==> forall k :: k in r.cache ==> CallerKey(comps, k) && Emitted(comps, r.cache[k])
  {
    if n > 0 {
      TickPrefixCaches(comps, wires, outs, n - 1);
      var o := TickPrefix(comps, wires, outs, n - 1);
      var out := outs[n - 1];
      if o.Done? && out < |o.comps| {
        assert Agree(comps[out], o.comps[out]);
        OutputCaches(o.comps, wires, Pin(out, 0), Pin(0, 0), {out}, o.cache);
        var r := TickPrefix(comps, wires, outs, n);
        if r.Done? {
          DisciplineTransfers(comps, o.comps, o.cache, r.cache, Pin(out, 0));
        }
      }
    }
  }

  /**
   * After a tick over output components only, every cache entry is keyed by
   * an output's pin 0 or a gate's pin 1 and holds a value some input emits.
   */
  lemma TickCaches(comps: seq<Component>, wires: Wires, outs: seq<nat>)
    requires OutputsOnly(comps, outs)
    ensures var r := Tick(comps, wires, outs);
            r.Done? ==> forall k :: k in r.cache ==> CallerKey(comps, k) && Emitted(comps, r.cache[k])
  {
    TickPrefixCaches(comps, wires, outs, |outs|);
  }
}
