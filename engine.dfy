/**
 * The simulator: it owns the component table, the lists of input and output
 * components, and the two connection maps, and it runs ticks.
 *
 * The evaluator methods below do in place what the functions of module
 * `Evaluation` describe: each is proved to leave exactly the table, cache and
 * result (or fault) that its specification function computes.
 */
module Engine {
  import opened Signal
  import opened Circuit
  import opened Evaluation
  import Caching

  /** `c` is an output (when `output`) or an input (otherwise). */
  predicate HasRole(c: Component, output: bool)
  {
    if output then c.Output? else c.Input?
  }

  /** `ids` lists, in increasing order, exactly the indices of the components in `comps` with that role. */
  predicate Lists(ids: seq<nat>, comps: seq<Component>, output: bool)
  {
    && (forall k :: 0 <= k < |ids| ==> ids[k] < |comps| && HasRole(comps[ids[k]], output))
    && (forall k, l :: 0 <= k < l < |ids| ==> ids[k] < ids[l])
    && (forall i :: 0 <= i < |comps| && HasRole(comps[i], output) ==> i in ids)
  }

  /** The two tables have the same length and inputs and outputs at the same indices. */
  predicate SameRoles(c0: seq<Component>, c1: seq<Component>)
  {
    |c0| == |c1| && forall i :: 0 <= i < |c0| ==> c0[i].Input? == c1[i].Input? && c0[i].Output? == c1[i].Output?
  }

  /** The indices of the components of `comps` with that role, in table order. */
  function RoleIndices(comps: seq<Component>, output: bool): (ids: seq<nat>)
  {
    if comps == [] then []
    else
      var last := |comps| - 1;
      RoleIndices(comps[..last], output) + (if HasRole(comps[last], output) then [last] else [])
  }

  /** Every listed index is in the table and has the role. */
  lemma {:induction false} RoleIndicesSound(comps: seq<Component>, output: bool)
    ensures forall k :: 0 <= k < |RoleIndices(comps, output)| ==>
              RoleIndices(comps, output)[k] < |comps| && HasRole(comps[RoleIndices(comps, output)[k]], output)
    decreases |comps|
  {
    if comps != [] {
      var last := |comps| - 1;
      var prefix := comps[..last];
      RoleIndicesSound(prefix, output);
      var before := RoleIndices(prefix, output);
      var ids := RoleIndices(comps, output);
      forall k | 0 <= k < |ids| ensures ids[k] < |comps| && HasRole(comps[ids[k]], output) {
        if k < |before| {
          assert ids[k] == before[k];
          assert prefix[before[k]] == comps[before[k]];
        } else {
          assert ids[k] == last;
        }
      }
    }
  }

  /** The listed indices increase strictly. */
  lemma {:induction false} RoleIndicesSorted(comps: seq<Component>, output: bool)
    ensures forall k, l :: 0 <= k < l < |RoleIndices(comps, output)| ==>
              RoleIndices(comps, output)[k] < RoleIndices(comps, output)[l]
    decreases |comps|
  {
    if comps != [] {
      var last := |comps| - 1;
      var prefix := comps[..last];
      RoleIndicesSorted(prefix, output);
      RoleIndicesSound(prefix, output);
      var before := RoleIndices(prefix, output);
      var ids := RoleIndices(comps, output);
      forall k, l | 0 <= k < l < |ids| ensures ids[k] < ids[l] {
        assert ids[k] == before[k];
        if l < |before| {
          assert ids[l] == before[l];
        } else {
          assert ids[l] == last;
        }
      }
    }
  }

  /** Every index of the table with the role is listed. */
  lemma {:induction false} RoleIndicesComplete(comps: seq<Component>, output: bool)
    ensures forall i :: 0 <= i < |comps| && HasRole(comps[i], output) ==> i in RoleIndices(comps, output)
    decreases |comps|
  {
    if comps != [] {
      var last := |comps| - 1;
      var prefix := comps[..last];
      RoleIndicesComplete(prefix, output);
      var before := RoleIndices(prefix, output);
      var ids := RoleIndices(comps, output);
      forall i | 0 <= i < |comps| && HasRole(comps[i], output) ensures i in ids {
        if i < last {
          assert prefix[i] == comps[i];
          var k :| 0 <= k < |before| && before[k] == i;
          assert ids[k] == i;
        } else {
          assert ids[|ids| - 1] == i;
        }
      }
    }
  }

  /** `RoleIndices` meets `Lists`: it holds exactly the indices with that role, in increasing order. */
  lemma RoleIndicesLists(comps: seq<Component>, output: bool)
    ensures Lists(RoleIndices(comps, output), comps, output)
  {
    RoleIndicesSound(comps, output);
    RoleIndicesSorted(comps, output);
    RoleIndicesComplete(comps, output);
  }

  /** Only roles matter: tables with inputs and outputs at the same indices list the same indices. */
  lemma {:induction false} RoleIndicesKeep(c0: seq<Component>, c1: seq<Component>, output: bool)
    requires SameRoles(c0, c1)
    ensures RoleIndices(c0, output) == RoleIndices(c1, output)
    decreases |c0|
  {
    if c0 != [] {
      var last := |c0| - 1;
      assert HasRole(c0[last], output) == HasRole(c1[last], output);
      RoleIndicesKeep(c0[..last], c1[..last], output);
    }
  }

  /** Evaluation keeps every component's role, so it keeps both index lists. */
  lemma ShapeKeepsIndices(c0: seq<Component>, c1: seq<Component>)
    requires SameShape(c0, c1)
    ensures RoleIndices(c0, false) == RoleIndices(c1, false)
    ensures RoleIndices(c0, true) == RoleIndices(c1, true)
  {
    forall i | 0 <= i < |c0| ensures c0[i].Input? == c1[i].Input? && c0[i].Output? == c1[i].Output? {
      assert Agree(c0[i], c1[i]);
    }
    RoleIndicesKeep(c0, c1, false);
    RoleIndicesKeep(c0, c1, true);
  }

  /**
   * A tick over the output list the table determines keeps the cache
   * discipline: every entry is under an output's pin 0 or a gate's pin 1 and
   * holds a value some input emits.
   */
  lemma ValidTickCaches(comps: seq<Component>, wires: Wires)
    ensures var r := Tick(comps, wires, RoleIndices(comps, true));
            r.Done? ==> forall k :: k in r.cache ==> Caching.CallerKey(comps, k) && Caching.Emitted(comps, r.cache[k])
  {
    RoleIndicesSound(comps, true);
    Caching.TickCaches(comps, wires, RoleIndices(comps, true));
  }

  class Simulator {
    /** Indices of the input components. */
    var inputComponents: seq<nat>
    /** Indices of the output components, in the order a tick evaluates them. */
    var outputComponents: seq<nat>
    /** The component table. */
    var components: seq<Component>
    /** Driver pin to the consumer pin it feeds (the last one connected). */
    var inToOut: map<Pin, Pin>
    /** Consumer pin to the driver pin feeding it. */
    var outToIn: map<Pin, Pin>

    /** The two index lists name exactly the inputs and the outputs of the table, in table order. */
    predicate Valid()
      reads this`inputComponents, this`outputComponents, this`components
    {
      inputComponents == RoleIndices(components, false) && outputComponents == RoleIndices(components, true)
    }

    /** The output list of a valid simulator names outputs only, so the `Caching` lemmas apply to its ticks. */
    lemma ValidOutputsOnly()
      requires Valid()
      ensures Caching.OutputsOnly(components, outputComponents)
    {
      RoleIndicesSound(components, true);
    }

    constructor ()
      ensures Valid()
      ensures components == [] && inputComponents == [] && outputComponents == []
      ensures inToOut == map[] && outToIn == map[]
    {
      inputComponents := [];
      outputComponents := [];
      components := [];
      inToOut := map[];
      outToIn := map[];
    }

    /** The component `h` refers to; a handle past the end of the table is a fault. */
    function GetComponent(h: Handle): (r: Result<Component>)
      reads this
      ensures r.Ok? <==> h.index < |components|
      ensures r.Ok? ==> r.value == components[h.index]
      ensures r.Err? ==> r.fault == NoSuchComponent(h.index)
    {
      if h.index < |components| then Ok(components[h.index]) else Err(NoSuchComponent(h.index))
    }

    /** Appends `c` to the table and, for an input or an output, its index to the matching list. */
    method InsertComponent(c: Component) returns (index: nat)
      modifies this`components, this`inputComponents, this`outputComponents
      ensures old(Valid()) ==> Valid()
      ensures index == old(|components|) && components == old(components) + [c]
      ensures inputComponents == old(inputComponents) + (if c.Input? then [index] else [])
      ensures outputComponents == old(outputComponents) + (if c.Output? then [index] else [])
    {
      index := |components|;
      if c.Input? {
        inputComponents := inputComponents + [index];
      } else if c.Output? {
        outputComponents := outputComponents + [index];
      }
      components := components + [c];
      assert components[..index] == old(components);
    }

    /**
     * Wires driver pin `driver` to consumer pin `consumer`, overwriting any
     * earlier entry under either key.
     */
    method Connect(driver: Pin, consumer: Pin)
      modifies this`inToOut, this`outToIn
      ensures inToOut == old(inToOut)[driver := consumer]
      ensures outToIn == old(outToIn)[consumer := driver]
      ensures old(Valid()) ==> Valid()
    {
      inToOut := inToOut[driver := consumer];
      outToIn := outToIn[consumer := driver];
    }

    /** Overwrites the settled value of an output; any other component is a fault. */
    method SetPin(pin: Pin, value: State) returns (r: Result<()>)
      modifies this`components
      ensures old(Valid()) ==> Valid()
      ensures r.Ok? <==> pin.component < |old(components)| && old(components)[pin.component].Output?
      ensures r.Ok? ==> components == old(components)[pin.component := Output(value)]
      ensures r.Err? ==> components == old(components)
      ensures r.Err? && pin.component < |old(components)| ==> r.fault == NoInputPin
    {
      if pin.component >= |components| {
        return Err(NoSuchComponent(pin.component));
      }
      match Circuit.SetPin(components[pin.component], pin.index, value)
      case Ok(c) =>
        components := components[pin.component := c];
        r := Ok(());
        RoleIndicesKeep(old(components), components, false);
        RoleIndicesKeep(old(components), components, true);
      case Err(f) =>
        r := Err(f);
    }

    /** The value an input emits; any other component is a fault. */
    method GetPin(pin: Pin) returns (r: Result<State>)
      ensures r.Ok? <==> pin.component < |components| && components[pin.component].Input?
      ensures r.Ok? ==> components[pin.component] == Input(r.value)
      ensures r.Err? && pin.component < |components| ==> r.fault == NoOutputPin
    {
      if pin.component >= |components| {
        return Err(NoSuchComponent(pin.component));
      }
      r := Circuit.GetPin(components[pin.component], pin.index);
    }

    /** Overwrites the value an input emits; any other component is a fault. */
    method SetInput(pin: Pin, value: State) returns (r: Result<()>)
      modifies this`components
      ensures old(Valid()) ==> Valid()
      ensures r.Ok? <==> pin.component < |old(components)| && old(components)[pin.component].Input?
      ensures r.Ok? ==> components == old(components)[pin.component := Input(value)]
      ensures r.Err? ==> components == old(components)
      ensures r.Err? && pin.component < |old(components)| ==> r.fault == NotAnInput
    {
      if pin.component >= |components| {
        return Err(NoSuchComponent(pin.component));
      }
      match Circuit.SetInput(components[pin.component], pin.index, value)
      case Ok(c) =>
        components := components[pin.component := c];
        r := Ok(());
        RoleIndicesKeep(old(components), components, false);
        RoleIndicesKeep(old(components), components, true);
      case Err(f) =>
        r := Err(f);
    }

    /** The stored state of an input or an output, without evaluating anything; other components are a fault. */
    method InspectPin(pin: Pin) returns (r: Result<State>)
      ensures r.Ok? <==> pin.component < |components| && (components[pin.component].Input? || components[pin.component].Output?)
      ensures r.Ok? ==> r.value == components[pin.component].state
      ensures r.Err? && pin.component < |components| ==> r.fault == NotInspectable
    {
      if pin.component >= |components| {
        return Err(NoSuchComponent(pin.component));
      }
      r := Circuit.InspectPin(components[pin.component], pin.index);
    }

    /** Evaluates the (borrowed) component owning `input`, in place; see `Evaluation.RevSim`. */
    method RevSim(input: Pin, output: Pin, borrowed: set<nat>, cache: Cache) returns (r: Result<State>, cache': Cache)
      requires input.component < |components| && input.component in borrowed
      modifies this`components
      ensures SameShape(old(components), components)
      ensures match Evaluation.RevSim(old(components), outToIn, input, output, borrowed, cache)
              case Done(v, c, k) => r == Ok(v) && components == c && cache' == k
              case Panic(f) => r == Err(f)
      decreases Unborrowed(|components|, borrowed), 3
    {
      var self := input.component;
      var kind := components[self];
      cache' := cache;
      match kind
      case Input(s) =>
        cache' := cache[output := s];
        r := Ok(s);
      case Output(_) =>
        if input.index != 0 {
          return Err(OutputPinNotZero(input)), cache;
        }
        if input !in outToIn {
          return Ok(Invalid), cache;
        }
        var next := outToIn[input];
        if next in cache {
          return Ok(cache[next]), cache;
        }
        if next.component >= |components| {
          return Err(NoSuchComponent(next.component)), cache;
        }
        if next.component in borrowed {
          return Err(AlreadyBorrowed(next.component)), cache;
        }
        BorrowShrinks(|components|, borrowed, next.component);
        r, cache' := RevSim(next, input, borrowed + {next.component}, cache);
        if r.Ok? {
          components := components[self := Output(r.value)];
        }
      case Custom(_) =>
        r := Ok(Low);
      case _ =>
        var operands;
        operands, cache' := Nsim(self, OperandPins(self, kind), borrowed, cache);
        if operands.Err? {
          return Err(operands.fault), cache';
        }
        r := Ok(GateOutput(kind, operands.value));
    }

    /** Resolves the operand pins of gate `caller` left to right, in place; see `Evaluation.Nsim`. */
    method Nsim(caller: nat, pins: seq<Pin>, borrowed: set<nat>, cache: Cache) returns (r: Result<seq<State>>, cache': Cache)
      modifies this`components
      ensures SameShape(old(components), components)
      ensures match Evaluation.Nsim(old(components), outToIn, caller, pins, borrowed, cache)
              case Done(vs, c, k) => r == Ok(vs) && components == c && cache' == k
              case Panic(f) => r == Err(f)
      decreases Unborrowed(|components|, borrowed), 2
    {
      var values: seq<State> := [];
      cache' := cache;
      var i := 0;
      while i < |pins|
        invariant 0 <= i <= |pins|
        invariant SameShape(old(components), components)
        invariant Evaluation.Nsim(old(components), outToIn, caller, pins[..i], borrowed, cache) == Done(values, components, cache')
      {
        assert pins[..i + 1][..i] == pins[..i];
        var v: State;
        if pins[i] !in outToIn {
          v := Invalid;
        } else {
          ghost var before := components;
          var s;
          s, cache' := SimPin(caller, outToIn[pins[i]], borrowed, cache');
          SameShapeTrans(old(components), before, components);
          if s.Err? {
            NsimPrefixPanics(old(components), outToIn, caller, pins, i + 1, borrowed, cache);
            return Err(s.fault), cache';
          }
          v := s.value;
        }
        values := values + [v];
        i := i + 1;
      }
      assert pins[..i] == pins;
      r := Ok(values);
    }

    /** The value of driver pin `d` for gate `caller`, from the cache or by evaluating it; see `Evaluation.SimPin`. */
    method SimPin(caller: nat, d: Pin, borrowed: set<nat>, cache: Cache) returns (r: Result<State>, cache': Cache)
      modifies this`components
      ensures SameShape(old(components), components)
      ensures match Evaluation.SimPin(old(components), outToIn, caller, d, borrowed, cache)
              case Done(v, c, k) => r == Ok(v) && components == c && cache' == k
              case Panic(f) => r == Err(f)
      decreases Unborrowed(|components|, borrowed), 0
    {
      if d in cache {
        return Ok(cache[d]), cache;
      }
      if d.component >= |components| {
        return Err(NoSuchComponent(d.component)), cache;
      }
      if d.component in borrowed {
        return Err(AlreadyBorrowed(d.component)), cache;
      }
      BorrowShrinks(|components|, borrowed, d.component);
      r, cache' := RevSim(d, Pin(caller, 1), borrowed + {d.component}, cache);
    }

    /** The two-operand resolver, in place; see `Evaluation.BinarySim`. */
    method BinarySim(caller: nat, left: Pin, right: Pin, borrowed: set<nat>, cache: Cache)
      returns (r: Result<Option<(State, State)>>, cache': Cache)
      modifies this`components
      ensures SameShape(old(components), components)
      ensures match Evaluation.BinarySim(old(components), outToIn, caller, left, right, borrowed, cache)
              case Done(v, c, k) => r == Ok(v) && components == c && cache' == k
              case Panic(f) => r == Err(f)
      decreases Unborrowed(|components|, borrowed), 2
    {
      if left !in outToIn || right !in outToIn {
        return Ok(None), cache;
      }
      var l, rv;
      l, cache' := SimPin(caller, outToIn[left], borrowed, cache);
      if l.Err? {
        return Err(l.fault), cache';
      }
      rv, cache' := SimPin(caller, outToIn[right], borrowed, cache');
      if rv.Err? {
        return Err(rv.fault), cache';
      }
      r := Ok(Some((l.value, rv.value)));
    }

    /**
     * One tick: with a fresh cache, evaluates every output component in list
     * order, asking each for its pin 0. Only outputs' settled values change.
     */
    method Tick() returns (r: Result<()>)
      modifies this`components
      ensures old(Valid()) ==> Valid()
      ensures SameShape(old(components), components)
      ensures var t := Evaluation.Tick(old(components), outToIn, outputComponents);
              if t.Done? then r == Ok(()) && components == t.comps else r == Err(t.fault)
    {
      r := Ok(());
      var cache: Cache := map[];
      var i := 0;
      while i < |outputComponents|
        invariant 0 <= i <= |outputComponents|
        invariant TickPrefix(old(components), outToIn, outputComponents, i) == Done((), components, cache)
      {
        var out := outputComponents[i];
        TickPrefixAdvance(old(components), outToIn, outputComponents, i, components, cache);
        if out >= |components| {
          r := Err(NoSuchComponent(out));
          break;
        }
        ghost var before := components;
        var s;
        s, cache := RevSim(Pin(out, 0), Pin(0, 0), {out}, cache);
        SameShapeTrans(old(components), before, components);
        if s.Err? {
          r := Err(s.fault);
          break;
        }
        i := i + 1;
      }
      ShapeKeepsIndices(old(components), components);
    }
  }
}
