/**
 * 2023 day 20: a network of pulse-processing components.  A broadcaster
 * forwards each pulse, a flip-flop toggles on low pulses, a conjunction
 * remembers the last level from each input and sends low only when all of
 * them were high, and a sink counts what reaches it.
 */
module Y2023Day20 {
  datatype State = On | Off

  /** A pulse level with the name of the component that sent it. */
  datatype Signal = High(from: string) | Low(from: string)

  /** A pulse on its way to the component named `dest`. */
  datatype Pulse = Pulse(dest: string, signal: Signal)

  datatype Component =
    | Broadcaster(name: string, targets: seq<string>)
    | FlipFlop(name: string, state: State, targets: seq<string>)
    | Conjunction(name: string, memory: map<string, State>, targets: seq<string>)
    | Sink(name: string, high: nat, low: nat)
    | Button(name: string)

  /** A component after it processed a pulse, and the pulses it sent. */
  datatype Reaction = Reaction(next: Component, out: seq<Pulse>)

  /** `targets`: where the component sends its pulses; a sink and the button send nowhere. */
  function Targets(c: Component): (t: seq<string>)
    ensures c.Sink? || c.Button? ==> t == []
    ensures c.Broadcaster? || c.FlipFlop? || c.Conjunction? ==> t == c.targets
  {
    match c
    case Broadcaster(_, targets) => targets
    case FlipFlop(_, _, targets) => targets
    case Conjunction(_, _, targets) => targets
    case Sink(_, _, _) => []
    case Button(_) => []
  }

  /** The same level to every target, in target order, from `name`. */
  function Send(name: string, targets: seq<string>, high: bool): seq<Pulse>
  {
    seq(|targets|, i requires 0 <= i < |targets| => Pulse(targets[i], if high then High(name) else Low(name)))
  }

  function Toggle(s: State): State
  {
    if s == On then Off else On
  }

  /** Every remembered input was high last time. */
  predicate AllOn(memory: map<string, State>)
  {
    forall k | k in memory :: memory[k] == On
  }

  /** `process`: the component's new state and the pulses it sends for one incoming pulse. */
  function Process(c: Component, signal: Signal): Reaction
  {
    match c
    case FlipFlop(name, state, targets) =>
      if signal.Low? then
        if state == On then Reaction(FlipFlop(name, Off, targets), Send(name, targets, false))
        else Reaction(FlipFlop(name, On, targets), Send(name, targets, true))
      else Reaction(c, [])
    case Conjunction(name, memory, targets) =>
      var memory' := memory[signal.from := if signal.High? then On else Off];
      Reaction(Conjunction(name, memory', targets), Send(name, targets, !AllOn(memory')))
    case Broadcaster(name, targets) =>
      Reaction(c, Send(name, targets, signal.High?))
    case Button(_) =>
      Reaction(c, [])
    case Sink(name, high, low) =>
      if signal.High? then Reaction(Sink(name, high + 1, low), [])
      else Reaction(Sink(name, high, low + 1), [])
  }

  // ------------------------------------------------------------ properties

  /** The pulses a component sends all carry its name, go to its targets in order, and share one level. */
  lemma ProcessSendsToTargets(c: Component, signal: Signal)
    ensures var r := Process(c, signal);
      r.next.name == c.name && Targets(r.next) == Targets(c) &&
      (r.out == [] || |r.out| == |Targets(c)|) &&
      forall i | 0 <= i < |r.out| ::
        r.out[i].dest == Targets(c)[i] && r.out[i].signal.from == c.name && r.out[i].signal.High? == r.out[0].signal.High?
  {
  }

  /** A flip-flop ignores a high pulse: it keeps its state and sends nothing. */
  lemma FlipFlopIgnoresHigh(name: string, state: State, targets: seq<string>, from: string)
    ensures Process(FlipFlop(name, state, targets), High(from)) == Reaction(FlipFlop(name, state, targets), [])
  {
  }

  /**
   * On a low pulse a flip-flop turns over and tells every target its new
   * state: high if it is now on, low if it is now off.  Two low pulses
   * bring it back where it was.
   */
  lemma FlipFlopToggles(name: string, state: State, targets: seq<string>, from: string, from': string)
    ensures var r := Process(FlipFlop(name, state, targets), Low(from));
      r.next.state != state && |r.out| == |targets| &&
      (forall i | 0 <= i < |r.out| :: r.out[i].dest == targets[i] && (r.out[i].signal.High? <==> r.next.state == On)) &&
      Process(r.next, Low(from')).next.state == state
  {
  }

  /**
   * A conjunction first records the sender's level, then sends low to every
   * target exactly when every remembered input is high, and high otherwise.
   */
  lemma ConjunctionRemembers(name: string, memory: map<string, State>, targets: seq<string>, signal: Signal)
    requires |targets| > 0
    ensures var r := Process(Conjunction(name, memory, targets), signal);
      r.next.memory == memory[signal.from := if signal.High? then On else Off] &&
      ((forall i | 0 <= i < |r.out| :: r.out[i].signal.Low?) <==> AllOn(r.next.memory))
  {
    var r := Process(Conjunction(name, memory, targets), signal);
    assert r.out[0].signal.Low? <==> AllOn(r.next.memory);
  }

  /** A conjunction remembering a single input inverts it. */
  lemma ConjunctionInverts(name: string, input: string, before: State, targets: seq<string>, signal: Signal)
    requires signal.from == input && |targets| > 0
    ensures Process(Conjunction(name, map[input := before], targets), signal).out[0].signal.High? == signal.Low?
  {
    var memory' := map[input := before][input := if signal.High? then On else Off];
    assert memory'.Keys == {input};
  }

  /** The broadcaster forwards the level it receives to every target, in target order. */
  lemma BroadcasterForwards(name: string, targets: seq<string>, signal: Signal)
    ensures var r := Process(Broadcaster(name, targets), signal);
      r.next == Broadcaster(name, targets) && |r.out| == |targets| &&
      forall i | 0 <= i < |targets| :: r.out[i].dest == targets[i] && r.out[i].signal.High? == signal.High?
  {
  }

  /** A sink counts one more pulse of the level it receives and sends nothing; the button does nothing. */
  lemma SinkCounts(name: string, high: nat, low: nat, signal: Signal)
    ensures var r := Process(Sink(name, high, low), signal);
      r.out == [] && r.next.high + r.next.low == high + low + 1 &&
      (signal.High? ==> r.next.high == high + 1) && (signal.Low? ==> r.next.low == low + 1)
    ensures Process(Button(name), signal) == Reaction(Button(name), [])
  {
  }

  // ---------------------------------------------------------------- samples

  /** The second example network as the parser reads it: conjunctions start with no memory. */
  function SampleItems(): seq<Component>
  {
    [Broadcaster("broadcaster", ["a"]),
     FlipFlop("a", Off, ["inv", "con"]),
     Conjunction("inv", map[], ["b"]),
     FlipFlop("b", Off, ["con"]),
     Conjunction("con", map[], ["output"]),
     Sink("output", 0, 0)]
  }

  /** In the second example only `a` sends to `inv`, and `a` and `b` send to `con`. */
  lemma SampleInputs()
    ensures InputsOf(SampleItems(), "inv") == {"a"}
    ensures InputsOf(SampleItems(), "con") == {"a", "b"}
  {
    var items := SampleItems();
    assert Targets(items[0]) == ["a"] && Targets(items[1]) == ["inv", "con"] && Targets(items[2]) == ["b"];
    assert Targets(items[3]) == ["con"] && Targets(items[4]) == ["output"] && Targets(items[5]) == [];
    assert items[1].name == "a" && items[3].name == "b";
    forall i | 0 <= i < |items| && "inv" in Targets(items[i]) ensures i == 1 {
      assert "inv" != "a" && "inv" != "con" && "inv" != "b" && "inv" != "output";
    }
    forall i | 0 <= i < |items| && "con" in Targets(items[i]) ensures i == 1 || i == 3 {
      assert "con" != "a" && "con" != "inv" && "con" != "b" && "con" != "output";
    }
  }

  /** Wiring gives `inv` the memory `a: off`, as in the hand-built example. */
  lemma SampleWiringInv()
    ensures var w := Wired(SampleItems());
      "inv" in w && w["inv"] == Conjunction("inv", map["a" := Off], ["b"])
  {
    var items := SampleItems();
    RegistryLast(items, 2);
    SampleInputs();
    WiredMemory(items, "inv");
    var memory := Wired(items)["inv"].memory;
    assert memory.Keys == {"a"} && memory["a"] == Off;
    assert memory == map["a" := Off];
  }

  /** Wiring gives `con` the memory `a: off, b: off`, as in the hand-built example. */
  lemma SampleWiringCon()
    ensures var w := Wired(SampleItems());
      "con" in w && w["con"] == Conjunction("con", map["a" := Off, "b" := Off], ["output"])
  {
    var items := SampleItems();
    RegistryLast(items, 4);
    SampleInputs();
    WiredMemory(items, "con");
    var memory := Wired(items)["con"].memory;
    assert memory.Keys == {"a", "b"} && memory["a"] == Off && memory["b"] == Off;
    assert memory == map["a" := Off, "b" := Off];
  }

  /**
   * The first example network: a low pulse turns `a` on, which sends high
   * to `b`; `inv`, remembering only `c`, turns a high from `c` into a low to `a`.
   */
  lemma SampleFirstNetwork()
    ensures Process(Broadcaster("broadcaster", ["a", "b", "c"]), Low("button")).out ==
      [Pulse("a", Low("broadcaster")), Pulse("b", Low("broadcaster")), Pulse("c", Low("broadcaster"))]
    ensures Process(FlipFlop("a", Off, ["b"]), Low("broadcaster")) == Reaction(FlipFlop("a", On, ["b"]), [Pulse("b", High("a"))])
    ensures Process(FlipFlop("b", On, ["c"]), High("a")) == Reaction(FlipFlop("b", On, ["c"]), [])
    ensures Process(Conjunction("inv", map["c" := Off], ["a"]), High("c")) ==
      Reaction(Conjunction("inv", map["c" := On], ["a"]), [Pulse("a", Low("inv"))])
  {
    var memory := map["c" := Off]["c" := On];
    assert memory == map["c" := On];
    assert AllOn(memory);
  }

  // ---------------------------------------------------------------- wiring

  /** The components by name, as the parser inserts them: a later component replaces an earlier one of the same name. */
  function Registry(items: seq<Component>): (m: map<string, Component>)
    decreases |items|
  {
    if items == [] then map[]
    else
      var last := items[|items| - 1];
      Registry(items[..|items| - 1])[last.name := last]
  }

  /** The names of the components that send to `k`. */
  function InputsOf(items: seq<Component>, k: string): set<string>
  {
    set i | 0 <= i < |items| && k in Targets(items[i]) :: items[i].name
  }

  /** A conjunction remembers every input as off; other components are left alone. */
  function Seed(c: Component, inputs: set<string>): Component
  {
    if c.Conjunction? then c.(memory := c.memory + map x | x in inputs :: Off) else c
  }

  /** The network the parser builds: every conjunction seeded with its inputs. */
  function Wired(items: seq<Component>): map<string, Component>
  {
    var registry := Registry(items);
    map k | k in registry :: Seed(registry[k], InputsOf(items, k))
  }

  /**
   * After wiring, a conjunction the parser created (with an empty memory)
   * remembers exactly the components that send to it, each as off; every
   * other component is as parsed.
   */
  lemma WiredMemory(items: seq<Component>, k: string)
    requires forall i | 0 <= i < |items| :: items[i].Conjunction? ==> items[i].memory == map[]
    requires k in Registry(items)
    ensures k in Wired(items)
    ensures var c := Wired(items)[k];
      if Registry(items)[k].Conjunction? then
        c.Conjunction? && c.memory == map x | x in InputsOf(items, k) :: Off
      else c == Registry(items)[k]
  {
    var registry := Registry(items);
    var c := registry[k];
    if c.Conjunction? {
      RegistryFrom(items, k);
    }
  }

  /** A component no later item renames is the one registered under its name. */
  lemma {:induction false} RegistryLast(items: seq<Component>, i: nat)
    requires i < |items| && forall j | i < j < |items| :: items[j].name != items[i].name
    ensures items[i].name in Registry(items) && Registry(items)[items[i].name] == items[i]
    decreases |items|
  {
    if i < |items| - 1 {
      var prefix := items[..|items| - 1];
      assert prefix[i] == items[i];
      RegistryLast(prefix, i);
    }
  }

  /** The registry holds exactly the names of the items, each under its own name. */
  lemma {:induction false} RegistryKeys(items: seq<Component>)
    ensures forall k :: k in Registry(items) <==> exists i | 0 <= i < |items| :: items[i].name == k
    ensures forall k | k in Registry(items) :: Registry(items)[k].name == k
    decreases |items|
  {
    if items != [] {
      var prefix := items[..|items| - 1];
      RegistryKeys(prefix);
      assert forall i | 0 <= i < |prefix| :: prefix[i] == items[i];
    }
  }

  /** Every component in the registry is one of the items. */
  lemma {:induction false} RegistryFrom(items: seq<Component>, k: string)
    requires k in Registry(items)
    ensures exists i | 0 <= i < |items| :: Registry(items)[k] == items[i]
    decreases |items|
  {
    var last := items[|items| - 1];
    if last.name != k {
      var prefix := items[..|items| - 1];
      RegistryFrom(prefix, k);
      var i :| 0 <= i < |prefix| && Registry(prefix)[k] == prefix[i];
      assert items[i] == prefix[i];
    }
  }

  // ---------------------------------------------------------------- network

  /** The names in one list of inputs, as a set. */
  function Names(m: map<string, seq<string>>, k: string): set<string>
  {
    if k in m then set x | x in m[k] else {}
  }

  /** The names of the components among the first `i` that send to `k`. */
  function InputsBefore(items: seq<Component>, i: nat, k: string): set<string>
    requires i <= |items|
  {
    set j | 0 <= j < i && k in Targets(items[j]) :: items[j].name
  }

  /** Appending `n` to the inputs of `t` adds `n` to the names for `t` and to no other. */
  lemma AddInput(inputs: map<string, seq<string>>, t: string, n: string, k: string)
    ensures Names(inputs[t := (if t in inputs then inputs[t] else []) + [n]], k) == Names(inputs, k) + (if k == t then {n} else {})
  {
  }

  lemma InputsBeforeNext(items: seq<Component>, i: nat, k: string)
    requires i < |items|
    ensures InputsBefore(items, i + 1, k) == InputsBefore(items, i, k) + (if k in Targets(items[i]) then {items[i].name} else {})
  {
    var name := items[i].name;
    if k in Targets(items[i]) {
      assert name in InputsBefore(items, i + 1, k);
    }
  }

  /** A component nobody sends to keeps what it had. */
  lemma SeedNothing(c: Component)
    ensures Seed(c, {}) == c
  {
    if c.Conjunction? {
      var none: set<string> := {};
      assert (map x | x in none :: Off) == map[];
      assert c.memory + map[] == c.memory;
    }
  }

  class Network {
    var components: map<string, Component>

    /**
     * `parse::network` after the components are read: register them by
     * name, collect the inputs of every component, and seed every
     * conjunction's memory with its inputs, all off.
     */
    constructor (items: seq<Component>)
      ensures components == Wired(items)
    {
      var registry := Register(items);
      var inputs := CollectInputs(items);
      registry := SeedAll(registry, inputs);
      forall k | k in registry ensures registry[k] == Seed(Registry(items)[k], InputsOf(items, k)) {
        if k !in inputs {
          SeedNothing(Registry(items)[k]);
        }
      }
      components := registry;
    }

    /** `network.components.get_mut(&dest)` then `process`: update that component in place and return its pulses. */
    method Deliver(dest: string, signal: Signal) returns (out: seq<Pulse>)
      modifies this
      ensures dest in old(components) ==>
        var r := Process(old(components)[dest], signal);
        components == old(components)[dest := r.next] && out == r.out
      ensures dest !in old(components) ==> components == old(components) && out == []
    {
      out := [];
      if dest in components {
        var r := Process(components[dest], signal);
        components := components[dest := r.next];
        out := r.out;
      }
    }
  }

  /** The parser's last loop: every conjunction that has inputs remembers each of them as off. */
  method SeedAll(registry: map<string, Component>, inputs: map<string, seq<string>>) returns (seeded: map<string, Component>)
    ensures seeded.Keys == registry.Keys
    ensures forall k | k in registry :: seeded[k] == if k in inputs then Seed(registry[k], Names(inputs, k)) else registry[k]
  {
    seeded := registry;
    var remaining := inputs.Keys;
    while remaining != {}
      invariant remaining <= inputs.Keys
      invariant seeded.Keys == registry.Keys
      invariant forall k | k in registry ::
        seeded[k] == if k in inputs && k !in remaining then Seed(registry[k], Names(inputs, k)) else registry[k]
      decreases remaining
    {
      var k :| k in remaining;
      if k in seeded {
        var c := SeedOne(seeded[k], inputs[k]);
        seeded := seeded[k := c];
      }
      remaining := remaining - {k};
    }
  }

  /** One step of the parser's last loop: a conjunction remembers every name in `names` as off. */
  method SeedOne(c: Component, names: seq<string>) returns (seeded: Component)
    ensures seeded == Seed(c, set x | x in names)
  {
    seeded := c;
    if c.Conjunction? {
      var states := Remember(c.memory, names);
      seeded := c.(memory := states);
    }
  }

  /** The parser's `components` map: every item inserted under its name, in order. */
  method Register(items: seq<Component>) returns (registry: map<string, Component>)
    ensures registry == Registry(items)
  {
    registry := map[];
    for i := 0 to |items|
      invariant registry == Registry(items[..i])
    {
      assert items[..i + 1][..i] == items[..i];
      registry := registry[items[i].name := items[i]];
    }
    assert items[..|items|] == items;
  }

  /** A conjunction's memory with every name in `names` inserted as off. */
  method Remember(memory: map<string, State>, names: seq<string>) returns (states: map<string, State>)
    ensures states == memory + map x | x in names :: Off
  {
    states := memory;
    for j := 0 to |names|
      invariant states == memory + map x | x in names[..j] :: Off
    {
      states := states[names[j] := Off];
      assert names[..j + 1] == names[..j] + [names[j]];
    }
    assert names[..|names|] == names;
  }

  /** The parser's `inputs` map: for each target, the names of the components sending to it, in order. */
  method CollectInputs(items: seq<Component>) returns (inputs: map<string, seq<string>>)
    ensures forall k :: Names(inputs, k) == InputsOf(items, k)
  {
    inputs := map[];
    for i := 0 to |items|
      invariant forall k :: Names(inputs, k) == InputsBefore(items, i, k)
    {
      var targets := Targets(items[i]);
      var name := items[i].name;
      for j := 0 to |targets|
        invariant forall k :: Names(inputs, k) == InputsBefore(items, i, k) + (if k in targets[..j] then {name} else {})
        {
        var t := targets[j];
        var before := inputs;
        inputs := before[t := (if t in before then before[t] else []) + [name]];
        assert targets[..j + 1] == targets[..j] + [t];
        forall k ensures Names(inputs, k) == Names(before, k) + (if k == t then {name} else {}) {
          AddInput(before, t, name, k);
        }
      }
      assert targets[..|targets|] == targets;
      forall k ensures Names(inputs, k) == InputsBefore(items, i + 1, k) {
        InputsBeforeNext(items, i, k);
      }
    }
    forall k ensures Names(inputs, k) == InputsOf(items, k) {
      assert InputsBefore(items, |items|, k) == InputsOf(items, k);
    }
  }
}
