// The recursion-level category tree (src/recursions.rs): nodes at levels
// Void < Particle < Atom < Molecule < Cell, each owning a substrate, agents
// and child nodes; promotion one level up, per-level interpretation, the
// upward stability fold and the downward tick and mutation passes.

module Recursions {
  import opened Options
  import opened Text
  import opened Symbols
  import opened Folds
  import opened Agents

  datatype RecursionLevel = Void | Particle | Atom | Molecule | Cell

  /** `level as u8`: the position in the declaration, Void = 0 .. Cell = 4. */
  function Ordinal(l: RecursionLevel): (n: nat)
    ensures n <= 4
    ensures n == 0 <==> l == Void
    ensures n == 4 <==> l == Cell
  {
    match l
    case Void => 0
    case Particle => 1
    case Atom => 2
    case Molecule => 3
    case Cell => 4
  }

  /** The level a promotion moves to; Cell has none. */
  function NextLevel(l: RecursionLevel): (r: Option<RecursionLevel>)
    ensures r.None? <==> l == Cell
    ensures r.Some? ==> Ordinal(r.value) == Ordinal(l) + 1
  {
    match l
    case Void => Some(Particle)
    case Particle => Some(Atom)
    case Atom => Some(Molecule)
    case Molecule => Some(Cell)
    case Cell => None
  }

  /** The activation map a node owns (`substrate.activations`). */
  datatype Substrate = Substrate(activations: map<Pattern, real>)

  /** `Substrate::default()`. */
  const EmptySubstrate: Substrate := Substrate(map[])

  datatype CategoryObject = CategoryObject(
    level: RecursionLevel,
    id: string,
    substrate: Substrate,
    subobjects: seq<CategoryObject>,
    agents: seq<Agent>)

  /** `CategoryObject::new`: a leaf with an empty substrate, no children and
      no agents. */
  function New(level: RecursionLevel, id: string): (o: CategoryObject)
    ensures o.level == level && o.id == id
    ensures o.substrate.activations == map[] && o.subobjects == [] && o.agents == []
  {
    CategoryObject(level, id, EmptySubstrate, [], [])
  }

  /** `promote`: None at Cell; otherwise a fresh node one level up whose only
      child is the original, with no agents, an empty substrate and the id
      `<ordinal of the new level>-<old id>`. */
  function Promote(o: CategoryObject): (r: Option<CategoryObject>)
    ensures r.None? <==> o.level == Cell
    ensures r.Some? ==> Ordinal(r.value.level) == Ordinal(o.level) + 1
    ensures r.Some? ==> r.value.subobjects == [o] && r.value.agents == [] && r.value.substrate == EmptySubstrate
    ensures r.Some? ==> r.value.id == DecimalString(Ordinal(r.value.level)) + "-" + o.id
  {
    match NextLevel(o.level)
    case None => None
    case Some(next) =>
      Some(CategoryObject(next, DecimalString(Ordinal(next)) + "-" + o.id, EmptySubstrate, [o], []))
  }

  /** Number of levels of nodes in the tree rooted at `o`. */
  function Depth(o: CategoryObject): (d: nat)
    ensures d >= 1
    decreases o, 1
  {
    1 + MaxDepth(o.subobjects)
  }

  /** The greatest depth among the children, 0 when there are none. */
  function MaxDepth(subs: seq<CategoryObject>): (d: nat)
    ensures forall j :: 0 <= j < |subs| ==> Depth(subs[j]) <= d
    ensures subs == [] <==> d == 0
    decreases subs, 0
  {
    if subs == [] then 0
    else
      var rest := MaxDepth(subs[1..]);
      assert forall j :: 1 <= j < |subs| ==> subs[j] == subs[1..][j - 1];
      if Depth(subs[0]) >= rest then Depth(subs[0]) else rest
  }

  /** Promotion adds exactly one level on top of the original tree. */
  lemma PromoteDepth(o: CategoryObject)
    requires o.level != Cell
    ensures Depth(Promote(o).value) == Depth(o) + 1
  {
    assert [o][1..] == [];
  }

  /** The promoted id is one digit, a dash, and the old id unchanged. */
  lemma PromotedIdShape(o: CategoryObject)
    requires o.level != Cell
    ensures var id := Promote(o).value.id;
      |id| == |o.id| + 2 && IsDigit(id[0]) && id[1] == '-' && id[2..] == o.id
      && ValueOf(id[..1], 10) == Ordinal(o.level) + 1
  {
    var p := Promote(o).value;
    ToBaseRoundTrip(Ordinal(p.level), 10);
    assert DecimalString(Ordinal(p.level)) == [DigitChar(Ordinal(p.level))];
    assert p.id[..1] == DecimalString(Ordinal(p.level));
  }

  /** From a Void leaf, four promotions reach Cell and a fifth fails. */
  lemma PromotionReachesCell(id: string)
    ensures var p1 := Promote(New(Void, id));
      p1.Some? && p1.value.level == Particle
      && var p2 := Promote(p1.value);
      p2.Some? && p2.value.level == Atom
      && var p3 := Promote(p2.value);
      p3.Some? && p3.value.level == Molecule
      && var p4 := Promote(p3.value);
      p4.Some? && p4.value.level == Cell
      && Promote(p4.value).None?
  {
  }

  // -----------------------------------------------------------------------
  // Interpretation

  datatype ParticleInterpretation = ParticleInterpretation(id: string, quantumState: string, energy: real)

  datatype AtomInterpretation = AtomInterpretation(
    id: string, atomicNumber: nat, shellConfig: string, constituentParticles: seq<ParticleInterpretation>)

  datatype MoleculeInterpretation = MoleculeInterpretation(
    id: string, formula: string, bonds: seq<string>, constituentAtoms: seq<AtomInterpretation>)

  datatype CellInterpretation = CellInterpretation(
    id: string, summary: string, emergentProperties: seq<string>, contributingMeanings: seq<string>)

  datatype Interpretation =
    | OfParticle(particle: ParticleInterpretation)
    | OfAtom(atom: AtomInterpretation)
    | OfMolecule(molecule: MoleculeInterpretation)
    | OfCell(cell: CellInterpretation)

  function InterpretationId(i: Interpretation): string
  {
    match i
    case OfParticle(p) => p.id
    case OfAtom(a) => a.id
    case OfMolecule(m) => m.id
    case OfCell(c) => c.id
  }

  /** Sum of all activation values, in no particular order. */
  ghost function Energy(m: map<Pattern, real>): real
    decreases |m|
  {
    if m == map[] then 0.0
    else
      var k :| k in m;
      assert |m - {k}| < |m| by { assert m.Keys - {k} < m.Keys; }
      m[k] + Energy(m - {k})
  }

  lemma {:induction false} EnergyNonNegative(m: map<Pattern, real>)
    requires forall k :: k in m ==> m[k] >= 0.0
    ensures Energy(m) >= 0.0
    decreases |m|
  {
    if m != map[] {
      var k :| k in m && Energy(m) == m[k] + Energy(m - {k});
      assert |m - {k}| < |m| by { assert m.Keys - {k} < m.Keys; }
      EnergyNonNegative(m - {k});
    }
  }

  /** `interpret_particle`: the state tag is "q" and the number of activation
      entries in lower-case hexadecimal; the energy sums the activations. */
  ghost function InterpretParticle(o: CategoryObject): (r: ParticleInterpretation)
  {
    ParticleInterpretation(o.id, "q" + HexString(|o.substrate.activations|), Energy(o.substrate.activations))
  }

  /** The quantum state reads back as the number of activation entries. */
  lemma QuantumStateCountsActivations(o: CategoryObject)
    ensures var q := InterpretParticle(o).quantumState;
      |q| >= 2 && q[0] == 'q' && ValueOf(q[1..], 16) == |o.substrate.activations|
  {
    var q := InterpretParticle(o).quantumState;
    assert q[1..] == HexString(|o.substrate.activations|);
    ToBaseRoundTrip(|o.substrate.activations|, 16);
  }

  /** How many immediate children are at level `l`. */
  function CountAt(subs: seq<CategoryObject>, l: RecursionLevel): (n: nat)
    ensures n <= |subs|
  {
    if subs == [] then 0 else (if subs[0].level == l then 1 else 0) + CountAt(subs[1..], l)
  }

  /** The immediate children at level `l`, in order (`filter` on the level). */
  function ChildrenAt(subs: seq<CategoryObject>, l: RecursionLevel): (r: seq<CategoryObject>)
    ensures |r| == CountAt(subs, l)
    ensures forall i :: 0 <= i < |r| ==> r[i].level == l && r[i] in subs
  {
    if subs == [] then []
    else
      var rest := ChildrenAt(subs[1..], l);
      if subs[0].level == l then [subs[0]] + rest else rest
  }

  lemma {:induction false} ChildrenAtAppend(a: seq<CategoryObject>, b: seq<CategoryObject>, l: RecursionLevel)
    ensures ChildrenAt(a + b, l) == ChildrenAt(a, l) + ChildrenAt(b, l)
  {
    if a == [] {
      assert a + b == b;
    } else {
      assert (a + b)[1..] == a[1..] + b;
      ChildrenAtAppend(a[1..], b, l);
    }
  }

  /** `interpret_atom`: the Particle interpretations of the Particle-level
      immediate children; their count is the atomic number and `<n>s2` the
      shell configuration. */
  ghost function InterpretAtom(o: CategoryObject): AtomInterpretation
  {
    var particles := Map(ChildrenAt(o.subobjects, Particle), InterpretParticle);
    AtomInterpretation(o.id, |particles|, DecimalString(|particles|) + "s2", particles)
  }

  /** The atomic number counts the immediate Particle-level children and
      nothing else. */
  lemma AtomicNumberCountsParticles(o: CategoryObject)
    ensures InterpretAtom(o).atomicNumber == CountAt(o.subobjects, Particle)
    ensures InterpretAtom(o).shellConfig == DecimalString(CountAt(o.subobjects, Particle)) + "s2"
  {
  }

  /** Adding a child at another level, or anything below the children,
      leaves the atom's interpretation as it was. */
  lemma AtomIgnoresOtherChildren(o: CategoryObject, c: CategoryObject)
    requires c.level != Particle
    ensures InterpretAtom(o.(subobjects := o.subobjects + [c])) == InterpretAtom(o)
  {
    ChildrenAtAppend(o.subobjects, [c], Particle);
    assert ChildrenAt([c], Particle) == [];
  }

  /** Bond i links the ids of atoms i and i + 1; fewer than two atoms give
      no bonds. */
  function Bonds(atoms: seq<AtomInterpretation>): (r: seq<string>)
    ensures |r| == if |atoms| < 2 then 0 else |atoms| - 1
  {
    if |atoms| > 1 then
      seq(|atoms| - 1, i requires 0 <= i < |atoms| - 1 => atoms[i].id + "-" + atoms[i + 1].id)
    else []
  }

  /** `interpret_molecule`: the Atom interpretations of the Atom-level
      immediate children, chained by bonds, with the formula
      `Molecule<id><number of atoms>`. */
  ghost function InterpretMolecule(o: CategoryObject): MoleculeInterpretation
  {
    var atoms := Map(ChildrenAt(o.subobjects, Atom), InterpretAtom);
    MoleculeInterpretation(o.id, "Molecule" + o.id + DecimalString(|atoms|), Bonds(atoms), atoms)
  }

  lemma MoleculeBondsChainAtoms(o: CategoryObject)
    ensures var m := InterpretMolecule(o);
      var atoms := ChildrenAt(o.subobjects, Atom);
      var n := CountAt(o.subobjects, Atom);
      |m.constituentAtoms| == n
      && |m.bonds| == (if n < 2 then 0 else n - 1)
      && (forall i :: 0 <= i < |m.bonds| ==> m.bonds[i] == atoms[i].id + "-" + atoms[i + 1].id)
      && m.formula == "Molecule" + o.id + DecimalString(n)
  {
  }

  /** A stand-in for the `{:?}` rendering of an interpretation: the variant
      and the id. Only the number of rendered entries is modelled. */
  function Show(i: Interpretation): string
  {
    match i
    case OfParticle(p) => "Particle(" + p.id + ")"
    case OfAtom(a) => "Atom(" + a.id + ")"
    case OfMolecule(m) => "Molecule(" + m.id + ")"
    case OfCell(c) => "Cell(" + c.id + ")"
  }

  /** `interpret`: nothing for Void, otherwise the interpretation of the
      node's own level. */
  ghost function Interpret(o: CategoryObject): (r: Option<Interpretation>)
    ensures r.None? <==> o.level == Void
    ensures r.Some? ==> InterpretationId(r.value) == o.id
    ensures r.Some? ==> (r.value.OfParticle? <==> o.level == Particle)
    ensures r.Some? ==> (r.value.OfAtom? <==> o.level == Atom)
    ensures r.Some? ==> (r.value.OfMolecule? <==> o.level == Molecule)
    ensures r.Some? ==> (r.value.OfCell? <==> o.level == Cell)
    decreases o, 1
  {
    match o.level
    case Particle => Some(OfParticle(InterpretParticle(o)))
    case Atom => Some(OfAtom(InterpretAtom(o)))
    case Molecule => Some(OfMolecule(InterpretMolecule(o)))
    case Cell => Some(OfCell(InterpretCell(o)))
    case Void => None
  }

  /** `interpret_cell`: one rendered entry per child that has an
      interpretation, a summary with their count, and the fixed emergent
      property "homeostasis". */
  ghost function InterpretCell(o: CategoryObject): CellInterpretation
    decreases o, 0
  {
    var meanings := CellMeanings(o.subobjects);
    CellInterpretation(
      o.id,
      "Cell " + o.id + " integrates " + DecimalString(|meanings|) + " sub-meanings",
      ["homeostasis"],
      meanings)
  }

  /** The rendered interpretations of the children that have one. */
  ghost function CellMeanings(subs: seq<CategoryObject>): (r: seq<string>)
    ensures |r| == |subs| - CountAt(subs, Void)
    decreases subs, 2
  {
    if subs == [] then []
    else
      var rest := CellMeanings(subs[1..]);
      match Interpret(subs[0])
      case None => rest
      case Some(i) => [Show(i)] + rest
  }

  lemma CellSummary(o: CategoryObject)
    requires o.level == Cell
    ensures Interpret(o).value.cell.emergentProperties == ["homeostasis"]
    ensures |Interpret(o).value.cell.contributingMeanings| == |o.subobjects| - CountAt(o.subobjects, Void)
  {
  }

  // -----------------------------------------------------------------------
  // Upward fold

  /** `aggregate_stability`: the children's aggregates plus every owned
      agent's trace stabilities. */
  function AggregateStability(o: CategoryObject): real
    decreases o, 1
  {
    ChildrenStability(o.subobjects) + SumOf(o.agents, AgentStability)
  }

  function ChildrenStability(subs: seq<CategoryObject>): real
    decreases subs, 0
  {
    if subs == [] then 0.0 else AggregateStability(subs[0]) + ChildrenStability(subs[1..])
  }

  /** All agents of the tree: the node's own, then those below each child in
      order. */
  function AllAgents(o: CategoryObject): seq<Agent>
    decreases o, 1
  {
    o.agents + AgentsBelow(o.subobjects)
  }

  function AgentsBelow(subs: seq<CategoryObject>): seq<Agent>
    decreases subs, 0
  {
    if subs == [] then [] else AllAgents(subs[0]) + AgentsBelow(subs[1..])
  }

  lemma {:induction false} ChildrenStabilityIsSum(subs: seq<CategoryObject>)
    ensures ChildrenStability(subs) == SumOf(subs, AggregateStability)
  {
    if subs != [] {
      ChildrenStabilityIsSum(subs[1..]);
    }
  }

  /** The aggregate is the stability total over every agent in the whole
      tree, each counted once. */
  lemma {:induction false} AggregateIsTreeTotal(o: CategoryObject)
    ensures AggregateStability(o) == SumOf(AllAgents(o), AgentStability)
    decreases o, 1
  {
    ChildrenTotal(o.subobjects);
    SumOfAppend(o.agents, AgentsBelow(o.subobjects), AgentStability);
  }

  lemma {:induction false} ChildrenTotal(subs: seq<CategoryObject>)
    ensures ChildrenStability(subs) == SumOf(AgentsBelow(subs), AgentStability)
    decreases subs, 0
  {
    if subs != [] {
      AggregateIsTreeTotal(subs[0]);
      ChildrenTotal(subs[1..]);
      SumOfAppend(AllAgents(subs[0]), AgentsBelow(subs[1..]), AgentStability);
    }
  }

  /** The order of the children and of the agents does not matter: any
      reordering, as a parallel reduction may produce, gives the same sum. */
  lemma AggregateOrderIndependent(o: CategoryObject, p: CategoryObject)
    requires multiset(o.subobjects) == multiset(p.subobjects)
    requires multiset(o.agents) == multiset(p.agents)
    ensures AggregateStability(o) == AggregateStability(p)
  {
    ChildrenStabilityIsSum(o.subobjects);
    ChildrenStabilityIsSum(p.subobjects);
    SumOfPermutation(o.subobjects, p.subobjects, AggregateStability);
    SumOfPermutation(o.agents, p.agents, AgentStability);
  }

  // -----------------------------------------------------------------------
  // Downward passes

  /** The tree with `onAgent` applied to every agent and `onSubstrate` to
      every substrate, levels, ids and structure kept. */
  function MapTree(o: CategoryObject, onAgent: Agent -> Agent, onSubstrate: Substrate -> Substrate): CategoryObject
    decreases o, 1
  {
    CategoryObject(o.level, o.id, onSubstrate(o.substrate), MapChildren(o.subobjects, onAgent, onSubstrate), Map(o.agents, onAgent))
  }

  /** Each child mapped, in order. */
  function MapChildren(subs: seq<CategoryObject>, onAgent: Agent -> Agent, onSubstrate: Substrate -> Substrate): (r: seq<CategoryObject>)
    ensures |r| == |subs| && forall j :: 0 <= j < |subs| ==> r[j] == MapTree(subs[j], onAgent, onSubstrate)
    decreases subs, 0
  {
    if subs == [] then []
    else
      var rest := MapChildren(subs[1..], onAgent, onSubstrate);
      assert forall j :: 1 <= j < |subs| ==> subs[j] == subs[1..][j - 1];
      [MapTree(subs[0], onAgent, onSubstrate)] + rest
  }

  /** Same levels, ids, numbers of agents and children, all the way down. */
  predicate SameShape(a: CategoryObject, b: CategoryObject)
    decreases a
  {
    a.level == b.level && a.id == b.id && |a.agents| == |b.agents| && |a.subobjects| == |b.subobjects|
    && forall j :: 0 <= j < |a.subobjects| ==> SameShape(a.subobjects[j], b.subobjects[j])
  }

  lemma {:induction false} MapTreeKeepsShape(o: CategoryObject, onAgent: Agent -> Agent, onSubstrate: Substrate -> Substrate)
    ensures SameShape(MapTree(o, onAgent, onSubstrate), o)
    decreases o
  {
    forall j | 0 <= j < |o.subobjects|
      ensures SameShape(MapTree(o, onAgent, onSubstrate).subobjects[j], o.subobjects[j])
    {
      MapTreeKeepsShape(o.subobjects[j], onAgent, onSubstrate);
    }
  }

  /** Every agent of the tree is visited exactly once, in order. */
  lemma {:induction false} MapTreeVisitsEveryAgentOnce(o: CategoryObject, onAgent: Agent -> Agent, onSubstrate: Substrate -> Substrate)
    ensures AllAgents(MapTree(o, onAgent, onSubstrate)) == Map(AllAgents(o), onAgent)
    decreases o, 1
  {
    MapChildrenAgents(o.subobjects, onAgent, onSubstrate);
    assert Map(o.agents + AgentsBelow(o.subobjects), onAgent) == Map(o.agents, onAgent) + Map(AgentsBelow(o.subobjects), onAgent);
  }

  lemma {:induction false} MapChildrenAgents(subs: seq<CategoryObject>, onAgent: Agent -> Agent, onSubstrate: Substrate -> Substrate)
    ensures AgentsBelow(MapChildren(subs, onAgent, onSubstrate)) == Map(AgentsBelow(subs), onAgent)
    decreases subs, 0
  {
    if subs != [] {
      var m := MapChildren(subs, onAgent, onSubstrate);
      assert m[1..] == MapChildren(subs[1..], onAgent, onSubstrate);
      MapTreeVisitsEveryAgentOnce(subs[0], onAgent, onSubstrate);
      MapChildrenAgents(subs[1..], onAgent, onSubstrate);
      assert Map(AllAgents(subs[0]) + AgentsBelow(subs[1..]), onAgent)
        == Map(AllAgents(subs[0]), onAgent) + Map(AgentsBelow(subs[1..]), onAgent);
    }
  }

  /** All substrates of the tree, the node's own first, then each child's
      in order. */
  function AllSubstrates(o: CategoryObject): seq<Substrate>
    decreases o, 1
  {
    [o.substrate] + SubstratesBelow(o.subobjects)
  }

  function SubstratesBelow(subs: seq<CategoryObject>): seq<Substrate>
    decreases subs, 0
  {
    if subs == [] then [] else AllSubstrates(subs[0]) + SubstratesBelow(subs[1..])
  }

  lemma {:induction false} MapTreeVisitsEverySubstrateOnce(o: CategoryObject, onAgent: Agent -> Agent, onSubstrate: Substrate -> Substrate)
    ensures AllSubstrates(MapTree(o, onAgent, onSubstrate)) == Map(AllSubstrates(o), onSubstrate)
    decreases o, 1
  {
    MapChildrenSubstrates(o.subobjects, onAgent, onSubstrate);
    assert Map([o.substrate] + SubstratesBelow(o.subobjects), onSubstrate)
      == [onSubstrate(o.substrate)] + Map(SubstratesBelow(o.subobjects), onSubstrate);
  }

  lemma {:induction false} MapChildrenSubstrates(subs: seq<CategoryObject>, onAgent: Agent -> Agent, onSubstrate: Substrate -> Substrate)
    ensures SubstratesBelow(MapChildren(subs, onAgent, onSubstrate)) == Map(SubstratesBelow(subs), onSubstrate)
    decreases subs, 0
  {
    if subs != [] {
      var m := MapChildren(subs, onAgent, onSubstrate);
      assert m[1..] == MapChildren(subs[1..], onAgent, onSubstrate);
      MapTreeVisitsEverySubstrateOnce(subs[0], onAgent, onSubstrate);
      MapChildrenSubstrates(subs[1..], onAgent, onSubstrate);
      assert Map(AllSubstrates(subs[0]) + SubstratesBelow(subs[1..]), onSubstrate)
        == Map(AllSubstrates(subs[0]), onSubstrate) + Map(SubstratesBelow(subs[1..]), onSubstrate);
    }
  }

  /** The fixed decay rate of a tick. */
  const TickRate: real := 0.05

  /** `agent.decay_memory(0.05)`, given the agent's decay operation. */
  function DecayAgentBy(decayMemory: (Agent, real) -> Agent): Agent -> Agent
  {
    a => decayMemory(a, TickRate)
  }

  /** `substrate.decay(0.05)`, given the substrate's decay operation. */
  function DecaySubstrateBy(decay: (Substrate, real) -> Substrate): Substrate -> Substrate
  {
    s => decay(s, TickRate)
  }

  /** `tick_recursive`: ticks every child, decays every owned agent's memory
      and the node's own substrate at the fixed rate. The source updates the
      exclusively owned tree in place; here the updated tree is returned. */
  method TickRecursive(o: CategoryObject, decayMemory: (Agent, real) -> Agent, decay: (Substrate, real) -> Substrate)
    returns (r: CategoryObject)
    ensures r == MapTree(o, DecayAgentBy(decayMemory), DecaySubstrateBy(decay))
    decreases o
  {
    var subs := o.subobjects;
    var i := 0;
    while i < |subs|
      invariant 0 <= i <= |subs| == |o.subobjects|
      invariant forall j :: 0 <= j < i ==> subs[j] == MapTree(o.subobjects[j], DecayAgentBy(decayMemory), DecaySubstrateBy(decay))
      invariant forall j :: i <= j < |subs| ==> subs[j] == o.subobjects[j]
    {
      var ticked := TickRecursive(o.subobjects[i], decayMemory, decay);
      subs := subs[i := ticked];
      i := i + 1;
    }
    var agents := o.agents;
    var k := 0;
    while k < |agents|
      invariant 0 <= k <= |agents| == |o.agents|
      invariant forall j :: 0 <= j < k ==> agents[j] == decayMemory(o.agents[j], TickRate)
      invariant forall j :: k <= j < |agents| ==> agents[j] == o.agents[j]
    {
      agents := agents[k := decayMemory(agents[k], TickRate)];
      k := k + 1;
    }
    r := CategoryObject(o.level, o.id, decay(o.substrate, TickRate), subs, agents);
  }

  /** The fixed pattern stamped on mutation symbols. */
  const MutationPattern: Pattern := Pattern("111")

  /** `agent.express_symbol("mutation:<message>", Pattern("111"), 0)`, given
      the agent's expression operation; the index is always 0. */
  function ExpressMutation(express: (Agent, string, Pattern, nat) -> Agent, message: string): Agent -> Agent
  {
    a => express(a, "mutation:" + message, MutationPattern, 0)
  }

  function KeepSubstrate(s: Substrate): Substrate { s }

  /** `propagate_mutation`: every owned agent expresses the mutation symbol,
      then the same message goes to every child; substrates are untouched.
      The updated tree is returned rather than changed in place. */
  method PropagateMutation(o: CategoryObject, message: string, express: (Agent, string, Pattern, nat) -> Agent)
    returns (r: CategoryObject)
    ensures r == MapTree(o, ExpressMutation(express, message), KeepSubstrate)
    decreases o
  {
    var agents := o.agents;
    var k := 0;
    while k < |agents|
      invariant 0 <= k <= |agents| == |o.agents|
      invariant forall j :: 0 <= j < k ==> agents[j] == express(o.agents[j], "mutation:" + message, MutationPattern, 0)
      invariant forall j :: k <= j < |agents| ==> agents[j] == o.agents[j]
    {
      agents := agents[k := express(agents[k], "mutation:" + message, MutationPattern, 0)];
      k := k + 1;
    }
    var subs := o.subobjects;
    var i := 0;
    while i < |subs|
      invariant 0 <= i <= |subs| == |o.subobjects|
      invariant forall j :: 0 <= j < i ==> subs[j] == MapTree(o.subobjects[j], ExpressMutation(express, message), KeepSubstrate)
      invariant forall j :: i <= j < |subs| ==> subs[j] == o.subobjects[j]
    {
      var mutated := PropagateMutation(o.subobjects[i], message, express);
      subs := subs[i := mutated];
      i := i + 1;
    }
    r := CategoryObject(o.level, o.id, o.substrate, subs, agents);
  }

  /** A tick decays every agent of the tree exactly once and every substrate
      exactly once, and changes nothing else about the tree. */
  lemma TickDecaysEachOnce(o: CategoryObject, decayMemory: (Agent, real) -> Agent, decay: (Substrate, real) -> Substrate)
    ensures var t := MapTree(o, DecayAgentBy(decayMemory), DecaySubstrateBy(decay));
      SameShape(t, o)
      && AllAgents(t) == Map(AllAgents(o), DecayAgentBy(decayMemory))
      && AllSubstrates(t) == Map(AllSubstrates(o), DecaySubstrateBy(decay))
  {
    MapTreeKeepsShape(o, DecayAgentBy(decayMemory), DecaySubstrateBy(decay));
    MapTreeVisitsEveryAgentOnce(o, DecayAgentBy(decayMemory), DecaySubstrateBy(decay));
    MapTreeVisitsEverySubstrateOnce(o, DecayAgentBy(decayMemory), DecaySubstrateBy(decay));
  }

  /** A mutation reaches every agent of the tree exactly once with the same
      token, pattern and index 0, and leaves substrates and shape alone. */
  lemma MutationReachesEveryAgentOnce(o: CategoryObject, message: string, express: (Agent, string, Pattern, nat) -> Agent)
    ensures var t := MapTree(o, ExpressMutation(express, message), KeepSubstrate);
      SameShape(t, o)
      && AllAgents(t) == Map(AllAgents(o), ExpressMutation(express, message))
      && AllSubstrates(t) == AllSubstrates(o)
  {
    MapTreeKeepsShape(o, ExpressMutation(express, message), KeepSubstrate);
    MapTreeVisitsEveryAgentOnce(o, ExpressMutation(express, message), KeepSubstrate);
    MapTreeVisitsEverySubstrateOnce(o, ExpressMutation(express, message), KeepSubstrate);
  }
}
