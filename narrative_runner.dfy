// Runner of the narrative language (src/narrative/runner.rs): a context of
// variables, macros, agents and the current tau, changed in place by the
// blocks and actions of a parsed script.
//
// The behaviour is stated by functions over a `Context` value; the class
// `ScriptContext` holds the same four fields and its methods are proved
// against those functions. Console output is left out. A macro call may
// run a macro whose body calls macros again, without bound in the source;
// here every call spends one unit of `fuel`, and a run that needs more
// nested calls than `fuel` allows yields `None`.

module NarrativeRunner {
  import opened Options
  import opened Text
  import opened NarrativeAst

  /** `AgentState`: the agent's memory of tokens, oldest first, and its
      activations (never written by the runner). */
  datatype AgentState = AgentState(memory: seq<string>, activation: map<string, real>)

  /** `AgentState::default()`. */
  const FreshAgent := AgentState([], map[])

  /** The four fields of `ScriptContext` as a value. */
  datatype Context = Context(
    vars: map<string, string>,
    macros: map<string, (seq<string>, seq<Action>)>,
    agents: map<string, AgentState>,
    tau: nat)

  const EmptyContext := Context(map[], map[], map[], 0)

  // -----------------------------------------------------------------------
  // `$name` expansion

  predicate IsNameChar(c: char) {
    IsAlphanumeric(c) || c == '_'
  }

  /** Length of the run of name characters at the start of `s`. */
  function NameRun(s: string): (k: nat)
    ensures k <= |s|
    ensures forall i :: 0 <= i < k ==> IsNameChar(s[i])
    ensures k < |s| ==> !IsNameChar(s[k])
  {
    if s == [] || !IsNameChar(s[0]) then 0 else 1 + NameRun(s[1..])
  }

  /** What `expand_vars` produces: a `$` and the maximal run of name
      characters after it become the variable's value when it is bound,
      and stay as written otherwise; every other character is copied. The
      values put in are not expanded again. */
  function Expanded(text: string, vars: map<string, string>): string
    decreases |text|
  {
    if text == [] then []
    else if text[0] != '$' then [text[0]] + Expanded(text[1..], vars)
    else
      var rest := text[1..];
      var k := NameRun(rest);
      var name := rest[..k];
      (if name in vars then vars[name] else "$" + name) + Expanded(rest[k..], vars)
  }

  lemma {:induction false} NameRunIs(s: string, k: nat)
    requires k <= |s|
    requires forall i :: 0 <= i < k ==> IsNameChar(s[i])
    requires k < |s| ==> !IsNameChar(s[k])
    ensures NameRun(s) == k
  {
    if k > 0 {
      NameRunIs(s[1..], k - 1);
    }
  }

  /** Text without `$` comes back unchanged. */
  lemma {:induction false} NoDollarUnchanged(text: string, vars: map<string, string>)
    requires '$' !in text
    ensures Expanded(text, vars) == text
    decreases |text|
  {
    if text != [] {
      assert text[0] in text;
      assert forall c :: c in text[1..] ==> c in text;
      NoDollarUnchanged(text[1..], vars);
      assert [text[0]] + text[1..] == text;
    }
  }

  /** `$name` followed by text that does not continue the name is replaced
      by the value of `name` when it is bound and kept verbatim when it is
      not; the rest is expanded on its own. */
  lemma VariableReference(name: string, suffix: string, vars: map<string, string>)
    requires forall i :: 0 <= i < |name| ==> IsNameChar(name[i])
    requires suffix == [] || !IsNameChar(suffix[0])
    ensures Expanded("$" + name + suffix, vars)
      == (if name in vars then vars[name] else "$" + name) + Expanded(suffix, vars)
  {
    var text := "$" + name + suffix;
    var rest := text[1..];
    assert rest == name + suffix;
    NameRunIs(rest, |name|);
    assert rest[..|name|] == name;
    assert rest[|name|..] == suffix;
  }

  /** A bound variable expands to its value verbatim, even when the value
      itself contains `$` references. */
  lemma ValueNotReexpanded(name: string, vars: map<string, string>)
    requires forall i :: 0 <= i < |name| ==> IsNameChar(name[i])
    requires name in vars
    ensures Expanded("$" + name, vars) == vars[name]
  {
    VariableReference(name, "", vars);
    assert "$" + name + "" == "$" + name;
    assert vars[name] + Expanded("", vars) == vars[name];
  }

  // -----------------------------------------------------------------------
  // Conditions

  /** `eval_condition`: `always`; `<agent> knows <item>`;
      `<agent> memory contains<item>`, whose item is the text after the
      first `contains` of the condition, trimmed. Anything else is false,
      and so is a condition about an agent that does not exist. The source
      unwraps the piece after `contains`; a missing piece reads as false
      here. */
  predicate EvalCondition(cond: string, c: Context) {
    var words := SplitWhitespace(cond);
    if cond == "always" then true
    else if |words| == 3 && words[1] == "knows" && words[0] in c.agents then
      words[2] in c.agents[words[0]].memory
    else if |words| == 3 && words[1] == "memory" && StartsWith(words[2], "contains") && words[0] in c.agents then
      var pieces := Split(cond, "contains");
      |pieces| >= 2 && Trim(pieces[1]) in c.agents[words[0]].memory
    else false
  }

  /** `always` holds; `A knows X` holds exactly when agent `A` exists and
      remembers `X`; a condition of no recognised shape is false. */
  lemma ConditionCases(cond: string, c: Context)
    ensures cond == "always" ==> EvalCondition(cond, c)
    ensures var words := SplitWhitespace(cond);
      cond != "always" && |words| == 3 && words[1] == "knows"
      ==> (EvalCondition(cond, c) <==> words[0] in c.agents && words[2] in c.agents[words[0]].memory)
    ensures var words := SplitWhitespace(cond);
      cond != "always"
      && !(|words| == 3 && (words[1] == "knows" || (words[1] == "memory" && StartsWith(words[2], "contains"))))
      ==> !EvalCondition(cond, c)
  {
  }

  /** A condition reads only the agents. */
  lemma ConditionReadsAgents(cond: string, c: Context, d: Context)
    requires c.agents == d.agents
    ensures EvalCondition(cond, c) == EvalCondition(cond, d)
  {
  }

  // -----------------------------------------------------------------------
  // Actions and blocks

  /** The argument binding of a macro call, one parameter after the other:
      each argument is expanded against the variables as they stand, the
      parameters bound before it included. */
  function BindParams(params: seq<string>, args: seq<string>, vars: map<string, string>): (r: map<string, string>)
    requires |params| == |args|
    ensures forall k :: 0 <= k < |params| ==> params[k] in r
    ensures forall v :: v in vars ==> v in r
    ensures forall v :: v in r ==> v in vars || v in params
  {
    if params == [] then vars
    else
      var n := |params| - 1;
      var before := BindParams(params[..n], args[..n], vars);
      before[params[n] := Expanded(args[n], before)]
  }

  /** Pushes `token` onto the memory of `agent`, creating the agent first
      when it does not exist (`entry(..).or_default()`). */
  function Remember(agents: map<string, AgentState>, agent: string, token: string): (r: map<string, AgentState>)
    ensures agent in r
    ensures r[agent].memory == (if agent in agents then agents[agent].memory else []) + [token]
    ensures forall other :: other != agent ==> (other in r <==> other in agents)
    ensures forall other :: other != agent && other in agents ==> r[other] == agents[other]
  {
    var state := if agent in agents then agents[agent] else FreshAgent;
    agents[agent := state.(memory := state.memory + [token])]
  }

  /** `execute_action`. Running an action never changes the macros and
      never moves tau backwards; a macro call gives the variables back as
      they were before it, and leaves everything unchanged when the macro
      is unknown or the argument count differs from its parameter count. */
  function ExecAction(a: Action, c: Context, fuel: nat): (r: Option<Context>)
    ensures r.Some? ==> r.value.macros == c.macros && r.value.tau >= c.tau
    ensures a.MacroCall? && r.Some? ==> r.value.vars == c.vars
    ensures a.MacroCall? && (a.callee !in c.macros || |c.macros[a.callee].0| != |a.args|) ==> r == Some(c)
    decreases fuel, a
  {
    match a
    case Conditional(cond, subs) =>
      if EvalCondition(cond, c) then ExecActions(subs, c, fuel) else Some(c)
    case CreateAgent(name, _, _) => Some(c.(agents := c.agents[name := FreshAgent]))
    case VariableAssignment(name, value) => Some(c.(vars := c.vars[name := Expanded(value, c.vars)]))
    case Say(agent, token, _) => Some(c.(agents := Remember(c.agents, agent, Expanded(token, c.vars))))
    case Interpret(agent, token) => Some(c.(agents := Remember(c.agents, agent, Expanded(token, c.vars))))
    case Project(_, _) => Some(c)
    case Tick(n) => Some(c.(tau := c.tau + n))
    case Assert(_) => Some(c)
    case Comment(_) => Some(c)
    case MacroCall(callee, args) =>
      if callee !in c.macros then Some(c)
      else
        var (params, body) := c.macros[callee];
        if |params| != |args| then Some(c)
        else if fuel == 0 then None
        else
          match ExecActions(body, c.(vars := BindParams(params, args, c.vars)), fuel - 1)
          case None => None
          case Some(d) => Some(d.(vars := c.vars))
  }

  /** The `for action in actions` loop, in order. */
  function ExecActions(acts: seq<Action>, c: Context, fuel: nat): (r: Option<Context>)
    ensures r.Some? ==> r.value.macros == c.macros && r.value.tau >= c.tau
    decreases fuel, acts
  {
    if acts == [] then Some(c)
    else
      match ExecAction(acts[0], c, fuel)
      case None => None
      case Some(d) => ExecActions(acts[1..], d, fuel)
  }

  /** `Repeat`: the body `n` times over. */
  function RepeatRun(n: nat, acts: seq<Action>, c: Context, fuel: nat): (r: Option<Context>)
    ensures r.Some? ==> r.value.macros == c.macros && r.value.tau >= c.tau
  {
    if n == 0 then Some(c)
    else
      match ExecActions(acts, c, fuel)
      case None => None
      case Some(d) => RepeatRun(n - 1, acts, d, fuel)
  }

  /** Largest number of passes of a `While` body. */
  const WhileLimit: nat := 1001

  /** `While`, with `count` passes already made: the final context and the
      number of passes. The loop stops when the condition fails or after
      the pass that takes the count above 1000. */
  function WhileRun(cond: string, acts: seq<Action>, c: Context, fuel: nat, count: nat): (r: Option<(Context, nat)>)
    requires count < WhileLimit
    ensures r.Some? ==> count <= r.value.1 <= WhileLimit
    ensures r.Some? ==> r.value.0.macros == c.macros && r.value.0.tau >= c.tau
    decreases WhileLimit - count
  {
    if !EvalCondition(cond, c) then Some((c, count))
    else
      match ExecActions(acts, c, fuel)
      case None => None
      case Some(d) =>
        if count + 1 > 1000 then Some((d, count + 1))
        else WhileRun(cond, acts, d, fuel, count + 1)
  }

  /** `execute_block`. */
  function ExecBlock(b: Block, c: Context, fuel: nat): (r: Option<Context>)
    ensures r.Some? ==> r.value.macros == c.macros
    ensures b.AtTau? && r.Some? ==> r.value.tau >= b.tau
    ensures !b.AtTau? && r.Some? ==> r.value.tau >= c.tau
  {
    match b
    case AtTau(t, acts) => ExecActions(acts, c.(tau := t), fuel)
    case Repeat(n, acts) => RepeatRun(n, acts, c, fuel)
    case While(cond, acts) =>
      (match WhileRun(cond, acts, c, fuel, 0)
       case None => None
       case Some((d, _)) => Some(d))
    case Parallel(acts) => ExecActions(acts, c, fuel)
    case MacroDef(_, _, _) => Some(c)
  }

  /** The first pass of `execute_script`: every macro definition, in order,
      a later one replacing an earlier one of the same name. */
  function RegisterMacros(blocks: seq<Block>, c: Context): (r: Context)
    ensures r.vars == c.vars && r.agents == c.agents && r.tau == c.tau
  {
    if blocks == [] then c
    else
      var c' := match blocks[0]
        case MacroDef(name, params, body) => c.(macros := c.macros[name := (params, body)])
        case _ => c;
      RegisterMacros(blocks[1..], c')
  }

  /** The second pass: every block other than a definition, in order. */
  function ExecBlocks(blocks: seq<Block>, c: Context, fuel: nat): (r: Option<Context>)
    ensures r.Some? ==> r.value.macros == c.macros
  {
    if blocks == [] then Some(c)
    else if blocks[0].MacroDef? then ExecBlocks(blocks[1..], c, fuel)
    else
      match ExecBlock(blocks[0], c, fuel)
      case None => None
      case Some(d) => ExecBlocks(blocks[1..], d, fuel)
  }

  /** `execute_script`. */
  function ExecScript(blocks: seq<Block>, c: Context, fuel: nat): (r: Option<Context>)
    ensures r.Some? ==> r.value.macros == RegisterMacros(blocks, c).macros
  {
    ExecBlocks(blocks, RegisterMacros(blocks, c), fuel)
  }
}

module NarrativeRunnerLemmas {
  import opened Options
  import opened Text
  import opened NarrativeAst
  import opened NarrativeRunner

  /** Registering a definition with no later definition of the same name
      leaves that definition in the table. */
  lemma {:induction false} LastDefinitionRegistered(blocks: seq<Block>, c: Context, i: nat)
    requires i < |blocks| && blocks[i].MacroDef?
    requires forall j :: i < j < |blocks| && blocks[j].MacroDef? ==> blocks[j].name != blocks[i].name
    ensures blocks[i].name in RegisterMacros(blocks, c).macros
    ensures RegisterMacros(blocks, c).macros[blocks[i].name] == (blocks[i].params, blocks[i].body)
    decreases |blocks|
  {
    var c' := match blocks[0]
      case MacroDef(name, params, body) => c.(macros := c.macros[name := (params, body)])
      case _ => c;
    if i == 0 {
      Untouched(blocks[1..], c', blocks[0].name);
    } else {
      forall j | i - 1 < j < |blocks| - 1 && blocks[1..][j].MacroDef?
        ensures blocks[1..][j].name != blocks[1..][i - 1].name
      {
        assert blocks[1..][j] == blocks[j + 1];
      }
      LastDefinitionRegistered(blocks[1..], c', i - 1);
    }
  }

  /** A name no block defines keeps its entry. */
  lemma {:induction false} Untouched(blocks: seq<Block>, c: Context, name: string)
    requires forall j :: 0 <= j < |blocks| && blocks[j].MacroDef? ==> blocks[j].name != name
    ensures name in c.macros ==>
      name in RegisterMacros(blocks, c).macros && RegisterMacros(blocks, c).macros[name] == c.macros[name]
    decreases |blocks|
  {
    if blocks != [] {
      var c' := match blocks[0]
        case MacroDef(n, params, body) => c.(macros := c.macros[n := (params, body)])
        case _ => c;
      forall j | 0 <= j < |blocks| - 1 && blocks[1..][j].MacroDef?
        ensures blocks[1..][j].name != name
      {
        assert blocks[1..][j] == blocks[j + 1];
      }
      Untouched(blocks[1..], c', name);
    }
  }

  /** Every block of a script runs with every macro of the script defined,
      whether its definition comes before or after the block: a call may
      precede its definition. */
  lemma CallSeesEveryDefinition(blocks: seq<Block>, c: Context, fuel: nat, i: nat)
    requires i < |blocks| && blocks[i].MacroDef?
    requires forall j :: i < j < |blocks| && blocks[j].MacroDef? ==> blocks[j].name != blocks[i].name
    ensures ExecScript(blocks, c, fuel).Some? ==>
      blocks[i].name in ExecScript(blocks, c, fuel).value.macros
      && ExecScript(blocks, c, fuel).value.macros[blocks[i].name] == (blocks[i].params, blocks[i].body)
  {
    LastDefinitionRegistered(blocks, c, i);
  }

  /** The call `f(2)` in the first block runs the body of `f`, defined
      only in the second block. */
  lemma CallBeforeDefinition(fuel: nat)
    requires fuel >= 1
    ensures ExecScript([AtTau(0, [MacroCall("f", ["2"])]), MacroDef("f", ["n"], [Tick(1)])], EmptyContext, fuel).Some?
    ensures ExecScript([AtTau(0, [MacroCall("f", ["2"])]), MacroDef("f", ["n"], [Tick(1)])], EmptyContext, fuel).value.tau == 1
  {
    var blocks := [AtTau(0, [MacroCall("f", ["2"])]), MacroDef("f", ["n"], [Tick(1)])];
    var r := RegisterMacros(blocks, EmptyContext);
    assert blocks[1..][1..] == [];
    assert r.macros == map["f" := (["n"], [Tick(1)])];
    var body := r.(vars := BindParams(["n"], ["2"], r.vars));
    assert ExecActions([Tick(1)], body, fuel - 1) == Some(body.(tau := 1));
    assert ExecAction(MacroCall("f", ["2"]), r, fuel) == Some(r.(tau := 1));
    assert ExecActions([MacroCall("f", ["2"])], r, fuel) == Some(r.(tau := 1));
    assert r.(tau := 0) == r;
    assert ExecBlock(blocks[0], r, fuel) == Some(r.(tau := 1));
    assert ExecBlocks(blocks[1..], r.(tau := 1), fuel) == Some(r.(tau := 1));
  }

  /** As parsed by the source, `f()` carries one empty argument, so the
      parameterless `f` is never run: its `tick 1` does not happen. */
  lemma EmptyCallIgnored(fuel: nat)
    ensures ExecScript([AtTau(0, [MacroCall("f", [""])]), MacroDef("f", [], [Tick(1)])], EmptyContext, fuel).Some?
    ensures ExecScript([AtTau(0, [MacroCall("f", [""])]), MacroDef("f", [], [Tick(1)])], EmptyContext, fuel).value.tau == 0
  {
    var blocks := [AtTau(0, [MacroCall("f", [""])]), MacroDef("f", [], [Tick(1)])];
    var r := RegisterMacros(blocks, EmptyContext);
    assert blocks[1..][1..] == [];
    assert r.macros == map["f" := ([], [Tick(1)])];
    assert ExecAction(MacroCall("f", [""]), r, fuel) == Some(r);
    assert ExecActions([MacroCall("f", [""])], r, fuel) == Some(r);
    assert r.(tau := 0) == r;
    assert ExecBlock(blocks[0], r, fuel) == Some(r);
    assert ExecBlocks(blocks[1..], r, fuel) == Some(r);
  }

  /** With the intended reading, `f()` carries no argument and runs the
      parameterless `f`, defined only in the second block. */
  lemma IntendedEmptyCallRuns(fuel: nat)
    requires fuel >= 1
    ensures ExecScript([AtTau(0, [MacroCall("f", [])]), MacroDef("f", [], [Tick(1)])], EmptyContext, fuel).Some?
    ensures ExecScript([AtTau(0, [MacroCall("f", [])]), MacroDef("f", [], [Tick(1)])], EmptyContext, fuel).value.tau == 1
  {
    var blocks := [AtTau(0, [MacroCall("f", [])]), MacroDef("f", [], [Tick(1)])];
    var r := RegisterMacros(blocks, EmptyContext);
    assert blocks[1..][1..] == [];
    assert r.macros == map["f" := ([], [Tick(1)])];
    var body := r.(vars := BindParams([], [], r.vars));
    assert ExecActions([Tick(1)], body, fuel - 1) == Some(body.(tau := 1));
    assert ExecAction(MacroCall("f", []), r, fuel) == Some(r.(tau := 1));
    assert ExecActions([MacroCall("f", [])], r, fuel) == Some(r.(tau := 1));
    assert r.(tau := 0) == r;
    assert ExecBlock(blocks[0], r, fuel) == Some(r.(tau := 1));
    assert ExecBlocks(blocks[1..], r.(tau := 1), fuel) == Some(r.(tau := 1));
  }

  /** A `While` on `always` runs exactly 1001 passes when every pass
      completes. */
  lemma {:induction false} AlwaysRunsToLimit(acts: seq<Action>, c: Context, fuel: nat, count: nat)
    requires count < WhileLimit
    requires WhileRun("always", acts, c, fuel, count).Some?
    ensures WhileRun("always", acts, c, fuel, count).value.1 == WhileLimit
    decreases WhileLimit - count
  {
    assert EvalCondition("always", c);
    var d := ExecActions(acts, c, fuel).value;
    if count + 1 <= 1000 {
      AlwaysRunsToLimit(acts, d, fuel, count + 1);
    }
  }

  /** Parameters bind one after the other: an argument may refer to a
      parameter bound before it. */
  lemma SequentialBinding(vars: map<string, string>)
    ensures BindParams(["x", "y"], ["1", "$x"], vars)["y"] == "1"
  {
    var first := BindParams(["x"], ["1"], vars);
    assert ["x", "y"][..1] == ["x"] && ["1", "$x"][..1] == ["1"];
    assert ["x"][..0] == [] && ["1"][..0] == [];
    NoDollarUnchanged("1", vars);
    assert BindParams([], [], vars) == vars;
    assert first == vars["x" := "1"];
    ValueNotReexpanded("x", first);
  }

  /** The effect of each simple action: `Tick(n)` adds n to tau, `AtTau(t)`
      runs its body from tau t, `CreateAgent` resets the agent to an empty
      memory, `Say` and `Interpret` push the expanded token onto the
      agent's memory (creating it), an assignment binds the expanded value,
      and `Project`, `Assert` and `Comment` change nothing. */
  lemma ActionEffects(c: Context, fuel: nat, name: string, agent: string, token: string, pattern: string, n: nat)
    ensures ExecAction(Tick(n), c, fuel) == Some(c.(tau := c.tau + n))
    ensures ExecBlock(AtTau(n, []), c, fuel) == Some(c.(tau := n))
    ensures ExecAction(CreateAgent(name, n, 0.0), c, fuel).value.agents[name].memory == []
    ensures ExecAction(Say(agent, token, pattern), c, fuel).value.agents[agent].memory
      == (if agent in c.agents then c.agents[agent].memory else []) + [Expanded(token, c.vars)]
    ensures ExecAction(Interpret(agent, token), c, fuel).value.agents[agent].memory
      == (if agent in c.agents then c.agents[agent].memory else []) + [Expanded(token, c.vars)]
    ensures ExecAction(VariableAssignment(name, token), c, fuel).value.vars[name] == Expanded(token, c.vars)
    ensures ExecAction(Project(agent, token), c, fuel) == Some(c)
    ensures ExecAction(Assert(token), c, fuel) == Some(c)
    ensures ExecAction(Comment(token), c, fuel) == Some(c)
  {
  }
}

module NarrativeRunnerMethods {
  import opened Options
  import opened Text
  import opened NarrativeAst
  import opened NarrativeRunner

  /** One step of `expand_vars` at a `$` found at `at`, whose name runs up
      to `end`. */
  lemma ExpandDollarAt(text: string, at: nat, end: nat, vars: map<string, string>)
    requires at < end <= |text| && text[at] == '$'
    requires forall j :: at + 1 <= j < end ==> IsNameChar(text[j])
    requires end < |text| ==> !IsNameChar(text[end])
    ensures var name := text[at + 1..end];
      Expanded(text[at..], vars) == (if name in vars then vars[name] else "$" + name) + Expanded(text[end..], vars)
  {
    var rest := text[at..][1..];
    assert rest == text[at + 1..];
    NameRunIs(rest, end - at - 1);
    assert rest[..end - at - 1] == text[at + 1..end];
    assert rest[end - at - 1..] == text[end..];
  }

  /** The same step after `r` has been produced. */
  lemma ExpandDollarStep(text: string, at: nat, end: nat, vars: map<string, string>, r: string)
    requires at < end <= |text| && text[at] == '$'
    requires forall j :: at + 1 <= j < end ==> IsNameChar(text[j])
    requires end < |text| ==> !IsNameChar(text[end])
    ensures var name := text[at + 1..end];
      r + Expanded(text[at..], vars) == (r + (if name in vars then vars[name] else "$" + name)) + Expanded(text[end..], vars)
  {
    ExpandDollarAt(text, at, end, vars);
  }

  /** A character other than `$` is copied. */
  lemma ExpandCharStep(text: string, at: nat, vars: map<string, string>, r: string)
    requires at < |text| && text[at] != '$'
    ensures r + Expanded(text[at..], vars) == (r + [text[at]]) + Expanded(text[at + 1..], vars)
  {
    assert text[at..][1..] == text[at + 1..];
  }

  /** Binding one more parameter. */
  lemma BindStep(params: seq<string>, args: seq<string>, vars: map<string, string>, i: nat)
    requires |params| == |args| && i < |params|
    ensures var before := BindParams(params[..i], args[..i], vars);
      BindParams(params[..i + 1], args[..i + 1], vars) == before[params[i] := Expanded(args[i], before)]
  {
    assert params[..i + 1][..i] == params[..i] && args[..i + 1][..i] == args[..i];
  }

  /** `ScriptContext`: the state a script runs against. */
  class ScriptContext {
    var vars: map<string, string>
    var macros: map<string, (seq<string>, seq<Action>)>
    var agents: map<string, AgentState>
    var tau: nat

    /** `ScriptContext::default()`: nothing bound, defined or created, at
        tau 0. */
    constructor ()
      ensures Snapshot() == EmptyContext
    {
      vars := map[];
      macros := map[];
      agents := map[];
      tau := 0;
    }

    function Snapshot(): Context
      reads this
    {
      Context(vars, macros, agents, tau)
    }

    /** `expand_vars`: one pass over the characters, pushing onto the
        result. */
    method ExpandVars(text: string) returns (r: string)
      ensures r == Expanded(text, vars)
    {
      r := "";
      var i := 0;
      while i < |text|
        invariant 0 <= i <= |text|
        invariant r + Expanded(text[i..], vars) == Expanded(text, vars)
        decreases |text| - i
      {
        var c := text[i];
        ghost var at := i;
        i := i + 1;
        if c == '$' {
          var name, end := ReadVarName(text, i);
          ExpandDollarStep(text, at, end, vars, r);
          var piece := if name in vars then vars[name] else "$" + name;
          r := r + piece;
          i := end;
        } else {
          ExpandCharStep(text, at, vars, r);
          r := r + [c];
        }
      }
    }

    /** The binding loop of a macro call: each parameter bound to its
        argument expanded against the variables as they stand. */
    method BindArguments(params: seq<string>, args: seq<string>)
      requires |params| == |args|
      modifies this
      ensures vars == BindParams(params, args, old(vars))
      ensures macros == old(macros) && agents == old(agents) && tau == old(tau)
    {
      var i := 0;
      while i < |params|
        invariant 0 <= i <= |params|
        invariant vars == BindParams(params[..i], args[..i], old(vars))
        invariant macros == old(macros) && agents == old(agents) && tau == old(tau)
      {
        var v := ExpandVars(args[i]);
        BindStep(params, args, old(vars), i);
        vars := vars[params[i] := v];
        i := i + 1;
      }
      assert params[..i] == params && args[..i] == args;
    }

    /** `execute_action`. Returns false only when the nested macro calls
        need more than `fuel`. */
    method ExecuteAction(a: Action, fuel: nat) returns (ok: bool)
      modifies this
      ensures var spec := ExecAction(a, old(Snapshot()), fuel);
        (ok <==> spec.Some?) && (ok ==> Snapshot() == spec.value)
      decreases fuel, a
    {
      match a {
        case Conditional(cond, subs) =>
          if EvalCondition(cond, Snapshot()) {
            ok := ExecuteActions(subs, fuel);
          } else {
            ok := true;
          }
        case CreateAgent(name, _, _) =>
          agents := agents[name := FreshAgent];
          ok := true;
        case VariableAssignment(name, value) =>
          var val := ExpandVars(value);
          vars := vars[name := val];
          ok := true;
        case Say(agent, token, pattern) =>
          var t := ExpandVars(token);
          var p := ExpandVars(pattern);
          var state := if agent in agents then agents[agent] else FreshAgent;
          agents := agents[agent := state.(memory := state.memory + [t])];
          ok := true;
        case Interpret(agent, token) =>
          var t := ExpandVars(token);
          var state := if agent in agents then agents[agent] else FreshAgent;
          agents := agents[agent := state.(memory := state.memory + [t])];
          ok := true;
        case Project(_, token) =>
          var t := ExpandVars(token);
          ok := true;
        case Tick(n) =>
          tau := tau + n;
          ok := true;
        case Assert(_) =>
          ok := true;
        case Comment(_) =>
          ok := true;
        case MacroCall(callee, args) =>
          ok := CallMacro(callee, args, fuel);
      }
    }

    /** The `MacroCall` arm of `execute_action`: binds the parameters one
        by one, runs the body, then puts the variables back. */
    method CallMacro(callee: string, args: seq<string>, fuel: nat) returns (ok: bool)
      modifies this
      ensures var spec := ExecAction(MacroCall(callee, args), old(Snapshot()), fuel);
        (ok <==> spec.Some?) && (ok ==> Snapshot() == spec.value)
      decreases fuel, MacroCall(callee, args), 0
    {
      if callee !in macros {
        return true;
      }
      var (params, body) := macros[callee];
      if |params| != |args| {
        return true;
      }
      if fuel == 0 {
        return false;
      }
      var oldVars := vars;
      BindArguments(params, args);
      ok := ExecuteActions(body, fuel - 1);
      if ok {
        vars := oldVars;
      }
    }

    /** The `for action in actions` loop. */
    method ExecuteActions(acts: seq<Action>, fuel: nat) returns (ok: bool)
      modifies this
      ensures var spec := ExecActions(acts, old(Snapshot()), fuel);
        (ok <==> spec.Some?) && (ok ==> Snapshot() == spec.value)
      decreases fuel, acts
    {
      var i := 0;
      assert acts[0..] == acts;
      while i < |acts|
        invariant 0 <= i <= |acts|
        invariant ExecActions(acts, old(Snapshot()), fuel) == ExecActions(acts[i..], Snapshot(), fuel)
        decreases |acts| - i
      {
        assert acts[i..][1..] == acts[i + 1..];
        ok := ExecuteAction(acts[i], fuel);
        if !ok {
          return;
        }
        i := i + 1;
      }
      ok := true;
    }

    /** `execute_block`. */
    method ExecuteBlock(b: Block, fuel: nat) returns (ok: bool)
      modifies this
      ensures var spec := ExecBlock(b, old(Snapshot()), fuel);
        (ok <==> spec.Some?) && (ok ==> Snapshot() == spec.value)
    {
      match b {
        case AtTau(t, acts) =>
          tau := t;
          ok := ExecuteActions(acts, fuel);
        case Repeat(n, acts) =>
          ok := RunRepeat(n, acts, fuel);
        case While(cond, acts) =>
          ok := RunWhile(cond, acts, fuel);
        case Parallel(acts) =>
          ok := ExecuteActions(acts, fuel);
        case MacroDef(_, _, _) =>
          ok := true;
      }
    }

    /** The `Repeat` arm of `execute_block`: the body `n` times over. */
    method RunRepeat(n: nat, acts: seq<Action>, fuel: nat) returns (ok: bool)
      modifies this
      ensures var spec := RepeatRun(n, acts, old(Snapshot()), fuel);
        (ok <==> spec.Some?) && (ok ==> Snapshot() == spec.value)
    {
      var i := 0;
      while i < n
        invariant 0 <= i <= n
        invariant RepeatRun(n, acts, old(Snapshot()), fuel) == RepeatRun(n - i, acts, Snapshot(), fuel)
      {
        ok := ExecuteActions(acts, fuel);
        if !ok {
          return;
        }
        i := i + 1;
      }
      ok := true;
    }

    /** The `While` arm of `execute_block`: at most 1001 passes. */
    method RunWhile(cond: string, acts: seq<Action>, fuel: nat) returns (ok: bool)
      modifies this
      ensures var spec := WhileRun(cond, acts, old(Snapshot()), fuel, 0);
        (ok <==> spec.Some?) && (ok ==> Snapshot() == spec.value.0)
    {
      var count := 0;
      while EvalCondition(cond, Snapshot())
        invariant count < WhileLimit
        invariant WhileRun(cond, acts, old(Snapshot()), fuel, 0) == WhileRun(cond, acts, Snapshot(), fuel, count)
        decreases WhileLimit - count
      {
        ghost var before := Snapshot();
        ok := ExecuteActions(acts, fuel);
        if !ok {
          return;
        }
        count := count + 1;
        if count > 1000 {
          assert WhileRun(cond, acts, before, fuel, count - 1) == Some((Snapshot(), count));
          return;
        }
      }
      ok := true;
    }

    /** `execute_script`: every macro definition first, then the other
        blocks in order. */
    method ExecuteScript(blocks: seq<Block>, fuel: nat) returns (ok: bool)
      modifies this
      ensures var spec := ExecScript(blocks, old(Snapshot()), fuel);
        (ok <==> spec.Some?) && (ok ==> Snapshot() == spec.value)
    {
      var i := 0;
      assert blocks[0..] == blocks;
      while i < |blocks|
        invariant 0 <= i <= |blocks|
        invariant RegisterMacros(blocks, old(Snapshot())) == RegisterMacros(blocks[i..], Snapshot())
      {
        assert blocks[i..][1..] == blocks[i + 1..];
        match blocks[i] {
          case MacroDef(name, params, body) =>
            macros := macros[name := (params, body)];
          case _ =>
        }
        i := i + 1;
      }
      ghost var registered := Snapshot();
      i := 0;
      while i < |blocks|
        invariant 0 <= i <= |blocks|
        invariant ExecBlocks(blocks, registered, fuel) == ExecBlocks(blocks[i..], Snapshot(), fuel)
      {
        assert blocks[i..][1..] == blocks[i + 1..];
        if !blocks[i].MacroDef? {
          ok := ExecuteBlock(blocks[i], fuel);
          if !ok {
            return;
          }
        }
        i := i + 1;
      }
      ok := true;
    }
  }

  /** The inner scan of `expand_vars`: the name characters from `start`,
      and where the scan stopped. */
  method ReadVarName(text: string, start: nat) returns (name: string, end: nat)
    requires start <= |text|
    ensures start <= end <= |text| && name == text[start..end]
    ensures forall j :: start <= j < end ==> IsNameChar(text[j])
    ensures end < |text| ==> !IsNameChar(text[end])
  {
    name := "";
    end := start;
    while end < |text| && IsNameChar(text[end])
      invariant start <= end <= |text|
      invariant name == text[start..end]
      invariant forall j :: start <= j < end ==> IsNameChar(text[j])
    {
      name := name + [text[end]];
      end := end + 1;
    }
  }
}
