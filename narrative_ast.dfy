// Abstract syntax of the narrative scripting language
// (src/narrative/ast.rs): top-level blocks holding actions, with nested
// conditionals and macro definitions.

module NarrativeAst {
  /** One statement inside a block. `mem` is a `u32` and `coh` an `f32` in
      the source; here they are a natural and a real. */
  datatype Action =
    | Conditional(cond: string, actions: seq<Action>)
    | CreateAgent(name: string, mem: nat, coh: real)
    | MacroCall(callee: string, args: seq<string>)
    | VariableAssignment(variable: string, value: string)
    | Say(agent: string, token: string, pattern: string)
    | Interpret(agent: string, token: string)
    | Project(agent: string, token: string)
    | Tick(ticks: nat)
    | Assert(expr: string)
    | Comment(text: string)

  /** A top-level block: its header's data and its body. The tau of `AtTau`
      is a `u64`, the count of `Repeat` a `u32`. */
  datatype Block =
    | AtTau(tau: nat, body: seq<Action>)
    | Repeat(times: nat, body: seq<Action>)
    | While(cond: string, body: seq<Action>)
    | Parallel(body: seq<Action>)
    | MacroDef(name: string, params: seq<string>, body: seq<Action>)

  /** No `Comment` action anywhere, conditionals included. */
  predicate NoCommentIn(acts: seq<Action>)
    decreases acts
  {
    forall i :: 0 <= i < |acts| ==> NoComment(acts[i])
  }

  predicate NoComment(a: Action)
    decreases a
  {
    match a
    case Comment(_) => false
    case Conditional(_, subs) => NoCommentIn(subs)
    case _ => true
  }
}
