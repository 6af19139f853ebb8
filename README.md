# substrate_projection_interpreter, modelled in Dafny

This project models the core of the substrate projection interpreter. It has
four parts:

- The recursion hierarchy (`src/recursions.rs`). A tree of category objects
  at the levels Void, Particle, Atom, Molecule and Cell, with these
  operations: promotion, per-level interpretation, aggregate stability, the
  recursive tick and mutation propagation.
- Symbols and meanings (`src/symbol.rs`) and the symmetry and
  differentiation detectors over an agent's memory traces
  (`src/symmetry.rs`).
- The name tables (`src/patterns.rs`, `src/variables.rs`, `src/macros.rs`).
  This includes the `[name]` pattern expander.
- Two front-ends:
  - The narrative language (`src/narrative/parser.rs`,
    `src/narrative/runner.rs`). It has an indentation-driven line cursor,
    the block and action parsers, `$name` variable expansion, conditions,
    macros and the two-pass script runner.
  - The SPTL statement language (`src/sptl/mod.rs`). It has a whitespace
    tokenizer and a recursive-descent parser over a token cursor.

The form of the model follows the form of the source:

- **Pure code.** Pure Rust code becomes Dafny functions.
- **Objects with mutable fields.** An object whose methods mutate its fields
  becomes a class with `modifies` clauses. This covers the pattern, variable
  and macro tables, `LineCursor`, `ScriptContext` and the SPTL `Parser`.
- **Proofs against specifications.**
  - Each such method, and each loop, is proved against a specification
    function over the old state.
  - What the source promises is then proved about those functions.
  - For SPTL this includes a parse/render round trip over all renderable
    statement lists.
  - For the narrative parser it includes the exact indentation run that
    each block consumes.
  - For the tree it includes "every agent is visited exactly once".
- **Rust panics.** A panic becomes `None` (or `Fail`).

Files:
- `text.dfy`: string helpers standing in for Rust's `str` API.
- `agents.dfy`: folds and the stability of an agent.
- `symbol.dfy`, `symmetry.dfy`, `recursions.dfy`, `patterns.dfy`,
  `tables.dfy`.
- `narrative_ast.dfy`, `narrative_parser.dfy`, `narrative_runner.dfy`.
- `sptl.dfy`.

## Model

| member | source | states |
|---|---|---|
| Recursions.Ordinal | src/recursions.rs:28-34 | the `as u8` value of a level is 0 only for Void and 4 only for Cell |
| Recursions.NextLevel | src/recursions.rs:59-65 | no next level exactly at Cell; otherwise the next level's ordinal is one more |
| Recursions.New | src/recursions.rs:46-54 | a new object has the given level and id, an empty substrate, no children and no agents |
| Recursions.Promote | src/recursions.rs:57-73 | None exactly at Cell; otherwise one level up, the old object as the only child, no agents, an empty substrate and id "<ordinal>-<old id>" |
| Recursions.PromoteDepth | src/recursions.rs:57-73 | promotion adds exactly one level on top of the tree |
| Recursions.PromotedIdShape | src/recursions.rs:68 | the promoted id is one digit, a dash and the old id unchanged |
| Recursions.PromotionReachesCell | src/recursions.rs:57-73 | four promotions from a Void leaf reach Cell, and a fifth fails |
| Recursions.Interpret | src/recursions.rs:102-110 | None exactly for Void; otherwise the interpretation variant matches the level and carries the object's id |
| Recursions.EnergyNonNegative | src/recursions.rs:113-119 | the particle's energy, the sum of the activations, is non-negative when every activation is |
| Recursions.QuantumStateCountsActivations | src/recursions.rs:113-119 | the particle's quantum state is "q" followed by the number of activation entries in hexadecimal |
| Recursions.AtomicNumberCountsParticles | src/recursions.rs:122-133 | the atomic number counts the Particle-level children, and the shell configuration is that count followed by "s2" |
| Recursions.AtomIgnoresOtherChildren | src/recursions.rs:122-133 | adding a child at a level other than Particle does not change an atom's interpretation |
| Recursions.MoleculeBondsChainAtoms | src/recursions.rs:136-154 | a molecule's atoms are the Atom-level children, and bond i joins the ids of atoms i and i+1 |
| Recursions.CellSummary | src/recursions.rs:157-168 | a cell's emergent property is "homeostasis", with one contributing meaning per child that is not Void |
| Recursions.CellMeanings | src/recursions.rs:157-168 | one rendered meaning per child that has an interpretation |
| Recursions.AggregateIsTreeTotal | src/recursions.rs:91-97 | the aggregate stability is the sum of the trace stabilities of every agent in the whole tree |
| Recursions.ChildrenStabilityIsSum | src/recursions.rs:92-94 | the children's part is the sum of each child's aggregate |
| Recursions.AggregateOrderIndependent | src/recursions.rs:91-97 | reordering the children or the agents does not change the aggregate |
| Recursions.TickRecursive | src/recursions.rs:76-80 | the result is the tree with decay_memory(0.05) applied to every agent and decay(0.05) to every substrate |
| Recursions.TickDecaysEachOnce | src/recursions.rs:76-80 | a tick keeps the tree's shape and decays every agent and every substrate exactly once, in order |
| Recursions.PropagateMutation | src/recursions.rs:83-88 | the result is the tree with every agent expressing "mutation:<message>" with pattern "111" at tau 0, and the substrates kept |
| Recursions.MutationReachesEveryAgentOnce | src/recursions.rs:83-88 | a mutation keeps the shape and reaches every agent of the tree exactly once with the same message |
| Recursions.MapTreeKeepsShape | src/recursions.rs:76-88 | the recursive walk keeps levels, ids and the numbers of agents and children all the way down |
| Recursions.MapTreeVisitsEveryAgentOnce | src/recursions.rs:76-88 | the agents of the walked tree are the old agents, each mapped once, in order |
| Recursions.MapTreeVisitsEverySubstrateOnce | src/recursions.rs:76-88 | the substrates of the walked tree are the old substrates, each mapped once, in order |
| Folds.SumOfPermutation | src/recursions.rs:91-97 | a sum of reals does not depend on the order of the summands, which is what makes the `sum()` in the aggregate order-free |
| Agents.AgentStabilityBounds | src/recursions.rs:93-95 | with every trace stability in [0, 1], an agent's stability lies between 0 and its number of traces |
| Symbols.Mutate | src/symbol.rs:33-36 | the token gains one trailing "*", the pattern is kept, and the result differs from the input |
| Symbols.MutateInjective | src/symbol.rs:33-36 | distinct symbols mutate to distinct symbols |
| Symbols.FromSymbol | src/symbol.rs:53-59 | the meaning keeps the symbol and tau, and its description is "Interpretation of '<token>' at τ=<tau>" |
| Symbols.DistinctTauDistinctDescription | src/symbol.rs:53-59 | the same symbol at two different taus gets two different descriptions |
| Symbols.DescriptionDeterminesTokenAndTau | src/symbol.rs:53-59 | a description determines both the token and the tau it was made from |
| Symmetry.DetectSymmetry | src/symmetry.rs:6-19 | true exactly when every trace holds more than `window` interpretants and its last `window` descriptions equal the first of them |
| Symmetry.DetectDifferentiation | src/symmetry.rs:22-39 | true exactly when some trace with more than `window` interpretants has two consecutive different descriptions among its last `window` |
| Symmetry.DetectAttractor | src/symmetry.rs:42-44 | the same answer as symmetry detection |
| Symmetry.NoTracesSymmetricNotDifferentiating | src/symmetry.rs:6-39 | an agent without traces is symmetric and not differentiating |
| Symmetry.ImmatureTraceVetoesSymmetry | src/symmetry.rs:9-11 | one trace that is too short makes the agent not symmetric |
| Symmetry.StableIffNoChange | src/symmetry.rs:12-16 | "all equal to the first" and "no consecutive change" are the same test over a window |
| Symmetry.AllMatureDichotomy | src/symmetry.rs:6-39 | when every trace is long enough, the agent is differentiating exactly when it is not symmetric |
| Symmetry.SameDescriptionsSameAnswers | src/symmetry.rs:6-39 | only descriptions are compared: agents whose traces have equal descriptions get equal answers |
| Symmetry.RecentTausDifferBreakSymmetry | src/symmetry.rs:6-19 | two latest interpretants of one symbol at different taus break symmetry, because descriptions embed tau |
| Lookups.LookupAfterInsert | src/variables.rs:23-29 | after an insertion the name answers the new value and every other name answers as before |
| Patterns.PatternTable.constructor | src/patterns.rs:12-16 | no pattern is defined |
| Patterns.PatternTable.Define | src/patterns.rs:19-21 | the name now maps to the value, replacing any earlier value; every other name is unchanged |
| Patterns.PatternTable.ExpandPatterns | src/patterns.rs:25-51 | the loop produces the one-pass expansion of the text against the table |
| Patterns.ReadName | src/patterns.rs:30-38 | the name runs from the start up to the first `]` or the end of the text |
| Patterns.NoBracketUnchanged | src/patterns.rs:25-51 | text without `[` comes back unchanged |
| Patterns.PlainPrefix | src/patterns.rs:25-51 | text without `[` in front of the rest is copied ahead of the rest's expansion |
| Patterns.BracketedName | src/patterns.rs:29-45 | `[name]` becomes the definition of the name, or is kept as written when the name is undefined |
| Patterns.Unterminated | src/patterns.rs:30-45 | an unterminated `[` takes the rest of the text as the name, and `]` is added when it is undefined |
| Patterns.SinglePass | src/patterns.rs:25-51 | a defined name expands to its definition verbatim, and an undefined one is a fixed point of expansion |
| Variables.VariableTable.constructor | src/variables.rs:19-21 | no name is bound |
| Variables.VariableTable.Set | src/variables.rs:23-25 | the name is bound to the value, replacing any earlier binding; every other name is unchanged |
| Variables.VariableTable.Get | src/variables.rs:27-29 | Some exactly when the name is bound, and then the bound value |
| Macros.MacroTable.constructor | src/macros.rs:16-18 | no macro is defined |
| Macros.MacroTable.Define | src/macros.rs:20-22 | the name now maps to the parameters and body, replacing any earlier macro; every other name is unchanged |
| Macros.MacroTable.Get | src/macros.rs:24-26 | Some exactly when the name is defined, and then its macro |
| NarrativeParser.Lines | src/narrative/parser.rs:12 | the pieces of the text between newlines, none containing a newline, and at least one exactly when the text is not empty |
| NarrativeParser.JoinLinesRoundTrip | src/narrative/parser.rs:12 | joining the lines with newlines gives back every text that has no carriage return and does not end in a newline |
| NarrativeParser.Entry | src/narrative/parser.rs:13-18 | a stored line is the raw line minus its leading whitespace, with the indent equal to the byte length removed |
| NarrativeParser.Collect | src/narrative/parser.rs:11-19 | only lines that are non-empty after the indent and do not start with `#` are kept, in order |
| NarrativeParser.LineCursor.From | src/narrative/parser.rs:10-21 | the cursor holds exactly the significant lines of the script, in order, with their indents |
| NarrativeParser.LineCursor.Peek | src/narrative/parser.rs:22-24 | the front line, or None exactly when the queue is empty |
| NarrativeParser.LineCursor.Next | src/narrative/parser.rs:25-27 | removes and returns the front line; an empty queue is left as it is |
| NarrativeParser.AtTauHeader | src/narrative/parser.rs:74 | the header's tau, when present, fits a u64 |
| NarrativeParser.RepeatHeader | src/narrative/parser.rs:87-88 | the repeat count, when present, fits a u32 |
| NarrativeParser.WhileHeader | src/narrative/parser.rs:101 | the condition between `while` and `:` is trimmed |
| NarrativeParser.MacroHeader | src/narrative/parser.rs:53-61 | the parameters of a definition are the non-empty trimmed comma-separated pieces |
| NarrativeParser.BlankParams | src/narrative/parser.rs:57-61 | `macro f():` defines a macro with no parameters |
| NarrativeParser.EmptyCallAsWritten | src/narrative/parser.rs:180-182 | a blank argument list is read as one empty argument, while the same text as parameters gives none |
| NarrativeParser.CallAction | src/narrative/parser.rs:177-183 | a call line gives a macro call |
| NarrativeParser.CallActionArgs | src/narrative/parser.rs:177-183 | the callee is the trimmed text before `(`, and the arguments are every trimmed comma-separated piece between `(` and `)` |
| NarrativeParser.BlankCall | src/narrative/parser.rs:180-182 | `f()` and `f( )` call `f` with one empty argument |
| NarrativeParser.CallActionIntended | src/narrative/parser.rs:177-183 | the corrected call reads the same callee, and succeeds exactly when the call as written does |
| NarrativeParser.BlankCallIntended | src/narrative/parser.rs:177-183 | with the correction, `f()` calls `f` with no argument |
| NarrativeParser.CallArgsMatchParams | src/narrative/parser.rs:57-61 | with the correction, an argument list reads exactly like a parameter list |
| NarrativeParser.CreateAgentAction | src/narrative/parser.rs:142-147 | `create agent` gives a CreateAgent whose memory size fits a u32 |
| NarrativeParser.LetAction | src/narrative/parser.rs:148-153 | `let` succeeds exactly when the text contains `=` |
| NarrativeParser.TickAction | src/narrative/parser.rs:154-156 | `tick` gives a Tick whose count fits a u32 |
| NarrativeParser.SayAction | src/narrative/parser.rs:159-165 | `<agent> says:` gives a Say action |
| NarrativeParser.HearAction | src/narrative/parser.rs:166-171 | `<agent> hears:` gives an Interpret action |
| NarrativeParser.ParseAction | src/narrative/parser.rs:141-188 | a line with one of the keyword prefixes gives that kind of action or None, a Comment comes only from a line starting with `#`, and the result is never a Conditional or a Project |
| NarrativeParser.ParseActionOrder | src/narrative/parser.rs:141-188 | lines are classified in the source's order: the prefixes `create agent `, `let `, `tick ` and `assert `, then ` says: `, ` hears: ` and ` interprets: `, then a call ending in `)`, then `#`. A `let` succeeds exactly when an `=` follows it. A `tick` succeeds exactly when its count parses as a u32. An `assert` always succeeds. A says or hears line succeeds exactly when an arrow follows the marker, and an interprets line always does. A call succeeds exactly when its first `(` comes before its first `)`, and a `#` line always does. A line matching none of these gives None, the source's panic. |
| NarrativeParser.AgentLineNoKeyword | src/narrative/parser.rs:142-159 | a line that starts with an agent word and a marker such as ` says: ` takes none of the keyword branches, unless the agent word is `let`, `tick` or `assert` |
| NarrativeParser.SayLine | src/narrative/parser.rs:159-165 | `<agent> says: <token> → <pattern>` gives that Say with the pattern trimmed, even when the pattern holds ` hears: ` or ` interprets: ` |
| NarrativeParser.HearLine | src/narrative/parser.rs:166-171 | `<agent> hears: <token> → <rest>` without ` says: ` gives the Interpret of that agent and token |
| NarrativeParser.TickLine | src/narrative/parser.rs:154-156 | `tick <n>` gives Tick(n) for every n that fits in a u32 |
| NarrativeParser.LetSplitsAtFirstEquals | src/narrative/parser.rs:148-153 | `let` splits at the first `=`, so the value may contain `=` |
| NarrativeParser.IfHeader | src/narrative/parser.rs:126-127 | a conditional header is exactly a line starting with `if ` and ending with `:` |
| NarrativeParser.ActionBlockOf | src/narrative/parser.rs:124-139 | an action block yields one action and consumes at least its own line |
| NarrativeParser.HeaderBlock | src/narrative/parser.rs:33-46 | the block kind follows the header's keyword, a `while` or `parallel:` header always gives a block, and the body is the parsed body |
| NarrativeParser.ScriptOf | src/narrative/parser.rs:30-49 | a non-empty queue gives at least one block, and never more blocks than lines |
| NarrativeParser.ActionBlockRun | src/narrative/parser.rs:124-139 | an action block consumes its line and then only lines indented deeper than it |
| NarrativeParser.BodyRun | src/narrative/parser.rs:62-68 | a body consumes exactly the maximal run of lines indented deeper than its header |
| NarrativeParser.BlockRun | src/narrative/parser.rs:30-49 | a top-level block is its header and the maximal run of lines indented deeper than the header |
| NarrativeParser.CommentUnreachable | src/narrative/parser.rs:184-185 | no parsed script contains a Comment action, because the cursor already drops `#` lines |
| NarrativeParserMethods.ParseBody | src/narrative/parser.rs:63-68 | the loop reads exactly the body the specification gives and leaves the rest of the queue |
| NarrativeParserMethods.ParseActionBlock | src/narrative/parser.rs:124-139 | the outcome and the lines consumed are those of the action-block specification |
| NarrativeParserMethods.ParseMacroDef | src/narrative/parser.rs:51-70 | a definition block, with the header read over the parsed body |
| NarrativeParserMethods.ParseAtTau | src/narrative/parser.rs:72-83 | an `at τ=` block, with the header read over the parsed body |
| NarrativeParserMethods.ParseRepeat | src/narrative/parser.rs:85-97 | a `repeat` block, with the header read over the parsed body |
| NarrativeParserMethods.ParseWhile | src/narrative/parser.rs:99-110 | a `while` block, with the header read over the parsed body |
| NarrativeParserMethods.ParseParallel | src/narrative/parser.rs:112-122 | a `parallel:` block over the parsed body, with the header text not read |
| NarrativeParserMethods.ParseBlock | src/narrative/parser.rs:33-46 | dispatch on the header line: the block and the lines consumed are those of the block specification |
| NarrativeParserMethods.ParseScript | src/narrative/parser.rs:30-49 | the loop returns exactly the script specification of the text's lines |
| NarrativeRunner.NameRun | src/narrative/runner.rs:171-175 | the run of name characters is maximal |
| NarrativeRunner.NoDollarUnchanged | src/narrative/runner.rs:165-187 | text without `$` comes back unchanged |
| NarrativeRunner.VariableReference | src/narrative/runner.rs:170-182 | `$name` becomes the bound value, or stays `$name` when unbound |
| NarrativeRunner.ValueNotReexpanded | src/narrative/runner.rs:176-178 | a bound value is inserted verbatim and is not expanded again |
| NarrativeRunner.ConditionCases | src/narrative/runner.rs:144-163 | `always` holds; a three-word `A knows X` holds exactly when agent A exists and remembers X; a condition of neither shape nor the `A memory contains…` shape is false |
| NarrativeRunner.ConditionReadsAgents | src/narrative/runner.rs:144-163 | a condition reads only the agents |
| NarrativeRunner.BindParams | src/narrative/runner.rs:129-136 | binding defines every parameter, keeps every old variable, and adds nothing else |
| NarrativeRunner.Remember | src/narrative/runner.rs:98-108 | the token is pushed onto the agent's memory, creating the agent if needed; other agents are unchanged |
| NarrativeRunner.ExecAction | src/narrative/runner.rs:77-142 | actions never change the macros and never move tau back; a call keeps the caller's variables; a call to an unknown macro or with the wrong number of arguments does nothing |
| NarrativeRunner.ExecBlock | src/narrative/runner.rs:36-75 | blocks keep the macros; an `at τ` block runs from that tau |
| NarrativeRunner.WhileRun | src/narrative/runner.rs:53-66 | a `while` makes at most 1001 passes |
| NarrativeRunner.RegisterMacros | src/narrative/runner.rs:22-26 | the first pass changes only the macros |
| NarrativeRunner.ExecScript | src/narrative/runner.rs:20-34 | the run uses the macros of the first pass throughout |
| NarrativeRunnerLemmas.LastDefinitionRegistered | src/narrative/runner.rs:22-26 | the last definition of a name is the one registered |
| NarrativeRunnerLemmas.Untouched | src/narrative/runner.rs:22-26 | a name that no block defines keeps its entry |
| NarrativeRunnerLemmas.CallSeesEveryDefinition | src/narrative/runner.rs:20-34 | every block runs with every macro of the script defined, wherever the definition appears |
| NarrativeRunnerLemmas.CallBeforeDefinition | src/narrative/runner.rs:20-34 | a call in the first block runs a one-parameter macro defined after it |
| NarrativeRunnerLemmas.EmptyCallIgnored | src/narrative/runner.rs:123-127 | as written, `f()` against `macro f():` fails the arity check and leaves tau at 0 |
| NarrativeRunnerLemmas.IntendedEmptyCallRuns | src/narrative/runner.rs:123-140 | with the corrected call, the same script runs the body and tau becomes 1 |
| NarrativeRunnerLemmas.AlwaysRunsToLimit | src/narrative/runner.rs:53-66 | a `while always` runs exactly 1001 passes |
| NarrativeRunnerLemmas.SequentialBinding | src/narrative/runner.rs:129-136 | parameters are bound one after another, so an argument sees the parameters bound before it |
| NarrativeRunnerLemmas.ActionEffects | src/narrative/runner.rs:38-121 | tick adds to tau; `at τ` sets tau; create starts with empty memory; say and hear push the expanded token; let binds the expanded value; project, assert and comment change nothing |
| NarrativeRunnerMethods.ReadVarName | src/narrative/runner.rs:171-175 | the scan stops at the first character that is not a name character |
| NarrativeRunnerMethods.ScriptContext.constructor | src/narrative/runner.rs:6-12 | the context starts empty at tau 0 |
| NarrativeRunnerMethods.ScriptContext.ExpandVars | src/narrative/runner.rs:165-187 | the loop produces the one-pass `$name` expansion of the text |
| NarrativeRunnerMethods.ScriptContext.BindArguments | src/narrative/runner.rs:129-136 | the variables become the sequential binding of the arguments, and nothing else changes |
| NarrativeRunnerMethods.ScriptContext.ExecuteAction | src/narrative/runner.rs:77-142 | the new context is the one the action specification gives |
| NarrativeRunnerMethods.ScriptContext.CallMacro | src/narrative/runner.rs:123-140 | the call binds, runs the body and restores the caller's variables, as its specification gives |
| NarrativeRunnerMethods.ScriptContext.ExecuteActions | src/narrative/runner.rs:41-43 | the actions run in order, as specified |
| NarrativeRunnerMethods.ScriptContext.ExecuteBlock | src/narrative/runner.rs:36-75 | the new context is the one the block specification gives |
| NarrativeRunnerMethods.ScriptContext.RunRepeat | src/narrative/runner.rs:45-52 | the body runs n times over, as specified |
| NarrativeRunnerMethods.ScriptContext.RunWhile | src/narrative/runner.rs:53-66 | the body runs while the condition holds, at most 1001 times, as specified |
| NarrativeRunnerMethods.ScriptContext.ExecuteScript | src/narrative/runner.rs:20-34 | definitions are registered first, then the other blocks run in order, as specified |
| Sptl.Tokenize | src/sptl/mod.rs:37-42 | one token per whitespace-separated word, and no token starts or ends with `"`, `,`, `[` or `]` |
| Sptl.NextAt | src/sptl/mod.rs:178-186 | the token at the cursor and the cursor one further, or a failure at the end |
| Sptl.ExpectAt | src/sptl/mod.rs:192-199 | succeeds exactly when the token matches, ignoring case; the cursor moves past the token either way |
| Sptl.NumberAt | src/sptl/mod.rs:83 | succeeds exactly when the token parses as a number, and yields that number |
| Sptl.SizeAt | src/sptl/mod.rs:70 | succeeds exactly when the token parses as a usize, and yields it |
| Sptl.LabelledAt | src/sptl/mod.rs:201-208 | a label with the given prefix followed by a number, and the number read |
| Sptl.CastToUsize | src/sptl/mod.rs:99 | `as usize`: 0 below 1, the integer part in range, and saturation at the top |
| Sptl.QuotedAt | src/sptl/mod.rs:141-148 | reads the run of quoted tokens and stops at the first token that is not quoted |
| Sptl.OneWordAt | src/sptl/mod.rs:151-158 | logcoherence and logmeaning take the next token as their name |
| Sptl.StatementAt | src/sptl/mod.rs:65-176 | a statement always moves the cursor, and an unknown keyword fails just past itself |
| Sptl.ParseAll | src/sptl/mod.rs:53-63 | statements are parsed until the first one that fails |
| SptlMethods.Parser.constructor | src/sptl/mod.rs:49-51 | the parser holds the tokens with the cursor at 0 |
| SptlMethods.Parser.Peek | src/sptl/mod.rs:188-190 | the token at the cursor, or None exactly at the end |
| SptlMethods.Parser.Next | src/sptl/mod.rs:178-186 | as specified by the next-token step |
| SptlMethods.Parser.Expect | src/sptl/mod.rs:192-199 | as specified by the expect step |
| SptlMethods.Parser.ExpectValue | src/sptl/mod.rs:201-208 | as specified by the labelled-value step |
| SptlMethods.Parser.Parse | src/sptl/mod.rs:53-63 | the statements and the final cursor are exactly those of the parse specification |
| SptlMethods.Parser.ParseStatement | src/sptl/mod.rs:65-176 | the outcome and the cursor are those of the statement specification |
| SptlMethods.Parser.ParseField | src/sptl/mod.rs:68-72 | as specified for `field` |
| SptlMethods.Parser.ParseInterpretation | src/sptl/mod.rs:73-91 | as specified for `interpretation` |
| SptlMethods.Parser.ParseProject | src/sptl/mod.rs:92-108 | as specified for `project` |
| SptlMethods.Parser.ParseTrace | src/sptl/mod.rs:109-123 | as specified for `trace` |
| SptlMethods.Parser.ParseMeaning | src/sptl/mod.rs:124-138 | as specified for `meaning` |
| SptlMethods.Parser.ParseNarrateReturn | src/sptl/mod.rs:139-150 | as specified for `narratereturn` |
| SptlMethods.Parser.ReadValues | src/sptl/mod.rs:78-89 | the value loop reads numbers up to `]`, as specified |
| SptlMethods.Parser.ReadQuoted | src/sptl/mod.rs:141-148 | the quoted-token loop, as specified |
| SptlMethods.Parser.ParseOneWord | src/sptl/mod.rs:151-158 | as specified for `logcoherence` and `logmeaning` |
| SptlMethods.Parser.ParseExpressSymbol | src/sptl/mod.rs:159-167 | as specified for `expresssymbol` |
| SptlMethods.Parser.ParseModulate | src/sptl/mod.rs:168-173 | as specified for `modulate` |
| SptlLemmas.StatementDispatch | src/sptl/mod.rs:65-176 | each keyword, in any case, selects its own statement parser |
| SptlLemmas.StatementRoundTrip | src/sptl/mod.rs:65-176 | every renderable statement parses back from its rendering |
| SptlLemmas.ParseRoundTrip | src/sptl/mod.rs:53-63 | every list of renderable statements parses back from its rendering and consumes all of it |
| SptlLemmas.ParseStopsAtUnknownKeyword | src/sptl/mod.rs:53-176 | parsing keeps the statements before an unknown keyword and stops just past it |
| SptlLemmas.TokenizedStatements | src/sptl/mod.rs:37-42 | from tokenizer output, no interpretation, trace or meaning statement is ever produced, and a narratereturn never collects a token (a quote is trimmed off every token) |
| Sptl.TokenizeIntended | src/sptl/mod.rs:37-42 | with the correction, every token is one punctuation character or a run without any |
| SptlLemmas.IntendedRoundTrip | src/sptl/mod.rs:37-63 | when every rendered token is free of punctuation, the corrected splitting of the rendered tokens parses back to the statements, consuming every token |
| SptlLemmas.IntendedTextRoundTrip | src/sptl/mod.rs:37-63 | the same from text: the rendered tokens, written with single blanks between them, read by the corrected tokenizer parse back to the statements when each token is one punctuation-free word |
| SptlLemmas.IntendedReadsInterpretation | src/sptl/mod.rs:73-91 | with the corrected splitting, the rendered tokens of an interpretation with whole values and a punctuation-free name parse to that interpretation |
| SptlLemmas.IntendedReadsInterpretationText | src/sptl/mod.rs:73-91 | the text `interpretation <name> = [ <v1> … <vn> ]`, read by the corrected tokenizer, parses to that interpretation when the name is one punctuation-free word and the values are whole |
| SptlLemmas.IntendedReadsExample | src/sptl/mod.rs:73-91 | the text `interpretation x = [ 1 ]`, read by the corrected tokenizer, parses to the interpretation of `x` with the one value 1 |
| Text.ToLower | src/sptl/mod.rs:66 | lowercasing keeps the length and maps each character |
| Text.SplitWhitespace | src/sptl/mod.rs:39 | every piece is a non-empty run without whitespace |
| Text.SplitLeadingWord | src/sptl/mod.rs:39 | a word at the start of the text, ended by whitespace or by the end, is the first piece, and the rest of the text gives the other pieces |
| Text.SplitJoinSpaced | src/sptl/mod.rs:39 | words joined by single blanks split back into exactly those words, in order |
| Text.ParseFloatDecimal | src/sptl/mod.rs:83 | a decimal numeral reads back as the number of the same value |

## Left out

- IsNameChar: uses ASCII letters, digits and `_`, but runner.rs:172 uses Unicode `char::is_alphanumeric`. A variable name that contains a non-ASCII letter is cut short. With `x = 1`, the source expands `$xé` to `$xé` (it looks up "xé") and the model expands it to `1é`. This affects NarrativeRunner.NameRun, NarrativeRunnerMethods.ReadVarName and NarrativeRunnerMethods.ScriptContext.ExpandVars.
- NarrativeRunnerMethods.ScriptContext.ExpandVars: ASCII name characters only (see IsNameChar).
- ExecAction: `tau` is an unbounded natural, but the source's `u64` `+=` at runner.rs:115 panics on overflow in debug builds and wraps in release builds. The "tau never moves back" clauses of ExecAction, ExecBlock and ExecScript hold only because of this.
- ExecAction: a self-calling macro recurses without bound in the source and overflows the stack. The model carries a `fuel` bound and gives None when it runs out. This applies to ExecActions, RepeatRun, WhileRun, ExecBlock, ExecBlocks and ExecScript, and to their methods, including NarrativeRunnerMethods.ScriptContext.ExecuteScript.
- NarrativeRunnerMethods.ScriptContext.ExecuteScript: tau is unbounded and recursion is bounded by fuel (see the ExecAction lines).
- ParseFloat: models `str::parse::<f32>`/`parse::<f64>` on decimal literals only, as exact reals with no rounding. The model rejects `inf`, `infinity` and `NaN`, which Rust accepts. So:
  - NarrativeParser.CreateAgentAction fails on such a coherence where the source creates the agent;
  - ReadValues and ValuesAt stop at such a value where the source keeps it.
- CastToUsize: works on the exact value, so it does not reproduce `as usize` applied to an f64 that was already rounded while it was parsed.
- DetectSymmetry: requires `window >= 1`. With window 0 (symmetry.rs:7-18) the source gives true for an agent without traces and false when its first trace is empty; otherwise it panics at symmetry.rs:13. DetectDifferentiation and DetectAttractor have the same precondition; with window 0, DetectDifferentiation panics at symmetry.rs:30 once a trace is non-empty.
- TickRecursive: returns the updated tree instead of changing `&mut self` in place. The source owns its children exclusively, so no aliasing is lost. The children are walked in order where the source uses Rayon's `par_iter_mut`; the children are independent, so the resulting tree is the same. PropagateMutation is modelled the same way.
- AggregateIsTreeTotal: the stabilities are summed as exact reals. The f64 rounding of the source's parallel `sum()`, which depends on Rayon's reduction order, is not modelled.
- TickRecursive: takes the agent's `decay_memory` and the substrate's `decay` as function parameters. Their bodies are in agents/memory code that is not part of this model. PropagateMutation takes `express_symbol` the same way.
- Energy: a ghost sum over the activation map, because Rust's iteration order of a `HashMap` is unspecified. So InterpretParticle, Interpret and the other interpretations are ghost, and floating-point rounding of the sum is not modelled.
- Show: stands in for the `{:?}` rendering of an interpretation in interpret_cell. Only the number of rendered meanings is stated, not their text.
- ToLower: ASCII only, where the source calls Unicode `to_lowercase`. This is exact for the SPTL keywords and labels that are compared, because the only non-ASCII character whose lowercase is entirely ASCII is the Kelvin sign, whose lowercase is `k`, and no keyword or label contains `k`.
- ParseScript: the source panics (`unwrap`, `parse().unwrap()`) on a malformed header or action. The model gives None.
- The output of the runner and of `execute_program` (printing, the projection and trace computations it calls in `projection.rs` and `trace.rs`) is not part of this model. `execute_program` (sptl/mod.rs:210-282) only prints and dispatches to those.
- Not part of this model: shell.rs, main.rs, multiproc.rs, substrate.rs, interpretations.rs, visualize.rs, trace.rs and projection.rs (outside the core), and the tests.

## Findings

| source | as written | input that shows it | evidently intended | confidence | as-written member | corrected member |
|---|---|---|---|---|---|---|
| src/narrative/parser.rs:177-183 | a call's arguments are every trimmed comma-separated piece, so `f()` carries one empty argument, while `macro f():` gets no parameter; the arity check at runner.rs:125 then rejects every call to a zero-parameter macro | `macro f():` with body `tick 1`, and `at τ=0:` with `f()`: tau stays 0 | a blank argument list passes no argument, like a blank parameter list, so the call runs the body | not executed | NarrativeRunnerLemmas.EmptyCallIgnored | NarrativeRunnerLemmas.IntendedEmptyCallRuns |
| src/sptl/mod.rs:40 | the tokenizer trims `[`, `]`, `,` and `"` from both ends of every word, so the `[` that interpretation expects and the `,` that trace and meaning expect become empty tokens, and no such statement ever parses | `interpretation x = [ 1 ]` gives the tokens `interpretation`, `x`, `=`, an empty token, `1` and another empty token, and parses to nothing | punctuation is cut out as tokens of its own, and quotes are kept for narratereturn | not executed | SptlLemmas.TokenizedStatements | SptlLemmas.IntendedReadsExample |
