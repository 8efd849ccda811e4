# janis-core in Dafny

A model of the in-memory compiler at the centre of janis-core, with proofs
about it. janis-core describes bioinformatics workflows in Python and
lowers them to the Common Workflow Language, CWL v1.0. The model covers
the following parts:

- **Data types** (`datatypes.dfy`). These are the native type tables
  `is_primitive`, `is_valid`, `map_to_cwl` and `map_to_wdl`. They also
  include a `DataType` value with a class lineage and an `optional` flag,
  and its `id`, `can_receive_from`, `cwl_type` and `map_cwl_type`.
- **Intermediate representation** (`ir.dfy`). This holds the values a
  connection can carry, the tools, and the input, step and output node
  records. It also has the source resolution of `verify_or_try_get_source`
  and `StepNode.get_item`, and the optional port copies a conditional step
  reports.
- **The `StringFormatter` operator** (`stringformatter.dfy`). This covers:
  - placeholder/kwarg validation on construction;
  - resolution to a literal, with its loop;
  - `__repr__` and `get_leaves`, with their loops;
  - `+` and `radd` against strings, selectors and other formatters, with
    conflict detection.
- **The workflow builder**. `workflow_spec.dfy` and `switch_spec.dfy` state
  every builder call as a transition over a snapshot of the workflow's
  fields, together with the invariant it keeps. The calls are `input`,
  `step`, `output`, `switch` and `wrap_steps_in_workflow`.
  `workflow.dfy` carries out the same transitions in place. It has a
  `Workflow` class whose node dictionaries and `has_*` flags are fields
  its methods update, and a `StepNode` class whose edges and
  `parent_has_conditionals` flag `_add_edge` updates. Each method is
  proved to leave exactly the state the transition describes.
- **The CWL lowering** (`cwl_expressions.dfy`, `cwl.dfy`). This covers:
  - `unwrap_expression`, `translate_input_selector`,
    `translate_string_formatter`, `translate_to_cwl_glob` and the cpu and
    memory selectors;
  - the workflow, step, port, tool and argument records of
    `translate_workflow`, `translate_step` and `translate_tool_internal`;
  - the resource overrides of `build_resource_override_maps_for_workflow`
    and how they are bound to steps;
  - the loop over the tools to build.

  The `cwlgen` classes are plain records.
- **The CWL ingestion helpers** (`fromcwl.dfy`). These are the identifier
  normalisation, the type-string and type-list parser, the JavaScript
  token converter, `parse_basic_expression` and `parse_workflow_source`.
- **The tool scaffolder's literal serialiser** (`generator.dfy`). This
  covers `get_string_repr`, `convert_generic_class` over an explicit
  parameter list, and `convert_command_tool_fragments`.
- **The publication checklist** (`testdefs.dfy`). This covers
  `ToolEvaluator.evaluate` and its checks.

Every exception the code raises is a constructor of `Wrappers.Error`, and
every operation that can raise returns a `Result`. Logged warnings are
returned as lists of strings.

Some collaborators are parameters because their code is not part of this
model:
- the brace scanner `get_keywords_between_braces` (`Scanner`);
- `Validators.validate_identifier` and `get_instantiated_type` (`Env`);
- Python's `float()` on a string (`pyFloat`);
- the container-registry lookup (`digestFound`);
- `==` between Python objects (`Equality`);
- `str.title`, `repr` and `datetime.now()`;
- the iteration order of a Python `set` (an order argument).

A step scattered over two fields without a method gets a
`ScatterDescription` with the dot method
(janis_core/workflow/workflow.py:518), and the model does the same.

## Model

| member | source | states |
|---|---|---|
| DataTypes.PrimitiveKinds | janis/types/data_types.py:35-40 | `is_primitive` holds exactly for str, int, float, long, double and bool |
| DataTypes.ValidKinds | janis/types/data_types.py:35-67 | `is_valid` holds exactly for the primitives plus file, dir and array; stdout is not valid although `map_to_cwl` and `map_to_wdl` handle it; every valid type maps in both |
| DataTypes.MappingsAgreeOnDomain | janis/types/data_types.py:46-90 | both mappings accept exactly the valid types plus stdout and raise the unhandled-primitive error otherwise; WDL collapses long/float/double to Float and maps dir to None; the CWL mapping is injective |
| DataTypes.CanReceiveFromMonotone | janis/types/data_types.py:167-179 | making the destination optional never loses a source; making the source optional never gains one, and making it required never loses one |
| DataTypes.ReceivesFromItself | janis/types/data_types.py:173-179 | every type receives from itself; a required destination never receives from an optional source of its own class; an optional one always does |
| DataTypes.CanReceiveFrom | janis/types/data_types.py:167-179 | `can_receive_from`: the class must match, and a required destination refuses an optional source (stated by `DataTypes.CanReceiveFromMonotone`, `DataTypes.ReceivesFromItself` and `DataTypes.ClassMatchIgnoresOptional`) |
| DataTypes.ClassMatchIgnoresOptional | janis/types/data_types.py:173-174 | the `isinstance` check ignores both `optional` flags |
| DataTypes.IdShape | janis/types/data_types.py:159-162 | `id()` is `Optional<name>` exactly when optional, else `name()` |
| DataTypes.CwlTypeOfScalar | janis/types/data_types.py:196-200 | `cwl_type()` is the CWL name of the primitive, ending in `?` exactly when optional; an unmapped primitive raises |
| DataTypes.CwlTypeOf | janis/types/data_types.py:196-200 | computes `cwl_type()`: the primitive's CWL name with `?` when optional, or the unmapped-primitive error; its properties are stated by `DataTypes.CwlTypeOfScalar` |
| DataTypes.MapCwlTypeSpec | janis/types/data_types.py:202-209 | `map_cwl_type` raises exactly for an invalid primitive (stdout included); otherwise keeps the id and sets the `?`-suffixed type and the secondary files |
| DataTypes.MapCwlType | janis/types/data_types.py:202-209 | computes `map_cwl_type` on a parameter; its properties are stated by `DataTypes.MapCwlTypeSpec` |
| Ir.ConditionalPorts | janis_core/workflow/workflow.py:121-149 | a conditional step reports every input and output under the same tag and order as an optional copy of the tool's type; an unconditional one reports them unchanged |
| Ir.NodeSourceSpec | janis_core/workflow/workflow.py:51-72 | a bare node with more than one output raises; an input node resolves to its single keyless output; a named tag resolves exactly when the node has it; an output node is never a source |
| Ir.GetSourceSpec | janis_core/workflow/workflow.py:41-72 | a `StepOperator` is returned unchanged; every accepted source becomes a verified `StepOperator`, a list element-wise; any other value is rejected |
| Ir.GetSourcesSpec | janis_core/workflow/workflow.py:49-50 | a list source fails exactly when one element fails, else maps each element |
| Ir.GetItemSpec | janis_core/workflow/workflow.py:176-190 | `get_item` succeeds exactly for an input or output tag of the step and returns a `StepOperator` on it; an output tag is a verified source |
| StringFormatters.NewWarnings | janis_core/operators/stringformatter.py:29-34 | construction logs the brace-imbalance warning exactly when the balance is positive |
| StringFormatters.NewSpec | janis_core/operators/stringformatter.py:26-51 | construction succeeds exactly when the placeholders equal the kwarg keys and then stores the kwargs; a placeholder without a kwarg raises `IncorrectArgsException` with the missing keys; kwargs strictly containing the placeholders raise `TooManyArgsException` with the extra keys |
| StringFormatters.New | janis_core/operators/stringformatter.py:26-51 | computes the constructor: the two argument checks, then the stored format and kwargs; its properties are stated by `StringFormatters.NewSpec` and `StringFormatters.NewWarnings` |
| StringFormatters.UnresolvedKeys | janis_core/operators/stringformatter.py:98-105 | the list of unresolved keys is empty exactly when every supplied value is a str, int or float |
| StringFormatters.ResolveWithResolvedValues | janis_core/operators/stringformatter.py:76-115 | the two loops compute exactly the result of the resolve specification |
| StringFormatters.ResolveErrors | janis_core/operators/stringformatter.py:78-115 | a changed format, a stored key not supplied and an unresolvable supplied value each raise, in both directions and in that order; a success has every value resolvable and is the format with each `{k}` replaced by `str(v)` |
| StringFormatters.Resolve | janis_core/operators/stringformatter.py:76-115 | specifies `resolve_with_resolved_values`: its three raises in order, then the format with every placeholder replaced; stated by `StringFormatters.ResolveErrors` and met by the loop `StringFormatters.ResolveWithResolvedValues` |
| StringFormatters.ReplaceEachAbsent | janis_core/operators/stringformatter.py:112-115 | replacing placeholders the format does not contain leaves it unchanged |
| StringFormatters.ResolveWithoutPlaceholders | janis_core/operators/stringformatter.py:112-115 | a format with none of the supplied placeholders resolves to itself |
| StringFormatters.ResolveOne | janis_core/operators/stringformatter.py:112-115 | with one supplied value the result is the format cut at every `{k}` and joined with `str(v)` |
| StringFormatters.Repr | janis_core/operators/stringformatter.py:61-65 | the loop computes the repr specification |
| StringFormatters.ReprSpec | janis_core/operators/stringformatter.py:61-65 | `repr` of a formatter without kwargs is its format; with one kwarg every `{k}` becomes `{str(v)}` |
| StringFormatters.GetLeaves | janis_core/operators/stringformatter.py:67-74 | the loop and its recursive calls compute exactly the leaves specification |
| StringFormatters.ValueLeavesFlat | janis_core/operators/stringformatter.py:67-74 | no leaf is itself an operator |
| StringFormatters.KwargLeavesFlat | janis_core/operators/stringformatter.py:67-74 | no leaf of a kwargs list is an operator |
| StringFormatters.LeavesOfPlainKwargs | janis_core/operators/stringformatter.py:67-74 | with no operator among the values the leaves are the kwarg values in insertion order |
| StringFormatters.AddStringSpec | janis_core/operators/stringformatter.py:123-135 | appending a string keeps the kwargs and joins the formats; it raises `InvalidByProductException` exactly when the joined format has a placeholder without a kwarg, and `TooManyArgsException` exactly when it lost one |
| StringFormatters.MergeSpec | janis_core/operators/stringformatter.py:157 | `{**a, **b}` has distinct keys, the union of the key sets, `a`'s keys first in `a`'s order, and `b`'s value wherever `b` has the key |
| StringFormatters.OverwriteSpec | janis_core/operators/stringformatter.py:157 | overwriting keeps `a`'s keys and their distinctness, and takes `b`'s value where it has one |
| StringFormatters.FreshSpec | janis_core/operators/stringformatter.py:157 | the keys `b` adds are exactly `b`'s keys not in `a`, with `b`'s values |
| StringFormatters.Conflicts | janis_core/operators/stringformatter.py:141-150 | the `not_same_args` list as a set: the keys of both operands whose values are not equal under `eq`; used by `StringFormatters.AddFormattersSpec` |
| StringFormatters.AddFormattersSpec | janis_core/operators/stringformatter.py:140-160 | concatenating formatters raises `ConflictingArgumentsException` with the conflicting keys exactly when a shared key has values that are not equal under Python's `==` (the parameter `eq`); otherwise it builds from the joined formats and the merged kwargs |
| StringFormatters.AddFormatters | janis_core/operators/stringformatter.py:140-160 | the formatter-plus-formatter branch of `__add__` (stated by `StringFormatters.AddFormattersSpec`, `StringFormatters.AddFormattersMerged` and `StringFormatters.AddFormattersOk`) |
| StringFormatters.AddFormattersMerged | janis_core/operators/stringformatter.py:140-160 | a successful concatenation joins the formats; a key only the left operand has keeps its value, a key of the right operand takes the right value, and a shared key's two values are equal under `eq` |
| StringFormatters.AddFormattersOk | janis_core/operators/stringformatter.py:146-160 | a successful concatenation had no conflicts and is the joined format over the merged kwargs |
| StringFormatters.MergeAgrees | janis_core/operators/stringformatter.py:157 | without conflicts the merged kwargs keep each left-only value, take each right value, and are `eq`-equal to the left value on every shared key |
| StringFormatters.RAddSpec | janis_core/operators/stringformatter.py:117-118 | `other + f` raises `IncorrectArgsException` when `other` has placeholders, and otherwise is the formatter concatenation |
| StringFormatters.RAdd | janis_core/operators/stringformatter.py:117-118 | `__radd__` (stated by `StringFormatters.RAddSpec`) |
| StringFormatters.AddOperandSpec | janis_core/operators/stringformatter.py:137-160 | an `InputSelector` operand acts as its formatter; an operand of any other type gives `None` |
| StringFormatters.Add | janis_core/operators/stringformatter.py:120-160 | `__add__` (stated by `StringFormatters.AddStringSpec`, `StringFormatters.AddFormattersSpec` and `StringFormatters.AddOperandSpec`) |
| WorkflowSpec.EmptyValid | janis_core/workflow/workflow.py:272-282 | a new workflow has empty node dictionaries, all three flags off, and satisfies the builder invariant |
| WorkflowSpec.VerifyIdentifierSpec | janis_core/workflow/workflow.py:300-317 | an identifier passes exactly when it is not a workflow attribute name, not an existing node and accepted by the validator; each refusal in that order |
| WorkflowSpec.FindInputNodeSpec | janis_core/workflow/workflow.py:473-474 | an input node is found exactly when its identifier is among the input nodes |
| WorkflowSpec.AddInputSpec | janis_core/workflow/workflow.py:332-348 | `input` raises exactly when the identifier check fails, changing nothing; otherwise the type becomes optional exactly when the default is truthy (so 0, "" and False keep it required), the node keeps its default, value and doc, and it is added to `nodes` and `input_nodes` only |
| WorkflowSpec.AddInput | janis_core/workflow/workflow.py:319-348 | the `input` transition; its properties are stated by `WorkflowSpec.AddInputSpec` and `WorkflowSpec.AddInputValid`, and `Workflows.Workflow.Input` carries it out |
| WorkflowSpec.AddInputValid | janis_core/workflow/workflow.py:346-347 | `input` keeps the builder invariant |
| WorkflowSpec.InputInserted | janis_core/workflow/workflow.py:346-347 | adding an input node under a fresh identifier to `nodes` and `input_nodes` keeps the invariant |
| WorkflowSpec.StepInserted | janis_core/workflow/workflow.py:606-607 | adding a step node under a fresh identifier to `nodes` and `step_nodes` keeps the invariant |
| WorkflowSpec.OutputInserted | janis_core/workflow/workflow.py:432-433 | adding an output node under a fresh identifier to `nodes` and `output_nodes` keeps the invariant |
| WorkflowSpec.InferOutputTypeSpec | janis_core/workflow/workflow.py:402-409 | an undeclared output type is the received type of the source output, wrapped in `Array` once for a scattered step and once more for `all_non_null` |
| WorkflowSpec.ArrayNotFromElement | janis_core/workflow/workflow.py:236-239 | no array type receives from its own element type |
| WorkflowSpec.AllNonNullListSourceRaises | janis_core/workflow/workflow.py:239-243 | as written, every list source with an inferred `all_non_null` type raises on reading `source.node`; the intended check only logs one warning |
| WorkflowSpec.OutputNodeCheck | janis_core/workflow/workflow.py:205-245 | the corrected half of the output-check finding: every source must be a step output, and a type mismatch against the first source is only logged (stated by `WorkflowSpec.OutputFromInputRefused` and `WorkflowSpec.AllNonNullListSourceRaises`) |
| WorkflowSpec.OutputNodeCheckAsWritten | janis_core/workflow/workflow.py:205-245 | the code as written: the mismatch message reads `source.node` (stated by `WorkflowSpec.AllNonNullListSourceRaises`) |
| WorkflowSpec.VerifyOutputSourceTypeSpec | janis_core/workflow/workflow.py:454-481 | strings pass unchanged; a node passes exactly when it is an input node and becomes an `InputSelector` on it; a selector passes exactly when it names an input; lists keep their length |
| WorkflowSpec.AddOutputRefusals | janis_core/workflow/workflow.py:382-398 | `output` refuses a bad identifier and then a `None` source without changing anything; any later failure has at most logged the defaulted `pick_value` warning |
| WorkflowSpec.OutputFromSourceState | janis_core/workflow/workflow.py:400-434 | past the source check, `output` fails without changing the state or adds the node to `nodes` and `output_nodes` only |
| WorkflowSpec.InsertOutputState | janis_core/workflow/workflow.py:411-434 | the name and folder checks and `OutputNode` fail without changing the state, or insert the node |
| WorkflowSpec.InsertOutput | janis_core/workflow/workflow.py:411-434 | the end of `output`: selections, the intended `WorkflowSpec.OutputNodeCheck` and the insertion; stated by `WorkflowSpec.InsertOutputState` and `InsertOutputResult` |
| WorkflowSpec.AddOutputResult | janis_core/workflow/workflow.py:384-434 | the stored source is the verified one; a list source without `pick_value` gets `first_non_null` and logs the warning; a declared type is kept and an undeclared one is the inferred type; every source is a step output |
| WorkflowSpec.AddOutput | janis_core/workflow/workflow.py:350-434 | the `output` transition, with the intended `OutputNode` check (see "## Findings"); stated by `WorkflowSpec.AddOutputResult`, `AddOutputRefusals`, `AddOutputState` and `AddOutputValid` |
| WorkflowSpec.AddOutputVia | janis_core/workflow/workflow.py:382-398 | a successful `output` passed the identifier and source checks and defaulted a list source's `pick_value` before going on |
| WorkflowSpec.OutputFromSourceResult | janis_core/workflow/workflow.py:400-434 | the node built from a verified source keeps it, its `pick_value` and the declared or inferred type, and only appends warnings |
| WorkflowSpec.InsertOutputResult | janis_core/workflow/workflow.py:411-434 | the inserted output node holds the given type, source and `pick_value`, every source on a step |
| WorkflowSpec.AddOutputState | janis_core/workflow/workflow.py:432-433 | a successful `output` changes only `nodes`, `output_nodes` and the warnings, and no flag |
| WorkflowSpec.OutputFromInputRefused | janis_core/workflow/workflow.py:224-230 | an input node as an output source passes source verification but is refused by `OutputNode` as an unsupported connection, changing nothing |
| WorkflowSpec.AddOutputValid | janis_core/workflow/workflow.py:382-434 | `output` keeps the builder invariant |
| WorkflowSpec.OutputFromSourceValid | janis_core/workflow/workflow.py:400-434 | the rest of `output` keeps the builder invariant for a fresh identifier |
| WorkflowSpec.NormaliseScatter | janis_core/workflow/workflow.py:506-518 | a field or a list of fields becomes a dot-product scatter, a description is kept, no scatter stays none and any other object raises |
| WorkflowSpec.AddToTagSpec | janis_core/workflow/workflow.py:159-165 | adding an edge creates its tag on first use and appends the edge to that tag's sources, leaving every other tag unchanged |
| WorkflowSpec.AddEdgeFrom | janis_core/workflow/workflow.py:151-165 | the edge `_add_edge` makes from a single step-output source and the step it leaves |
| WorkflowSpec.AddEdgeSpec | janis_core/workflow/workflow.py:151-165 | an edge from a step with `has_conditionals` or `parent_has_conditionals` sets `parent_has_conditionals`, and nothing else does; the edge scatters exactly when its tag is a scatter field; it is appended to its tag's sources; a failed source changes nothing |
| WorkflowSpec.MakeSourceLiteral | janis_core/workflow/workflow.py:567-590 | a literal for tag `k` becomes the input `{step}_{k}` whose type is the tool input's made optional and whose default is the literal; an inferred type the tool input cannot receive raises `TypeError` before anything changes |
| WorkflowSpec.MakeSource | janis_core/workflow/workflow.py:567-590 | the source of one connection of `step` (stated by `WorkflowSpec.MakeSourceLiteral` and `WorkflowSpec.MakeSourceFrame`) |
| WorkflowSpec.StepChecksSpec | janis_core/workflow/workflow.py:504-560 | step validation in both directions and in order: identifier, scatter shape, scatter fields outside the inputs, unrecognised connections, and (unless `ignore_missing`) missing required inputs; none of them changes the workflow |
| WorkflowSpec.StepChecks | janis_core/workflow/workflow.py:504-560 | the checks `step` makes before it changes anything (stated by `WorkflowSpec.StepChecksSpec`) |
| WorkflowSpec.OnlyInputsAddedTrans | janis_core/workflow/workflow.py:566-598 | wiring that only appends input nodes composes |
| WorkflowSpec.AddInputFrame | janis_core/workflow/workflow.py:583-590 | the inputs made for literal and `None` connections keep the invariant and only append input nodes |
| WorkflowSpec.MakeSourceFrame | janis_core/workflow/workflow.py:567-590 | turning a connection into a source keeps the invariant and only appends input nodes |
| WorkflowSpec.AddEdgesFrame | janis_core/workflow/workflow.py:592-595 | the edges of a list source keep the workflow and the step's identity, and only append edges |
| WorkflowSpec.ConnectFrame | janis_core/workflow/workflow.py:567-597 | one connection keeps the invariant, only appends input nodes and leaves the step identifier free |
| WorkflowSpec.ConnectAllFrame | janis_core/workflow/workflow.py:566-598 | all connections keep the invariant, only append input nodes and leave the step identifier free |
| WorkflowSpec.AddStepValid | janis_core/workflow/workflow.py:483-609 | `step` keeps the builder invariant, also when it raises half-way |
| WorkflowSpec.AddStepSpec | janis_core/workflow/workflow.py:483-609 | `step` succeeds exactly when validation and wiring do; on success the step is inserted last with its tool, scatter and condition after the inputs its literals created, `has_scatter` and `has_subworkflow` turn on exactly for a scatter and a workflow tool, and no flag turns off; on failure only input nodes were added |
| WorkflowSpec.AddStep | janis_core/workflow/workflow.py:483-609 | the `step` transition; stated by `WorkflowSpec.AddStepSpec` and `WorkflowSpec.AddStepValid`, and `Workflows.Workflow.Step` carries it out |
| SwitchSpec.CaseGuardSpec | janis_core/workflow/workflow.py:955-962 | the first branch runs on its own guard, a later guarded branch on `And(g, Not(Or(prev)))`, the default on `Not(Or(all))` |
| SwitchSpec.AssignSpec | janis_core/workflow/workflow.py:917 | `d[k] = v` binds `k` to `v`, leaves every other key, appends a new key last and adds it to the key set |
| SwitchSpec.CaseTools | janis_core/workflow/workflow.py:615-625 | the tools of the switch, one per element, in order |
| SwitchSpec.SchemaDiffsAt | janis_core/workflow/workflow.py:631-643 | one more tool of the schema loop adds a diff exactly when some first-branch output does not fit it |
| SwitchSpec.AddStepOk | janis_core/workflow/workflow.py:980 | a branch step added to the wrapping workflow keeps its invariant, is appended last with its tool and condition, and only adds inputs |
| SwitchSpec.RememberInput | janis_core/workflow/workflow.py:913-930 | a new input remembered in `workflow_connection_map` under its own identifier is appended with the given type and doc and no default; its identifier was not an input, so the entry is appended last; every remembered key stays an input of the wrapping workflow |
| SwitchSpec.RebuildStepOp | janis_core/workflow/workflow.py:910-919 | a `StepOperator` becomes the existing input `cond_{node}_{tag}`, changing nothing; otherwise that input is appended with the type of `node.outputs()[tag]` and no default, `workflow_connection_map` gains the entry `cond_{node}_{tag}` = the operator last, and a missing output raises |
| SwitchSpec.RebuildInputOp | janis_core/workflow/workflow.py:920-929 | an `InputOperator` becomes the existing input node `cond_{node}`, changing nothing; otherwise that input is appended with the type of the node's first output and returned as an operator, and `workflow_connection_map` gains the entry `cond_{node}` = the outer node last; a node without outputs raises |
| SwitchSpec.RebuildFrame | janis_core/workflow/workflow.py:900-946 | on success, rebuilding a guard only appends inputs to the wrapping workflow and entries to the connection map, keeps every remembered key an input, and gives the guard with every step and input operator replaced by the wrapper input named after it (`Rebuilt`) |
| SwitchSpec.RebuildSpec | janis_core/workflow/workflow.py:900-946 | `rebuild_condition` returns the guard rebuilt over the wrapper's inputs (`Rebuilt`: formatters, one- and two-operand operators and disjunctions rebuilt around rebuilt operands); a new `cond_` input for a step or input operator is remembered last, bound to the operator or the outer node; any other value is returned unchanged and changes nothing |
| SwitchSpec.Rebuild | janis_core/workflow/workflow.py:900-946 | `rebuild_condition` (stated by `SwitchSpec.RebuildSpec`, `SwitchSpec.RebuildStepOp`, `SwitchSpec.RebuildInputOp` and `SwitchSpec.RebuildFrame`) |
| SwitchSpec.RebuiltGrows | janis_core/workflow/workflow.py:910-929 | a rebuilt guard stays rebuilt as the wrapping workflow gains inputs, since an existing `cond_` input is the one found from then on |
| SwitchSpec.RebuildFormatFrame | janis_core/workflow/workflow.py:931-935 | a rebuilt formatter keeps its format and, in order, its kwargs' keys, each value rebuilt; the wrapping invariant is kept |
| SwitchSpec.RebuildOp2Frame | janis_core/workflow/workflow.py:940-944 | a rebuilt two-operand operator keeps its name and has both operands rebuilt over the final inputs; the wrapping invariant is kept |
| SwitchSpec.RebuildKwargsFrame | janis_core/workflow/workflow.py:934 | rebuilding a kwargs dictionary keeps its keys in order and rebuilds each value; the wrapping invariant is kept |
| SwitchSpec.RebuildListFrame | janis_core/workflow/workflow.py:900-946 | rebuilding a list of operands rebuilds each one, in order; the wrapping invariant is kept |
| SwitchSpec.WrapConnectionsFrame | janis_core/workflow/workflow.py:964-978 | the connections of a branch keep their tags; the loop only appends inputs and connection-map entries, and every remembered key stays an input |
| SwitchSpec.WrapConnectionsKeys | janis_core/workflow/workflow.py:965-978 | the rewired connection map has exactly the branch's connection tags |
| SwitchSpec.WrapConnectionInput | janis_core/workflow/workflow.py:973-978 | a connection that is not a literal becomes the input `{case}_{tag}`, appended right after the existing inputs with the tool input's type and doc and no default; `workflow_connection_map` binds `{case}_{tag}` to the connection's value, and, unless the tag comes again, the step's connection map holds that input under the tag |
| SwitchSpec.WrapConnectionRest | janis_core/workflow/workflow.py:966-978 | the connections after one that became an input only append inputs and entries and keep their tags |
| SwitchSpec.WrapConnectionsWired | janis_core/workflow/workflow.py:965-978 | after the loop over a branch's connections, a literal is passed on under its tag; any other value is, under its tag, the input `{case}_{tag}` of the tool input's type and doc, which `workflow_connection_map` binds to the value; tags the branch does not connect keep their entries |
| SwitchSpec.WrapConnections | janis_core/workflow/workflow.py:964-978 | the connection loop of one branch (stated by `SwitchSpec.WrapConnectionsWired`, `SwitchSpec.WrapConnectionsKeys` and `SwitchSpec.WrapConnectionInput`) |
| SwitchSpec.WiredGrows | janis_core/workflow/workflow.py:965-978 | a wired connection stays wired as the wrapping gains inputs and connection-map entries |
| SwitchSpec.WrapStepLast | janis_core/workflow/workflow.py:950-980 | a branch that wraps appends exactly one step `switch_case_{i+1}` running the branch's tool with its rewired connections under its condition |
| SwitchSpec.WrapStepSpec | janis_core/workflow/workflow.py:950-980 | a branch becomes the step `switch_case_{i+1}`, appended last, under its condition |
| SwitchSpec.WrapStepConnections | janis_core/workflow/workflow.py:964-980 | the branch step has the same connection tags as the branch |
| SwitchSpec.WrapStepFrame | janis_core/workflow/workflow.py:964-980 | wrapping a branch keeps the wrapping invariant and changes the workflow only by new inputs and the step appended last |
| SwitchSpec.WrapStepWired | janis_core/workflow/workflow.py:964-980 | the step of a wrapped branch receives each of the branch's connections as `WrapConnectionsWired` states, and adding the step keeps the inputs and the connection map |
| SwitchSpec.WrapCaseSpec | janis_core/workflow/workflow.py:951-980 | a guarded branch appends to the collected guards exactly `rebuild_condition` of its guard, which is its guard rebuilt over the wrapper's inputs, and runs when it holds and no earlier one does; the default runs when none does; the new step receives the branch's connections rewired; inputs and map entries only grow |
| SwitchSpec.WrapCase | janis_core/workflow/workflow.py:951-980 | one iteration of the branch loop (stated by `SwitchSpec.WrapCaseSpec`) |
| SwitchSpec.WrapCasesSpec | janis_core/workflow/workflow.py:948-980 | with only the last branch a default, branch `j` becomes step `switch_case_{j+1}`, in order, under the guard `CaseStep` describes over the collected guards; each guard is its branch's guard rebuilt and each step's connections are wired to inputs the connection map binds (`BranchBound`) |
| SwitchSpec.WrapGuardedCase | janis_core/workflow/workflow.py:954-959 | a guarded branch followed by the rest of the loop keeps that description |
| SwitchSpec.WrapDefaultCase | janis_core/workflow/workflow.py:960-962 | the default branch ends the loop under the negated disjunction |
| SwitchSpec.GuardCountStep | janis_core/workflow/workflow.py:954-959 | a guarded branch below the guard count leaves room for it |
| SwitchSpec.ComposeGuarded | janis_core/workflow/workflow.py:954-959 | a guarded step followed by the rest of the loop gives the description from `i` |
| SwitchSpec.ComposeDefault | janis_core/workflow/workflow.py:960-962 | the default step as the last one gives the description from `i` |
| SwitchSpec.ComposeBound | janis_core/workflow/workflow.py:951-980 | a guarded step's rewired connections and rebuilt guard stay bound through the rest of the loop |
| SwitchSpec.NonMatchingSpec | janis_core/workflow/workflow.py:635-639 | the non-matching list is empty exactly when every first-branch output is present and receivable, and contains exactly the tags that are not |
| SwitchSpec.SchemaDiffsSpec | janis_core/workflow/workflow.py:628-643 | the schema check finds nothing exactly when every later tool fits the first branch's outputs; each reported diff names such a tool with its offending and extra tags |
| SwitchSpec.SchemaDiffs | janis_core/workflow/workflow.py:628-643 | the schema check of `switch` (stated by `SwitchSpec.SchemaDiffsSpec`, `SwitchSpec.SchemaDiffsAt` and `SwitchSpec.DiffsReported`) |
| SwitchSpec.StepItemsSpec | janis_core/workflow/workflow.py:988 | `stp[tag]` over the branch steps succeeds exactly when each has the tag and yields one step output per step, in order |
| SwitchSpec.AddWrapOutput | janis_core/workflow/workflow.py:986-990 | one output of the wrapping workflow with `first_non_null` keeps its invariant and changes only the outputs |
| SwitchSpec.WrapOutputsSpec | janis_core/workflow/workflow.py:982-990 | the outputs of the wrapping workflow are one per first-branch output, in order, each picking the first non-null value; nothing else changes |
| SwitchSpec.OutputsAppendedCons | janis_core/workflow/workflow.py:985-990 | one more output followed by the rest gives the appended outputs |
| SwitchSpec.WrapSpec | janis_core/workflow/workflow.py:891-992 | an invalid step identifier and an empty branch list raise; a wrapped tool is a workflow named after the switch step whose steps are the branches in order, guarded by `CaseStep` over the guards the loop collects; each guard is its branch's guard with every step and input operator replaced by a `cond_` input; each step receives a literal as it was and any other value as the input `switch_case_{j+1}_{tag}`, which the tool's connections bind to that value; the outputs are the first branch's, picking the first non-null value; every connection key is an input |
| SwitchSpec.Wrap | janis_core/workflow/workflow.py:891-992 | the `wrap_steps_in_workflow` transition over a fresh workflow; stated by `SwitchSpec.WrapSpec`, and `Workflows.WrapStepsInWorkflow` carries it out |
| SwitchSpec.WrapRefusals | janis_core/workflow/workflow.py:898-984 | an invalid step identifier and an empty branch list raise |
| SwitchSpec.WrapResult | janis_core/workflow/workflow.py:898-992 | a successfully wrapped tool has the shape, guards and bindings `WrapSpec` states |
| SwitchSpec.WrapFinish | janis_core/workflow/workflow.py:982-992 | after the branches, the first branch's outputs are added; the graph holds the branch steps in order with their guards, and each step stays bound as `BranchBound` says |
| SwitchSpec.SwitchRefusals | janis_core/workflow/workflow.py:612-625 | fewer than two conditions, and a default that is not last, raise before anything changes |
| SwitchSpec.SwitchSchemaRefusal | janis_core/workflow/workflow.py:627-649 | a branch whose outputs do not fit the first branch's makes `switch` raise with one diff per such branch, changing nothing |
| SwitchSpec.DiffsReported | janis_core/workflow/workflow.py:631-645 | a branch that does not fit gives at least one diff |
| SwitchSpec.SwitchRefusesDiffs | janis_core/workflow/workflow.py:645-649 | any diffs make `switch` raise them, changing nothing |
| SwitchSpec.SwitchSpec | janis_core/workflow/workflow.py:611-653 | `switch` keeps the invariant; on success every branch fits the first and the wrapping workflow is added last as one unconditional step |
| SwitchSpec.SwitchValid | janis_core/workflow/workflow.py:611-653 | `switch` keeps the builder invariant, also when it raises |
| SwitchSpec.SwitchAddsStep | janis_core/workflow/workflow.py:651-653 | past its checks, `switch` is `step` on the wrapping workflow |
| SwitchSpec.SwitchState | janis_core/workflow/workflow.py:611-653 | `switch` either leaves the workflow unchanged or adds the wrapping workflow as a step |
| SwitchSpec.SwitchShape | janis_core/workflow/workflow.py:611-653 | a successful `switch` passed all its checks and added the wrapping workflow as a step |
| SwitchSpec.SwitchFits | janis_core/workflow/workflow.py:628-649 | a successful schema check means every later branch fits the first branch's outputs |
| Workflows.StepNode.constructor | janis_core/workflow/workflow.py:112-119 | a new step node has no sources and `parent_has_conditionals` off |
| Workflows.StepNode.AddEdge | janis_core/workflow/workflow.py:151-165 | `_add_edge` returns the edge and leaves the node exactly as the edge transition says (see `WorkflowSpec.AddEdgeSpec`) |
| Workflows.Workflow.constructor | janis_core/workflow/workflow.py:272-282 | a new workflow has empty dictionaries and all flags off |
| Workflows.Workflow.Create | janis_core/workflow/workflow.py:267-270 | the workflow is created exactly when its identifier passes the validator |
| Workflows.Workflow.Input | janis_core/workflow/workflow.py:319-348 | `input` returns and leaves exactly what the input transition says (see `WorkflowSpec.AddInputSpec`) |
| Workflows.Workflow.Output | janis_core/workflow/workflow.py:350-434 | `output` returns and leaves exactly what the output transition says (see `WorkflowSpec.AddOutputResult`); the transition runs the intended `OutputNode` type check, see "## Left out" |
| Workflows.Workflow.OutputFrom | janis_core/workflow/workflow.py:400-434 | `output` past its source check, as the transition with the intended `OutputNode` check says |
| Workflows.Workflow.InsertOutputNode | janis_core/workflow/workflow.py:411-434 | the selections, the intended `OutputNode` checks (`WorkflowSpec.OutputNodeCheck`) and the insertion, as the transition says |
| Workflows.Workflow.ConnectionSource | janis_core/workflow/workflow.py:567-590 | a literal, a generated file name or `None` becomes a new input as the transition says (see `WorkflowSpec.MakeSourceLiteral`) |
| Workflows.Workflow.ConnectOne | janis_core/workflow/workflow.py:567-597 | one connection wired into the step node, as the transition says |
| Workflows.Workflow.ConnectAllEdges | janis_core/workflow/workflow.py:566-597 | the connection loop leaves the workflow, the step node and the added edges exactly as the transition says |
| Workflows.Workflow.Step | janis_core/workflow/workflow.py:483-609 | `step` returns and leaves exactly what the step transition says (see `WorkflowSpec.AddStepSpec`) |
| Workflows.Workflow.InsertStepNode | janis_core/workflow/workflow.py:599-609 | the flags, then the step inserted last, as the transition says |
| Workflows.Workflow.Switch | janis_core/workflow/workflow.py:611-653 | `switch` returns and leaves exactly what the switch transition says (see `SwitchSpec.SwitchSpec`) |
| Workflows.HasMultipleInputs | janis_core/workflow/workflow.py:599-602 | the loop over the added edges finds exactly whether some edge's tag has several sources |
| Workflows.SwitchTools | janis_core/workflow/workflow.py:615-625 | the validation loop fails exactly when a default is not last, and otherwise returns the tools in order |
| Workflows.NonMatchingTools | janis_core/workflow/workflow.py:627-643 | the schema loop computes exactly the schema diffs |
| Workflows.RebuildCondition | janis_core/workflow/workflow.py:901-946 | `rebuild_condition` returns and leaves exactly what the rebuild transition says |
| Workflows.RebuildFormat | janis_core/workflow/workflow.py:932-936 | a formatter rebuilt kwarg by kwarg, as the transition says |
| Workflows.RebuildBinary | janis_core/workflow/workflow.py:941-944 | a two-operand operator rebuilt left operand first, as the transition says |
| Workflows.RebuildStepOperator | janis_core/workflow/workflow.py:911-920 | a `StepOperator` becomes the input `cond_{node}_{tag}`, as the transition says |
| Workflows.RebuildInputOperator | janis_core/workflow/workflow.py:921-930 | an `InputOperator` becomes the input `cond_{node}`, as the transition says |
| Workflows.RebuildKwargsOf | janis_core/workflow/workflow.py:935 | the kwargs rebuilt in order, as the transition says |
| Workflows.RebuildListOf | janis_core/workflow/workflow.py:901-946 | the operands rebuilt in order, as the transition says |
| Workflows.BranchConnections | janis_core/workflow/workflow.py:964-978 | the connection loop of a branch, as the transition says; an input it creates carries the tool input's type and doc |
| Workflows.BranchStep | janis_core/workflow/workflow.py:964-980 | one branch as a step, as the transition says |
| Workflows.Branch | janis_core/workflow/workflow.py:950-980 | one iteration of the branch loop, as the transition says (see `SwitchSpec.WrapCaseSpec`) |
| Workflows.BranchOutputs | janis_core/workflow/workflow.py:982-990 | the output loop, as the transition says (see `SwitchSpec.WrapOutputsSpec`) |
| Workflows.WrapStepsInWorkflow | janis_core/workflow/workflow.py:891-992 | computes exactly the wrapping specification (see `SwitchSpec.WrapSpec`) |
| CwlExpressions.RegexEscape | janis_core/translations/cwl.py:950-950 | `re.escape` of a placeholder yields a literal pattern: each of its characters is either escaped by a backslash or not special to the regex |
| CwlExpressions.RegexEscapeRoundTrip | janis_core/translations/cwl.py:950-950 | removing the escaping backslashes from an escaped placeholder gives back the placeholder, so the pattern matches that text |
| CwlExpressions.LowerValuesSpec | janis_core/translations/cwl.py:949-952 | lowering the kwarg values fails exactly when some value fails; otherwise every value is lowered in code context, in kwarg order |
| CwlExpressions.ReplacementsSpec | janis_core/translations/cwl.py:949-952 | one `.replace(/{k}/g, v)` call per kwarg, in kwarg order, each naming its escaped key |
| CwlExpressions.TranslateStringFormatterSpec | janis_core/translations/cwl.py:940-953 | no kwargs gives the backslash-doubled format alone; otherwise `$("format")` followed by the replace calls; it fails exactly when a value fails to lower |
| CwlExpressions.TranslateStringFormatter | janis_core/translations/cwl.py:940-953 | `translate_string_formatter` (stated by `CwlExpressions.TranslateStringFormatterSpec`, `CwlExpressions.EscapeRoundTrip` and `CwlExpressions.ReplacementsSpec`) |
| CwlExpressions.EscapeIsDoubling | janis_core/translations/cwl.py:944-944 | the backslash escape doubles every backslash and keeps every other character |
| CwlExpressions.EscapeRoundTrip | janis_core/translations/cwl.py:944-944 | undoubling the escaped format gives the original format back |
| CwlExpressions.DoubleRoundTrip | janis_core/translations/cwl.py:944-944 | doubling is injective: two formats with the same escape are equal |
| CwlExpressions.GlobWarnings | janis_core/translations/cwl.py:956-976 | a glob translation warns exactly when the glob is a raw, non-selector string |
| CwlExpressions.InputSelectorSpec | janis_core/translations/cwl.py:931-937 | an error exactly when no input is named; otherwise `inputs.X` with `.basename` exactly when asked, bare in code and wrapped in `$(...)` outside it |
| CwlExpressions.TranslateInputSelector | janis_core/translations/cwl.py:931-937 | `translate_input_selector` (stated by `CwlExpressions.InputSelectorSpec`) |
| CwlExpressions.UnwrapExpressionSpec | janis_core/translations/cwl.py:545-581 | None lowers to None and nothing else does; strings are quoted exactly in code; numbers pass through; a wildcard is an error; selector and formatter cases follow their translators; cpu and memory give their runtime expressions |
| CwlExpressions.UnwrapExpression | janis_core/translations/cwl.py:545-581 | `unwrap_expression` on values (stated by `CwlExpressions.UnwrapExpressionSpec`) |
| CwlExpressions.GlobVersusValue | janis_core/translations/cwl.py:956-976 | an input-selector or formatter glob equals its value lowering outside code; a wildcard glob is its raw pattern though it is an error as a value; a falsy glob gives no glob; a plain string is kept raw with one warning |
| CwlExpressions.TranslateToCwlGlob | janis_core/translations/cwl.py:956-976 | `translate_to_cwl_glob` (stated by `CwlExpressions.GlobVersusValue` and `CwlExpressions.GlobWarnings`) |
| CwlTranslation.TranslateInputsSpec | janis_core/translations/cwl.py:111-113 | the workflow inputs lower one by one in order; the list fails exactly when some input's type has no CWL form |
| CwlTranslation.TranslateInput | janis_core/translations/cwl.py:600-619 | `translate_input`: the parameter carries the node's id, default, secondary files and doc, and the CWL type of its data type, or the unmapped-type error (stated by `CwlTranslation.TranslateInputsSpec`) |
| CwlTranslation.TranslateOutputNodesSpec | janis_core/translations/cwl.py:137-137 | the workflow outputs lower one by one in order; the list fails exactly when some output fails |
| CwlTranslation.OutputNodeSpec | janis_core/translations/cwl.py:622-642 | an output whose source is not a step output is refused; a lowered output's source splits at `/` back into its step id and tag when neither contains `/`; a stdout output is declared as a `File` |
| CwlTranslation.TranslateOutputNode | janis_core/translations/cwl.py:622-623 | `translate_output_node`: the output's source is `full_lbl` of its step and tag; a source that is not a step output is refused (stated by `CwlTranslation.OutputNodeSpec` and `CwlTranslation.LabelSplits`) |
| CwlTranslation.TranslateOutput | janis_core/translations/cwl.py:626-642 | `translate_output`: the given source, the output's secondary files and CWL type, a stdout output declared as `File` (stated by `CwlTranslation.OutputNodeSpec`) |
| CwlTranslation.LabelSplits | janis_core/translations/cwl.py:622-624 | the label `node/tag` of a step output splits at `/` into exactly the node id and the tag when neither contains `/`; a bare node id splits into itself |
| CwlTranslation.EdgeLabels | janis_core/translations/cwl.py:880-880 | one `node/tag` label per edge, in edge order |
| CwlTranslation.PutSpec | janis_core/translations/cwl.py:128-128 | setting a dictionary key makes it map to the new value, leaves every other key alone, and adds an entry exactly when the key was new |
| CwlTranslation.TranslateStepInputs | janis_core/translations/cwl.py:866-909 | the loop over the step's inputs computes exactly the step-input lowering, stopping at the first failing input |
| CwlTranslation.TranslateStepRecord | janis_core/translations/cwl.py:818-921 | the step lowering: inputs loop, override inputs appended in binding order, then scatter fields and method |
| CwlTranslation.StepInputSpec | janis_core/translations/cwl.py:868-877 | an unconnected input is skipped exactly when optional or truthily defaulted and refused exactly otherwise; a connected input is emitted under its tag |
| CwlTranslation.LinkMergeSpec | janis_core/translations/cwl.py:879-907 | an input gets `merge_nested` exactly when it is an array input fed by one edge whose source is neither an array nor a scattered step, and then its source is the one-element list |
| CwlTranslation.StepInputsForSpec | janis_core/translations/cwl.py:866-909 | a required unconnected input fails the loop; on success one input per connected tool input, each under a connected tag |
| CwlTranslation.StepInputsForRefusal | janis_core/translations/cwl.py:870-877 | any required unconnected input makes the step fail |
| CwlTranslation.StepInputsForLast | janis_core/translations/cwl.py:868-909 | the last tool input appends one entry exactly when it is connected and leaves the earlier entries unchanged |
| CwlTranslation.StepInputsForCount | janis_core/translations/cwl.py:866-909 | a successful loop emits exactly as many inputs as there are connected tool inputs |
| CwlTranslation.StepInputsForIds | janis_core/translations/cwl.py:902-909 | every emitted input carries the tag of a connected tool input |
| CwlTranslation.TranslateStepSpec | janis_core/translations/cwl.py:826-921 | a lowered step keeps the step id, runs `tools/<tool>.cwl` (or `<tool>.cwl` nested), lists the tool's output tags in order, scatters exactly when the step does, and names a scatter method exactly for more than one field |
| CwlTranslation.TranslateStep | janis_core/translations/cwl.py:818-921 | computes `translate_step` with a run reference from the overrides it is given; stated by `CwlTranslation.TranslateStepSpec` and `CwlTranslation.TranslateStepRecord` |
| CwlTranslation.TranslateStepInputsSpec | janis_core/translations/cwl.py:909-914 | the step's inputs are the emitted tool inputs followed by one input per override binding, fed from that override |
| CwlTranslation.BuildResourceOverrides | janis_core/translations/cwl.py:990-1020 | the override loop computes exactly the specified override list: a non-empty prefix gains `_`, then each step contributes in step order |
| CwlTranslation.BuildStepOverrides | janis_core/translations/cwl.py:1002-1018 | one step of the loop: memory then cpu for a command tool, the nested overrides under `prefix + id` for a sub-workflow, nothing for a code tool |
| CwlTranslation.StepsOverridesNext | janis_core/translations/cwl.py:1002-1018 | one more step of the loop extends the accumulated overrides by exactly that step's contribution |
| CwlTranslation.StepOverridesShape | janis_core/translations/cwl.py:1005-1018 | every override a step contributes is a default-free `float?` ending in `_runtime_memory` or `int?` ending in `_runtime_cpu`, under the step's prefix |
| CwlTranslation.StepsOverridesShape | janis_core/translations/cwl.py:1002-1018 | every override the steps contribute has that shape under the prefix |
| CwlTranslation.ResourceOverridesShape | janis_core/translations/cwl.py:990-1020 | every override of a workflow has the override shape under the normalised prefix |
| CwlTranslation.StepOverridesSpec | janis_core/translations/cwl.py:1005-1018 | a command-tool step contributes exactly `{prefix}{id}_runtime_memory` and `{prefix}{id}_runtime_cpu`, a code-tool step nothing, a sub-workflow step its graph's overrides under `{prefix}{id}_` |
| CwlTranslation.StepsOverridesAppend | janis_core/translations/cwl.py:1002-1018 | the contributions of consecutive step lists concatenate in order |
| CwlTranslation.BindStepOverrides | janis_core/translations/cwl.py:123-128 | the inner loop computes the corrected binding `BindOverrides` (overrides whose id starts with `{step}_`, keyed by the rest of the id), not the as-written `BindOverridesAsWritten`; see "## Findings" |
| CwlTranslation.BoundStep | janis_core/translations/cwl.py:122-135 | one step of the workflow loop: the step lowered with the overrides `BindOverrides` binds to it, the corrected half of the binding finding |
| CwlTranslation.OverrideKeySpec | janis_core/translations/cwl.py:125-128 | `{step}_{k}` is an override id exactly when the id starts with `{step}_` and `k` is the key derived from it |
| CwlTranslation.BindOverridesSpec | janis_core/translations/cwl.py:123-128 | with the corrected binding a step binds key `k` exactly when `{step}_{k}` is an override, and binds it to that override |
| CwlTranslation.BindOverrides | janis_core/translations/cwl.py:123-128 | the corrected half of the binding finding: a step binds the overrides whose id is `{step}_` followed by the key (stated by `CwlTranslation.BindOverridesSpec` and `CwlTranslation.OverrideBindingCorrected`) |
| CwlTranslation.BindOverridesAsWritten | janis_core/translations/cwl.py:123-128 | the code as written: every override whose id starts with the step's id, keyed by the id without its first `len(step_id) + 1` characters (stated by `CwlTranslation.ShadowKey` and `CwlTranslation.OverrideBindingCollision`) |
| CwlTranslation.CommandStepOverrides | janis_core/translations/cwl.py:1005-1015 | a lone command step contributes its memory and cpu overrides under the prefix |
| CwlTranslation.CollisionGraphOverrides | janis_core/translations/cwl.py:990-1020 | the example workflow has the overrides `a_x_runtime_memory`, `a_x_runtime_cpu`, `c_runtime_memory`, `c_runtime_cpu` in that order |
| CwlTranslation.ShadowKey | janis_core/translations/cwl.py:125-128 | an override of a step whose id extends another's by a non-`_` character passes the as-written prefix test and derives a key as if it were its own |
| CwlTranslation.OwnKey | janis_core/translations/cwl.py:125-128 | a step's own nested override passes the prefix test and derives its nested key |
| CwlTranslation.OverrideBindingCollision | janis_core/translations/cwl.py:123-128 | as written, step `a` binds its sub-workflow's `x_runtime_cpu` to step `c`'s override rather than its own `a_x_runtime_cpu` |
| CwlTranslation.OverrideBindingCorrected | janis_core/translations/cwl.py:123-128 | the corrected binding gives step `a` its own `a_x_runtime_cpu` in the same workflow |
| CwlTranslation.CollisionExample | janis_core/translations/cwl.py:123-128 | the steps `a`, `x` and `abx` form such a collision |
| CwlTranslation.BoundOverridesAreInputs | janis_core/translations/cwl.py:123-128 | every binding feeds key `k` from the override `{step}_{k}`, which is one of the workflow's overrides |
| CwlTranslation.WorkflowRequirementsSpec | janis_core/translations/cwl.py:139-147 | inline JavaScript and step-input expressions are always required; the scatter, sub-workflow and multiple-input features are listed exactly when the graph uses them; no container or resource requirement at workflow level |
| CwlTranslation.TranslateWorkflowSteps | janis_core/translations/cwl.py:122-135 | the step loop binds each step's overrides by the corrected rule and lowers it, computing the specified step list and stopping at the first failing step |
| CwlTranslation.TranslateWorkflowRecord | janis_core/translations/cwl.py:106-147 | the construction of the workflow record computes the specified lowering: inputs, overrides when asked for, steps with the corrected override binding, outputs, requirements |
| CwlTranslation.TranslateWorkflowOk | janis_core/translations/cwl.py:106-147 | a workflow lowers exactly when its inputs, its steps and its outputs do |
| CwlTranslation.TranslateWorkflowSpec | janis_core/translations/cwl.py:106-147 | a lowered workflow keeps the id, is `v1.0`, has one input per graph input followed by the overrides (none unless asked for), one output per graph output, and the graph's feature requirements |
| CwlTranslation.TranslateWorkflow | janis_core/translations/cwl.py:106-147 | computes the workflow record of `translate_workflow`, steps bound by the corrected rule; stated by `CwlTranslation.TranslateWorkflowSpec`, `TranslateWorkflowOk` and `TranslateWorkflowStepsSpec` |
| CwlTranslation.TranslateWorkflowStepsSpec | janis_core/translations/cwl.py:122-135 | a lowered workflow has one step per graph step, each lowered with the overrides the corrected rule binds to that step |
| CwlTranslation.TranslateToolInputSpec | janis_core/translations/cwl.py:645-704 | a tool input keeps its tag as id and label; a generated filename becomes the default; a selector default becomes `valueFrom` and leaves no default; other defaults are kept; the prefix moves onto an items binding exactly when it applies to every element of an array |
| CwlTranslation.TranslateToolInput | janis_core/translations/cwl.py:645-704 | `translate_tool_input`: the parameter and its input binding (stated by `CwlTranslation.TranslateToolInputSpec`) |
| CwlTranslation.TranslateToolOutputSpec | janis_core/translations/cwl.py:721-750 | a tool output keeps its tag as id and label, takes its glob from the glob lowering, renames the collected file exactly when presented under a non-empty name, and uses the secondaries script exactly when secondaries are renamed |
| CwlTranslation.TranslateToolOutput | janis_core/translations/cwl.py:721-740 | `translate_tool_output`: the parameter, its glob and its rename (stated by `CwlTranslation.TranslateToolOutputSpec`) |
| CwlTranslation.TranslateToolArgumentSpec | janis_core/translations/cwl.py:707-718 | an argument's binding carries its position, prefix, separation and quoting, and its value lowered outside code |
| CwlTranslation.TranslateToolArgument | janis_core/translations/cwl.py:707-718 | `translate_tool_argument`: the binding of one argument (stated by `CwlTranslation.TranslateToolArgumentSpec`) |
| CwlTranslation.DockerRequirementsSpec | janis_core/translations/cwl.py:351-362 | the container check fails exactly when containers are wanted, the tool has none and empty containers are not allowed; otherwise the image is listed exactly when wanted and present |
| CwlTranslation.TranslateToolInternalSpec | janis_core/translations/cwl.py:271-392 | a missing container fails the tool; a lowered tool keeps its id as label and base command, lists shell and JavaScript requirements first, the image exactly when wanted and present, and a resource requirement exactly with overrides |
| CwlTranslation.TranslateToolInternal | janis_core/translations/cwl.py:271-392 | computes the command-line tool record of `translate_tool_internal`; stated by `CwlTranslation.TranslateToolInternalSpec` |
| CwlTranslation.TranslateToolPortsSpec | janis_core/translations/cwl.py:364-383 | a lowered tool has one input per tool input (then the two runtime inputs with overrides), one output per tool output and one argument per argument, each lowered on its own |
| CwlTranslation.ToolsToBuild | janis_core/translations/cwl.py:150-152 | every entry of the tools-to-build dictionary points at a step that runs the tool with that id |
| CwlTranslation.ToolsToBuildKeys | janis_core/translations/cwl.py:150-152 | the keys of the tools to build are exactly the tool ids of the steps |
| CwlTranslation.TranslateStepToolDocument | janis_core/translations/cwl.py:153-181 | the dispatch on the tool's kind computes exactly the specified document: a nested workflow with its tools, a command-line tool, or a code tool's container check |
| CwlTranslation.TranslateStepTool | janis_core/translations/cwl.py:153-181 | the document of one step's tool, dispatched on its kind (stated by `CwlTranslation.TranslateStepToolDocument`) |
| CwlTranslation.TranslateWorkflowDocument | janis_core/translations/cwl.py:95-183 | `translate_workflow` with its tool loop computes the specified translation, nested workflows by recursion, with the corrected override binding |
| CwlTranslation.BuildToolsNext | janis_core/translations/cwl.py:153-181 | one more tool of the loop either fails the translation with that tool's error or stores its document and its sub-tools |
| CwlTranslation.BuildToolsKeys | janis_core/translations/cwl.py:153-181 | a successful tool loop keeps every earlier document key and adds a key for every tool it builds |
| CwlTranslation.BuildTools | janis_core/translations/cwl.py:153-181 | the loop over the tools to build (stated by `CwlTranslation.BuildToolsNext`, `CwlTranslation.BuildToolsKeys` and `CwlTranslation.BuildToolsFails`) |
| CwlTranslation.BuildToolsFails | janis_core/translations/cwl.py:153-181 | a tool that fails to translate makes the whole tool loop fail |
| CwlTranslation.TranslateWorkflowAllSpec | janis_core/translations/cwl.py:95-183 | a translated workflow is the lowered workflow record (with the corrected override binding) and has a tool document for every step's tool |
| CwlTranslation.TranslateWorkflowAll | janis_core/translations/cwl.py:95-183 | `translate_workflow`: the workflow record with the corrected override binding and the tool documents (stated by `CwlTranslation.TranslateWorkflowAllSpec` and `CwlTranslation.MissingContainerFails`) |
| CwlTranslation.MissingContainerFails | janis_core/translations/cwl.py:351-362 | with containers wanted and empty ones refused, a workflow running a command tool without a container fails to translate |
| CwlIngestion.UnderscoredSpec | janis_core/ingestion/fromcwl.py:187-188 | underscoring keeps the length, removes every dash, introduces no other character, leaves a dash-free string alone and is idempotent |
| CwlIngestion.ReplaceDashes | janis_core/ingestion/fromcwl.py:204-205 | the `while "-" in identifier` loop computes exactly the underscored string |
| CwlIngestion.GetSourceFromIdentifier | janis_core/ingestion/fromcwl.py:197-212 | `get_source_from_identifier` computes exactly the specified source name |
| CwlIngestion.GetTagFromIdentifier | janis_core/ingestion/fromcwl.py:182-195 | `get_tag_from_identifier` computes exactly the specified tag |
| CwlIngestion.NormalisedSpec | janis_core/ingestion/fromcwl.py:204-211 | normalising a tail yields a name without dashes or new characters, and never `input` or `output` |
| CwlIngestion.SourceFromIdentifierSpec | janis_core/ingestion/fromcwl.py:197-212 | a source never contains `#` or `-` and is never `input` or `output`; an already clean identifier is kept; normalising twice changes nothing |
| CwlIngestion.SourceAfterLastHash | janis_core/ingestion/fromcwl.py:201-202 | the text after the last `#` is what is kept |
| CwlIngestion.TagFromIdentifierSpec | janis_core/ingestion/fromcwl.py:182-195 | a tag never contains `#`, `/` or `-` and is never `input` or `output`; a source without `/` is its own tag |
| CwlIngestion.TagIdempotent | janis_core/ingestion/fromcwl.py:182-195 | normalising a tag again changes nothing |
| CwlIngestion.StripArraySuffixesSpec | janis_core/ingestion/fromcwl.py:104-107 | stripping leaves a name not ending in `[]`, followed in the original by exactly as many `[]` pairs as were counted |
| CwlIngestion.StripBrackets | janis_core/ingestion/fromcwl.py:104-107 | a base name followed by `n` pairs of `[]` strips back to that name and `n` |
| CwlIngestion.NonNullSpec | janis_core/ingestion/fromcwl.py:136-140 | the alternatives kept are exactly those that are not `null` |
| CwlIngestion.AllOptional | janis_core/ingestion/fromcwl.py:149-151 | every member type of the union is made optional, in order |
| CwlIngestion.ParseTypeName | janis_core/ingestion/fromcwl.py:101-131 | the string case with its `while` loop computes exactly the specified type |
| CwlIngestion.FromCwlInnerType | janis_core/ingestion/fromcwl.py:100-167 | `from_cwl_inner_type` computes exactly the specified type for names, lists, array schemas and enums |
| CwlIngestion.FromCwlType | janis_core/ingestion/fromcwl.py:100-167 | `from_cwl_inner_type` on names, lists, array schemas and enums (stated by `CwlIngestion.FromCwlInnerType`, `CwlIngestion.TypeNameSpec` and `CwlIngestion.ListTypeSpec`) |
| CwlIngestion.FromCwlTypeList | janis_core/ingestion/fromcwl.py:133-153 | the list loop computes exactly the specified type, stopping at the first failing alternative |
| CwlIngestion.MemberTypesPrefixError | janis_core/ingestion/fromcwl.py:136-140 | once an alternative fails, the whole list fails with that error |
| CwlIngestion.TypeNameSpec | janis_core/ingestion/fromcwl.py:101-131 | `?` anywhere makes the type optional, trailing `[]` pairs have no effect, and a base name outside the table is an error naming it |
| CwlIngestion.ArraySuffixIgnored | janis_core/ingestion/fromcwl.py:104-131 | as written, `T[]` parses exactly as `T`: the array count is never applied |
| CwlIngestion.MemberTypesSpec | janis_core/ingestion/fromcwl.py:136-140 | the alternatives other than `null` are each converted, in order |
| CwlIngestion.ListTypeSpec | janis_core/ingestion/fromcwl.py:133-153 | a list parses exactly when each non-null alternative does; a single one is returned itself, optional when `null` is present; otherwise a required union of them in order, each optional when `null` is present |
| CwlIngestion.LeadingSpaces | janis_core/ingestion/fromcwl.py:238-240 | counts exactly the leading whitespace |
| CwlIngestion.LeadingDigits | janis_core/ingestion/fromcwl.py:238-240 | counts exactly the leading digits |
| CwlIngestion.ParseNumber | janis_core/ingestion/fromcwl.py:230-245 | `parse_number_from_string` as its caller catches it: an integer text gives an `int`, otherwise `float()` (the parameter `pyFloat`), otherwise nothing (the scans are stated by `CwlIngestion.LeadingSpaces`, `CwlIngestion.LeadingDigits` and `CwlIngestion.TrailingSpaces`, the integer case by `CwlIngestion.IntTokenRoundTrip`) |
| CwlIngestion.TrailingSpaces | janis_core/ingestion/fromcwl.py:238-240 | counts trailing whitespace up to the first other character |
| CwlIngestion.TrailingDigits | janis_core/ingestion/fromcwl.py:238-240 | the counted trailing characters are all digits |
| CwlIngestion.SelectorClassesDiffer | janis_core/ingestion/fromcwl.py:226-226 | the class `[A-z0-9_]` accepts every identifier character and, beyond them, exactly the five characters `[`, `\`, `]`, `^` and the backquote |
| CwlIngestion.SelectorClassMismatch | janis_core/ingestion/fromcwl.py:226-268 | as written, `inputs.x` whose name uses one of those five characters becomes an input selector; with the identifier class it becomes the placeholder with one warning |
| CwlIngestion.SelectorClassExample | janis_core/ingestion/fromcwl.py:226-226 | `a[0]` is such a name |
| CwlIngestion.SelectorTokenRoundTrip | janis_core/ingestion/fromcwl.py:265-268 | an input selection lowered in code is `inputs.x`, and that token converts back to the same selection |
| CwlIngestion.QuotedTokenRoundTrip | janis_core/ingestion/fromcwl.py:270-272 | a string lowered in code is quoted, and the quoted token converts back to the same string |
| CwlIngestion.IntTokenRoundTrip | janis_core/ingestion/fromcwl.py:274-277 | the decimal text of a natural number converts to that number |
| CwlIngestion.PlaceholderSpec | janis_core/ingestion/fromcwl.py:265-282 | the placeholder `<expr>token</expr>` is used, with exactly one warning, precisely when the token is neither a selector, a quoted string nor a number |
| CwlIngestion.ConvertToken | janis_core/ingestion/fromcwl.py:265-282 | the corrected half of the selector-class finding: `convert_javascript_token` with `[A-Za-z0-9_]` (stated by `CwlIngestion.SelectorTokenRoundTrip`, `CwlIngestion.QuotedTokenRoundTrip`, `CwlIngestion.IntTokenRoundTrip` and `CwlIngestion.PlaceholderSpec`) |
| CwlIngestion.ConvertTokenAsWritten | janis_core/ingestion/fromcwl.py:226-282 | the code as written: `convert_javascript_token` with `[A-z0-9_]` (stated by `CwlIngestion.SelectorClassMismatch` and `CwlIngestion.SelectorClassExample`) |
| CwlIngestion.ParseBasicExpression | janis_core/ingestion/fromcwl.py:244-263 | `parse_basic_expression` with its token loop computes the specified conversion `BasicExpression`, whose tokens convert with the intended class `[A-Za-z0-9_]`; see "## Findings" |
| CwlIngestion.BasicExpression | janis_core/ingestion/fromcwl.py:244-263 | specifies `parse_basic_expression` with the intended selector class (via `ConvertToken`, not `ConvertTokenAsWritten`); stated by `CwlIngestion.FormatterExpressionSpec`, `SelectorExpressionRoundTrip` and `FunctionBodyExpression` |
| CwlIngestion.ReplacersKeys | janis_core/ingestion/fromcwl.py:258-261 | the kwargs are keyed `JANIS_CWL_TOKEN_1` to `JANIS_CWL_TOKEN_n`, no key twice |
| CwlIngestion.FormatterExpressionSpec | janis_core/ingestion/fromcwl.py:253-263 | without a single or function token there is one kwarg per distinct inline token; the expression parses exactly when the rewritten format's placeholders are the keys, into that formatter |
| CwlIngestion.PlainTextExpression | janis_core/ingestion/fromcwl.py:253-263 | text without `$` becomes a formatter of itself with no kwargs, failing only when it has placeholders of its own |
| CwlIngestion.SelectorExpressionRoundTrip | janis_core/ingestion/fromcwl.py:244-247 | an input selection lowered outside code, `$(inputs.x)`, parses back to that selection |
| CwlIngestion.FunctionBodyExpression | janis_core/ingestion/fromcwl.py:249-251 | `${ return g }` converts its returned expression `g` |
| CwlIngestion.InlineTokensSpec | janis_core/ingestion/fromcwl.py:253-253 | every inline token is non-empty, has no newline, has no `)` after its first character, and occurs as `$(token)` in the expression |
| CwlIngestion.InlineTokens | janis_core/ingestion/fromcwl.py:253 | `findall` of `\$\((.+?)\)` (stated by `CwlIngestion.InlineTokensSpec`) |
| CwlIngestion.ParseSourceListSpec | janis_core/ingestion/fromcwl.py:360-364 | a list source is parsed element by element, in order |
| CwlIngestion.ListSourceSpec | janis_core/ingestion/fromcwl.py:360-364 | a list source parses exactly when each element does, into the list of their values |
| CwlIngestion.StrSourceSpec | janis_core/ingestion/fromcwl.py:366-394 | a parsed string source is a node of the workflow or a step output selected by a clean tag; a failure is an expression source, a missing node or an unknown tag |
| CwlIngestion.StrSource | janis_core/ingestion/fromcwl.py:366-394 | the string case of `parse_workflow_source` with the absent tag kept absent, the corrected half of the tag finding (`CwlIngestion.StrSourceAsWritten` is the code as written); stated by `CwlIngestion.StrSourceSpec` |
| CwlIngestion.ParseWorkflowSource | janis_core/ingestion/fromcwl.py:355-394 | computes `parse_workflow_source`: `None` stays `None`, a list element by element, a string through `CwlIngestion.StrSource`, anything else refused; stated by `CwlIngestion.ListSourceSpec` and `CwlIngestion.StrSourceSpec` |
| CwlIngestion.LocalStepOutput | janis_core/ingestion/fromcwl.py:369-373 | nothing is stripped from `x/y` when `x` is neither the workflow id nor the prefix |
| CwlIngestion.StepOutputSource | janis_core/ingestion/fromcwl.py:369-394 | `x/y` selects `y` of node `x`, as written and corrected alike |
| CwlIngestion.QualifiedSourceEquivalent | janis_core/ingestion/fromcwl.py:370-371 | a source qualified by the workflow id selects the same as the unqualified one |
| CwlIngestion.PrefixStripped | janis_core/ingestion/fromcwl.py:372-373 | a source qualified by the subworkflow prefix selects the same as the unqualified one |
| CwlIngestion.ExpressionSourceRejected | janis_core/ingestion/fromcwl.py:375-378 | a source that is an expression is refused, as written and corrected alike |
| CwlIngestion.TaglessStepSource | janis_core/ingestion/fromcwl.py:380-394 | as written, a plain step name gets the tag `None` and `get_item` refuses it; with the tag kept absent the source is the step itself |
| CwlIngestion.TaglessAsWritten | janis_core/ingestion/fromcwl.py:380-393 | as written, a plain step name is refused as an unknown tag `None` |
| CwlIngestion.PlainNameAsWritten | janis_core/ingestion/fromcwl.py:380-389 | as written, a plain name selects the tag `None` of its node |
| CwlIngestion.StrSourceAsWritten | janis_core/ingestion/fromcwl.py:366-394 | the code as written: a string source without `/` gets the tag `"None"` (stated by `CwlIngestion.TaglessAsWritten` and `CwlIngestion.PlainNameAsWritten`) |
| CwlIngestion.PlainNameSource | janis_core/ingestion/fromcwl.py:380-394 | with the tag kept absent, a plain name is that node |
| CwlIngestion.SelectUnknownTag | janis_core/ingestion/fromcwl.py:392-393 | selecting a tag a step does not have is refused |
| Generator.EscapeNewlinesSpec | janis_core/generator/util.py:49-49 | writing newlines as `\n` leaves no raw newline, adds no `"`, and changes nothing in a string without newlines |
| Generator.EscapeNewlinesRoundTrip | janis_core/generator/util.py:49-49 | for strings without a backslash, undoing the `\n` escapes gives the string back |
| Generator.EscapedSpec | janis_core/generator/util.py:49-49 | the escaped text has no newline and no `"`; a string with neither is kept; one without `"` or backslash is read back by undoing `\n` |
| Generator.StringReprSpec | janis_core/generator/util.py:48-50 | a string renders between two double quotes with no quote or raw newline inside, without warnings; a plain string renders as itself in quotes and is read back |
| Generator.QuotedJoinSplit | janis_core/generator/util.py:46-47 | splitting a comma-joined list of quoted quote-free strings at the quotes gives the strings back at the odd positions |
| Generator.ReprItemsSpec | janis_core/generator/util.py:45-47 | the element renderings of a list are its elements' own renderings, in order |
| Generator.StringListRoundTrip | janis_core/generator/util.py:45-50 | a list of strings renders in square brackets, and the text between them splits at the quotes into each string's escaped form |
| Generator.AttrIndex | janis_core/generator/util.py:89-90 | the index found is the first attribute with that name, and none is found exactly when no attribute has it |
| Generator.ConvertGenericClassLoop | janis_core/generator/util.py:65-101 | the parameter loop of `convert_generic_class` computes exactly the specified rendering and warnings |
| Generator.ConvertGenericClass | janis_core/generator/util.py:65-101 | `convert_generic_class` (stated by `Generator.ConvertGenericClassLoop`, `Generator.EntriesSpec` and `Generator.AllDefaultsEmptyCall`) |
| Generator.ParamStepSpec | janis_core/generator/util.py:79-99 | a parameter contributes its option exactly when kept; a missing attribute of a non-ignored parameter warns once; an ignored or unmapped parameter says nothing |
| Generator.KeptIndicesSpec | janis_core/generator/util.py:79-99 | the kept parameter indices are increasing and are exactly the kept parameters |
| Generator.EntriesSpec | janis_core/generator/util.py:79-99 | the options are `name=repr` of the kept parameters, in parameter order |
| Generator.NoneKept | janis_core/generator/util.py:96-97 | with no parameter kept, no option is emitted |
| Generator.AllDefaultsEmptyCall | janis_core/generator/util.py:96-101 | an object whose parameters are all ignored or at their defaults renders as `ClassName()` |
| Generator.SetAttrSpec | janis_core/generator/util.py:133-135 | after setting an attribute it has the new value |
| Generator.SetAttrOthers | janis_core/generator/util.py:133-135 | setting an attribute leaves every other attribute alone |
| Generator.StampedSpec | janis_core/generator/util.py:133-135 | stamping sets `dateUpdated`, fills a falsy `dateCreated`, and leaves the class, its parameters and every other attribute alone |
| Generator.ReprAll | janis_core/generator/util.py:142-143 | the inputs and outputs are rendered one by one, in order |
| Generator.ConvertFragmentsErrors | janis_core/generator/util.py:145-164 | only the base and GATK4 templates convert; another template is a not-implemented error naming it; a GATK4 template fails exactly when the base command has no second element |
| Generator.ConvertFragmentsSpec | janis_core/generator/util.py:120-171 | a converted template carries the rendered inputs and outputs in order, the stamped metadata rendered, the quoted base command for the base template, the second command element for GATK4, and the version template |
| Generator.ConvertFragments | janis_core/generator/util.py:120-171 | `convert_command_tool_fragments` (stated by `Generator.ConvertFragmentsErrors` and `Generator.ConvertFragmentsSpec`) |
| ToolEvaluation.EvaluateFriendlyName | janis_core/tool/test_definitions.py:62-66 | the check fails with "Missing friendly name" exactly when the tool has no friendly name, and passes otherwise |
| ToolEvaluation.EvaluateUnitTestExists | janis_core/tool/test_definitions.py:55-59 | the check fails with the unit-test message exactly when the tool's tests are falsy |
| ToolEvaluation.EvaluateContainer | janis_core/tool/test_definitions.py:91-122 | a tool without a container passes; otherwise it passes exactly when the image's digest is found, and fails with "image X not found" |
| ToolEvaluation.EvaluateMetadata | janis_core/tool/test_definitions.py:69-88 | the loop over the required fields computes exactly the specified metadata verdict |
| ToolEvaluation.MissingFieldsSpec | janis_core/tool/test_definitions.py:77-80 | the missing fields are exactly the falsy ones, none is missing exactly when all are truthy |
| ToolEvaluation.MissingFieldsThree | janis_core/tool/test_definitions.py:71-80 | the missing fields of the three required fields are taken in the order contributors, created date, institution |
| ToolEvaluation.MetadataVerdictSpec | janis_core/tool/test_definitions.py:69-88 | metadata passes exactly when it is a `ToolMetadata` with truthy contributors, creation date and institution; any other class fails with "Incorrect metadata class" |
| ToolEvaluation.NoMetadataFields | janis_core/tool/test_definitions.py:82-83 | metadata with none of the three fields fails naming all three, comma-separated, in order |
| ToolEvaluation.ReadEvaluationLoop | janis_core/tool/test_definitions.py:149-165 | the loop of `_read_evaluation` computes exactly the specified verdict |
| ToolEvaluation.FailuresConcat | janis_core/tool/test_definitions.py:157-160 | the failures of two evaluations in sequence are the failures of each, in order |
| ToolEvaluation.ReadEvaluationSpec | janis_core/tool/test_definitions.py:149-165 | an evaluation passes exactly when every check passed; otherwise its message is the failures joined by `; ` in key order |
| ToolEvaluation.ReadEvaluation | janis_core/tool/test_definitions.py:149-165 | `_read_evaluation` (stated by `ToolEvaluation.ReadEvaluationSpec` and `ToolEvaluation.ReadEvaluationLoop`) |
| ToolEvaluation.EvaluateGeneric | janis_core/tool/test_definitions.py:43-52 | the evaluation has exactly the five keys friendly_name, metadata, unit_tests_exists, container and translation, in that order |
| ToolEvaluation.EvaluateSpec | janis_core/tool/test_definitions.py:16-52 | a workflow passes; an unknown tool type is an error; a command or code tool passes exactly when it has a friendly name, full metadata, unit tests and an absent or found container, and otherwise reports its failures in key order |
| ToolEvaluation.Evaluate | janis_core/tool/test_definitions.py:16-52 | `ToolEvaluator.evaluate` (stated by `ToolEvaluation.EvaluateSpec`) |
| ToolEvaluation.OnlyTestsMissing | janis_core/tool/test_definitions.py:16-59 | a command tool missing only its unit tests fails with the unit-test message alone |

## Left out

- YAML emission is not modelled: `stringify_*`, the `ruamel` representer and `validate_command_for` (janis_core/translations/cwl.py:68-92). They belong to foreign libraries and an external command; the `cwlgen` objects are plain records.
- `prepare_output_eval_for_python_codetool` is not modelled, because it generates JavaScript text and its array branch does not terminate for nested arrays. The code tool's outputs, inputs, stdout capture and script listing go with it: of `translate_code_tool_internal` only the container check and the JavaScript requirement are modelled.
- The `resolveSecondary` script bodies of `prepare_tool_input_secondaries` and `prepare_tool_output_secondaries` are the opaque `SecondariesScript`. Only their fallback to the type's own secondary files is kept.
- Parts of `translate_tool_internal` are not modelled: the stdout/stderr capture names, the `EnvVarRequirement` of `env_vars()` and the `InitialWorkDirRequirement` for localised files. They need tool features this model's `Tool` does not carry. The container and resource parts are modelled.
- The packed translation `translate_workflow_to_all_in_one` is not modelled, and with it `translate_step`'s `use_run_ref=False` branch. Steps always refer to their tool's file.
- `translate_output` declares a stdout output as `File`. The stdout type's own subtype is not modelled.
- `CwlTypeOf`: the `has_default` argument that `translate_input` and `translate_tool_input` pass to `cwl_type` is ignored, as `DataType.cwl_type` in janis/types/data_types.py takes none.
- `build_inputs_file` and the resource-input builders it calls are not part of this model.
- The workflow `translate`, `generate_inputs_override`, `generate_resources_file`, `report`, `generate_resources_table` and `get_tools` are not modelled, because they do console, file and CSV output.
- `UnwrapExpression`: the operators' own `cwl()` methods are not modelled, so an operator value lowers to the final "could not detect type" error.
- Ingestion plumbing is not modelled: the caches, `os.chdir` and file reads of `from_doc`, the interactive `input()` of `get_tool_tag_from_identifier`, the `JanisShed` lookup of `get_data_type_from_secondaries`, and document loading. These are I/O and global state; `ingest_*` can therefore not be modelled beyond the helpers they call.
- `ParseNumber`: the float branch of `parse_number_from_string` calls Python's `float()`, which is the parameter `pyFloat`. In a `str` pattern Python's `\d` matches every Unicode decimal digit and `int()` accepts them, but the model's digits are ASCII `0` to `9` only, so a number written in other digits becomes a placeholder here. `\s` is modelled in full by `IsSpace`.
- `BasicExpression`: the iteration order of the token set is an argument (`TokenOrder`), because Python's set order depends on string hashing.
- The array schemas and enums of `from_cwl_inner_type` are modelled; `ingest_cwl_type`'s secondary-file lookup is not part of this model (it needs `JanisShed`).
- `ConvertGenericClassLoop`: `inspect.signature` reflection is replaced by the parameter list and attributes the object carries. `==` between objects is the parameter `eq`.
- `ConvertFragments`: `datetime.now()`, `str.title` and `repr` are parameters, and the toolbuilder templates are records of their arguments. When the template type is unknown the source has already stamped the metadata before raising; the model returns only the error. `Stamped` takes one `now` for both `dateCreated` and `dateUpdated`, where janis_core/generator/util.py:134-135 reads the clock twice. `convert_commandtool`, which only forwards its tool's fields, has no member of its own. The model's base command is a string or a list of strings and never `None`; `convert_commandtool` (janis_core/generator/util.py:104-116) passes on whatever `base_command()` returns, and for `None` the source renders `None` as the base command text and raises `TypeError` on the GATK4 template.
- The `"none"` branch of `get_string_repr` (janis_core/generator/util.py:55-56) is unreachable, because `None` is caught by the branch before it. It has no counterpart.
- `EvaluateContainer`: the registry lookup is the parameter `digestFound`. The `janis_assistant` version check, which raises when the assistant is missing, is not modelled.
- `EvaluateGeneric`: `evaluate_translation` writes translated files to disk and returns `True` or raises (janis_core/tool/test_definitions.py:125-146). It is modelled as a passing check; its exceptions are not modelled.
- `SwitchSpec.WrapSpec` states where each rebuilt guard's `cond_` inputs come from only through `Rebuilt`, which says they are wrapper inputs named after the operator. The outer value that `workflow_connection_map` binds to a `cond_` input is stated by `SwitchSpec.RebuildSpec`, `SwitchSpec.RebuildStepOp` and `SwitchSpec.RebuildInputOp` for the rebuild that creates it. A `cond_` input that is reused keeps the binding of the operator that created it, which may be another operator whose identifier renders the same. The rewiring is stated for the last connection under each tag; Python dictionary keys are unique, so in the source that is every connection.
- `CwlTranslation.TranslateOutputNode` reads `node.source[0], node.source[1]` (janis_core/translations/cwl.py:623) as the node and tag of the single `StepOperator` the output was built from, and refuses any other source, such as a list of sources, with `UnsupportedConnection`. `StepOperator` and `full_lbl` are not part of this model, and the source has no such refusal.
- `CwlTranslation.TranslateOutput` does not carry the output's doc (janis_core/translations/cwl.py:630): output documentation is not modelled.
- `WorkflowSpec.AddInput` copies the data type when it makes a defaulted input optional. janis_core/workflow/workflow.py:334-336 sets `datatype.optional = True` on the instance the caller passed, so a `DataType` object shared by an earlier input becomes optional there too. Aliasing between inputs is not modelled.
- `Logger.warn` and `Logger.critical` calls become returned warning lists; log levels are not distinguished.
- `CwlExpressions.GlobWarnings` logs `CwlExpressions.StringGlobWarning` without the `str(debugkwargs)` suffix that janis_core/translations/cwl.py:960-963 appends, because the debugging keyword arguments are not modelled.
- `CwlTranslation.TranslateInput` models an input's doc as the text of its documentation object and passes it on as the parameter's doc. janis_core/translations/cwl.py:608 reads `inp.doc.doc` when the doc is truthy, but `InputNode.doc` and `Workflow.input(doc=...)` are typed `str` (janis_core/workflow/workflow.py:83, 325, 343). A non-empty `str` doc therefore raises `AttributeError` in the source, and an empty one gives no doc, while the model keeps both.
- `CwlTranslation.TranslateToolInput` models a tool input's doc as the text of its documentation object, as on the `CwlTranslation.TranslateInput` line (janis_core/translations/cwl.py:694 reads `toolinput.doc.doc`). The class that defines `ToolInput` is not part of this model.
- The float entries of `NativeTypes.default_value` are not modelled, since that needs floating-point numbers.
- Every `DataType` receives exactly its own type (`received_type` is the identity). The subclasses that override it, such as `Filename`, are not part of this model.
- `WorkflowSpec.AddStepSpec` states `has_multiple_inputs` only one way: once true, it stays true. The exact value is stated by `Workflows.HasMultipleInputs` and `Workflows.Workflow.InsertStepNode`.
- `Generator.ParamStepSpec` states the missing-attribute warning in one direction only: a non-ignored, mapped parameter without its attribute warns, and an ignored or unmapped parameter is silent.
- `Workflows.Workflow.Output` models the intended `OutputNode` type check `WorkflowSpec.OutputNodeCheck`, not the code as written. For a list source with an `all_non_null` type, janis_core/workflow/workflow.py:239-243 raises `AttributeError`, while the model inserts the node and logs the warning. `WorkflowSpec.OutputNodeCheckAsWritten` is the code as written (see "## Findings").
- `Workflows.Workflow.OutputFrom` runs the intended `WorkflowSpec.OutputNodeCheck`, for the reason given on the `Workflows.Workflow.Output` line.
- `Workflows.Workflow.InsertOutputNode` runs the intended `WorkflowSpec.OutputNodeCheck`, for the reason given on the `Workflows.Workflow.Output` line.
- `WorkflowSpec.AddOutput` runs the intended `WorkflowSpec.OutputNodeCheck`, for the reason given on the `Workflows.Workflow.Output` line.
- `WorkflowSpec.InsertOutput` runs the intended `WorkflowSpec.OutputNodeCheck`, for the reason given on the `Workflows.Workflow.Output` line.
- `CwlTranslation.BindStepOverrides` binds a step's overrides by the intended rule `CwlTranslation.BindOverrides`, an id starting with `{step}_`. janis_core/translations/cwl.py:125-128 tests only `startswith(step_id)`, which `CwlTranslation.BindOverridesAsWritten` models (see "## Findings").
- `CwlTranslation.BoundStep` binds each step's overrides by the intended `CwlTranslation.BindOverrides`, as the `CwlTranslation.BindStepOverrides` line says.
- `CwlTranslation.TranslateWorkflow` binds each step's overrides by the intended `CwlTranslation.BindOverrides`, as the `CwlTranslation.BindStepOverrides` line says.
- `CwlTranslation.TranslateWorkflowSteps` binds each step's overrides by the intended `CwlTranslation.BindOverrides`, as the `CwlTranslation.BindStepOverrides` line says.
- `CwlTranslation.TranslateWorkflowRecord` binds each step's overrides by the intended `CwlTranslation.BindOverrides`, as the `CwlTranslation.BindStepOverrides` line says.
- `CwlTranslation.TranslateWorkflowStepsSpec` binds each step's overrides by the intended `CwlTranslation.BindOverrides`, as the `CwlTranslation.BindStepOverrides` line says.
- `CwlTranslation.TranslateWorkflowDocument` binds each step's overrides by the intended `CwlTranslation.BindOverrides`, as the `CwlTranslation.BindStepOverrides` line says.
- `CwlTranslation.TranslateWorkflowAllSpec` binds each step's overrides by the intended `CwlTranslation.BindOverrides`, as the `CwlTranslation.BindStepOverrides` line says.
- `CwlIngestion.ParseBasicExpression` converts tokens with the intended class `[A-Za-z0-9_]` (`CwlIngestion.ConvertToken`). The code's `[A-z0-9_]` (janis_core/ingestion/fromcwl.py:226) also accepts `[`, `\`, `]`, `^` and the backquote, so `$(inputs.a[0])` becomes `InputSelector("a[0]")` in the source and a placeholder here. `CwlIngestion.ConvertTokenAsWritten` models the code as written (see "## Findings").
- `CwlIngestion.BasicExpression` converts tokens with the intended class, as the `CwlIngestion.ParseBasicExpression` line says.
- `CwlIngestion.ParseWorkflowSource` keeps an absent tag absent. In the source a plain step name `s` gets the tag `"None"`, and `get_item` raises (janis_core/ingestion/fromcwl.py:380-393). `CwlIngestion.StrSourceAsWritten` models the code as written (see "## Findings").
- `CwlIngestion.StrSource` keeps an absent tag absent, as the `CwlIngestion.ParseWorkflowSource` line says.
- `StringFormatters.AddFormattersSpec`: Python's `!=` between kwarg values is the parameter `eq` (`ValueEquality`), because object equality, such as two separately built `InputSelector("x")` values, is defined by classes outside this model.
- `DataTypes.ClassMatch`: the `Array` and `Union` variants of `DataType`, their element-wise class match, their CWL schemas and `Primitive(Union)` being the string kind are this model's own rendering of the array and union subclasses. janis/types/data_types.py shows only the base `isinstance` rule. `WorkflowSpec.ArrayNotFromElement` and `WorkflowSpec.AllNonNullListSourceRaises` rest on this rendering.

## Findings

| source | as written | input that shows it | evidently intended | confidence | as-written member | corrected member |
|---|---|---|---|---|---|---|
| janis_core/workflow/workflow.py:239-243 | the type-mismatch message reads `source.node`, but `source` may be a list of sources | `output(..., source=[a.out, b.out], pick_value=all_non_null)`: the inferred `Array` type never matches the first source's own type, so the message is built and raises `AttributeError` | log the mismatch against the single source and go on | high, not executed | WorkflowSpec.OutputNodeCheckAsWritten, WorkflowSpec.AllNonNullListSourceRaises | WorkflowSpec.OutputNodeCheck |
| janis_core/translations/cwl.py:125-128 | a step binds every override whose id merely starts with the step's id | steps `a` (a sub-workflow holding a command step `x`) and `abx` (a command tool) with resource overrides: step `a` binds `x_runtime_cpu` to `abx_runtime_cpu` | bind only overrides that start with the step's id followed by `_` | high, not executed | CwlTranslation.BindOverridesAsWritten, CwlTranslation.OverrideBindingCollision | CwlTranslation.BindOverrides, CwlTranslation.OverrideBindingCorrected |
| janis_core/ingestion/fromcwl.py:226 | the selector pattern's class `[A-z0-9_]` spans `[`, `\`, `]`, `^` and the backquote | the token `inputs.a[0]` becomes `InputSelector("a[0]")` | `[A-Za-z0-9_]`: the token is not a selector and becomes the placeholder with a warning | high, not executed | CwlIngestion.ConvertTokenAsWritten, CwlIngestion.SelectorClassMismatch | CwlIngestion.ConvertToken, CwlIngestion.SelectorTokenRoundTrip |
| janis_core/ingestion/fromcwl.py:380-393 | a source without `/` passes the tag `None` to `get_tag_from_identifier`, which turns it into the text `"None"` | a step input whose source is the plain step name `s`: `get_item("None")` on step `s` raises | no tag, so the source is the node itself | medium, not executed | CwlIngestion.StrSourceAsWritten, CwlIngestion.TaglessAsWritten | CwlIngestion.StrSource, CwlIngestion.PlainNameSource |
