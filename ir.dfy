/** The in-memory intermediate representation of the compiler: the values
    that flow through connections and string formatters, the tools, and the
    three kinds of workflow node. Everything here is a value; the workflow
    builder that fills a graph lives in the `Workflows` module. */
module Ir {
  import opened Wrappers
  import opened Strings
  import opened DataTypes

  /** Anything a connection, a default, a kwarg or an argument can hold.
      Floats keep the text Python's `str` gives for them; node references are
      the `StepOperator`, `InputOperator`, `(node, tag)` and bare-node forms a
      connection source can take; the `Op*` constructors are the operator
      classes (`AndOperator` is `Op2("and", ..)`, `NotOperator` is
      `Op1("not", ..)`, and `OrPrev` is the result of `or_prev_conds`). */
  datatype Value =
    | VNone
    | VStr(s: string)
    | VInt(i: int)
    | VBool(b: bool)
    | VFloat(text: string)
    | VList(items: seq<Value>)
    | VFilename(generated: string)
    | VInputSel(input: string, useBasename: bool)
    | VWildcard(pattern: string)
    | VCpu
    | VMemory
    | VFormat(f: Formatter)
    | VStepOp(node: Node, tag: Option<string>)
    | VInputOp(inputNode: Node)
    | VTuple(tupleNode: Node, tupleTag: string)
    | VNode(bare: Node)
    | Op1(name: string, internal: Value)
    | Op2(name: string, lhs: Value, rhs: Value)
    | OrPrev(conds: seq<Value>)
    | OpOther(name: string, args: seq<Value>)

  /** One `key=value` pair of a `**kwargs` dictionary; a sequence of these
      keeps the dictionary's insertion order. */
  datatype Kwarg = Kwarg(key: string, value: Value)

  /** A `StringFormatter`: a format with `{key}` placeholders and its
      kwargs. */
  datatype Formatter = Formatter(format: string, kwargs: seq<Kwarg>)

  function Keys(kw: seq<Kwarg>): seq<string>
  {
    if |kw| == 0 then [] else [kw[0].key] + Keys(kw[1..])
  }

  lemma {:induction false} KeysIndex(kw: seq<Kwarg>)
    ensures |Keys(kw)| == |kw|
    ensures forall i :: 0 <= i < |kw| ==> Keys(kw)[i] == kw[i].key
  {
    if |kw| > 0 { KeysIndex(kw[1..]); }
  }

  function KeySet(kw: seq<Kwarg>): set<string>
  {
    set i | 0 <= i < |kw| :: kw[i].key
  }

  predicate DistinctKeys(kw: seq<Kwarg>)
  {
    forall i, j :: 0 <= i < j < |kw| ==> kw[i].key != kw[j].key
  }

  /** `d[key]` for a kwargs dictionary. */
  function Lookup(kw: seq<Kwarg>, key: string): Option<Value>
  {
    if |kw| == 0 then None
    else if kw[0].key == key then Some(kw[0].value)
    else Lookup(kw[1..], key)
  }

  lemma {:induction false} LookupSome(kw: seq<Kwarg>, key: string)
    ensures Lookup(kw, key).Some? <==> key in KeySet(kw)
    ensures DistinctKeys(kw) ==> forall i :: 0 <= i < |kw| && kw[i].key == key ==> Lookup(kw, key) == Some(kw[i].value)
  {
    if |kw| > 0 {
      LookupSome(kw[1..], key);
      assert KeySet(kw) == {kw[0].key} + KeySet(kw[1..]) by {
        forall k | k in KeySet(kw) ensures k in {kw[0].key} + KeySet(kw[1..]) {
          var i :| 0 <= i < |kw| && kw[i].key == k;
          if i > 0 { assert kw[1..][i - 1] == kw[i]; }
        }
        forall k | k in KeySet(kw[1..]) ensures k in KeySet(kw) {
          var i :| 0 <= i < |kw[1..]| && kw[1..][i].key == k;
          assert kw[i + 1] == kw[1..][i];
        }
      }
      if DistinctKeys(kw) {
        assert DistinctKeys(kw[1..]) by {
          forall i, j | 0 <= i < j < |kw[1..]| ensures kw[1..][i].key != kw[1..][j].key {
            assert kw[1..][i] == kw[i + 1] && kw[1..][j] == kw[j + 1];
          }
        }
        forall i | 0 <= i < |kw| && kw[i].key == key ensures Lookup(kw, key) == Some(kw[i].value) {
          if i > 0 { assert kw[1..][i - 1] == kw[i]; }
        }
      }
    }
  }

  lemma KeySetAppend(p: seq<Kwarg>, q: seq<Kwarg>)
    ensures KeySet(p + q) == KeySet(p) + KeySet(q)
  {
    var pq := p + q;
    forall k | k in KeySet(pq) ensures k in KeySet(p) + KeySet(q) {
      var i :| 0 <= i < |pq| && pq[i].key == k;
      if i >= |p| { assert pq[i] == q[i - |p|]; }
    }
    forall k | k in KeySet(p) + KeySet(q) ensures k in KeySet(pq) {
      if k in KeySet(p) {
        var i :| 0 <= i < |p| && p[i].key == k;
        assert pq[i] == p[i];
      } else {
        var j :| 0 <= j < |q| && q[j].key == k;
        assert pq[|p| + j] == q[j];
      }
    }
  }

  lemma KeySetTail(kw: seq<Kwarg>)
    requires |kw| > 0
    ensures KeySet(kw) == {kw[0].key} + KeySet(kw[1..])
    ensures DistinctKeys(kw) ==> DistinctKeys(kw[1..]) && kw[0].key !in KeySet(kw[1..])
  {
    assert kw == [kw[0]] + kw[1..];
    KeySetAppend([kw[0]], kw[1..]);
    assert KeySet([kw[0]]) == {kw[0].key};
    if DistinctKeys(kw) {
      forall i, j | 0 <= i < j < |kw[1..]| ensures kw[1..][i].key != kw[1..][j].key {
        assert kw[1..][i] == kw[i + 1] && kw[1..][j] == kw[j + 1];
      }
      forall i | 0 <= i < |kw[1..]| ensures kw[1..][i].key != kw[0].key {
        assert kw[1..][i] == kw[i + 1];
      }
    }
  }

  lemma DistinctAppend(p: seq<Kwarg>, q: seq<Kwarg>)
    requires DistinctKeys(p) && DistinctKeys(q) && KeySet(p) !! KeySet(q)
    ensures DistinctKeys(p + q)
  {
    var pq := p + q;
    forall i, j | 0 <= i < j < |pq| ensures pq[i].key != pq[j].key {
      if j < |p| {
        assert pq[i] == p[i] && pq[j] == p[j];
      } else if i < |p| {
        assert pq[i] == p[i] && pq[j] == q[j - |p|];
        assert pq[i].key in KeySet(p) && pq[j].key in KeySet(q);
      } else {
        assert pq[i] == q[i - |p|] && pq[j] == q[j - |p|];
      }
    }
  }

  lemma {:induction false} LookupAppend(p: seq<Kwarg>, q: seq<Kwarg>, k: string)
    ensures Lookup(p + q, k) == (if Lookup(p, k).Some? then Lookup(p, k) else Lookup(q, k))
  {
    if |p| > 0 {
      assert (p + q)[1..] == p[1..] + q;
      LookupAppend(p[1..], q, k);
    } else {
      assert p + q == q;
    }
  }

  /** Python truthiness of a value: `None`, `""`, `0`, `0.0`, `False` and
      `[]` are falsy; selectors, operators and nodes are ordinary objects and
      truthy. */
  predicate Truthy(v: Value)
  {
    match v
    case VNone => false
    case VStr(s) => |s| > 0
    case VInt(i) => i != 0
    case VBool(b) => b
    case VFloat(t) => t != "0.0" && t != "-0.0"
    case VList(items) => |items| > 0
    case _ => true
  }

  /** `is_python_primitive`: a `str`, `int`, `float` or `bool`. */
  predicate IsPythonPrimitive(v: Value)
  {
    v.VStr? || v.VInt? || v.VFloat? || v.VBool?
  }

  /** The scatter methods and their CWL v1.0 `scatterMethod` spelling. */
  datatype ScatterMethod = Dot | FlatCross | NestedCross
  {
    function Cwl(): string
    {
      match this
      case Dot => "dotproduct"
      case FlatCross => "flat_crossproduct"
      case NestedCross => "nested_crossproduct"
    }
  }

  datatype ScatterDescription = ScatterDescription(fields: seq<string>, scatterMethod: ScatterMethod)

  datatype PickValue = FirstNonNull | OnlyNonNull | AllNonNull

  /** A tool input as the graph sees it (`TInput`). */
  datatype TInput = TInput(tag: string, intype: DataType, default: Value, doc: Option<string>)

  /** A tool output as the graph sees it (`TOutput`). */
  datatype TOutput = TOutput(tag: string, outtype: DataType)

  /** A command-line input with its binding; `filename` is the generated
      name when the input type is a `Filename`. */
  datatype ToolInput = ToolInput(
    tag: string, inputType: DataType, position: Option<int>, prefix: Option<string>,
    separate: Option<bool>, separator: Option<string>, shellQuote: Option<bool>,
    default: Value, doc: Option<string>, prefixAppliesToAll: bool,
    filename: Option<string>, secondariesPresentAs: bool)

  datatype ToolOutput = ToolOutput(
    tag: string, outputType: DataType, glob: Value, presentsAs: Option<string>,
    doc: Option<string>, secondariesPresentAs: bool)

  datatype ToolArgument = ToolArgument(
    value: Value, position: Option<int>, prefix: Option<string>,
    separate: Option<bool>, shellQuote: Option<bool>)

  /** The three tool kinds; a workflow used as a tool carries its graph. */
  datatype ToolKind =
    | CommandTool(baseCommand: seq<string>, toolInputs: seq<ToolInput>,
                  toolOutputs: seq<ToolOutput>, arguments: seq<ToolArgument>)
    | CodeTool(codeInputs: seq<TInput>, codeOutputs: seq<TOutput>)
    | WorkflowTool(graph: Graph)

  /** A tool together with the connections it was called with
      (`tool(**connections)`) and its container. */
  datatype Tool = Tool(id: string, kind: ToolKind, connections: seq<Kwarg>, container: Option<string>)

  datatype InputRecord = InputRecord(id: string, dtype: DataType, default: Value, value: Value, doc: Option<string>)

  /** One connection into a step input: where it starts, which output,
      and whether the step scatters over it. */
  datatype Edge = Edge(start: Node, stag: Option<string>, finish: string, ftag: string, scatter: bool)

  /** All sources connected into one input tag of a step (`StepTagInput`). */
  datatype StepTagInput = StepTagInput(tag: string, edges: seq<Edge>)
  {
    /** The graph needs a `MultipleInputFeatureRequirement` for this tag. */
    predicate MultipleInputs() { |edges| > 1 }
  }

  datatype StepRecord = StepRecord(
    id: string, tool: Tool, scatter: Option<ScatterDescription>, when: Value,
    sources: seq<StepTagInput>, parentHasConditionals: bool)
  {
    /** `has_conditionals`: the step has a `when`. */
    predicate HasConditionals() { when != VNone }
    predicate Conditional() { parentHasConditionals || HasConditionals() }
  }

  datatype OutputRecord = OutputRecord(
    id: string, dtype: DataType, source: Value, outputFolder: Value,
    outputName: Value, pickValue: Option<PickValue>)

  datatype Node = NInput(input: InputRecord) | NStep(step: StepRecord) | NOutput(output: OutputRecord)
  {
    function Id(): string
    {
      match this
      case NInput(i) => i.id
      case NStep(s) => s.id
      case NOutput(o) => o.id
    }
  }

  /** A finished workflow graph: its input, step and output nodes in
      insertion order, and the requirement flags. */
  datatype Graph = Graph(
    id: string, inputs: seq<InputRecord>, steps: seq<StepRecord>, outputs: seq<OutputRecord>,
    hasScatter: bool, hasSubworkflow: bool, hasMultipleInputs: bool)

  function ToolInputAsTInput(ti: ToolInput): TInput
  {
    TInput(ti.tag, ti.inputType, ti.default, ti.doc)
  }

  function ToolInputsAsTInputs(tis: seq<ToolInput>): (r: seq<TInput>)
    ensures |r| == |tis|
    ensures forall i :: 0 <= i < |tis| ==> r[i] == ToolInputAsTInput(tis[i])
  {
    if |tis| == 0 then [] else [ToolInputAsTInput(tis[0])] + ToolInputsAsTInputs(tis[1..])
  }

  function ToolOutputsAsTOutputs(tos: seq<ToolOutput>): (r: seq<TOutput>)
    ensures |r| == |tos|
    ensures forall i :: 0 <= i < |tos| ==> r[i] == TOutput(tos[i].tag, tos[i].outputType)
  {
    if |tos| == 0 then [] else [TOutput(tos[0].tag, tos[0].outputType)] + ToolOutputsAsTOutputs(tos[1..])
  }

  /** `Workflow.tool_inputs()`: one input per input node. */
  function GraphInputs(ins: seq<InputRecord>): (r: seq<TInput>)
    ensures |r| == |ins|
    ensures forall i :: 0 <= i < |ins| ==> r[i] == TInput(ins[i].id, ins[i].dtype, ins[i].default, ins[i].doc)
  {
    if |ins| == 0 then [] else [TInput(ins[0].id, ins[0].dtype, ins[0].default, ins[0].doc)] + GraphInputs(ins[1..])
  }

  /** `Workflow.tool_outputs()`: one output per output node. */
  function GraphOutputs(outs: seq<OutputRecord>): (r: seq<TOutput>)
    ensures |r| == |outs|
    ensures forall i :: 0 <= i < |outs| ==> r[i] == TOutput(outs[i].id, outs[i].dtype)
  {
    if |outs| == 0 then [] else [TOutput(outs[0].id, outs[0].dtype)] + GraphOutputs(outs[1..])
  }

  /** `tool.inputs_map()`, in declaration order. */
  function InputsMap(t: Tool): seq<TInput>
  {
    match t.kind
    case CommandTool(_, tis, _, _) => ToolInputsAsTInputs(tis)
    case CodeTool(cis, _) => cis
    case WorkflowTool(g) => GraphInputs(g.inputs)
  }

  /** `tool.outputs_map()`, in declaration order. */
  function OutputsMap(t: Tool): seq<TOutput>
  {
    match t.kind
    case CommandTool(_, _, tos, _) => ToolOutputsAsTOutputs(tos)
    case CodeTool(_, cos) => cos
    case WorkflowTool(g) => GraphOutputs(g.outputs)
  }

  function InputTags(ins: seq<TInput>): set<string>
  {
    set i | 0 <= i < |ins| :: ins[i].tag
  }

  function OutputTags(outs: seq<TOutput>): set<string>
  {
    set i | 0 <= i < |outs| :: outs[i].tag
  }

  function FindInput(ins: seq<TInput>, tag: string): Option<TInput>
  {
    if |ins| == 0 then None
    else if ins[0].tag == tag then Some(ins[0])
    else FindInput(ins[1..], tag)
  }

  function FindOutput(outs: seq<TOutput>, tag: string): Option<TOutput>
  {
    if |outs| == 0 then None
    else if outs[0].tag == tag then Some(outs[0])
    else FindOutput(outs[1..], tag)
  }

  lemma {:induction false} FindInputSpec(ins: seq<TInput>, tag: string)
    ensures FindInput(ins, tag).Some? <==> tag in InputTags(ins)
    ensures FindInput(ins, tag).Some? ==> FindInput(ins, tag).value.tag == tag && FindInput(ins, tag).value in ins
  {
    if |ins| > 0 {
      FindInputSpec(ins[1..], tag);
      assert InputTags(ins) == {ins[0].tag} + InputTags(ins[1..]) by {
        forall k | k in InputTags(ins) ensures k in {ins[0].tag} + InputTags(ins[1..]) {
          var i :| 0 <= i < |ins| && ins[i].tag == k;
          if i > 0 { assert ins[1..][i - 1] == ins[i]; }
        }
        forall k | k in InputTags(ins[1..]) ensures k in InputTags(ins) {
          var i :| 0 <= i < |ins[1..]| && ins[1..][i].tag == k;
          assert ins[i + 1] == ins[1..][i];
        }
      }
    }
  }

  lemma {:induction false} FindOutputSpec(outs: seq<TOutput>, tag: string)
    ensures FindOutput(outs, tag).Some? <==> tag in OutputTags(outs)
    ensures FindOutput(outs, tag).Some? ==> FindOutput(outs, tag).value.tag == tag && FindOutput(outs, tag).value in outs
  {
    if |outs| > 0 {
      FindOutputSpec(outs[1..], tag);
      assert OutputTags(outs) == {outs[0].tag} + OutputTags(outs[1..]) by {
        forall k | k in OutputTags(outs) ensures k in {outs[0].tag} + OutputTags(outs[1..]) {
          var i :| 0 <= i < |outs| && outs[i].tag == k;
          if i > 0 { assert outs[1..][i - 1] == outs[i]; }
        }
        forall k | k in OutputTags(outs[1..]) ensures k in OutputTags(outs) {
          var i :| 0 <= i < |outs[1..]| && outs[1..][i].tag == k;
          assert outs[i + 1] == outs[1..][i];
        }
      }
    }
  }

  function OptionalInputs(ins: seq<TInput>): (r: seq<TInput>)
    ensures |r| == |ins|
    ensures forall i :: 0 <= i < |ins| ==> r[i] == ins[i].(intype := ins[i].intype.WithOptional(true))
  {
    if |ins| == 0 then [] else [ins[0].(intype := ins[0].intype.WithOptional(true))] + OptionalInputs(ins[1..])
  }

  function OptionalOutputs(outs: seq<TOutput>): (r: seq<TOutput>)
    ensures |r| == |outs|
    ensures forall i :: 0 <= i < |outs| ==> r[i] == outs[i].(outtype := outs[i].outtype.WithOptional(true))
  {
    if |outs| == 0 then [] else [outs[0].(outtype := outs[0].outtype.WithOptional(true))] + OptionalOutputs(outs[1..])
  }

  /** `StepNode.inputs()`: the tool's inputs, as optional copies when the
      step or one of its parents is conditional. */
  function StepInputs(s: StepRecord): seq<TInput>
  {
    if s.Conditional() then OptionalInputs(InputsMap(s.tool)) else InputsMap(s.tool)
  }

  /** `StepNode.outputs()`, with the same optional copies. */
  function StepOutputs(s: StepRecord): seq<TOutput>
  {
    if s.Conditional() then OptionalOutputs(OutputsMap(s.tool)) else OutputsMap(s.tool)
  }

  /** A conditional step reports every input and output under the same tag
      and in the same order, each type an optional copy of the tool's. */
  lemma ConditionalPorts(s: StepRecord)
    ensures |StepInputs(s)| == |InputsMap(s.tool)| && |StepOutputs(s)| == |OutputsMap(s.tool)|
    ensures forall i :: 0 <= i < |StepInputs(s)| ==>
      && StepInputs(s)[i].tag == InputsMap(s.tool)[i].tag
      && EqualsExceptOptional(StepInputs(s)[i].intype, InputsMap(s.tool)[i].intype)
      && (s.Conditional() ==> StepInputs(s)[i].intype.optional)
      && (!s.Conditional() ==> StepInputs(s)[i] == InputsMap(s.tool)[i])
    ensures forall i :: 0 <= i < |StepOutputs(s)| ==>
      && StepOutputs(s)[i].tag == OutputsMap(s.tool)[i].tag
      && EqualsExceptOptional(StepOutputs(s)[i].outtype, OutputsMap(s.tool)[i].outtype)
      && (s.Conditional() ==> StepOutputs(s)[i].outtype.optional)
      && (!s.Conditional() ==> StepOutputs(s)[i] == OutputsMap(s.tool)[i])
  {
    forall i | 0 <= i < |InputsMap(s.tool)| ensures EqualsExceptOptional(InputsMap(s.tool)[i].intype.WithOptional(true), InputsMap(s.tool)[i].intype) {
      WithOptionalTwice(InputsMap(s.tool)[i].intype);
    }
    forall i | 0 <= i < |OutputsMap(s.tool)| ensures EqualsExceptOptional(OutputsMap(s.tool)[i].outtype.WithOptional(true), OutputsMap(s.tool)[i].outtype) {
      WithOptionalTwice(OutputsMap(s.tool)[i].outtype);
    }
  }

  lemma WithOptionalTwice(t: DataType)
    ensures EqualsExceptOptional(t.WithOptional(true), t)
    ensures EqualsExceptOptional(t, t)
  {
  }

  /** One entry of `node.outputs()`: its dictionary key (`None` for an input
      node) and the output. */
  datatype OutEntry = OutEntry(key: Option<string>, out: TOutput)

  function Entries(outs: seq<TOutput>): (r: seq<OutEntry>)
    ensures |r| == |outs|
    ensures forall i :: 0 <= i < |outs| ==> r[i] == OutEntry(Some(outs[i].tag), outs[i])
  {
    if |outs| == 0 then [] else [OutEntry(Some(outs[0].tag), outs[0])] + Entries(outs[1..])
  }

  /** `node.outputs()`; an output node has none (`None`). */
  function NodeOutputs(n: Node): Option<seq<OutEntry>>
  {
    match n
    case NInput(i) => Some([OutEntry(None, TOutput(i.id, i.dtype))])
    case NStep(s) => Some(Entries(StepOutputs(s)))
    case NOutput(_) => None
  }

  function FindEntry(es: seq<OutEntry>, key: Option<string>): Option<TOutput>
  {
    if |es| == 0 then None
    else if es[0].key == key then Some(es[0].out)
    else FindEntry(es[1..], key)
  }

  lemma {:induction false} FindEntrySpec(es: seq<OutEntry>, key: Option<string>)
    ensures FindEntry(es, key).Some? <==> exists i :: 0 <= i < |es| && es[i].key == key
    ensures |es| > 0 && es[0].key == key ==> FindEntry(es, key) == Some(es[0].out)
  {
    if |es| > 0 {
      FindEntrySpec(es[1..], key);
      if FindEntry(es[1..], key).Some? {
        var i :| 0 <= i < |es[1..]| && es[1..][i].key == key;
        assert es[i + 1].key == key;
      }
      if exists i :: 0 <= i < |es| && es[i].key == key {
        var i :| 0 <= i < |es| && es[i].key == key;
        if i > 0 { assert es[1..][i - 1].key == key; }
      }
    }
  }

  /** `verify_or_try_get_source`: turns any connection source into a
      `StepOperator` (or a list of them, element-wise). A bare node must have
      exactly one output; a named tag must be one of the node's outputs. */
  function GetSource(v: Value): Result<Value>
  {
    match v
    case VStepOp(_, _) => Ok(v)
    case VInputOp(n) => NodeSource(n, None)
    case VList(items) =>
      var ops :- GetSources(items);
      Ok(VList(ops))
    case VTuple(n, tag) => NodeSource(n, Some(tag))
    case VNode(n) => NodeSource(n, None)
    case _ => Err(NotASource)
  }

  function GetSources(items: seq<Value>): Result<seq<Value>>
  {
    if |items| == 0 then Ok([])
    else
      var h :- GetSource(items[0]);
      var r :- GetSources(items[1..]);
      Ok([h] + r)
  }

  function NodeSource(n: Node, tag: Option<string>): Result<Value>
  {
    match NodeOutputs(n)
    case None => Err(NotASource)
    case Some(outs) =>
      if tag.None? && |outs| > 1 then Err(TooManyOutputs(n.Id()))
      else if tag.None? && |outs| == 0 then Err(NoOutputs(n.Id()))
      else
        var t := if tag.None? then outs[0].key else tag;
        if FindEntry(outs, t).None? then Err(UnknownTag(n.Id(), if t.Some? then t.value else "None"))
        else Ok(VStepOp(n, t))
  }

  /** A verified source is a `StepOperator` on an output the node has. */
  predicate IsVerifiedSource(v: Value)
  {
    && v.VStepOp?
    && NodeOutputs(v.node).Some?
    && FindEntry(NodeOutputs(v.node).value, v.tag).Some?
  }

  /** A source given as a node with a single output resolves to that
      output; an input node always resolves to its only (keyless) output; an
      output node can never be a source. */
  lemma NodeSourceSpec(n: Node, tag: Option<string>)
    ensures n.NOutput? ==> NodeSource(n, tag) == Err(NotASource)
    ensures n.NInput? ==> (NodeSource(n, None) == Ok(VStepOp(n, None)))
    ensures NodeSource(n, tag).Ok? ==> IsVerifiedSource(NodeSource(n, tag).value) && NodeSource(n, tag).value.node == n
    ensures NodeOutputs(n).Some? && tag.None? && |NodeOutputs(n).value| > 1 ==> NodeSource(n, tag) == Err(TooManyOutputs(n.Id()))
    ensures NodeOutputs(n).Some? && tag.Some? ==>
      (NodeSource(n, tag).Ok? <==> exists i :: 0 <= i < |NodeOutputs(n).value| && NodeOutputs(n).value[i].key == tag)
  {
    if NodeOutputs(n).Some? {
      FindEntrySpec(NodeOutputs(n).value, tag);
      if tag.None? && |NodeOutputs(n).value| == 1 {
        FindEntrySpec(NodeOutputs(n).value, NodeOutputs(n).value[0].key);
      }
    }
  }

  /** Every source `GetSource` accepts is a verified `StepOperator`, or a
      list of them for a list source; a `StepOperator` is returned as is. */
  lemma {:induction false} GetSourceSpec(v: Value)
    ensures v.VStepOp? ==> GetSource(v) == Ok(v)
    ensures GetSource(v).Ok? && !v.VList? && !v.VStepOp? ==> IsVerifiedSource(GetSource(v).value)
    ensures GetSource(v).Ok? && v.VList? ==>
      && GetSource(v).value.VList?
      && |GetSource(v).value.items| == |v.items|
      && forall i :: 0 <= i < |v.items| ==> GetSource(v.items[i]) == Ok(GetSource(v).value.items[i])
    ensures !(v.VStepOp? || v.VInputOp? || v.VList? || v.VTuple? || v.VNode?) ==> GetSource(v) == Err(NotASource)
  {
    match v
    case VInputOp(n) => NodeSourceSpec(n, None);
    case VTuple(n, tag) => NodeSourceSpec(n, Some(tag));
    case VNode(n) => NodeSourceSpec(n, None);
    case VList(items) => GetSourcesSpec(items);
    case _ =>
  }

  lemma {:induction false} GetSourcesSpec(items: seq<Value>)
    ensures GetSources(items).Ok? ==>
      && |GetSources(items).value| == |items|
      && forall i :: 0 <= i < |items| ==> GetSource(items[i]) == Ok(GetSources(items).value[i])
    ensures GetSources(items).Err? <==> exists i :: 0 <= i < |items| && GetSource(items[i]).Err?
  {
    if |items| > 0 {
      GetSourcesSpec(items[1..]);
      if GetSources(items).Ok? {
        forall i | 0 <= i < |items| ensures GetSource(items[i]) == Ok(GetSources(items).value[i]) {
          if i > 0 { assert items[1..][i - 1] == items[i]; }
        }
      }
      if GetSource(items[0]).Ok? && GetSources(items[1..]).Err? {
        var i :| 0 <= i < |items[1..]| && GetSource(items[1..][i]).Err?;
        assert items[i + 1] == items[1..][i];
      }
      if exists i :: 0 <= i < |items| && GetSource(items[i]).Err? {
        var i :| 0 <= i < |items| && GetSource(items[i]).Err?;
        if i > 0 { assert items[1..][i - 1] == items[i]; }
      }
    }
  }

  /** `StepNode.get_item`: an input tag, then an output tag, gives a
      `StepOperator` on the step; anything else is a `KeyError`. */
  function GetItem(s: StepRecord, item: string): Result<Value>
  {
    if item in InputTags(StepInputs(s)) then Ok(VStepOp(NStep(s), Some(item)))
    else if item in OutputTags(StepOutputs(s)) then Ok(VStepOp(NStep(s), Some(item)))
    else Err(UnknownTag(s.id, item))
  }

  lemma GetItemSpec(s: StepRecord, item: string)
    ensures GetItem(s, item).Ok? <==> item in InputTags(StepInputs(s)) || item in OutputTags(StepOutputs(s))
    ensures GetItem(s, item).Ok? ==> GetItem(s, item).value == VStepOp(NStep(s), Some(item))
    ensures item in OutputTags(StepOutputs(s)) ==> IsVerifiedSource(GetItem(s, item).value)
  {
    if item in OutputTags(StepOutputs(s)) {
      FindOutputSpec(StepOutputs(s), item);
      var o := FindOutput(StepOutputs(s), item).value;
      var i :| 0 <= i < |StepOutputs(s)| && StepOutputs(s)[i] == o;
      FindEntrySpec(Entries(StepOutputs(s)), Some(item));
      assert Entries(StepOutputs(s))[i].key == Some(item);
    }
  }
}
