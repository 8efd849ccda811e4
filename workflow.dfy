/** The graph builder in place: `StepNode` while `step` wires its edges,
    `Workflow` with its node dictionaries and flags, and
    `wrap_steps_in_workflow`. Every method is proved to leave exactly the
    state the transitions of `WorkflowSpec` and `SwitchSpec` describe, so
    the properties proved there hold of these objects. */
module Workflows {
  import opened Wrappers
  import opened DataTypes
  import opened Ir
  import opened StringFormatters
  import opened WorkflowSpec
  import opened SwitchSpec

  /** A step node of a workflow under construction. */
  class StepNode {
    const id: string
    const tool: Tool
    const scatter: Option<ScatterDescription>
    const when: Value
    var sources: seq<StepTagInput>
    var parentHasConditionals: bool

    /** The node as the value the workflow's dictionaries keep. */
    function Record(): StepRecord
      reads this
    {
      StepRecord(id, tool, scatter, when, sources, parentHasConditionals)
    }

    constructor (id: string, tool: Tool, scatter: Option<ScatterDescription>, when: Value)
      ensures Record() == StepRecord(id, tool, scatter, when, [], false)
    {
      this.id := id;
      this.tool := tool;
      this.scatter := scatter;
      this.when := when;
      sources := [];
      parentHasConditionals := false;
    }

    /** `_add_edge`: the source must resolve to a single step operator; an
        edge from a conditional step makes this step conditional. */
    method AddEdge(tag: string, source: Value) returns (r: Result<Edge>)
      modifies this
      ensures r == WorkflowSpec.AddEdge(old(Record()), tag, source).0
      ensures Record() == WorkflowSpec.AddEdge(old(Record()), tag, source).1
    {
      var so := GetSource(source);
      if so.Err? {
        return Err(so.error);
      }
      if !so.value.VStepOp? {
        return Err(AttributeOnList);
      }
      var node, outtag := so.value.node, so.value.tag;
      AddEdgeFrom(old(Record()), tag, source);
      if node.NStep? && node.step.Conditional() {
        parentHasConditionals := true;
      }
      var shouldScatter := scatter.Some? && tag in SeqSet(scatter.value.fields);
      var e := Edge(node, outtag, id, tag, shouldScatter);
      sources := AddToTag(sources, tag, e);
      r := Ok(e);
    }
  }

  /** A workflow under construction (`WorkflowBuilder`). */
  class Workflow {
    const env: Env
    var id: string
    var nodes: map<string, Node>
    var inputNodes: seq<InputRecord>
    var stepNodes: seq<StepRecord>
    var outputNodes: seq<OutputRecord>
    var hasScatter: bool
    var hasSubworkflow: bool
    var hasMultipleInputs: bool
    var warnings: seq<string>

    function State(): WfState
      reads this
    {
      WfState(id, nodes, inputNodes, stepNodes, outputNodes, hasScatter, hasSubworkflow, hasMultipleInputs, warnings)
    }

    /** An empty workflow, before its identifier is checked. */
    constructor (env: Env, id: string)
      ensures this.env == env && State() == Empty(id)
    {
      this.env := env;
      this.id := id;
      nodes := map[];
      inputNodes := [];
      stepNodes := [];
      outputNodes := [];
      hasScatter := false;
      hasSubworkflow := false;
      hasMultipleInputs := false;
      warnings := [];
    }

    /** `Workflow.__init__`: the new workflow, unless its identifier fails
        the validator. */
    static method Create(env: Env, id: string) returns (r: Result<Workflow>)
      ensures r.Err? <==> NewWorkflow(env, id).Err?
      ensures r.Err? ==> r.error == NewWorkflow(env, id).error
      ensures r.Ok? ==> fresh(r.value) && r.value.env == env && r.value.State() == NewWorkflow(env, id).value
    {
      var w := new Workflow(env, id);
      if !env.validate(id) {
        return Err(InvalidIdentifier(id));
      }
      r := Ok(w);
    }

    /** `Workflow.input`. */
    method Input(identifier: string, dtype: DataType, default: Value, value: Value, doc: Option<string>)
      returns (r: Result<InputRecord>)
      modifies this
      ensures r == AddInput(env, old(State()), identifier, dtype, default, value, doc).0
      ensures State() == AddInput(env, old(State()), identifier, dtype, default, value, doc).1
    {
      var chk := VerifyIdentifier(env, State(), identifier);
      if chk.Some? {
        return Err(chk.value);
      }
      var t := dtype;
      if Truthy(default) {
        t := t.WithOptional(true);
      }
      var inp := InputRecord(identifier, t, default, value, doc);
      nodes := nodes[identifier := NInput(inp)];
      inputNodes := inputNodes + [inp];
      r := Ok(inp);
    }

    /** `Workflow.output`: the identifier, a `None` source, the source's
        verification, and the defaulted `pick_value` with its warning. */
    method Output(identifier: string, dtype: Option<DataType>, source: Value,
                  outputFolder: Value, outputName: Value, pick: Option<PickValue>)
      returns (r: Result<OutputRecord>)
      modifies this
      ensures r == AddOutput(env, old(State()), identifier, dtype, source, outputFolder, outputName, pick).0
      ensures State() == AddOutput(env, old(State()), identifier, dtype, source, outputFolder, outputName, pick).1
    {
      var chk := VerifyIdentifier(env, State(), identifier);
      if chk.Some? {
        return Err(chk.value);
      }
      if source.VNone? {
        return Err(NoneOutputSource);
      }
      var ops := GetSource(source);
      if ops.Err? {
        return Err(ops.error);
      }
      var pickValue := pick;
      if ops.value.VList? && pick.None? {
        pickValue := Some(FirstNonNull);
        warnings := warnings + [ListSourceWarning];
      }
      r := OutputFrom(identifier, dtype, ops.value, outputFolder, outputName, pickValue);
    }

    /** `output` once its source is verified: the first source's node and
        tag give the type unless one is declared. */
    method OutputFrom(identifier: string, dtype: Option<DataType>, ops: Value,
                      outputFolder: Value, outputName: Value, pick: Option<PickValue>)
      returns (r: Result<OutputRecord>)
      modifies this
      ensures r == OutputFromSource(old(State()), identifier, dtype, ops, outputFolder, outputName, pick).0
      ensures State() == OutputFromSource(old(State()), identifier, dtype, ops, outputFolder, outputName, pick).1
    {
      if ops.VList? && |ops.items| == 0 {
        return Err(IndexOutOfRange);
      }
      var stepoperator := if ops.VList? then ops.items[0] else ops;
      if !stepoperator.VStepOp? {
        return Err(AttributeOnList);
      }
      var t := if dtype.Some? then Ok(dtype.value) else InferOutputType(stepoperator, pick);
      if t.Err? {
        return Err(t.error);
      }
      r := InsertOutputNode(identifier, t.value, ops, outputFolder, outputName, pick);
    }

    /** The end of `output`: the `output_name` and `output_folder`
        selections, then the `OutputNode`, whose type mismatch is logged. */
    method InsertOutputNode(identifier: string, t: DataType, ops: Value,
                            outputFolder: Value, outputName: Value, pick: Option<PickValue>)
      returns (r: Result<OutputRecord>)
      modifies this
      ensures r == InsertOutput(old(State()), identifier, t, ops, outputFolder, outputName, pick).0
      ensures State() == InsertOutput(old(State()), identifier, t, ops, outputFolder, outputName, pick).1
    {
      var name := VerifyOutputName(State(), identifier, outputName);
      if name.Err? {
        return Err(name.error);
      }
      var folder := VerifyOutputFolder(State(), identifier, outputFolder);
      if folder.Err? {
        return Err(folder.error);
      }
      var logged := OutputNodeCheck(identifier, t, ops);
      if logged.Err? {
        return Err(logged.error);
      }
      var out := OutputRecord(identifier, t, ops, folder.value, name.value, pick);
      nodes := nodes[identifier := NOutput(out)];
      outputNodes := outputNodes + [out];
      warnings := warnings + logged.value;
      r := Ok(out);
    }

    /** The first half of one connection of `step`: a literal or a
        generated file name, or `None`, becomes a new input. */
    method ConnectionSource(inputs: seq<TInput>, inpId: string, k: string, v: Value) returns (r: Result<Value>)
      modifies this
      ensures r == MakeSource(env, old(State()), inputs, inpId, k, v).0
      ensures State() == MakeSource(env, old(State()), inputs, inpId, k, v).1
    {
      if IsPythonPrimitive(v) || v.VFilename? {
        var found := FindInput(inputs, k);
        if !v.VFilename? && found.None? {
          return Err(KeyNotFound(k));
        }
        var referenced := if v.VFilename? then FilenameType else found.value.intype;
        var parsed := if v.VFilename? then Some(referenced) else env.infer(v);
        if parsed.Some? && !CanReceiveFrom(referenced, parsed.value) {
          return Err(IncompatibleValueType(k));
        }
        var inp := Input(inpId, referenced.WithOptional(true), if v.VFilename? then VStr(v.generated) else v, VNone, None);
        r := if inp.Ok? then Ok(VNode(NInput(inp.value))) else Err(inp.error);
      } else if v.VNone? {
        var found := FindInput(inputs, k);
        if found.None? {
          return Err(KeyNotFound(k));
        }
        var inp := Input(inpId, found.value.intype, VNone, VNone, None);
        r := if inp.Ok? then Ok(VNode(NInput(inp.value))) else Err(inp.error);
      } else {
        r := Ok(v);
      }
    }

    /** One connection `k=v` of `step`, wired into `stp`; `edges` are the
        edges added so far. */
    method ConnectOne(stp: StepNode, inputs: seq<TInput>, stepId: string, kw: Kwarg, edges: seq<Edge>)
      returns (e: Option<Error>, edges': seq<Edge>)
      modifies this, stp
      ensures e == Connect(env, Build(old(State()), old(stp.Record()), edges), inputs, stepId, kw).0
      ensures Build(State(), stp.Record(), edges') == Connect(env, Build(old(State()), old(stp.Record()), edges), inputs, stepId, kw).1
    {
      edges' := edges;
      var made := ConnectionSource(inputs, stepId + "_" + kw.key, kw.key, kw.value);
      if made.Err? {
        return Some(made.error), edges';
      }
      var vs := GetSource(made.value);
      if vs.Err? {
        return Some(vs.error), edges';
      }
      if vs.value.VList? {
        var items := vs.value.items;
        ghost var b1 := Build(State(), stp.Record(), edges);
        var j := 0;
        while j < |items|
          invariant 0 <= j <= |items|
          invariant AddEdges(b1, kw.key, items) == AddEdges(Build(State(), stp.Record(), edges'), kw.key, items[j..])
          invariant State() == b1.st
        {
          assert items[j..][1..] == items[j + 1..];
          var added := stp.AddEdge(kw.key, items[j]);
          if added.Err? {
            return Some(added.error), edges';
          }
          edges' := edges' + [added.value];
          j := j + 1;
        }
        e := None;
      } else {
        var added := stp.AddEdge(kw.key, vs.value);
        if added.Err? {
          return Some(added.error), edges';
        }
        e, edges' := None, edges' + [added.value];
      }
    }

    /** The loop of `step` over the tool's connections, in order, stopping
        at the first error; returns the edges it added. */
    method ConnectAllEdges(stp: StepNode, inputs: seq<TInput>, stepId: string, connections: seq<Kwarg>)
      returns (e: Option<Error>, addedEdges: seq<Edge>)
      modifies this, stp
      ensures e == ConnectAll(env, Build(old(State()), old(stp.Record()), []), inputs, stepId, connections).0
      ensures State() == ConnectAll(env, Build(old(State()), old(stp.Record()), []), inputs, stepId, connections).1.st
      ensures stp.Record() == ConnectAll(env, Build(old(State()), old(stp.Record()), []), inputs, stepId, connections).1.step
      ensures addedEdges == ConnectAll(env, Build(old(State()), old(stp.Record()), []), inputs, stepId, connections).1.edges
    {
      ghost var b0 := Build(State(), stp.Record(), []);
      addedEdges := [];
      var i := 0;
      while i < |connections|
        invariant 0 <= i <= |connections|
        invariant ConnectAll(env, b0, inputs, stepId, connections) ==
                  ConnectAll(env, Build(State(), stp.Record(), addedEdges), inputs, stepId, connections[i..])
      {
        assert connections[i..][1..] == connections[i + 1..];
        e, addedEdges := ConnectOne(stp, inputs, stepId, connections[i], addedEdges);
        if e.Some? {
          return;
        }
        i := i + 1;
      }
      e := None;
    }

    /** `Workflow.step`: the checks, the connections, then the flags and
        the insertion of the step, last. */
    method Step(identifier: string, tool: Tool, scatter: ScatterArg, when: Value, ignoreMissing: bool)
      returns (r: Result<StepRecord>)
      modifies this
      ensures r == AddStep(env, old(State()), identifier, tool, scatter, when, ignoreMissing).0
      ensures State() == AddStep(env, old(State()), identifier, tool, scatter, when, ignoreMissing).1
    {
      var sd := StepChecks(env, State(), identifier, tool, scatter, ignoreMissing);
      if sd.Err? {
        return Err(sd.error);
      }
      var stp := new StepNode(identifier, tool, sd.value, when);
      var e, addedEdges := ConnectAllEdges(stp, InputsMap(tool), identifier, tool.connections);
      if e.Some? {
        return Err(e.value);
      }
      r := InsertStepNode(stp.Record(), addedEdges, sd.value.Some?, tool.kind.WorkflowTool?);
    }

    /** The end of `step`: the flags turn on for a new edge with several
        sources, a scatter or a sub-workflow, then the step is inserted. */
    method InsertStepNode(stp: StepRecord, addedEdges: seq<Edge>, scattered: bool, subworkflow: bool)
      returns (r: Result<StepRecord>)
      modifies this
      ensures r == InsertStep(Build(old(State()), stp, addedEdges), scattered, subworkflow).0
      ensures State() == InsertStep(Build(old(State()), stp, addedEdges), scattered, subworkflow).1
    {
      var multiple := HasMultipleInputs(stp.sources, addedEdges);
      hasMultipleInputs, hasScatter, hasSubworkflow :=
        hasMultipleInputs || multiple, hasScatter || scattered, hasSubworkflow || subworkflow;
      nodes, stepNodes := nodes[stp.id := NStep(stp)], stepNodes + [stp];
      r := Ok(stp);
    }

    /** `Workflow.switch`: the checks, then the branches wrapped into one
        workflow that is added as the step `stepId`. */
    method Switch(stepId: string, cases: seq<Case>) returns (r: Result<StepRecord>)
      modifies this
      ensures r == SwitchSpec.Switch(env, old(State()), stepId, cases).0
      ensures State() == SwitchSpec.Switch(env, old(State()), stepId, cases).1
    {
      if |cases| <= 1 {
        return Err(TooFewConditions);
      }
      var tools := SwitchTools(cases);
      if tools.Err? {
        return Err(tools.error);
      }
      var nonMatchingTools := NonMatchingTools(OutputsMap(tools.value[0]), tools.value[1..]);
      if |nonMatchingTools| > 0 {
        return Err(SchemaMismatch(nonMatchingTools));
      }
      var w := WrapStepsInWorkflow(env, stepId, cases);
      if w.Err? {
        return Err(w.error);
      }
      SwitchAddsStep(env, old(State()), stepId, cases);
      r := Step(stepId, w.value, NoScatter, VNone, false);
    }
  }

  /** The loop of `step` over the edges it added: some edge's tag now has
      more than one source. */
  method HasMultipleInputs(sources: seq<StepTagInput>, addedEdges: seq<Edge>) returns (b: bool)
    ensures b == AnyMultiple(sources, addedEdges)
  {
    b := false;
    var j := 0;
    while j < |addedEdges|
      invariant 0 <= j <= |addedEdges|
      invariant b == exists k :: 0 <= k < j && EdgeHasMultiple(sources, addedEdges[k])
    {
      b := b || EdgeHasMultiple(sources, addedEdges[j]);
      j := j + 1;
    }
  }

  /** The validation loop of `switch`: the tool of every branch, refusing
      a default branch anywhere but last. */
  method SwitchTools(cases: seq<Case>) returns (r: Result<seq<Tool>>)
    ensures r.Err? <==> exists i :: 0 <= i < |cases| - 1 && cases[i].Default?
    ensures r.Err? ==> r.error == DefaultNotLast
    ensures r.Ok? ==> r.value == CaseTools(cases)
  {
    var tools: seq<Tool> := [];
    var i := 0;
    while i < |cases|
      invariant 0 <= i <= |cases|
      invariant |tools| == i && forall j :: 0 <= j < i ==> tools[j] == cases[j].tool
      invariant forall j :: 0 <= j < i && j < |cases| - 1 ==> cases[j].Guarded?
    {
      if cases[i].Default? && i < |cases| - 1 {
        return Err(DefaultNotLast);
      }
      tools := tools + [cases[i].tool];
      i := i + 1;
    }
    r := Ok(tools);
  }

  /** The schema loop of `switch`: one entry per tool that lacks an output
      of the first branch or types it incompatibly. */
  method NonMatchingTools(compare: seq<TOutput>, tools: seq<Tool>) returns (diffs: seq<SchemaDiff>)
    ensures diffs == SchemaDiffs(compare, tools)
  {
    diffs := [];
    var k := 0;
    assert tools[0..] == tools;
    while k < |tools|
      invariant 0 <= k <= |tools|
      invariant SchemaDiffs(compare, tools) == diffs + SchemaDiffs(compare, tools[k..])
    {
      SchemaDiffsAt(compare, tools, k);
      var rest := SchemaDiffs(compare, tools[k + 1..]);
      var outs := OutputsMap(tools[k]);
      var extraParams := OutputTags(outs) - OutputTags(compare);
      var nonMatchingEls := NonMatching(compare, outs);
      if |nonMatchingEls| > 0 {
        var d := SchemaDiff(tools[k].id, nonMatchingEls, extraParams);
        assert diffs + ([d] + rest) == (diffs + [d]) + rest;
        diffs := diffs + [d];
      } else {
        assert [] + rest == rest;
      }
      k := k + 1;
    }
    assert SchemaDiffs(compare, tools[k..]) == [];
  }

  /** `rebuild_condition` inside `wrap_steps_in_workflow`: `w` is the
      wrapping workflow and `memo` its `workflow_connection_map`. */
  method RebuildCondition(w: Workflow, memo: seq<Kwarg>, op: Value) returns (r: Result<Value>, memo': seq<Kwarg>)
    modifies w
    ensures r == Rebuild(w.env, Wrapping(old(w.State()), memo), op).0
    ensures Wrapping(w.State(), memo') == Rebuild(w.env, Wrapping(old(w.State()), memo), op).1
    decreases op, 1
  {
    match op
    case VStepOp(_, _) =>
      r, memo' := RebuildStepOperator(w, memo, op);
    case VInputOp(_) =>
      r, memo' := RebuildInputOperator(w, memo, op);
    case VFormat(f) =>
      r, memo' := RebuildFormat(w, memo, op);
    case Op1(name, a) =>
      var ra;
      ra, memo' := RebuildCondition(w, memo, a);
      r := if ra.Ok? then Ok(Op1(name, ra.value)) else ra;
    case Op2(name, a, b) =>
      r, memo' := RebuildBinary(w, memo, op);
    case OrPrev(cs) =>
      var conds;
      conds, memo' := RebuildListOf(w, memo, cs);
      r := if conds.Ok? then Ok(OrPrev(conds.value)) else Err(conds.error);
    case _ =>
      r, memo' := Ok(op), memo;
  }

  /** A formatter is rebuilt kwarg by kwarg and constructed afresh. */
  method RebuildFormat(w: Workflow, memo: seq<Kwarg>, op: Value) returns (r: Result<Value>, memo': seq<Kwarg>)
    requires op.VFormat?
    modifies w
    ensures r == Rebuild(w.env, Wrapping(old(w.State()), memo), op).0
    ensures Wrapping(w.State(), memo') == Rebuild(w.env, Wrapping(old(w.State()), memo), op).1
    decreases op, 0
  {
    var kwargs;
    kwargs, memo' := RebuildKwargsOf(w, memo, op.f.kwargs);
    if kwargs.Err? {
      return Err(kwargs.error), memo';
    }
    var g := New(w.env.scan, op.f.format, kwargs.value);
    r := if g.Ok? then Ok(VFormat(g.value)) else Err(g.error);
  }

  /** A binary operator is rebuilt left operand first. */
  method RebuildBinary(w: Workflow, memo: seq<Kwarg>, op: Value) returns (r: Result<Value>, memo': seq<Kwarg>)
    requires op.Op2?
    modifies w
    ensures r == Rebuild(w.env, Wrapping(old(w.State()), memo), op).0
    ensures Wrapping(w.State(), memo') == Rebuild(w.env, Wrapping(old(w.State()), memo), op).1
    decreases op, 0
  {
    var ra, rb;
    ra, memo' := RebuildCondition(w, memo, op.lhs);
    if ra.Err? {
      return ra, memo';
    }
    rb, memo' := RebuildCondition(w, memo', op.rhs);
    r := if rb.Ok? then Ok(Op2(op.name, ra.value, rb.value)) else rb;
  }

  /** A `StepOperator` becomes the input `cond_{node}_{tag}` of the
      output's type. */
  method RebuildStepOperator(w: Workflow, memo: seq<Kwarg>, op: Value) returns (r: Result<Value>, memo': seq<Kwarg>)
    requires op.VStepOp?
    modifies w
    ensures r == Rebuild(w.env, Wrapping(old(w.State()), memo), op).0
    ensures Wrapping(w.State(), memo') == Rebuild(w.env, Wrapping(old(w.State()), memo), op).1
  {
    var identifier := "cond_" + op.node.Id() + "_" + TagName(op.tag);
    var existing := FindInputNode(w.inputNodes, identifier);
    if existing.Some? {
      return Ok(VNode(NInput(existing.value))), memo;
    }
    memo' := Assign(memo, identifier, op);
    var o := SourceOutput(op);
    if o.Err? {
      return Err(o.error), memo';
    }
    var inp := w.Input(identifier, o.value.outtype, VNone, VNone, None);
    r := if inp.Ok? then Ok(VNode(NInput(inp.value))) else Err(inp.error);
  }

  /** An `InputOperator` becomes the input `cond_{node}` of the type of the
      node's first output. */
  method RebuildInputOperator(w: Workflow, memo: seq<Kwarg>, op: Value) returns (r: Result<Value>, memo': seq<Kwarg>)
    requires op.VInputOp?
    modifies w
    ensures r == Rebuild(w.env, Wrapping(old(w.State()), memo), op).0
    ensures Wrapping(w.State(), memo') == Rebuild(w.env, Wrapping(old(w.State()), memo), op).1
  {
    var innode := op.inputNode;
    var identifier := "cond_" + innode.Id();
    var existing := FindInputNode(w.inputNodes, identifier);
    if existing.Some? {
      return Ok(VNode(NInput(existing.value))), memo;
    }
    memo' := Assign(memo, identifier, VNode(innode));
    var outs := NodeOutputs(innode);
    if outs.None? {
      return Err(NotSubscriptable), memo';
    }
    if |outs.value| == 0 {
      return Err(IndexOutOfRange), memo';
    }
    var inp := w.Input(identifier, outs.value[0].out.outtype, VNone, VNone, None);
    r := if inp.Ok? then Ok(VInputOp(NInput(inp.value))) else Err(inp.error);
  }

  /** The kwargs of a `StringFormatter`, each value rebuilt, in order. */
  method RebuildKwargsOf(w: Workflow, memo: seq<Kwarg>, kw: seq<Kwarg>) returns (r: Result<seq<Kwarg>>, memo': seq<Kwarg>)
    modifies w
    ensures r == RebuildKwargs(w.env, Wrapping(old(w.State()), memo), kw).0
    ensures Wrapping(w.State(), memo') == RebuildKwargs(w.env, Wrapping(old(w.State()), memo), kw).1
    decreases kw, 1
  {
    if |kw| == 0 {
      return Ok([]), memo;
    }
    assert kw[0] in kw;
    var h, t;
    h, memo' := RebuildCondition(w, memo, kw[0].value);
    if h.Err? {
      return Err(h.error), memo';
    }
    t, memo' := RebuildKwargsOf(w, memo', kw[1..]);
    r := if t.Ok? then Ok([Kwarg(kw[0].key, h.value)] + t.value) else t;
  }

  /** The operands of a disjunction, each rebuilt, in order. */
  method RebuildListOf(w: Workflow, memo: seq<Kwarg>, cs: seq<Value>) returns (r: Result<seq<Value>>, memo': seq<Kwarg>)
    modifies w
    ensures r == RebuildList(w.env, Wrapping(old(w.State()), memo), cs).0
    ensures Wrapping(w.State(), memo') == RebuildList(w.env, Wrapping(old(w.State()), memo), cs).1
    decreases cs, 1
  {
    if |cs| == 0 {
      return Ok([]), memo;
    }
    var h, t;
    h, memo' := RebuildCondition(w, memo, cs[0]);
    if h.Err? {
      return Err(h.error), memo';
    }
    t, memo' := RebuildListOf(w, memo', cs[1..]);
    r := if t.Ok? then Ok([h.value] + t.value) else t;
  }

  /** The connection loop for one branch: a literal is passed through, any
      other source becomes a new input `{case}_{tag}` of the wrapping
      workflow, remembered in `memo`. */
  method BranchConnections(w: Workflow, memo: seq<Kwarg>, toolinputs: seq<TInput>, stepid: string, connections: seq<Kwarg>)
    returns (r: Result<seq<Kwarg>>, memo': seq<Kwarg>)
    modifies w
    ensures r == WrapConnections(w.env, Wrapping(old(w.State()), memo), toolinputs, stepid, connections, []).0
    ensures Wrapping(w.State(), memo') == WrapConnections(w.env, Wrapping(old(w.State()), memo), toolinputs, stepid, connections, []).1
  {
    ghost var acc0 := Wrapping(w.State(), memo);
    memo' := memo;
    var connectionMap: seq<Kwarg> := [];
    var j := 0;
    while j < |connections|
      invariant 0 <= j <= |connections|
      invariant WrapConnections(w.env, acc0, toolinputs, stepid, connections, []) ==
                WrapConnections(w.env, Wrapping(w.State(), memo'), toolinputs, stepid, connections[j..], connectionMap)
    {
      assert connections[j..][1..] == connections[j + 1..];
      var k, v := connections[j].key, connections[j].value;
      if IsPythonPrimitive(v) {
        connectionMap := Assign(connectionMap, k, v);
      } else {
        var toolin := FindInput(toolinputs, k);
        if toolin.None? {
          return Err(KeyNotFound(k)), memo';
        }
        var identifier := stepid + "_" + k;
        memo' := Assign(memo', identifier, v);
        var inp := w.Input(identifier, toolin.value.intype, VNone, VNone, toolin.value.doc);
        if inp.Err? {
          return Err(inp.error), memo';
        }
        connectionMap := Assign(connectionMap, k, VNode(NInput(inp.value)));
      }
      j := j + 1;
    }
    r := Ok(connectionMap);
  }

  /** One branch as the step `switch_case_{i+1}`, run on `cond`. */
  method BranchStep(w: Workflow, memo: seq<Kwarg>, i: nat, tool: Tool, cond: Value) returns (e: Option<Error>, memo': seq<Kwarg>)
    modifies w
    ensures e == WrapStep(w.env, Wrapping(old(w.State()), memo), i, tool, cond).0
    ensures Wrapping(w.State(), memo') == WrapStep(w.env, Wrapping(old(w.State()), memo), i, tool, cond).1
  {
    var connectionMap;
    connectionMap, memo' := BranchConnections(w, memo, InputsMap(tool), CaseId(i), tool.connections);
    if connectionMap.Err? {
      return Some(connectionMap.error), memo';
    }
    var added := w.Step(CaseId(i), tool.(connections := connectionMap.value), NoScatter, cond, false);
    e := if added.Err? then Some(added.error) else None;
  }

  /** One iteration of the loop of `wrap_steps_in_workflow`: a guard is
      rebuilt and joins `prevconds`; the branch runs when its guard holds
      and no earlier one does. */
  method Branch(w: Workflow, memo: seq<Kwarg>, prevconds: seq<Value>, c: Case, i: nat)
    returns (p: Result<seq<Value>>, memo': seq<Kwarg>)
    modifies w
    ensures p == WrapCase(w.env, Wrapping(old(w.State()), memo), prevconds, c, i).0
    ensures Wrapping(w.State(), memo') == WrapCase(w.env, Wrapping(old(w.State()), memo), prevconds, c, i).1
  {
    var e;
    match c
    case Guarded(g, tool) =>
      var newcond;
      newcond, memo' := RebuildCondition(w, memo, g);
      if newcond.Err? {
        return Err(newcond.error), memo';
      }
      e, memo' := BranchStep(w, memo', i, tool, CaseGuard(prevconds, newcond.value));
      p := if e.Some? then Err(e.value) else Ok(prevconds + [newcond.value]);
    case Default(tool) =>
      e, memo' := BranchStep(w, memo, i, tool, DefaultGuard(prevconds));
      p := if e.Some? then Err(e.value) else Ok(prevconds);
  }

  /** The outputs of the wrapping workflow: each output of the first
      branch, fed by that output of every branch. */
  method BranchOutputs(w: Workflow, steps: seq<StepRecord>, outputs: seq<TOutput>) returns (e: Option<Error>)
    modifies w
    ensures e == WrapOutputs(w.env, old(w.State()), steps, outputs).0
    ensures w.State() == WrapOutputs(w.env, old(w.State()), steps, outputs).1
  {
    ghost var w0 := w.State();
    var k := 0;
    while k < |outputs|
      invariant 0 <= k <= |outputs|
      invariant WrapOutputs(w.env, w0, steps, outputs) == WrapOutputs(w.env, w.State(), steps, outputs[k..])
    {
      assert outputs[k..][1..] == outputs[k + 1..];
      var srcs := StepItems(steps, outputs[k].tag);
      if srcs.Err? {
        return Some(srcs.error);
      }
      var out := w.Output(outputs[k].tag, None, VList(srcs.value), VNone, VNone, Some(FirstNonNull));
      if out.Err? {
        return Some(out.error);
      }
      k := k + 1;
    }
    e := None;
  }

  /** `wrap_steps_in_workflow`: the wrapping workflow as a tool, called
      with the outer sources its inputs stand for. */
  method WrapStepsInWorkflow(env: Env, stepId: string, cases: seq<Case>) returns (r: Result<Tool>)
    ensures r == Wrap(env, stepId, cases)
  {
    var created := Workflow.Create(env, stepId);
    if created.Err? {
      return Err(created.error);
    }
    var w := created.value;
    var workflowConnectionMap: seq<Kwarg> := [];
    var prevconds: seq<Value> := [];
    ghost var acc0 := Wrapping(w.State(), []);
    var i := 0;
    while i < |cases|
      invariant 0 <= i <= |cases|
      invariant w.env == env
      invariant WrapCases(env, acc0, [], cases, 0) == WrapCases(env, Wrapping(w.State(), workflowConnectionMap), prevconds, cases, i)
    {
      var p;
      p, workflowConnectionMap := Branch(w, workflowConnectionMap, prevconds, cases[i], i);
      if p.Err? {
        return Err(p.error);
      }
      prevconds := p.value;
      i := i + 1;
    }
    var steps := w.stepNodes;
    if |steps| == 0 {
      return Err(IndexOutOfRange);
    }
    var e := BranchOutputs(w, steps, OutputsMap(steps[0].tool));
    if e.Some? {
      return Err(e.value);
    }
    r := Ok(Tool(stepId, WorkflowTool(GraphOf(w.State())), workflowConnectionMap, None));
  }
}
