/** The lowering of a finished workflow graph to CWL v1.0 documents: the
    `Workflow` record with its inputs, steps, outputs and requirements, the
    `CommandLineTool` of each command tool, and the resource-override inputs
    that let a run set each tool's cpu and memory. The `cwlgen` classes are
    plain records here. */
module CwlTranslation {
  import opened Wrappers
  import opened Strings
  import opened DataTypes
  import opened Ir
  import opened CwlExpressions
  import opened WorkflowSpec

  const CwlVersion: string := "v1.0"

  datatype Requirement =
    | InlineJavascriptRequirement
    | StepInputExpressionRequirement
    | ScatterFeatureRequirement
    | SubworkflowFeatureRequirement
    | MultipleInputFeatureRequirement
    | ShellCommandRequirement
    | DockerRequirement(dockerPull: string)
    | ResourceRequirement(coresMin: string, ramMin: string)

  /** `cwlgen.InputParameter` of a workflow. */
  datatype InputParameter = InputParameter(
    id: string, default: Value, secondaryFiles: Option<seq<string>>, doc: Option<string>, paramType: CwlType)

  datatype WorkflowOutputParameter = WorkflowOutputParameter(
    id: string, outputSource: string, secondaryFiles: Option<seq<string>>, paramType: CwlType)

  /** A step input's `source`: one `node/tag` label or a list of them. */
  datatype StepSource = OneSource(name: string) | ManySources(labels: seq<string>)

  datatype WorkflowStepInput = WorkflowStepInput(id: string, source: Option<StepSource>, linkMerge: Option<string>)

  datatype WorkflowStep = WorkflowStep(
    id: string, run: string, out: seq<string>, inputs: seq<WorkflowStepInput>,
    scatter: Option<seq<string>>, scatterMethod: Option<string>)

  datatype CwlWorkflow = CwlWorkflow(
    id: string, cwlVersion: string, inputs: seq<InputParameter>, steps: seq<WorkflowStep>,
    outputs: seq<WorkflowOutputParameter>, requirements: seq<Requirement>)

  /** `cwlgen.CommandLineBinding`; `valueFrom` is what `unwrap_expression`
      returned, when it was called. */
  datatype CommandLineBinding = CommandLineBinding(
    position: Option<int>, prefix: Option<string>, separate: Option<bool>,
    itemSeparator: Option<string>, valueFrom: Option<Lowered>, shellQuote: Option<bool>)

  /** The secondary files of a tool port: the type's own list, or the
      `resolveSecondary` script when they are presented under other names. */
  datatype Secondaries = PlainSecondaries(files: Option<seq<string>>) | SecondariesScript

  /** `cwlgen.CommandInputParameter`; `itemsBinding` is the binding placed
      on the array schema when a prefix applies to every element. */
  datatype CommandInputParameter = CommandInputParameter(
    id: string, labelText: Option<string>, secondaryFiles: Secondaries, doc: Option<string>,
    inputBinding: Option<CommandLineBinding>, default: Value, paramType: CwlType,
    itemsBinding: Option<CommandLineBinding>)

  datatype CommandOutputBinding = CommandOutputBinding(glob: Glob, outputEval: Option<string>)

  datatype CommandOutputParameter = CommandOutputParameter(
    id: string, labelText: string, secondaryFiles: Secondaries, doc: Option<string>,
    outputBinding: CommandOutputBinding, paramType: CwlType)

  datatype CommandLineTool = CommandLineTool(
    id: string, baseCommand: seq<string>, labelText: string, cwlVersion: string,
    inputs: seq<CommandInputParameter>, outputs: seq<CommandOutputParameter>,
    arguments: seq<CommandLineBinding>, requirements: seq<Requirement>)

  // ---------------------------------------------------------------- ports

  /** `translate_input`: the node's id, default and secondary files, and
      the CWL type of its data type. */
  function TranslateInput(inp: InputRecord): Result<InputParameter>
  {
    var t :- CwlTypeOf(inp.dtype);
    Ok(InputParameter(inp.id, inp.default, SecondaryFiles(inp.dtype), inp.doc, t))
  }

  function TranslateInputs(ins: seq<InputRecord>): Result<seq<InputParameter>>
  {
    if |ins| == 0 then Ok([])
    else
      var h :- TranslateInput(ins[0]);
      var r :- TranslateInputs(ins[1..]);
      Ok([h] + r)
  }

  /** `full_lbl(node, tag)`: the node's id, then `/tag` when there is one. */
  function FullLabel(id: string, tag: Option<string>): string
  {
    if tag.None? then id else id + "/" + tag.value
  }

  predicate IsStdout(t: DataType) { t.Scalar? && "Stdout" in Lineage(t.cls) }

  /** `translate_output`: a stdout output is declared as a `File`. */
  function TranslateOutput(o: OutputRecord, source: string): Result<WorkflowOutputParameter>
  {
    var ot := if IsStdout(o.dtype) then Scalar(FileClass, false) else o.dtype;
    var t :- CwlTypeOf(ot);
    Ok(WorkflowOutputParameter(o.id, source, SecondaryFiles(o.dtype), t))
  }

  /** `translate_output_node`: the output's source is the label of the
      `StepOperator` it was built from. */
  function TranslateOutputNode(o: OutputRecord): Result<WorkflowOutputParameter>
  {
    if !o.source.VStepOp? then Err(UnsupportedConnection)
    else TranslateOutput(o, FullLabel(o.source.node.Id(), o.source.tag))
  }

  function TranslateOutputNodes(os: seq<OutputRecord>): Result<seq<WorkflowOutputParameter>>
  {
    if |os| == 0 then Ok([])
    else
      var h :- TranslateOutputNode(os[0]);
      var r :- TranslateOutputNodes(os[1..]);
      Ok([h] + r)
  }

  lemma {:induction false} TranslateInputsSpec(ins: seq<InputRecord>)
    ensures TranslateInputs(ins).Ok? <==> forall i :: 0 <= i < |ins| ==> TranslateInput(ins[i]).Ok?
    ensures TranslateInputs(ins).Ok? ==>
      && |TranslateInputs(ins).value| == |ins|
      && forall i :: 0 <= i < |ins| ==> TranslateInputs(ins).value[i] == TranslateInput(ins[i]).value
  {
    if |ins| > 0 {
      TranslateInputsSpec(ins[1..]);
      assert forall i :: 1 <= i < |ins| ==> ins[1..][i - 1] == ins[i];
    }
  }

  lemma {:induction false} TranslateOutputNodesSpec(os: seq<OutputRecord>)
    ensures TranslateOutputNodes(os).Ok? <==> forall i :: 0 <= i < |os| ==> TranslateOutputNode(os[i]).Ok?
    ensures TranslateOutputNodes(os).Ok? ==>
      && |TranslateOutputNodes(os).value| == |os|
      && forall i :: 0 <= i < |os| ==> TranslateOutputNodes(os).value[i] == TranslateOutputNode(os[i]).value
  {
    if |os| > 0 {
      TranslateOutputNodesSpec(os[1..]);
      assert forall i :: 1 <= i < |os| ==> os[1..][i - 1] == os[i];
    }
  }

  /** A workflow output's source label splits back at `/` into the id of
      the step it comes from and the tag it selects, when neither holds a
      `/`; an output not built from a step operator is refused, and a
      stdout output is declared as a required `File`. */
  lemma OutputNodeSpec(o: OutputRecord)
    ensures !o.source.VStepOp? ==> TranslateOutputNode(o) == Err(UnsupportedConnection)
    ensures TranslateOutputNode(o).Ok? && Lacks(o.source.node.Id(), '/') &&
            (o.source.tag.Some? ==> Lacks(o.source.tag.value, '/')) ==>
      Split(TranslateOutputNode(o).value.outputSource, '/') ==
        [o.source.node.Id()] + (if o.source.tag.Some? then [o.source.tag.value] else [])
    ensures IsStdout(o.dtype) && o.source.VStepOp? ==>
      TranslateOutputNode(o).Ok? && TranslateOutputNode(o).value.paramType == CwlName("File")
  {
    if o.source.VStepOp? && Lacks(o.source.node.Id(), '/') && (o.source.tag.Some? ==> Lacks(o.source.tag.value, '/')) {
      LabelSplits(o.source.node.Id(), o.source.tag);
    }
    assert MapToCwl(FileClass.primitive) == Ok("File");
    assert "File" + QuestionMarkIfOptional(Scalar(FileClass, false)) == "File";
  }

  /** `full_lbl` splits back into its node id and tag. */
  lemma LabelSplits(id: string, tag: Option<string>)
    requires Lacks(id, '/') && (tag.Some? ==> Lacks(tag.value, '/'))
    ensures Split(FullLabel(id, tag), '/') == [id] + (if tag.Some? then [tag.value] else [])
  {
    SplitAbsent(id, '/');
    if tag.Some? {
      SplitAbsent(tag.value, '/');
      SplitAround(id, tag.value, '/');
    }
  }

  // ---------------------------------------------------------------- steps

  /** `edge.slashed_source()` of one input tag: nothing without an edge,
      the label of a single edge, the list of labels of several. */
  function SlashedSource(si: StepTagInput): Option<StepSource>
  {
    if |si.edges| == 0 then None
    else if |si.edges| == 1 then Some(OneSource(FullLabel(si.edges[0].start.Id(), si.edges[0].stag)))
    else Some(ManySources(EdgeLabels(si.edges)))
  }

  function EdgeLabels(es: seq<Edge>): (r: seq<string>)
    ensures |r| == |es|
    ensures forall i :: 0 <= i < |es| ==> r[i] == FullLabel(es[i].start.Id(), es[i].stag)
  {
    if |es| == 0 then [] else [FullLabel(es[0].start.Id(), es[0].stag)] + EdgeLabels(es[1..])
  }

  /** The type an edge delivers: the only output of its start node, or the
      output its tag names. */
  function EdgeSourceType(e: Edge): Result<DataType>
  {
    match NodeOutputs(e.start)
    case None => Err(NotASource)
    case Some(outs) =>
      if |outs| == 1 then Ok(outs[0].out.outtype)
      else
        var o := FindEntry(outs, e.stag);
        if o.None? then Err(UnknownTag(e.start.Id(), TagName(e.stag))) else Ok(o.value.outtype)
  }

  /** The start of an edge is a scattered step. */
  predicate FromScatteredStep(e: Edge) { e.start.NStep? && e.start.step.scatter.Some? }

  /** The emitted input for one tool input of a step, or nothing when the
      input is unconnected but optional or defaulted. A single non-list
      source into an array input becomes a one-element list merged with
      `merge_nested`, unless it already delivers an array or comes from a
      scattered step. */
  function StepInput(s: StepRecord, inp: TInput): Result<Option<WorkflowStepInput>>
  {
    var si := FindTag(s.sources, inp.tag);
    if si.None? then
      if inp.intype.optional || Truthy(inp.default) then Ok(None)
      else Err(MissingConnection(s.id, inp.tag))
    else
      var ss := SlashedSource(si.value);
      if ss.Some? && ss.value.OneSource? && inp.intype.Array? then
        var e := si.value.edges[0];
        var stype :- EdgeSourceType(e);
        if !stype.Array? && !FromScatteredStep(e) then
          Ok(Some(WorkflowStepInput(inp.tag, Some(ManySources([ss.value.name])), Some("merge_nested"))))
        else Ok(Some(WorkflowStepInput(inp.tag, ss, None)))
      else Ok(Some(WorkflowStepInput(inp.tag, ss, None)))
  }

  /** The emitted inputs for the tool inputs `ins` taken in order; the
      first failing one decides the error. */
  function StepInputsFor(s: StepRecord, ins: seq<TInput>): Result<seq<WorkflowStepInput>>
  {
    if |ins| == 0 then Ok([])
    else
      var init :- StepInputsFor(s, ins[..|ins| - 1]);
      var h :- StepInput(s, ins[|ins| - 1]);
      Ok(init + (if h.Some? then [h.value] else []))
  }

  /** One entry of an insertion-ordered dictionary with string keys. */
  datatype Entry<V> = Entry(key: string, val: V)

  /** A Python `dict` with string keys: its entries in insertion order. */
  type Dict<V> = seq<Entry<V>>

  function Keys<V>(d: Dict<V>): set<string> { set i | 0 <= i < |d| :: d[i].key }

  /** `d[key]`, or `None` when the key is absent. */
  function Get<V>(d: Dict<V>, key: string): Option<V>
  {
    if |d| == 0 then None else if d[0].key == key then Some(d[0].val) else Get(d[1..], key)
  }

  /** `d[key] = v`: an existing key keeps its place and takes the new
      value; a new key goes last. */
  function Put<V>(d: Dict<V>, key: string, v: V): (r: Dict<V>)
    ensures forall e :: e in r ==> e in d || e == Entry(key, v)
  {
    if |d| == 0 then [Entry(key, v)]
    else if d[0].key == key then [Entry(key, v)] + d[1..]
    else [d[0]] + Put(d[1..], key, v)
  }

  /** `d.update(other)`: the entries of `other` put one after another. */
  function PutAll<V>(d: Dict<V>, other: Dict<V>): Dict<V>
    decreases |other|
  {
    if |other| == 0 then d else PutAll(Put(d, other[0].key, other[0].val), other[1..])
  }

  /** Setting a key makes it map to the new value, leaves every other key
      as it was, and adds a new entry exactly when the key was absent. */
  lemma {:induction false} PutSpec<V>(d: Dict<V>, key: string, v: V)
    ensures Get(Put(d, key, v), key) == Some(v)
    ensures forall k :: k != key ==> Get(Put(d, key, v), k) == Get(d, k)
    ensures Keys(Put(d, key, v)) == Keys(d) + {key}
    ensures |Put(d, key, v)| == if key in Keys(d) then |d| else |d| + 1
  {
    if |d| > 0 {
      PutSpec(d[1..], key, v);
      KeysCons(d);
      KeysCons(Put(d, key, v));
      if d[0].key == key {
        assert Put(d, key, v)[1..] == d[1..];
        assert Keys(d) == Keys(d[1..]) + {key};
      } else {
        assert Put(d, key, v)[1..] == Put(d[1..], key, v);
      }
    }
  }

  lemma KeysCons<V>(d: Dict<V>)
    requires |d| > 0
    ensures Keys(d) == {d[0].key} + Keys(d[1..])
  {
    forall k | k in Keys(d) ensures k in {d[0].key} + Keys(d[1..]) {
      var i :| 0 <= i < |d| && d[i].key == k;
      if i > 0 { assert d[1..][i - 1] == d[i]; }
    }
    forall k | k in Keys(d[1..]) ensures k in Keys(d) {
      var i :| 0 <= i < |d[1..]| && d[1..][i].key == k;
      assert d[i + 1] == d[1..][i];
    }
  }

  /** The step inputs that feed the bound overrides, in binding order. */
  function OverrideInputs(bs: Dict<string>): (r: seq<WorkflowStepInput>)
    ensures |r| == |bs|
    ensures forall i :: 0 <= i < |bs| ==> r[i] == WorkflowStepInput(bs[i].key, Some(OneSource(bs[i].val)), None)
  {
    if |bs| == 0 then [] else [WorkflowStepInput(bs[0].key, Some(OneSource(bs[0].val)), None)] + OverrideInputs(bs[1..])
  }

  function OutTags(outs: seq<TOutput>): (r: seq<string>)
    ensures |r| == |outs|
    ensures forall i :: 0 <= i < |outs| ==> r[i] == outs[i].tag
  {
    if |outs| == 0 then [] else [outs[0].tag] + OutTags(outs[1..])
  }

  /** The `run` reference of a step: the tool's file, under `tools/` unless
      the workflow is itself nested. */
  function RunRef(toolId: string, isNested: bool): string
  {
    (if isNested then "" else "tools/") + toolId + ".cwl"
  }

  function ScatterFields(s: StepRecord): Option<seq<string>>
  {
    if s.scatter.Some? then Some(s.scatter.value.fields) else None
  }

  function ScatterMethodOf(s: StepRecord): Option<string>
  {
    if s.scatter.Some? && |s.scatter.value.fields| > 1 then Some(s.scatter.value.scatterMethod.Cwl()) else None
  }

  /** `translate_step` with a run reference: its connected inputs in the
      order of the step's inputs, then its resource overrides. */
  function TranslateStep(s: StepRecord, isNested: bool, overrides: Dict<string>): Result<WorkflowStep>
  {
    var ins :- StepInputsFor(s, StepInputs(s));
    Ok(WorkflowStep(s.id, RunRef(s.tool.id, isNested), OutTags(OutputsMap(s.tool)),
                    ins + OverrideInputs(overrides), ScatterFields(s), ScatterMethodOf(s)))
  }

  /** The loop of `translate_step` over the step's inputs. */
  method TranslateStepInputs(s: StepRecord) returns (r: Result<seq<WorkflowStepInput>>)
    ensures r == StepInputsFor(s, StepInputs(s))
  {
    var ins := StepInputs(s);
    var acc: seq<WorkflowStepInput> := [];
    var i := 0;
    while i < |ins|
      invariant 0 <= i <= |ins|
      invariant StepInputsFor(s, ins[..i]) == Ok(acc)
    {
      StepInputsForSnoc(s, ins, i);
      var d := StepInput(s, ins[i]);
      if d.Err? {
        StepInputsForPrefixError(s, ins, i + 1);
        return Err(d.error);
      }
      acc := acc + (if d.value.Some? then [d.value.value] else []);
      i := i + 1;
    }
    assert ins[..i] == ins;
    r := Ok(acc);
  }

  lemma StepInputsForSnoc(s: StepRecord, ins: seq<TInput>, i: nat)
    requires i < |ins|
    ensures StepInputsFor(s, ins[..i + 1]) ==
      if StepInputsFor(s, ins[..i]).Err? then StepInputsFor(s, ins[..i])
      else if StepInput(s, ins[i]).Err? then Err(StepInput(s, ins[i]).error)
      else Ok(StepInputsFor(s, ins[..i]).value + (if StepInput(s, ins[i]).value.Some? then [StepInput(s, ins[i]).value.value] else []))
  {
    assert ins[..i + 1][..i] == ins[..i];
    assert ins[..i + 1][i] == ins[i];
  }

  /** Once a prefix of the inputs fails, the whole list fails the same way. */
  lemma {:induction false} StepInputsForPrefixError(s: StepRecord, ins: seq<TInput>, k: nat)
    requires k <= |ins| && StepInputsFor(s, ins[..k]).Err?
    ensures StepInputsFor(s, ins) == StepInputsFor(s, ins[..k])
    decreases |ins| - k
  {
    if k < |ins| {
      assert ins[..k + 1][..k] == ins[..k];
      StepInputsForPrefixError(s, ins, k + 1);
    } else {
      assert ins[..k] == ins;
    }
  }

  /** `translate_step`: the inputs loop, the override inputs appended one
      by one, then the scatter fields. */
  method TranslateStepRecord(s: StepRecord, isNested: bool, overrides: Dict<string>) returns (r: Result<WorkflowStep>)
    ensures r == TranslateStep(s, isNested, overrides)
  {
    var ins := TranslateStepInputs(s);
    if ins.Err? {
      return Err(ins.error);
    }
    var inputs := ins.value;
    var j := 0;
    while j < |overrides|
      invariant 0 <= j <= |overrides|
      invariant inputs == ins.value + OverrideInputs(overrides[..j])
    {
      OverrideInputsSnoc(overrides, j);
      inputs := inputs + [WorkflowStepInput(overrides[j].key, Some(OneSource(overrides[j].val)), None)];
      j := j + 1;
    }
    assert overrides[..j] == overrides;
    var scatter: Option<seq<string>> := None;
    var scatterMethod: Option<string> := None;
    if s.scatter.Some? {
      if |s.scatter.value.fields| > 1 {
        scatterMethod := Some(s.scatter.value.scatterMethod.Cwl());
      }
      scatter := Some(s.scatter.value.fields);
    }
    assert scatter == ScatterFields(s) && scatterMethod == ScatterMethodOf(s);
    r := Ok(WorkflowStep(s.id, RunRef(s.tool.id, isNested), OutTags(OutputsMap(s.tool)), inputs, scatter, scatterMethod));
  }

  lemma OverrideInputsSnoc(bs: Dict<string>, j: nat)
    requires j < |bs|
    ensures OverrideInputs(bs[..j + 1]) == OverrideInputs(bs[..j]) + [WorkflowStepInput(bs[j].key, Some(OneSource(bs[j].val)), None)]
  {
    var a := OverrideInputs(bs[..j + 1]);
    var b := OverrideInputs(bs[..j]) + [WorkflowStepInput(bs[j].key, Some(OneSource(bs[j].val)), None)];
    assert |a| == |b|;
    forall i | 0 <= i < |a| ensures a[i] == b[i] {
      assert bs[..j + 1][i] == bs[i];
      if i < j { assert bs[..j][i] == bs[i]; }
    }
  }

  /** `FindTag` finds the sources of a tag exactly when the tag has some. */
  lemma {:induction false} FindTagSpec(ss: seq<StepTagInput>, tag: string)
    ensures FindTag(ss, tag).Some? <==> tag in SourceTags(ss)
    ensures FindTag(ss, tag).Some? ==> FindTag(ss, tag).value.tag == tag
  {
    if |ss| > 0 {
      FindTagSpec(ss[1..], tag);
      SourceTagsCons(ss);
    }
  }

  /** An input is skipped exactly when it is unconnected and optional or
      truthily defaulted, and refused exactly when it is unconnected and
      neither; a connected input is emitted under its own tag. */
  lemma StepInputSpec(s: StepRecord, inp: TInput)
    ensures inp.tag !in SourceTags(s.sources) ==>
      (inp.intype.optional || Truthy(inp.default) <==> StepInput(s, inp) == Ok(None))
    ensures inp.tag !in SourceTags(s.sources) ==>
      (!(inp.intype.optional || Truthy(inp.default)) <==> StepInput(s, inp) == Err(MissingConnection(s.id, inp.tag)))
    ensures inp.tag in SourceTags(s.sources) && StepInput(s, inp).Ok? ==>
      StepInput(s, inp).value.Some? && StepInput(s, inp).value.value.id == inp.tag
    ensures StepInput(s, inp).Err? && StepInput(s, inp).error.MissingConnection? ==> inp.tag !in SourceTags(s.sources)
  {
    FindTagSpec(s.sources, inp.tag);
  }

  /** The `merge_nested` rule in both directions: a connected input is
      merged exactly when it is an array input fed by one edge whose source
      is neither an array nor a scattered step, and the merged input is the
      one-element list of that edge's label. */
  lemma LinkMergeSpec(s: StepRecord, inp: TInput)
    requires StepInput(s, inp).Ok? && StepInput(s, inp).value.Some?
    ensures var d := StepInput(s, inp).value.value;
      var si := FindTag(s.sources, inp.tag).value;
      && FindTag(s.sources, inp.tag).Some?
      && (d.linkMerge.Some? <==>
            && inp.intype.Array? && |si.edges| == 1
            && !EdgeSourceType(si.edges[0]).value.Array?
            && !FromScatteredStep(si.edges[0]))
      && (d.linkMerge.Some? ==>
            d.linkMerge == Some("merge_nested")
            && d.source == Some(ManySources([FullLabel(si.edges[0].start.Id(), si.edges[0].stag)])))
      && (d.linkMerge.None? ==> d.source == SlashedSource(si))
  {
  }

  /** The step inputs loop keeps the input order, emitting exactly the
      connected inputs and failing when an unconnected input is required. */
  lemma StepInputsForSpec(s: StepRecord, ins: seq<TInput>)
    ensures (exists i :: 0 <= i < |ins| && ins[i].tag !in SourceTags(s.sources)
               && !(ins[i].intype.optional || Truthy(ins[i].default))) ==> StepInputsFor(s, ins).Err?
    ensures StepInputsFor(s, ins).Ok? ==>
      && |StepInputsFor(s, ins).value| == |set i | 0 <= i < |ins| && ins[i].tag in SourceTags(s.sources)|
      && forall j :: 0 <= j < |StepInputsFor(s, ins).value| ==>
           StepInputsFor(s, ins).value[j].id in ConnectedTags(ins, SourceTags(s.sources))
  {
    StepInputsForRefusal(s, ins);
    StepInputsForCount(s, ins);
    StepInputsForIds(s, ins);
  }

  /** A required input left unconnected fails the loop. */
  lemma {:induction false} StepInputsForRefusal(s: StepRecord, ins: seq<TInput>)
    ensures (exists i :: 0 <= i < |ins| && ins[i].tag !in SourceTags(s.sources)
               && !(ins[i].intype.optional || Truthy(ins[i].default))) ==> StepInputsFor(s, ins).Err?
  {
    if |ins| > 0 {
      var init := ins[..|ins| - 1];
      var last := ins[|ins| - 1];
      StepInputsForRefusal(s, init);
      StepInputSpec(s, last);
      if exists i :: 0 <= i < |ins| && ins[i].tag !in SourceTags(s.sources) && !(ins[i].intype.optional || Truthy(ins[i].default)) {
        var i :| 0 <= i < |ins| && ins[i].tag !in SourceTags(s.sources) && !(ins[i].intype.optional || Truthy(ins[i].default));
        if i < |init| {
          assert init[i] == ins[i];
        }
      }
    }
  }

  /** The last input adds one entry exactly when it is connected. */
  lemma StepInputsForLast(s: StepRecord, ins: seq<TInput>)
    requires |ins| > 0 && StepInputsFor(s, ins).Ok?
    ensures StepInputsFor(s, ins[..|ins| - 1]).Ok?
    ensures var prev := StepInputsFor(s, ins[..|ins| - 1]).value;
      var r := StepInputsFor(s, ins).value;
      if ins[|ins| - 1].tag in SourceTags(s.sources) then
        |r| == |prev| + 1 && r[..|prev|] == prev && r[|prev|].id == ins[|ins| - 1].tag
      else r == prev
  {
    StepInputSpec(s, ins[|ins| - 1]);
  }

  /** A successful loop emits one input per connected input. */
  lemma {:induction false} StepInputsForCount(s: StepRecord, ins: seq<TInput>)
    ensures StepInputsFor(s, ins).Ok? ==>
      |StepInputsFor(s, ins).value| == |set i | 0 <= i < |ins| && ins[i].tag in SourceTags(s.sources)|
  {
    if |ins| > 0 && StepInputsFor(s, ins).Ok? {
      var init := ins[..|ins| - 1];
      StepInputsForCount(s, init);
      StepInputsForLast(s, ins);
      ConnectedSnoc(init, ins[|ins| - 1], SourceTags(s.sources));
      assert init + [ins[|ins| - 1]] == ins;
    }
  }

  /** The last input joins the connected indices exactly when its tag is connected. */
  lemma ConnectedSnoc(init: seq<TInput>, last: TInput, tags: set<string>)
    ensures var ins := init + [last];
      |set i | 0 <= i < |ins| && ins[i].tag in tags| ==
      |set i | 0 <= i < |init| && init[i].tag in tags| + (if last.tag in tags then 1 else 0)
  {
    var ins := init + [last];
    var full := set i | 0 <= i < |ins| && ins[i].tag in tags;
    var part := set i | 0 <= i < |init| && init[i].tag in tags;
    assert forall i :: 0 <= i < |init| ==> init[i] == ins[i];
    if last.tag in tags {
      assert full == part + {|init|};
    } else {
      assert full == part;
    }
  }

  /** The tags of the inputs that are connected. */
  function ConnectedTags(ins: seq<TInput>, tags: set<string>): set<string>
  {
    set i | 0 <= i < |ins| && ins[i].tag in tags :: ins[i].tag
  }

  lemma ConnectedTagsSnoc(ins: seq<TInput>, tags: set<string>)
    requires |ins| > 0
    ensures ConnectedTags(ins[..|ins| - 1], tags) <= ConnectedTags(ins, tags)
    ensures ins[|ins| - 1].tag in tags ==> ins[|ins| - 1].tag in ConnectedTags(ins, tags)
  {
    var init := ins[..|ins| - 1];
    forall t | t in ConnectedTags(init, tags) ensures t in ConnectedTags(ins, tags) {
      var i :| 0 <= i < |init| && init[i].tag in tags && init[i].tag == t;
      assert ins[i] == init[i];
    }
  }

  /** Every emitted input carries the tag of a connected input. */
  lemma {:induction false} StepInputsForIds(s: StepRecord, ins: seq<TInput>)
    ensures StepInputsFor(s, ins).Ok? ==>
      forall j :: 0 <= j < |StepInputsFor(s, ins).value| ==>
        StepInputsFor(s, ins).value[j].id in ConnectedTags(ins, SourceTags(s.sources))
  {
    if |ins| > 0 && StepInputsFor(s, ins).Ok? {
      var init := ins[..|ins| - 1];
      var tags := SourceTags(s.sources);
      StepInputsForIds(s, init);
      StepInputsForLast(s, ins);
      ConnectedTagsSnoc(ins, tags);
      var prev := StepInputsFor(s, init).value;
      var r := StepInputsFor(s, ins).value;
      forall j | 0 <= j < |r| ensures r[j].id in ConnectedTags(ins, tags) {
        if j < |prev| {
          assert r[j] == r[..|prev|][j];
        }
      }
    }
  }

  /** A lowered step keeps the step's id, lists the tool's output tags in
      order, scatters exactly when the step does and names a scatter method
      exactly when it scatters over more than one field. */
  lemma TranslateStepSpec(s: StepRecord, isNested: bool, overrides: Dict<string>)
    ensures TranslateStep(s, isNested, overrides).Ok? <==> StepInputsFor(s, StepInputs(s)).Ok?
    ensures TranslateStep(s, isNested, overrides).Ok? ==>
      var w := TranslateStep(s, isNested, overrides).value;
      && w.id == s.id
      && w.run == (if isNested then s.tool.id + ".cwl" else "tools/" + s.tool.id + ".cwl")
      && |w.out| == |OutputsMap(s.tool)| && (forall i :: 0 <= i < |w.out| ==> w.out[i] == OutputsMap(s.tool)[i].tag)
      && (w.scatter.Some? <==> s.scatter.Some?)
      && (s.scatter.Some? ==> w.scatter == Some(s.scatter.value.fields))
      && (w.scatterMethod.Some? <==> s.scatter.Some? && |s.scatter.value.fields| > 1)
      && (w.scatterMethod.Some? ==> w.scatterMethod == Some(s.scatter.value.scatterMethod.Cwl()))
  {
  }

  /** A lowered step's inputs are the emitted tool inputs followed by one
      input per override binding, fed from the bound override. */
  lemma TranslateStepInputsSpec(s: StepRecord, isNested: bool, overrides: Dict<string>)
    ensures TranslateStep(s, isNested, overrides).Ok? ==>
      var w := TranslateStep(s, isNested, overrides).value;
      var n := |StepInputsFor(s, StepInputs(s)).value|;
      && |w.inputs| == n + |overrides|
      && w.inputs[..n] == StepInputsFor(s, StepInputs(s)).value
      && (forall i :: 0 <= i < |overrides| ==>
            w.inputs[n + i] == WorkflowStepInput(overrides[i].key, Some(OneSource(overrides[i].val)), None))
  {
    if TranslateStep(s, isNested, overrides).Ok? {
      var ins := StepInputsFor(s, StepInputs(s)).value;
      assert TranslateStep(s, isNested, overrides).value.inputs == ins + OverrideInputs(overrides);
      AppendOverrides(ins, overrides);
    }
  }

  lemma AppendOverrides(ins: seq<WorkflowStepInput>, overrides: Dict<string>)
    ensures var v := ins + OverrideInputs(overrides);
      && |v| == |ins| + |overrides|
      && v[..|ins|] == ins
      && (forall i :: 0 <= i < |overrides| ==>
            v[|ins| + i] == WorkflowStepInput(overrides[i].key, Some(OneSource(overrides[i].val)), None))
  {
    var v := ins + OverrideInputs(overrides);
    forall i | 0 <= i < |overrides|
      ensures v[|ins| + i] == WorkflowStepInput(overrides[i].key, Some(OneSource(overrides[i].val)), None)
    {
      assert v[|ins| + i] == OverrideInputs(overrides)[i];
    }
  }

  // ------------------------------------------------------------ resources

  /** A resource-override input of the workflow: no default, no binding. */
  function OverrideParameter(id: string, t: string): InputParameter
  {
    InputParameter(id, VNone, None, None, CwlName(t))
  }

  /** The overrides one step contributes under `prefix` (empty, or ending
      in `_`): a command tool's memory and cpu, a sub-workflow's own
      overrides under `prefix + id`, nothing for a code tool. */
  function StepOverrides(s: StepRecord, prefix: string): seq<InputParameter>
    decreases s
  {
    match s.tool.kind
    case CommandTool(_, _, _, _) =>
      [OverrideParameter(prefix + s.id + "_runtime_memory", "float?"),
       OverrideParameter(prefix + s.id + "_runtime_cpu", "int?")]
    case WorkflowTool(sub) => ResourceOverrides(sub, prefix + s.id)
    case CodeTool(_, _) => []
  }

  function StepsOverrides(ss: seq<StepRecord>, prefix: string): seq<InputParameter>
    decreases ss
  {
    if |ss| == 0 then []
    else
      assert ss[0] in ss;
      StepOverrides(ss[0], prefix) + StepsOverrides(ss[1..], prefix)
  }

  /** `build_resource_override_maps_for_workflow`: a non-empty prefix gains
      a `_`, then every step contributes its overrides in step order. */
  function ResourceOverrides(g: Graph, prefix: string): seq<InputParameter>
    decreases g
  {
    StepsOverrides(g.steps, if |prefix| == 0 then "" else prefix + "_")
  }

  /** The loop (and the recursion) of
      `build_resource_override_maps_for_workflow`. */
  method BuildResourceOverrides(g: Graph, prefix: string) returns (inputs: seq<InputParameter>)
    ensures inputs == ResourceOverrides(g, prefix)
    decreases g
  {
    var p := if |prefix| == 0 then "" else prefix + "_";
    inputs := [];
    var i := 0;
    while i < |g.steps|
      invariant 0 <= i <= |g.steps|
      invariant StepsOverrides(g.steps, p) == inputs + StepsOverrides(g.steps[i..], p)
    {
      assert g.steps[i] in g.steps;
      var more := BuildStepOverrides(g.steps[i], p);
      StepsOverridesNext(g.steps, i, p, inputs, more);
      inputs := inputs + more;
      i := i + 1;
    }
    assert g.steps[i..] == [];
  }

  /** The overrides one step of the loop contributes. */
  method BuildStepOverrides(s: StepRecord, p: string) returns (more: seq<InputParameter>)
    ensures more == StepOverrides(s, p)
    decreases s
  {
    match s.tool.kind {
      case CommandTool(_, _, _, _) =>
        more := [OverrideParameter(p + s.id + "_runtime_memory", "float?"),
                 OverrideParameter(p + s.id + "_runtime_cpu", "int?")];
      case WorkflowTool(sub) =>
        more := BuildResourceOverrides(sub, p + s.id);
      case CodeTool(_, _) =>
        more := [];
    }
  }

  /** One more step of the loop of `BuildResourceOverrides`. */
  lemma StepsOverridesNext(ss: seq<StepRecord>, i: nat, prefix: string, inputs: seq<InputParameter>, more: seq<InputParameter>)
    requires i < |ss| && StepsOverrides(ss, prefix) == inputs + StepsOverrides(ss[i..], prefix)
    requires more == StepOverrides(ss[i], prefix)
    ensures StepsOverrides(ss, prefix) == inputs + more + StepsOverrides(ss[i + 1..], prefix)
  {
    StepsOverridesAt(ss, i, prefix);
    var rest := StepsOverrides(ss[i + 1..], prefix);
    assert inputs + more + rest == inputs + (more + rest);
  }

  lemma StepsOverridesAt(ss: seq<StepRecord>, i: nat, prefix: string)
    requires i < |ss|
    ensures StepsOverrides(ss[i..], prefix) == StepOverrides(ss[i], prefix) + StepsOverrides(ss[i + 1..], prefix)
  {
    assert ss[i..][0] == ss[i] && ss[i..][1..] == ss[i + 1..];
  }

  function Ids(ps: seq<InputParameter>): (r: seq<string>)
    ensures |r| == |ps|
    ensures forall i :: 0 <= i < |ps| ==> r[i] == ps[i].id
  {
    if |ps| == 0 then [] else [ps[0].id] + Ids(ps[1..])
  }

  /** Every override is an optional float (memory) or an optional int
      (cpu) without a default, and its id starts with the normalised prefix
      and ends in `_runtime_memory` or `_runtime_cpu` accordingly. */
  predicate IsOverride(q: InputParameter, prefix: string)
  {
    && q.default == VNone
    && StartsWith(q.id, prefix)
    && ((q.paramType == CwlName("float?") && EndsWith(q.id, "_runtime_memory"))
        || (q.paramType == CwlName("int?") && EndsWith(q.id, "_runtime_cpu")))
  }

  lemma {:induction false} StepOverridesShape(s: StepRecord, prefix: string)
    ensures forall q :: q in StepOverrides(s, prefix) ==> IsOverride(q, prefix)
    decreases s, 1
  {
    match s.tool.kind
    case CommandTool(_, _, _, _) =>
      var m := prefix + s.id + "_runtime_memory";
      var c := prefix + s.id + "_runtime_cpu";
      assert m[..|prefix|] == prefix && c[..|prefix|] == prefix;
      assert m[|m| - |"_runtime_memory"|..] == "_runtime_memory";
      assert c[|c| - |"_runtime_cpu"|..] == "_runtime_cpu";
    case WorkflowTool(sub) =>
      ResourceOverridesShape(sub, prefix + s.id);
      forall q | q in StepOverrides(s, prefix) ensures StartsWith(q.id, prefix) {
        var p' := if |prefix + s.id| == 0 then "" else prefix + s.id + "_";
        assert StartsWith(q.id, p');
        assert q.id[..|prefix|] == q.id[..|p'|][..|prefix|];
      }
    case CodeTool(_, _) =>
  }

  lemma {:induction false} StepsOverridesShape(ss: seq<StepRecord>, prefix: string)
    ensures forall q :: q in StepsOverrides(ss, prefix) ==> IsOverride(q, prefix)
    decreases ss, 2
  {
    if |ss| > 0 {
      assert ss[0] in ss;
      StepOverridesShape(ss[0], prefix);
      StepsOverridesShape(ss[1..], prefix);
    }
  }

  /** The overrides of a workflow all have the override shape under the
      prefix followed by `_` (or under no prefix at all). */
  lemma {:induction false} ResourceOverridesShape(g: Graph, prefix: string)
    ensures forall q :: q in ResourceOverrides(g, prefix) ==>
      IsOverride(q, if |prefix| == 0 then "" else prefix + "_")
    decreases g, 3
  {
    StepsOverridesShape(g.steps, if |prefix| == 0 then "" else prefix + "_");
  }

  /** A command-tool step contributes exactly its memory and cpu override,
      a code-tool step nothing, and a sub-workflow step the overrides of its
      graph under the prefix extended by the step's id. */
  lemma StepOverridesSpec(s: StepRecord, prefix: string)
    ensures s.tool.kind.CommandTool? ==>
      Ids(StepOverrides(s, prefix)) == [prefix + s.id + "_runtime_memory", prefix + s.id + "_runtime_cpu"]
    ensures s.tool.kind.CodeTool? ==> StepOverrides(s, prefix) == []
    ensures s.tool.kind.WorkflowTool? && |prefix + s.id| > 0 ==>
      StepOverrides(s, prefix) == StepsOverrides(s.tool.kind.graph.steps, prefix + s.id + "_")
  {
  }

  /** The per-step contributions are concatenated in step order. */
  lemma {:induction false} StepsOverridesAppend(a: seq<StepRecord>, b: seq<StepRecord>, prefix: string)
    ensures StepsOverrides(a + b, prefix) == StepsOverrides(a, prefix) + StepsOverrides(b, prefix)
  {
    if |a| > 0 {
      assert (a + b)[0] == a[0] && (a + b)[1..] == a[1..] + b;
      StepsOverridesAppend(a[1..], b, prefix);
    } else {
      assert a + b == b;
    }
  }

  // ------------------------------------------------------ override binding

  /** `r.id[len(step_id) + 1:]`. */
  function OverrideKey(stepId: string, id: string): string
  {
    if |stepId| + 1 <= |id| then id[|stepId| + 1..] else ""
  }

  /** The overrides a step binds as written: every override whose id
      starts with the step's id, keyed by the id without its first
      `len(step_id) + 1` characters; a later override with the same key
      replaces an earlier one. */
  function BindOverridesAsWritten(stepId: string, rs: seq<InputParameter>): Dict<string>
  {
    if |rs| == 0 then []
    else
      var init := BindOverridesAsWritten(stepId, rs[..|rs| - 1]);
      var r := rs[|rs| - 1].id;
      if StartsWith(r, stepId) then Put(init, OverrideKey(stepId, r), r) else init
  }

  /** The overrides a step binds: those whose id starts with the step's id
      followed by `_`, keyed by the rest of the id. */
  function BindOverrides(stepId: string, rs: seq<InputParameter>): Dict<string>
  {
    if |rs| == 0 then []
    else
      var init := BindOverrides(stepId, rs[..|rs| - 1]);
      var r := rs[|rs| - 1].id;
      if StartsWith(r, stepId + "_") then Put(init, OverrideKey(stepId, r), r) else init
  }

  /** The inner loop of `translate_workflow` over the override inputs. */
  method BindStepOverrides(stepId: string, rs: seq<InputParameter>) returns (bound: Dict<string>)
    ensures bound == BindOverrides(stepId, rs)
  {
    bound := [];
    var j := 0;
    while j < |rs|
      invariant 0 <= j <= |rs|
      invariant bound == BindOverrides(stepId, rs[..j])
    {
      assert rs[..j + 1][..j] == rs[..j];
      assert rs[..j + 1][j] == rs[j];
      if StartsWith(rs[j].id, stepId + "_") {
        bound := Put(bound, OverrideKey(stepId, rs[j].id), rs[j].id);
      }
      j := j + 1;
    }
    assert rs[..j] == rs;
  }

  /** `{step}_{k}` is the id `r` exactly when `r` starts with `{step}_`
      and `k` is the key the binding derives from `r`. */
  lemma OverrideKeySpec(stepId: string, r: string, k: string)
    ensures stepId + "_" + k == r <==>
      StartsWith(r, stepId + "_") && k == OverrideKey(stepId, r)
  {
    var p := stepId + "_";
    if p + k == r {
      assert r[..|p|] == p;
      assert r[|p|..] == k;
    }
    if StartsWith(r, p) && k == OverrideKey(stepId, r) {
      assert r == r[..|p|] + r[|p|..];
    }
  }

  lemma IdsSnoc(rs: seq<InputParameter>)
    requires |rs| > 0
    ensures Ids(rs) == Ids(rs[..|rs| - 1]) + [rs[|rs| - 1].id]
  {
    var a := Ids(rs);
    var b := Ids(rs[..|rs| - 1]) + [rs[|rs| - 1].id];
    assert |a| == |b|;
    forall i | 0 <= i < |a| ensures a[i] == b[i] {
      if i < |rs| - 1 { assert rs[..|rs| - 1][i] == rs[i]; }
    }
  }

  /** A step binds key `k` exactly when `{step}_{k}` is one of the
      overrides, and then to that override. */
  lemma {:induction false} BindOverridesSpec(stepId: string, rs: seq<InputParameter>, k: string)
    ensures Get(BindOverrides(stepId, rs), k) ==
      if stepId + "_" + k in Ids(rs) then Some(stepId + "_" + k) else None
  {
    if |rs| > 0 {
      var init := rs[..|rs| - 1];
      var r := rs[|rs| - 1].id;
      BindOverridesSpec(stepId, init, k);
      IdsSnoc(rs);
      OverrideKeySpec(stepId, r, k);
      if StartsWith(r, stepId + "_") {
        PutSpec(BindOverrides(stepId, init), OverrideKey(stepId, r), r);
      }
    }
  }

  function CommandStep(id: string): StepRecord
  {
    StepRecord(id, Tool(id + "-tool", CommandTool([], [], [], []), [], None), None, VNone, [], false)
  }

  /** A workflow whose step `a` runs a sub-workflow with a command step `x`
      and whose step `c` runs a command tool. */
  function CollisionGraph(a: string, x: string, c: string): Graph
  {
    var sub := Graph("sub", [], [CommandStep(x)], [], false, false, false);
    var sa := StepRecord(a, Tool("sub", WorkflowTool(sub), [], None), None, VNone, [], false);
    Graph("wf", [], [sa, CommandStep(c)], [], false, false, false)
  }

  lemma CommandStepOverrides(id: string, prefix: string)
    ensures StepsOverrides([CommandStep(id)], prefix) ==
      [OverrideParameter(prefix + id + "_runtime_memory", "float?"),
       OverrideParameter(prefix + id + "_runtime_cpu", "int?")]
  {
    assert StepsOverrides([CommandStep(id)], prefix) ==
      StepOverrides(CommandStep(id), prefix) + StepsOverrides([], prefix);
  }

  /** The example workflow has the memory and cpu overrides of `a_x`, then
      those of `c`. */
  lemma CollisionGraphOverrides(a: string, x: string, c: string)
    requires |a| > 0
    ensures Ids(ResourceOverrides(CollisionGraph(a, x, c), "")) ==
      [a + "_" + x + "_runtime_memory", a + "_" + x + "_runtime_cpu", c + "_runtime_memory", c + "_runtime_cpu"]
  {
    var g := CollisionGraph(a, x, c);
    var sub := Graph("sub", [], [CommandStep(x)], [], false, false, false);
    var sa := g.steps[0];
    assert g.steps[1..] == [CommandStep(c)];
    assert sa.tool.kind == WorkflowTool(sub);
    CommandStepOverrides(x, a + "_");
    CommandStepOverrides(c, "");
    assert "" + a == a;
    assert StepOverrides(sa, "") == StepsOverrides([CommandStep(x)], a + "_");
    assert "" + c + "_runtime_memory" == c + "_runtime_memory";
    assert "" + c + "_runtime_cpu" == c + "_runtime_cpu";
  }

  /** `c` is `a`, one character other than `_`, then `x` (as `abx` is for
      `a` and `x`). */
  predicate Shadows(a: string, x: string, c: string)
  {
    |c| == |a| + 1 + |x| && c[..|a|] == a && c[|a|] != '_' && c[|a| + 1..] == x
  }

  lemma ShadowKey(a: string, x: string, c: string, suffix: string)
    requires Shadows(a, x, c)
    ensures StartsWith(c + suffix, a)
    ensures OverrideKey(a, c + suffix) == x + suffix
    ensures c + suffix != a + "_" + x + suffix
  {
    assert (c + suffix)[..|a|] == c[..|a|];
    assert (c + suffix)[|a| + 1..] == c[|a| + 1..] + suffix;
    assert (c + suffix)[|a|] == c[|a|];
    assert (a + "_" + x + suffix)[|a|] == '_';
  }

  lemma OwnKey(a: string, x: string, suffix: string)
    ensures StartsWith(a + "_" + x + suffix, a)
    ensures OverrideKey(a, a + "_" + x + suffix) == x + suffix
  {
    assert (a + "_" + x + suffix)[..|a|] == a;
    assert (a + "_" + x + suffix)[|a| + 1..] == x + suffix;
  }

  /** As written, a step also binds overrides of other steps whose id
      merely starts with its own. Take a sub-workflow step `a` holding a
      command step `x` beside a command step `c` that shadows it (as `abx`
      shadows `a` and `x`; `CollisionGraph(a, x, c)` has exactly these
      overrides): step `a` binds its sub-workflow's `x_runtime_cpu` to
      `c_runtime_cpu`, the override of step `c`, and not to its own
      `a_x_runtime_cpu`. */
  lemma {:induction false} OverrideBindingCollision(a: string, x: string, c: string, rs: seq<InputParameter>)
    requires Shadows(a, x, c)
    requires Ids(rs) == [a + "_" + x + "_runtime_memory", a + "_" + x + "_runtime_cpu", c + "_runtime_memory", c + "_runtime_cpu"]
    ensures Get(BindOverridesAsWritten(a, rs), x + "_runtime_cpu") == Some(c + "_runtime_cpu")
    ensures c + "_runtime_cpu" != a + "_" + x + "_runtime_cpu"
  {
    ShadowKey(a, x, c, "_runtime_cpu");
    assert rs[3].id == Ids(rs)[3];
    assert rs[..4] == rs;
    PutSpec(BindOverridesAsWritten(a, rs[..3]), x + "_runtime_cpu", c + "_runtime_cpu");
  }

  /** The corrected binding gives step `a` its own sub-workflow's override
      `a_x_runtime_cpu` in the same workflow. */
  lemma OverrideBindingCorrected(a: string, x: string, c: string, rs: seq<InputParameter>)
    requires Shadows(a, x, c)
    requires Ids(rs) == [a + "_" + x + "_runtime_memory", a + "_" + x + "_runtime_cpu", c + "_runtime_memory", c + "_runtime_cpu"]
    ensures Get(BindOverrides(a, rs), x + "_runtime_cpu") == Some(a + "_" + x + "_runtime_cpu")
  {
    BindOverridesSpec(a, rs, x + "_runtime_cpu");
    assert a + "_" + (x + "_runtime_cpu") == a + "_" + x + "_runtime_cpu";
    assert Ids(rs)[1] == a + "_" + x + "_runtime_cpu";
  }

  /** The steps `a`, `x` and `abx` form such a collision, and `a_x` is
      not `abx`. */
  lemma CollisionExample()
    ensures Shadows("a", "x", "abx")
    ensures "abx_runtime_cpu" != "a_x_runtime_cpu"
  {
    assert "abx"[..1] == "a" && "abx"[2..] == "x";
  }

  /** Every binding feeds a key `k` from the override `{step}_{k}`, and
      that override is one of the workflow's overrides. */
  lemma {:induction false} BoundOverridesAreInputs(stepId: string, rs: seq<InputParameter>)
    ensures forall e :: e in BindOverrides(stepId, rs) ==> e.val in Ids(rs) && e.val == stepId + "_" + e.key
  {
    if |rs| > 0 {
      var init := rs[..|rs| - 1];
      var r := rs[|rs| - 1].id;
      BoundOverridesAreInputs(stepId, init);
      IdsSnoc(rs);
      if StartsWith(r, stepId + "_") {
        OverrideKeySpec(stepId, r, OverrideKey(stepId, r));
      }
    }
  }

  // ------------------------------------------------------------- workflow

  /** Inline JavaScript and step-input expressions always, then the
      features the graph uses. */
  function WorkflowRequirements(g: Graph): seq<Requirement>
  {
    [InlineJavascriptRequirement, StepInputExpressionRequirement]
      + (if g.hasScatter then [ScatterFeatureRequirement] else [])
      + (if g.hasSubworkflow then [SubworkflowFeatureRequirement] else [])
      + (if g.hasMultipleInputs then [MultipleInputFeatureRequirement] else [])
  }

  /** A feature requirement is listed exactly when the graph uses the
      feature, and the two expression requirements always are. */
  lemma WorkflowRequirementsSpec(g: Graph)
    ensures InlineJavascriptRequirement in WorkflowRequirements(g)
    ensures StepInputExpressionRequirement in WorkflowRequirements(g)
    ensures ScatterFeatureRequirement in WorkflowRequirements(g) <==> g.hasScatter
    ensures SubworkflowFeatureRequirement in WorkflowRequirements(g) <==> g.hasSubworkflow
    ensures MultipleInputFeatureRequirement in WorkflowRequirements(g) <==> g.hasMultipleInputs
    ensures forall q :: q in WorkflowRequirements(g) ==> !q.DockerRequirement? && !q.ResourceRequirement?
  {
  }

  /** One step lowered with the overrides bound to it. */
  function BoundStep(isNested: bool, rs: seq<InputParameter>): StepRecord -> Result<WorkflowStep>
  {
    (s: StepRecord) => TranslateStep(s, isNested, BindOverrides(s.id, rs))
  }

  /** The lowered steps in step order; the first failing step decides the
      error. */
  function TranslateSteps(ss: seq<StepRecord>, isNested: bool, rs: seq<InputParameter>): Result<seq<WorkflowStep>>
  {
    MapResult(BoundStep(isNested, rs), ss)
  }

  /** `translate_workflow` without its tools: the inputs, then the
      resource overrides when asked for, the steps with their bound
      overrides, the outputs and the requirements. */
  function TranslateWorkflow(g: Graph, withOverrides: bool, isNested: bool): Result<CwlWorkflow>
  {
    var ins :- TranslateInputs(g.inputs);
    var rs := Overrides(g, withOverrides);
    var steps :- TranslateSteps(g.steps, isNested, rs);
    var outs :- TranslateOutputNodes(g.outputs);
    Ok(CwlWorkflow(g.id, CwlVersion, ins + rs, steps, outs, WorkflowRequirements(g)))
  }

  /** The loop of `translate_workflow` over the steps, binding each step's
      overrides before lowering it. */
  method TranslateWorkflowSteps(g: Graph, isNested: bool, rs: seq<InputParameter>) returns (r: Result<seq<WorkflowStep>>)
    ensures r == TranslateSteps(g.steps, isNested, rs)
  {
    var f := BoundStep(isNested, rs);
    var steps: seq<WorkflowStep> := [];
    var i := 0;
    while i < |g.steps|
      invariant 0 <= i <= |g.steps|
      invariant MapResult(f, g.steps[..i]) == Ok(steps)
    {
      MapResultSnoc(f, g.steps, i);
      var s := g.steps[i];
      var bound := BindStepOverrides(s.id, rs);
      var w := TranslateStepRecord(s, isNested, bound);
      assert w == f(g.steps[i]);
      if w.Err? {
        MapResultPrefixError(f, g.steps, i + 1);
        return Err(w.error);
      }
      steps := steps + [w.value];
      i := i + 1;
    }
    assert g.steps[..i] == g.steps;
    r := Ok(steps);
  }

  /** `translate_workflow`'s construction of the workflow record. */
  method TranslateWorkflowRecord(g: Graph, withOverrides: bool, isNested: bool) returns (r: Result<CwlWorkflow>)
    ensures r == TranslateWorkflow(g, withOverrides, isNested)
  {
    var ins := TranslateInputs(g.inputs);
    if ins.Err? {
      return Err(ins.error);
    }
    var inputs := ins.value;
    var rs: seq<InputParameter> := [];
    if withOverrides {
      rs := BuildResourceOverrides(g, "");
      inputs := inputs + rs;
    }
    assert rs == Overrides(g, withOverrides) && inputs == ins.value + rs;
    var steps := TranslateWorkflowSteps(g, isNested, rs);
    if steps.Err? {
      return Err(steps.error);
    }
    var outs := TranslateOutputNodes(g.outputs);
    if outs.Err? {
      return Err(outs.error);
    }
    var reqs := [InlineJavascriptRequirement, StepInputExpressionRequirement];
    if g.hasScatter { reqs := reqs + [ScatterFeatureRequirement]; }
    if g.hasSubworkflow { reqs := reqs + [SubworkflowFeatureRequirement]; }
    if g.hasMultipleInputs { reqs := reqs + [MultipleInputFeatureRequirement]; }
    assert reqs == WorkflowRequirements(g);
    r := Ok(CwlWorkflow(g.id, CwlVersion, inputs, steps.value, outs.value, reqs));
  }

  function Overrides(g: Graph, withOverrides: bool): seq<InputParameter>
  {
    if withOverrides then ResourceOverrides(g, "") else []
  }

  /** A lowered workflow succeeds exactly when its inputs, its steps and
      its outputs do. */
  lemma TranslateWorkflowOk(g: Graph, withOverrides: bool, isNested: bool)
    ensures TranslateWorkflow(g, withOverrides, isNested).Ok? <==>
      && TranslateInputs(g.inputs).Ok?
      && TranslateSteps(g.steps, isNested, Overrides(g, withOverrides)).Ok?
      && TranslateOutputNodes(g.outputs).Ok?
  {
  }

  /** A lowered workflow has one input per graph input followed by the
      overrides (none unless asked for), one output per graph output, and
      the requirements of the graph's features. */
  lemma TranslateWorkflowSpec(g: Graph, withOverrides: bool, isNested: bool)
    requires TranslateWorkflow(g, withOverrides, isNested).Ok?
    ensures var w := TranslateWorkflow(g, withOverrides, isNested).value;
      && w.id == g.id && w.cwlVersion == "v1.0"
      && |w.inputs| == |g.inputs| + |Overrides(g, withOverrides)|
      && (forall i :: 0 <= i < |g.inputs| ==> TranslateInput(g.inputs[i]) == Ok(w.inputs[i]))
      && w.inputs[|g.inputs|..] == Overrides(g, withOverrides)
      && |w.outputs| == |g.outputs|
      && (forall i :: 0 <= i < |g.outputs| ==> TranslateOutputNode(g.outputs[i]) == Ok(w.outputs[i]))
      && w.requirements == WorkflowRequirements(g)
  {
    var rs := Overrides(g, withOverrides);
    var ins := TranslateInputs(g.inputs).value;
    TranslateInputsSpec(g.inputs);
    TranslateOutputNodesSpec(g.outputs);
    assert (ins + rs)[|ins|..] == rs;
  }

  /** A lowered workflow has one step per graph step, lowered with the
      overrides bound to that step. */
  lemma TranslateWorkflowStepsSpec(g: Graph, withOverrides: bool, isNested: bool)
    requires TranslateWorkflow(g, withOverrides, isNested).Ok?
    ensures var w := TranslateWorkflow(g, withOverrides, isNested).value;
      var rs := Overrides(g, withOverrides);
      && |w.steps| == |g.steps|
      && forall i :: 0 <= i < |g.steps| ==>
           TranslateStep(g.steps[i], isNested, BindOverrides(g.steps[i].id, rs)) == Ok(w.steps[i])
  {
    var rs := Overrides(g, withOverrides);
    var f := BoundStep(isNested, rs);
    MapResultSpec(f, g.steps);
    var steps := MapResult(f, g.steps).value;
    assert TranslateWorkflow(g, withOverrides, isNested).value.steps == steps;
    forall i | 0 <= i < |g.steps|
      ensures TranslateStep(g.steps[i], isNested, BindOverrides(g.steps[i].id, rs)) == Ok(steps[i])
    {
      assert f(g.steps[i]) == TranslateStep(g.steps[i], isNested, BindOverrides(g.steps[i].id, rs));
    }
  }

  // ---------------------------------------------------------------- tools

  /** The default and the `valueFrom` of a tool input: a generated filename
      is the default, a selector default moves into `valueFrom` (lowered
      outside code), and any other default is kept. */
  function InputDefault(ti: ToolInput): Result<(Value, Option<Lowered>)>
  {
    if ti.filename.Some? then Ok((VStr(ti.filename.value), None))
    else if IsSelector(ti.default) then
      var v :- UnwrapExpression(ti.default, false);
      Ok((VNone, Some(v)))
    else Ok((ti.default, None))
  }

  /** The secondary files of a tool port, or the `resolveSecondary` script
      when they are presented under other names. */
  function PortSecondaries(presentAs: bool, t: DataType): Secondaries
  {
    if presentAs then SecondariesScript else PlainSecondaries(SecondaryFiles(t))
  }

  /** The prefix is applied to every element of an array input. */
  predicate SpreadsPrefix(ti: ToolInput) { ti.inputType.Array? && ti.prefixAppliesToAll }

  /** `translate_tool_input`: the input binding carries the position,
      prefix, separation, item separator, `valueFrom` and quoting; when the
      prefix applies to every element of an array, the prefix and its
      separation move to a binding on the array's items. */
  function TranslateToolInput(ti: ToolInput): Result<CommandInputParameter>
  {
    var dv :- InputDefault(ti);
    var t :- CwlTypeOf(ti.inputType);
    var spread := SpreadsPrefix(ti) && t.CwlArray?;
    var binding := CommandLineBinding(
      ti.position, if spread then None else ti.prefix, if spread then None else ti.separate,
      ti.separator, dv.1, ti.shellQuote);
    var items := if spread then Some(CommandLineBinding(None, ti.prefix, ti.separate, None, None, ti.shellQuote)) else None;
    Ok(CommandInputParameter(ti.tag, Some(ti.tag), PortSecondaries(ti.secondariesPresentAs, ti.inputType),
                             ti.doc, Some(binding), dv.0, t, items))
  }

  /** The JavaScript statement that renames the collected file. */
  function BasenameAssignment(name: string): string
  {
    "self[0].basename=\"" + name + "\""
  }

  /** `prepare_tool_output_eval`: renames the collected file to the name
      the output is presented as, when there is one. */
  function OutputEval(presentsAs: Option<string>): Option<string>
  {
    if presentsAs.None? || |presentsAs.value| == 0 then None
    else Some("${\n    " + BasenameAssignment(presentsAs.value) + "\n    return self\n$}\n")
  }

  /** `translate_tool_output`. */
  function TranslateToolOutput(o: ToolOutput): Result<CommandOutputParameter>
  {
    var glob :- TranslateToCwlGlob(o.glob);
    var t :- CwlTypeOf(o.outputType);
    Ok(CommandOutputParameter(o.tag, o.tag, PortSecondaries(o.secondariesPresentAs, o.outputType), o.doc,
                              CommandOutputBinding(glob, OutputEval(o.presentsAs)), t))
  }

  /** `translate_tool_argument`: the argument's value lowered outside code
      is the binding's `valueFrom`. */
  function TranslateToolArgument(a: ToolArgument): Result<CommandLineBinding>
  {
    var v :- UnwrapExpression(a.value, false);
    Ok(CommandLineBinding(a.position, a.prefix, a.separate, None, Some(v), a.shellQuote))
  }

  /** A tool input keeps its tag as id and label; a generated filename
      becomes its default; a selector default becomes its `valueFrom`
      and leaves no default; any other default is kept without a
      `valueFrom`. The prefix moves into a binding on the items exactly
      when it applies to every element of an array input. */
  lemma TranslateToolInputSpec(ti: ToolInput)
    ensures TranslateToolInput(ti).Ok? <==> InputDefault(ti).Ok? && CwlTypeOf(ti.inputType).Ok?
    ensures ti.filename.Some? ==> InputDefault(ti) == Ok((VStr(ti.filename.value), None))
    ensures ti.filename.None? && IsSelector(ti.default) ==>
      (InputDefault(ti).Ok? <==> UnwrapExpression(ti.default, false).Ok?)
    ensures ti.filename.None? && IsSelector(ti.default) && InputDefault(ti).Ok? ==>
      InputDefault(ti).value == (VNone, Some(UnwrapExpression(ti.default, false).value))
    ensures ti.filename.None? && !IsSelector(ti.default) ==> InputDefault(ti) == Ok((ti.default, None))
    ensures TranslateToolInput(ti).Ok? ==>
      var p := TranslateToolInput(ti).value;
      && p.id == ti.tag && p.labelText == Some(ti.tag)
      && p.default == InputDefault(ti).value.0
      && p.inputBinding.Some? && p.inputBinding.value.valueFrom == InputDefault(ti).value.1
      && p.inputBinding.value.position == ti.position
      && p.inputBinding.value.itemSeparator == ti.separator
      && (p.itemsBinding.Some? <==> SpreadsPrefix(ti))
      && (p.itemsBinding.Some? ==>
            && p.inputBinding.value.prefix.None? && p.inputBinding.value.separate.None?
            && p.itemsBinding.value.prefix == ti.prefix && p.itemsBinding.value.separate == ti.separate
            && p.itemsBinding.value.shellQuote == ti.shellQuote)
      && (p.itemsBinding.None? ==>
            p.inputBinding.value.prefix == ti.prefix && p.inputBinding.value.separate == ti.separate)
  {
  }

  /** A tool output keeps its tag as id and label, takes its glob from
      `translate_to_cwl_glob`, and renames its file exactly when it is
      presented under a non-empty name. */
  lemma TranslateToolOutputSpec(o: ToolOutput)
    ensures TranslateToolOutput(o).Ok? <==> TranslateToCwlGlob(o.glob).Ok? && CwlTypeOf(o.outputType).Ok?
    ensures TranslateToolOutput(o).Ok? ==>
      var q := TranslateToolOutput(o).value;
      && q.id == o.tag && q.labelText == o.tag
      && q.outputBinding.glob == TranslateToCwlGlob(o.glob).value
      && (q.outputBinding.outputEval.Some? <==> o.presentsAs.Some? && |o.presentsAs.value| > 0)
      && (q.outputBinding.outputEval.Some? ==>
            Contains(q.outputBinding.outputEval.value, BasenameAssignment(o.presentsAs.value)))
      && (q.secondaryFiles.SecondariesScript? <==> o.secondariesPresentAs)
  {
    if TranslateToolOutput(o).Ok? && o.presentsAs.Some? && |o.presentsAs.value| > 0 {
      var mid := BasenameAssignment(o.presentsAs.value);
      assert "${\n    " + mid + "\n    return self\n$}\n" == "${\n    " + (mid + "\n    return self\n$}\n");
      ContainsMiddle("${\n    ", mid, "\n    return self\n$}\n");
    }
  }

  /** An argument's binding carries its position, prefix, separation and
      quoting, and its value lowered outside code. */
  lemma TranslateToolArgumentSpec(a: ToolArgument)
    ensures TranslateToolArgument(a).Ok? <==> UnwrapExpression(a.value, false).Ok?
    ensures TranslateToolArgument(a).Ok? ==>
      var b := TranslateToolArgument(a).value;
      && b.valueFrom == Some(UnwrapExpression(a.value, false).value)
      && b.position == a.position && b.prefix == a.prefix && b.separate == a.separate
      && b.shellQuote == a.shellQuote && b.itemSeparator.None?
  {
  }

  /** The container requirement: the tool's image when containers are
      wanted and it has one; an error when it has none and an empty
      container is not allowed. */
  function DockerRequirements(toolId: string, container: Option<string>, withDocker: bool, allowEmpty: bool): Result<seq<Requirement>>
  {
    if !withDocker then Ok([])
    else if container.Some? then Ok([DockerRequirement(container.value)])
    else if !allowEmpty then Err(MissingContainer(toolId))
    else Ok([])
  }

  const CoresMin: string := "$(inputs.runtime_cpu ? inputs.runtime_cpu : 1)"
  const RamMin: string := "$(inputs.runtime_memory ? Math.floor(1024 * inputs.runtime_memory) : 4096)"

  /** The tool's own resource inputs: memory (a float of GB) and cpu. */
  function RuntimeInputs(): seq<CommandInputParameter>
  {
    [CommandInputParameter("runtime_memory", None, PlainSecondaries(None), None, None, VNone, CwlName("float?"), None),
     CommandInputParameter("runtime_cpu", None, PlainSecondaries(None), None, None, VNone, CwlName("int?"), None)]
  }

  datatype Options = Options(withDocker: bool, withOverrides: bool, allowEmptyContainer: bool)

  /** `translate_tool_internal` of a command tool: shell and JavaScript
      requirements, the container, the inputs, outputs and arguments, and
      with resource overrides the runtime inputs and a resource
      requirement that reads them. */
  function TranslateToolInternal(t: Tool, opts: Options): Result<CommandLineTool>
    requires t.kind.CommandTool?
  {
    var docker :- DockerRequirements(t.id, t.container, opts.withDocker, opts.allowEmptyContainer);
    var ins :- MapResult(TranslateToolInput, t.kind.toolInputs);
    var outs :- MapResult(TranslateToolOutput, t.kind.toolOutputs);
    var args :- MapResult(TranslateToolArgument, t.kind.arguments);
    Ok(CommandLineTool(
      t.id, t.kind.baseCommand, t.id, CwlVersion,
      ins + (if opts.withOverrides then RuntimeInputs() else []),
      outs, args,
      [ShellCommandRequirement, InlineJavascriptRequirement] + docker
        + (if opts.withOverrides then [ResourceRequirement(CoresMin, RamMin)] else [])))
  }

  /** With containers wanted, a tool without a container fails exactly
      when empty containers are not allowed; otherwise the container check
      never fails and the tool's image is listed exactly when it has one. */
  lemma DockerRequirementsSpec(toolId: string, container: Option<string>, withDocker: bool, allowEmpty: bool)
    ensures DockerRequirements(toolId, container, withDocker, allowEmpty).Err? <==>
      withDocker && container.None? && !allowEmpty
    ensures DockerRequirements(toolId, container, withDocker, allowEmpty).Err? ==>
      DockerRequirements(toolId, container, withDocker, allowEmpty).error == MissingContainer(toolId)
    ensures DockerRequirements(toolId, container, withDocker, allowEmpty).Ok? ==>
      forall q :: q in DockerRequirements(toolId, container, withDocker, allowEmpty).value <==>
        withDocker && container.Some? && q == DockerRequirement(container.value)
  {
  }

  /** A missing container is reported before any port is lowered; an
      otherwise successful tool has the tool's id as label, the shell and
      JavaScript requirements first, the tool's image exactly when
      containers are wanted and it has one, and a resource requirement
      exactly when overrides are asked for. */
  lemma TranslateToolInternalSpec(t: Tool, opts: Options)
    requires t.kind.CommandTool?
    ensures opts.withDocker && t.container.None? && !opts.allowEmptyContainer ==>
      TranslateToolInternal(t, opts) == Err(MissingContainer(t.id))
    ensures TranslateToolInternal(t, opts).Ok? ==>
      var c := TranslateToolInternal(t, opts).value;
      && c.id == t.id && c.labelText == t.id && c.baseCommand == t.kind.baseCommand && c.cwlVersion == "v1.0"
      && c.requirements[..2] == [ShellCommandRequirement, InlineJavascriptRequirement]
      && (ResourceRequirement(CoresMin, RamMin) in c.requirements <==> opts.withOverrides)
      && (forall d :: DockerRequirement(d) in c.requirements <==> opts.withDocker && t.container == Some(d))
  {
    DockerRequirementsSpec(t.id, t.container, opts.withDocker, opts.allowEmptyContainer);
  }

  /** A successful tool has one input per tool input (then the runtime
      inputs with overrides), one output per tool output and one argument
      per tool argument, each lowered on its own. */
  lemma TranslateToolPortsSpec(t: Tool, opts: Options)
    requires t.kind.CommandTool?
    ensures TranslateToolInternal(t, opts).Ok? ==>
      var c := TranslateToolInternal(t, opts).value;
      && |c.inputs| == |t.kind.toolInputs| + (if opts.withOverrides then 2 else 0)
      && (forall i :: 0 <= i < |t.kind.toolInputs| ==> TranslateToolInput(t.kind.toolInputs[i]) == Ok(c.inputs[i]))
      && (opts.withOverrides ==> c.inputs[|t.kind.toolInputs|..] == RuntimeInputs())
      && |c.outputs| == |t.kind.toolOutputs|
      && (forall i :: 0 <= i < |t.kind.toolOutputs| ==> TranslateToolOutput(t.kind.toolOutputs[i]) == Ok(c.outputs[i]))
      && |c.arguments| == |t.kind.arguments|
      && (forall i :: 0 <= i < |t.kind.arguments| ==> TranslateToolArgument(t.kind.arguments[i]) == Ok(c.arguments[i]))
  {
    if TranslateToolInternal(t, opts).Ok? {
      MapResultSpec(TranslateToolInput, t.kind.toolInputs);
      MapResultSpec(TranslateToolOutput, t.kind.toolOutputs);
      MapResultSpec(TranslateToolArgument, t.kind.arguments);
      var c := TranslateToolInternal(t, opts).value;
      var ins := MapResult(TranslateToolInput, t.kind.toolInputs).value;
      var extra := if opts.withOverrides then RuntimeInputs() else [];
      assert c.inputs == ins + extra;
      assert (ins + extra)[|ins|..] == extra;
      forall i | 0 <= i < |t.kind.toolInputs| ensures TranslateToolInput(t.kind.toolInputs[i]) == Ok(c.inputs[i]) {
        assert c.inputs[i] == ins[i];
      }
    }
  }

  // ------------------------------------------------------- tool documents

  /** One file of the translation's tool dictionary. Of a code tool only
      its container requirement is part of this model. */
  datatype Document =
    | WorkflowDoc(workflow: CwlWorkflow)
    | ToolDoc(tool: CommandLineTool)
    | CodeToolDoc(toolId: string, requirements: seq<Requirement>)

  /** A translated workflow together with the documents of every tool it
      uses, nested ones included, keyed by tool id. */
  datatype Translation = Translation(workflow: CwlWorkflow, tools: Dict<Document>)

  /** A translated tool and the documents of the tools inside it. */
  datatype ToolTranslation = ToolTranslation(doc: Document, subtools: Dict<Document>)

  /** `{s.tool.id(): s.tool for s in steps}`: the index of the last step
      running each tool id, in order of first appearance. */
  function ToolsToBuild(ss: seq<StepRecord>): (r: Dict<nat>)
    ensures forall e :: e in r ==> e.val < |ss| && ss[e.val].tool.id == e.key
  {
    if |ss| == 0 then []
    else
      var init := ToolsToBuild(ss[..|ss| - 1]);
      assert forall e :: e in init ==> e.val < |ss| - 1 && ss[e.val] == ss[..|ss| - 1][e.val];
      Put(init, ss[|ss| - 1].tool.id, |ss| - 1)
  }

  /** The tool ids of some steps. */
  function ToolIds(ss: seq<StepRecord>): set<string>
  {
    set i | 0 <= i < |ss| :: ss[i].tool.id
  }

  lemma ToolIdsSnoc(ss: seq<StepRecord>)
    requires |ss| > 0
    ensures ToolIds(ss) == ToolIds(ss[..|ss| - 1]) + {ss[|ss| - 1].tool.id}
  {
    var init := ss[..|ss| - 1];
    forall k | k in ToolIds(ss) ensures k in ToolIds(init) + {ss[|ss| - 1].tool.id} {
      var i :| 0 <= i < |ss| && ss[i].tool.id == k;
      if i < |init| { assert init[i] == ss[i]; }
    }
    forall k | k in ToolIds(init) ensures k in ToolIds(ss) {
      var i :| 0 <= i < |init| && init[i].tool.id == k;
      assert ss[i] == init[i];
    }
  }

  /** Every step's tool id is a key of the tools to build, and nothing
      else is. */
  lemma {:induction false} ToolsToBuildKeys(ss: seq<StepRecord>)
    ensures Keys(ToolsToBuild(ss)) == ToolIds(ss)
  {
    if |ss| > 0 {
      var init := ss[..|ss| - 1];
      ToolsToBuildKeys(init);
      PutSpec(ToolsToBuild(init), ss[|ss| - 1].tool.id, |ss| - 1);
      ToolIdsSnoc(ss);
    }
  }

  /** The document of one step's tool: a sub-workflow is translated as a
      nested workflow together with its own tools. */
  function TranslateStepTool(s: StepRecord, opts: Options): Result<ToolTranslation>
    decreases s, 0
  {
    match s.tool.kind
    case WorkflowTool(sub) =>
      var r :- TranslateWorkflowAll(sub, opts, true);
      Ok(ToolTranslation(WorkflowDoc(r.workflow), r.tools))
    case CommandTool(_, _, _, _) =>
      var c :- TranslateToolInternal(s.tool, opts);
      Ok(ToolTranslation(ToolDoc(c), []))
    case CodeTool(_, _) =>
      var d :- DockerRequirements(s.tool.id, s.tool.container, opts.withDocker, opts.allowEmptyContainer);
      Ok(ToolTranslation(CodeToolDoc(s.tool.id, [InlineJavascriptRequirement] + d), []))
  }

  /** The loop over the tools to build: each tool's document goes under
      its id, followed by the documents of the tools inside it. */
  function BuildTools(g: Graph, opts: Options, todo: Dict<nat>, acc: Dict<Document>): Result<Dict<Document>>
    requires forall e :: e in todo ==> e.val < |g.steps|
    decreases g, 1, |todo|
  {
    if |todo| == 0 then Ok(acc)
    else
      assert todo[0] in todo;
      var s := g.steps[todo[0].val];
      assert s in g.steps;
      var t :- TranslateStepTool(s, opts);
      BuildTools(g, opts, todo[1..], PutAll(Put(acc, s.tool.id, t.doc), t.subtools))
  }

  /** `translate_workflow`: the workflow and the documents of its tools. */
  function TranslateWorkflowAll(g: Graph, opts: Options, isNested: bool): Result<Translation>
    decreases g, 2
  {
    var w :- TranslateWorkflow(g, opts.withOverrides, isNested);
    var tools :- BuildTools(g, opts, ToolsToBuild(g.steps), []);
    Ok(Translation(w, tools))
  }

  /** The body of the loop over the tools to build: the `isinstance`
      dispatch on the tool's kind. */
  method TranslateStepToolDocument(s: StepRecord, opts: Options) returns (t: Result<ToolTranslation>)
    ensures t == TranslateStepTool(s, opts)
    decreases s, 0
  {
    match s.tool.kind {
      case WorkflowTool(sub) =>
        var nested := TranslateWorkflowDocument(sub, opts, true);
        if nested.Err? {
          return Err(nested.error);
        }
        t := Ok(ToolTranslation(WorkflowDoc(nested.value.workflow), nested.value.tools));
      case CommandTool(_, _, _, _) =>
        var c := TranslateToolInternal(s.tool, opts);
        if c.Err? {
          return Err(c.error);
        }
        t := Ok(ToolTranslation(ToolDoc(c.value), []));
      case CodeTool(_, _) =>
        var d := DockerRequirements(s.tool.id, s.tool.container, opts.withDocker, opts.allowEmptyContainer);
        if d.Err? {
          return Err(d.error);
        }
        t := Ok(ToolTranslation(CodeToolDoc(s.tool.id, [InlineJavascriptRequirement] + d.value), []));
    }
  }

  /** `translate_workflow` with its loop over the tools to build; nested
      workflows are translated by a recursive call. */
  method TranslateWorkflowDocument(g: Graph, opts: Options, isNested: bool) returns (r: Result<Translation>)
    ensures r == TranslateWorkflowAll(g, opts, isNested)
    decreases g, 2
  {
    var w := TranslateWorkflowRecord(g, opts.withOverrides, isNested);
    if w.Err? {
      return Err(w.error);
    }
    var todo := ToolsToBuild(g.steps);
    var tools: Dict<Document> := [];
    var i := 0;
    while i < |todo|
      invariant 0 <= i <= |todo|
      invariant BuildTools(g, opts, todo, []) == BuildTools(g, opts, todo[i..], tools)
    {
      assert todo[i] in todo;
      var s := g.steps[todo[i].val];
      assert s in g.steps;
      var t := TranslateStepToolDocument(s, opts);
      BuildToolsNext(g, opts, todo, i, tools, t);
      if t.Err? {
        return Err(t.error);
      }
      tools := PutAll(Put(tools, s.tool.id, t.value.doc), t.value.subtools);
      i := i + 1;
    }
    r := Ok(Translation(w.value, tools));
  }

  /** One more tool of the loop of `TranslateWorkflowDocument`. */
  lemma BuildToolsNext(g: Graph, opts: Options, todo: Dict<nat>, i: nat, tools: Dict<Document>, t: Result<ToolTranslation>)
    requires forall e :: e in todo ==> e.val < |g.steps|
    requires i < |todo| && BuildTools(g, opts, todo, []) == BuildTools(g, opts, todo[i..], tools)
    requires todo[i].val < |g.steps| && t == TranslateStepTool(g.steps[todo[i].val], opts)
    ensures t.Err? ==> BuildTools(g, opts, todo, []) == Err(t.error)
    ensures t.Ok? ==>
      BuildTools(g, opts, todo, []) ==
      BuildTools(g, opts, todo[i + 1..], PutAll(Put(tools, g.steps[todo[i].val].tool.id, t.value.doc), t.value.subtools))
  {
    BuildToolsAt(g, opts, todo, i, tools);
  }

  /** One step of the tool loop, from position `i`. */
  lemma BuildToolsAt(g: Graph, opts: Options, todo: Dict<nat>, i: nat, acc: Dict<Document>)
    requires forall e :: e in todo ==> e.val < |g.steps|
    requires i < |todo|
    ensures todo[i].val < |g.steps|
    ensures forall e :: e in todo[i + 1..] ==> e.val < |g.steps|
    ensures var s := g.steps[todo[i].val];
      BuildTools(g, opts, todo[i..], acc) ==
        if TranslateStepTool(s, opts).Err? then Err(TranslateStepTool(s, opts).error)
        else BuildTools(g, opts, todo[i + 1..], PutAll(Put(acc, s.tool.id, TranslateStepTool(s, opts).value.doc),
                                                       TranslateStepTool(s, opts).value.subtools))
  {
    assert todo[i] in todo;
    assert todo[i..][0] == todo[i] && todo[i..][1..] == todo[i + 1..];
    assert forall e :: e in todo[i + 1..] ==> e in todo;
  }

  /** The documents of a nested tool's tools are kept beside it. */
  lemma {:induction false} PutAllKeys<V>(d: Dict<V>, other: Dict<V>)
    ensures Keys(PutAll(d, other)) == Keys(d) + Keys(other)
    decreases |other|
  {
    if |other| > 0 {
      PutSpec(d, other[0].key, other[0].val);
      PutAllKeys(Put(d, other[0].key, other[0].val), other[1..]);
      KeysCons(other);
    }
  }

  lemma {:induction false} BuildToolsKeys(g: Graph, opts: Options, todo: Dict<nat>, acc: Dict<Document>)
    requires forall e :: e in todo ==> e.val < |g.steps| && g.steps[e.val].tool.id == e.key
    ensures BuildTools(g, opts, todo, acc).Ok? ==> Keys(acc) + Keys(todo) <= Keys(BuildTools(g, opts, todo, acc).value)
    decreases |todo|
  {
    if |todo| > 0 && BuildTools(g, opts, todo, acc).Ok? {
      assert todo[0] in todo;
      var s := g.steps[todo[0].val];
      var t := TranslateStepTool(s, opts).value;
      var acc' := PutAll(Put(acc, s.tool.id, t.doc), t.subtools);
      assert BuildTools(g, opts, todo, acc) == BuildTools(g, opts, todo[1..], acc');
      assert forall e :: e in todo[1..] ==> e in todo;
      BuildToolsKeys(g, opts, todo[1..], acc');
      PutAllKeys(Put(acc, s.tool.id, t.doc), t.subtools);
      PutSpec(acc, s.tool.id, t.doc);
      KeysCons(todo);
    }
  }

  /** A tool that fails to translate makes the whole tool loop fail. */
  lemma {:induction false} BuildToolsFails(g: Graph, opts: Options, todo: Dict<nat>, acc: Dict<Document>, k: nat)
    requires forall e :: e in todo ==> e.val < |g.steps|
    requires k < |todo| && TranslateStepTool(g.steps[todo[k].val], opts).Err?
    ensures BuildTools(g, opts, todo, acc).Err?
    decreases k
  {
    assert todo[0] in todo;
    if k > 0 && TranslateStepTool(g.steps[todo[0].val], opts).Ok? {
      var s := g.steps[todo[0].val];
      var t := TranslateStepTool(s, opts).value;
      assert forall e :: e in todo[1..] ==> e in todo;
      assert todo[1..][k - 1] == todo[k];
      BuildToolsFails(g, opts, todo[1..], PutAll(Put(acc, s.tool.id, t.doc), t.subtools), k - 1);
    }
  }

  /** A translated workflow has a document for the tool of every one of
      its steps, and is the workflow record `TranslateWorkflow` builds. */
  lemma TranslateWorkflowAllSpec(g: Graph, opts: Options, isNested: bool)
    ensures TranslateWorkflowAll(g, opts, isNested).Ok? ==>
      && TranslateWorkflow(g, opts.withOverrides, isNested) == Ok(TranslateWorkflowAll(g, opts, isNested).value.workflow)
      && forall i :: 0 <= i < |g.steps| ==> g.steps[i].tool.id in Keys(TranslateWorkflowAll(g, opts, isNested).value.tools)
  {
    if TranslateWorkflowAll(g, opts, isNested).Ok? {
      ToolsToBuildKeys(g.steps);
      BuildToolsKeys(g, opts, ToolsToBuild(g.steps), []);
      forall i | 0 <= i < |g.steps| ensures g.steps[i].tool.id in Keys(ToolsToBuild(g.steps)) {
        assert g.steps[i].tool.id in ToolIds(g.steps);
      }
    }
  }

  /** With containers wanted and empty ones refused, a workflow one of
      whose steps (the last to run its tool id) runs a command tool without
      a container fails to translate. */
  lemma MissingContainerFails(g: Graph, opts: Options, isNested: bool, i: nat)
    requires i < |g.steps| && g.steps[i].tool.kind.CommandTool? && g.steps[i].tool.container.None?
    requires opts.withDocker && !opts.allowEmptyContainer
    requires Get(ToolsToBuild(g.steps), g.steps[i].tool.id) == Some(i)
    ensures TranslateWorkflowAll(g, opts, isNested).Err?
  {
    var todo := ToolsToBuild(g.steps);
    var k := GetIndex(todo, g.steps[i].tool.id);
    TranslateToolInternalSpec(g.steps[i].tool, opts);
    if TranslateWorkflow(g, opts.withOverrides, isNested).Ok? {
      BuildToolsFails(g, opts, todo, [], k);
    }
  }

  /** The position of a key that `Get` finds. */
  lemma {:induction false} GetIndex<V>(d: Dict<V>, key: string) returns (k: nat)
    requires Get(d, key).Some?
    ensures k < |d| && d[k] == Entry(key, Get(d, key).value)
  {
    if d[0].key == key {
      k := 0;
    } else {
      var j := GetIndex(d[1..], key);
      k := j + 1;
    }
  }
}
