/** `Workflow.switch` and `wrap_steps_in_workflow`: the branches of a switch
    become the conditional steps of a new workflow, which is added as one
    step. */
module SwitchSpec {
  import opened Wrappers
  import opened Strings
  import opened DataTypes
  import opened Ir
  import opened StringFormatters
  import opened WorkflowSpec

  /** One element of a `switch`: a guarded tool, or a default tool. */
  datatype Case = Guarded(guard: Value, tool: Tool) | Default(tool: Tool)

  /** `"switch_case_" + str(i + 1)`. */
  function CaseId(i: nat): string
  {
    "switch_case_" + NatToString(i + 1)
  }

  /** `or_prev_conds`: nothing for no conditions, else their disjunction. */
  function OrPrevConds(cs: seq<Value>): Value
  {
    if |cs| == 0 then VNone else OrPrev(cs)
  }

  /** The condition of a guarded branch: its own guard, and not any earlier
      one. */
  function CaseGuard(prev: seq<Value>, newcond: Value): Value
  {
    var p := OrPrevConds(prev);
    if Truthy(p) then Op2("and", newcond, Op1("not", p)) else newcond
  }

  function DefaultGuard(prev: seq<Value>): Value
  {
    Op1("not", OrPrevConds(prev))
  }

  /** The first branch runs on its own guard; a later guarded branch on its
      guard and not the disjunction of the earlier ones; the default branch
      on the negated disjunction of all of them. */
  lemma CaseGuardSpec(prev: seq<Value>, newcond: Value)
    ensures |prev| == 0 ==> CaseGuard(prev, newcond) == newcond
    ensures |prev| > 0 ==> CaseGuard(prev, newcond) == Op2("and", newcond, Op1("not", OrPrev(prev)))
    ensures DefaultGuard(prev) == Op1("not", if |prev| == 0 then VNone else OrPrev(prev))
  {
  }

  /** Python's `d[k] = v` on an insertion-ordered dictionary. */
  function Assign(kw: seq<Kwarg>, k: string, v: Value): seq<Kwarg>
  {
    if |kw| == 0 then [Kwarg(k, v)]
    else if kw[0].key == k then [Kwarg(k, v)] + kw[1..]
    else [kw[0]] + Assign(kw[1..], k, v)
  }

  lemma AssignSpec(kw: seq<Kwarg>, k: string, v: Value)
    ensures Lookup(Assign(kw, k, v), k) == Some(v)
    ensures forall j :: j != k ==> Lookup(Assign(kw, k, v), j) == Lookup(kw, j)
    ensures k !in KeySet(kw) ==> Assign(kw, k, v) == kw + [Kwarg(k, v)]
    ensures KeySet(Assign(kw, k, v)) == KeySet(kw) + {k}
  {
    AssignLookup(kw, k, v);
    AssignFresh(kw, k, v);
    AssignKeys(kw, k, v);
  }

  lemma {:induction false} AssignLookup(kw: seq<Kwarg>, k: string, v: Value)
    ensures Lookup(Assign(kw, k, v), k) == Some(v)
    ensures forall j :: j != k ==> Lookup(Assign(kw, k, v), j) == Lookup(kw, j)
  {
    if |kw| > 0 {
      AssignLookup(kw[1..], k, v);
      var r := Assign(kw, k, v);
      assert r[1..] == (if kw[0].key == k then kw[1..] else Assign(kw[1..], k, v));
    }
  }

  lemma {:induction false} AssignFresh(kw: seq<Kwarg>, k: string, v: Value)
    ensures k !in KeySet(kw) ==> Assign(kw, k, v) == kw + [Kwarg(k, v)]
  {
    if |kw| > 0 && k !in KeySet(kw) {
      KeySetTail(kw);
      AssignFresh(kw[1..], k, v);
      assert [kw[0]] + (kw[1..] + [Kwarg(k, v)]) == kw + [Kwarg(k, v)];
    }
  }

  lemma {:induction false} AssignKeys(kw: seq<Kwarg>, k: string, v: Value)
    ensures KeySet(Assign(kw, k, v)) == KeySet(kw) + {k}
  {
    var r := Assign(kw, k, v);
    if |kw| > 0 {
      AssignKeys(kw[1..], k, v);
      KeySetTail(kw);
      KeySetTail(r);
      assert r[1..] == (if kw[0].key == k then kw[1..] else Assign(kw[1..], k, v));
    } else {
      assert KeySet(r) == {k} by { assert r[0].key == k; }
    }
  }

  /** The wrapping workflow under construction and `workflow_connection_map`,
      the outer sources its new inputs stand for. */
  datatype Wrapping = Wrapping(w: WfState, memo: seq<Kwarg>)

  /** `f"cond_{node.id()}_{tag}"`: the input standing for a step output
      used in a guard. */
  function CondStepId(node: Node, tag: Option<string>): string
  {
    "cond_" + node.Id() + "_" + TagName(tag)
  }

  /** `f"cond_{input_node.id()}"`: the input standing for an outer input
      used in a guard. */
  function CondInputId(node: Node): string
  {
    "cond_" + node.Id()
  }

  /** `rebuild_condition`: every `StepOperator` and `InputOperator` inside a
      guard is replaced by a new input of the wrapping workflow (reused when
      it already exists), remembering the outer source it stands for;
      formatters and one- and two-operand operators are rebuilt around their
      rebuilt operands. */
  function Rebuild(env: Env, acc: Wrapping, op: Value): (Result<Value>, Wrapping)
    decreases op, 0
  {
    match op
    case VStepOp(node, tag) =>
      var ident := CondStepId(node, tag);
      var existing := FindInputNode(acc.w.inputNodes, ident);
      if existing.Some? then (Ok(VNode(NInput(existing.value))), acc)
      else
        var acc1 := acc.(memo := Assign(acc.memo, ident, op));
        var o := SourceOutput(op);
        if o.Err? then (Err(o.error), acc1)
        else
          var (r, w1) := AddInput(env, acc1.w, ident, o.value.outtype, VNone, VNone, None);
          (if r.Ok? then Ok(VNode(NInput(r.value))) else Err(r.error), acc1.(w := w1))
    case VInputOp(n) =>
      var ident := CondInputId(n);
      var existing := FindInputNode(acc.w.inputNodes, ident);
      if existing.Some? then (Ok(VNode(NInput(existing.value))), acc)
      else
        var acc1 := acc.(memo := Assign(acc.memo, ident, VNode(n)));
        var outs := NodeOutputs(n);
        if outs.None? then (Err(NotSubscriptable), acc1)
        else if |outs.value| == 0 then (Err(IndexOutOfRange), acc1)
        else
          var (r, w1) := AddInput(env, acc1.w, ident, outs.value[0].out.outtype, VNone, VNone, None);
          (if r.Ok? then Ok(VInputOp(NInput(r.value))) else Err(r.error), acc1.(w := w1))
    case VFormat(f) =>
      var (r, acc1) := RebuildKwargs(env, acc, f.kwargs);
      if r.Err? then (Err(r.error), acc1)
      else
        var g := New(env.scan, f.format, r.value);
        (if g.Ok? then Ok(VFormat(g.value)) else Err(g.error), acc1)
    case Op1(name, a) =>
      var (r, acc1) := Rebuild(env, acc, a);
      (if r.Ok? then Ok(Op1(name, r.value)) else r, acc1)
    case Op2(name, a, b) =>
      var (ra, acc1) := Rebuild(env, acc, a);
      if ra.Err? then (ra, acc1)
      else
        var (rb, acc2) := Rebuild(env, acc1, b);
        (if rb.Ok? then Ok(Op2(name, ra.value, rb.value)) else rb, acc2)
    case OrPrev(cs) =>
      var (r, acc1) := RebuildList(env, acc, cs);
      (if r.Ok? then Ok(OrPrev(r.value)) else Err(r.error), acc1)
    case _ => (Ok(op), acc)
  }

  function RebuildKwargs(env: Env, acc: Wrapping, kw: seq<Kwarg>): (Result<seq<Kwarg>>, Wrapping)
    decreases kw, 1
  {
    if |kw| == 0 then (Ok([]), acc)
    else
      var (h, acc1) := Rebuild(env, acc, kw[0].value);
      if h.Err? then (Err(h.error), acc1)
      else
        var (t, acc2) := RebuildKwargs(env, acc1, kw[1..]);
        (if t.Ok? then Ok([Kwarg(kw[0].key, h.value)] + t.value) else t, acc2)
  }

  function RebuildList(env: Env, acc: Wrapping, cs: seq<Value>): (Result<seq<Value>>, Wrapping)
    decreases cs, 1
  {
    if |cs| == 0 then (Ok([]), acc)
    else
      var (h, acc1) := Rebuild(env, acc, cs[0]);
      if h.Err? then (Err(h.error), acc1)
      else
        var (t, acc2) := RebuildList(env, acc1, cs[1..]);
        (if t.Ok? then Ok([h.value] + t.value) else t, acc2)
  }

  /** The connections of one branch: literals are passed through, any other
      value becomes a new input `{case}_{tag}` of the tool input's type,
      remembered as standing for that value. */
  function WrapConnections(env: Env, acc: Wrapping, toolInputs: seq<TInput>, caseId: string,
                           conns: seq<Kwarg>, cm: seq<Kwarg>): (Result<seq<Kwarg>>, Wrapping)
    decreases |conns|
  {
    if |conns| == 0 then (Ok(cm), acc)
    else
      var k, v := conns[0].key, conns[0].value;
      if IsPythonPrimitive(v) then WrapConnections(env, acc, toolInputs, caseId, conns[1..], Assign(cm, k, v))
      else
        var toolin := FindInput(toolInputs, k);
        if toolin.None? then (Err(KeyNotFound(k)), acc)
        else
          var ident := caseId + "_" + k;
          var memo := Assign(acc.memo, ident, v);
          var (r, w1) := AddInput(env, acc.w, ident, toolin.value.intype, VNone, VNone, toolin.value.doc);
          if r.Err? then (Err(r.error), Wrapping(w1, memo))
          else WrapConnections(env, Wrapping(w1, memo), toolInputs, caseId, conns[1..],
                               Assign(cm, k, VNode(NInput(r.value))))
  }

  /** One branch as the step `switch_case_{i+1}` of the wrapping workflow,
      guarded by `cond`. */
  function WrapStep(env: Env, acc: Wrapping, i: nat, tool: Tool, cond: Value): (Option<Error>, Wrapping)
  {
    var (cm, acc1) := WrapConnections(env, acc, InputsMap(tool), CaseId(i), tool.connections, []);
    if cm.Err? then (Some(cm.error), acc1)
    else
      var (r, w2) := AddStep(env, acc1.w, CaseId(i), tool.(connections := cm.value), NoScatter, cond, false);
      (if r.Err? then Some(r.error) else None, acc1.(w := w2))
  }

  /** One iteration of the loop of `wrap_steps_in_workflow`: branch `i`
      given the rebuilt guards `prev` of the guarded branches before it;
      returns the guards including its own. */
  function WrapCase(env: Env, acc: Wrapping, prev: seq<Value>, c: Case, i: nat): (Result<seq<Value>>, Wrapping)
  {
    match c
    case Guarded(g, tool) =>
      var (nc, acc1) := Rebuild(env, acc, g);
      if nc.Err? then (Err(nc.error), acc1)
      else
        var (e, acc2) := WrapStep(env, acc1, i, tool, CaseGuard(prev, nc.value));
        if e.Some? then (Err(e.value), acc2) else (Ok(prev + [nc.value]), acc2)
    case Default(tool) =>
      var (e, acc1) := WrapStep(env, acc, i, tool, DefaultGuard(prev));
      if e.Some? then (Err(e.value), acc1) else (Ok(prev), acc1)
  }

  /** The loop of `wrap_steps_in_workflow` from branch `i` on. */
  function WrapCases(env: Env, acc: Wrapping, prev: seq<Value>, cases: seq<Case>, i: nat): (Result<seq<Value>>, Wrapping)
    requires i <= |cases|
    decreases |cases| - i
  {
    if i == |cases| then (Ok(prev), acc)
    else
      var (p, acc1) := WrapCase(env, acc, prev, cases[i], i);
      if p.Err? then (p, acc1) else WrapCases(env, acc1, p.value, cases, i + 1)
  }

  /** `stp[tag]` for every branch step. */
  function StepItems(steps: seq<StepRecord>, tag: string): Result<seq<Value>>
  {
    if |steps| == 0 then Ok([])
    else
      var h :- GetItem(steps[0], tag);
      var t :- StepItems(steps[1..], tag);
      Ok([h] + t)
  }

  /** One output per output of the first branch, fed by that output of
      every branch and picking the first non-null value. */
  function WrapOutputs(env: Env, w: WfState, steps: seq<StepRecord>, outs: seq<TOutput>): (Option<Error>, WfState)
    decreases |outs|
  {
    if |outs| == 0 then (None, w)
    else
      var srcs := StepItems(steps, outs[0].tag);
      if srcs.Err? then (Some(srcs.error), w)
      else
        var (r, w1) := AddOutput(env, w, outs[0].tag, None, VList(srcs.value), VNone, VNone, Some(FirstNonNull));
        if r.Err? then (Some(r.error), w1) else WrapOutputs(env, w1, steps, outs[1..])
  }

  /** `wrap_steps_in_workflow`: a new workflow `stepId` holding one
      conditional step per branch and the shared outputs, called with the
      outer sources its inputs stand for. Its state is discarded on error. */
  function Wrap(env: Env, stepId: string, cases: seq<Case>): Result<Tool>
  {
    var w0 :- NewWorkflow(env, stepId);
    var (r, acc) := WrapCases(env, Wrapping(w0, []), [], cases, 0);
    if r.Err? then Err(r.error)
    else
      var steps := acc.w.stepNodes;
      if |steps| == 0 then Err(IndexOutOfRange)
      else
        var (e, w) := WrapOutputs(env, acc.w, steps, OutputsMap(steps[0].tool));
        if e.Some? then Err(e.value) else Ok(Tool(stepId, WorkflowTool(GraphOf(w)), acc.memo, None))
  }

  /** The tool of each branch. */
  function CaseTools(cases: seq<Case>): (ts: seq<Tool>)
    ensures |ts| == |cases| && forall i :: 0 <= i < |cases| ==> ts[i] == cases[i].tool
  {
    if |cases| == 0 then [] else [cases[0].tool] + CaseTools(cases[1..])
  }

  /** A tool with outputs `outs` lacks output `c` or types it in a way `c`
      cannot receive. */
  predicate Incompatible(c: TOutput, outs: seq<TOutput>)
  {
    var o := FindOutput(outs, c.tag);
    o.None? || !CanReceiveFrom(c.outtype, o.value.outtype)
  }

  /** The first branch output tags a tool lacks or types incompatibly. */
  function NonMatching(compare: seq<TOutput>, outs: seq<TOutput>): seq<string>
  {
    if |compare| == 0 then []
    else
      (if Incompatible(compare[0], outs) then [compare[0].tag] else []) + NonMatching(compare[1..], outs)
  }

  /** The schema check of `switch` over the tools after the first. */
  function SchemaDiffs(compare: seq<TOutput>, tools: seq<Tool>): seq<SchemaDiff>
  {
    if |tools| == 0 then []
    else
      var outs := OutputsMap(tools[0]);
      var bad := NonMatching(compare, outs);
      var extra := OutputTags(outs) - OutputTags(compare);
      (if |bad| > 0 then [SchemaDiff(tools[0].id, bad, extra)] else []) + SchemaDiffs(compare, tools[1..])
  }

  /** One more tool of the schema loop, taken from position `k`. */
  lemma SchemaDiffsAt(compare: seq<TOutput>, tools: seq<Tool>, k: nat)
    requires k < |tools|
    ensures SchemaDiffs(compare, tools[k..]) ==
      (if |NonMatching(compare, OutputsMap(tools[k]))| > 0
       then [SchemaDiff(tools[k].id, NonMatching(compare, OutputsMap(tools[k])),
                        OutputTags(OutputsMap(tools[k])) - OutputTags(compare))]
       else []) + SchemaDiffs(compare, tools[k + 1..])
  {
    assert tools[k..][1..] == tools[k + 1..];
    assert tools[k..][0] == tools[k];
  }

  /** `Workflow.switch`. */
  function Switch(env: Env, st: WfState, stepId: string, cases: seq<Case>): (Result<StepRecord>, WfState)
  {
    if |cases| <= 1 then (Err(TooFewConditions), st)
    else if exists i :: 0 <= i < |cases| - 1 && cases[i].Default? then (Err(DefaultNotLast), st)
    else
      var tools := CaseTools(cases);
      var diffs := SchemaDiffs(OutputsMap(tools[0]), tools[1..]);
      if |diffs| > 0 then (Err(SchemaMismatch(diffs)), st)
      else
        var w := Wrap(env, stepId, cases);
        if w.Err? then (Err(w.error), st)
        else AddStep(env, st, stepId, w.value, NoScatter, VNone, false)
  }

  lemma PrefixIds(a: seq<InputRecord>, b: seq<InputRecord>)
    requires |a| <= |b| && b[..|a|] == a
    ensures InputIds(a) <= InputIds(b)
  {
    forall k | k in InputIds(a) ensures k in InputIds(b) {
      var i :| 0 <= i < |a| && a[i].id == k;
      assert b[i] == b[..|a|][i];
    }
  }

  lemma InputIdsGrow(a: WfState, b: WfState)
    requires OnlyInputsAdded(a, b)
    ensures InputIds(a.inputNodes) <= InputIds(b.inputNodes)
  {
    PrefixIds(a.inputNodes, b.inputNodes);
  }

  lemma SelfAdded(w: WfState)
    ensures OnlyInputsAdded(w, w)
  {
    assert w.inputNodes[..|w.inputNodes|] == w.inputNodes;
  }

  /** What a successful `step` inside the wrapping workflow establishes. */
  lemma AddStepOk(env: Env, st: WfState, id: string, tool: Tool, when: Value)
    requires Valid(st)
    ensures var (r, st') := AddStep(env, st, id, tool, NoScatter, when, false);
      r.Ok? ==>
        && Valid(st') && r.value.id == id && r.value.tool == tool && r.value.when == when
        && st'.stepNodes == st.stepNodes + [r.value] && st'.outputNodes == st.outputNodes && st'.id == st.id
        && InputIds(st.inputNodes) <= InputIds(st'.inputNodes)
  {
    AddStepSpec(env, st, id, tool, NoScatter, when, false);
    var (r, st') := AddStep(env, st, id, tool, NoScatter, when, false);
    if r.Ok? { PrefixIds(st.inputNodes, st'.inputNodes); }
  }

  /** The invariant of the wrapping: the workflow is well formed and every
      outer source remembered stands for one of its inputs. The wrapping
      workflow is discarded when anything fails, so only success needs it. */
  predicate Remembered(acc: Wrapping)
  {
    Valid(acc.w) && KeySet(acc.memo) <= InputIds(acc.w.inputNodes)
  }

  /** `ins'` keeps the inputs `ins` in place and may have more after them. */
  predicate InputsGrow(ins: seq<InputRecord>, ins': seq<InputRecord>)
  {
    |ins| <= |ins'| && ins'[..|ins|] == ins
  }

  /** `memo'` keeps the entries of `memo` in place and may have more after them. */
  predicate MemoGrows(memo: seq<Kwarg>, memo': seq<Kwarg>)
  {
    |memo| <= |memo'| && memo'[..|memo|] == memo
  }

  /** What a later state of the wrapping keeps of an earlier one: its
      inputs and the entries of `workflow_connection_map`. */
  predicate Grows(acc: Wrapping, acc': Wrapping)
  {
    InputsGrow(acc.w.inputNodes, acc'.w.inputNodes) && MemoGrows(acc.memo, acc'.memo)
  }

  /** What rebuilding a guard and rewiring connections may change: new
      inputs of the workflow and new entries at the end of
      `workflow_connection_map`, nothing else. */
  predicate Extends(acc: Wrapping, acc': Wrapping)
  {
    OnlyInputsAdded(acc.w, acc'.w) && MemoGrows(acc.memo, acc'.memo)
  }

  lemma SelfExtends(acc: Wrapping)
    ensures Extends(acc, acc) && Grows(acc, acc)
  {
    SelfAdded(acc.w);
    assert acc.memo[..|acc.memo|] == acc.memo;
  }

  lemma ExtendsTrans(a: Wrapping, b: Wrapping, c: Wrapping)
    requires Extends(a, b) && Extends(b, c)
    ensures Extends(a, c)
  {
    OnlyInputsAddedTrans(a.w, b.w, c.w);
    assert c.memo[..|a.memo|] == c.memo[..|b.memo|][..|a.memo|];
  }

  lemma GrowsTrans(a: Wrapping, b: Wrapping, c: Wrapping)
    requires Grows(a, b) && Grows(b, c)
    ensures Grows(a, c)
  {
    assert c.w.inputNodes[..|a.w.inputNodes|] == c.w.inputNodes[..|b.w.inputNodes|][..|a.w.inputNodes|];
    assert c.memo[..|a.memo|] == c.memo[..|b.memo|][..|a.memo|];
  }

  /** `FindInputNode` over two runs of inputs: the first run wins. */
  lemma {:induction false} FindInputNodeAppend(a: seq<InputRecord>, b: seq<InputRecord>, id: string)
    ensures FindInputNode(a + b, id) == if FindInputNode(a, id).Some? then FindInputNode(a, id) else FindInputNode(b, id)
  {
    if |a| == 0 {
      assert a + b == b;
    } else {
      assert (a + b)[1..] == a[1..] + b;
      FindInputNodeAppend(a[1..], b, id);
    }
  }

  /** An input that is found stays the one found as inputs are appended. */
  lemma FindInputNodeGrows(ins: seq<InputRecord>, ins': seq<InputRecord>, id: string)
    requires InputsGrow(ins, ins') && FindInputNode(ins, id).Some?
    ensures FindInputNode(ins', id) == FindInputNode(ins, id)
  {
    assert ins' == ins + ins'[|ins|..];
    FindInputNodeAppend(ins, ins'[|ins|..], id);
  }

  /** `d[key]` over two runs of entries: the first run wins. */
  lemma {:induction false} LookupAppend(p: seq<Kwarg>, q: seq<Kwarg>, key: string)
    ensures Lookup(p + q, key) == if Lookup(p, key).Some? then Lookup(p, key) else Lookup(q, key)
  {
    if |p| == 0 {
      assert p + q == q;
    } else {
      assert (p + q)[1..] == p[1..] + q;
      LookupAppend(p[1..], q, key);
    }
  }

  /** An entry of `workflow_connection_map` is kept as entries are added. */
  lemma LookupGrows(memo: seq<Kwarg>, memo': seq<Kwarg>, key: string)
    requires MemoGrows(memo, memo') && Lookup(memo, key).Some?
    ensures Lookup(memo', key) == Lookup(memo, key)
  {
    assert memo' == memo + memo'[|memo|..];
    LookupAppend(memo, memo'[|memo|..], key);
  }

  /** Adding input `ident` after remembering it under `ident` keeps the
      invariant: the input is new, so it is appended with the given type and
      doc and no default, and its entry is appended to the connection map. */
  lemma RememberInput(env: Env, acc: Wrapping, ident: string, v: Value, dtype: DataType, doc: Option<string>)
    requires Remembered(acc)
    ensures var (r, w1) := AddInput(env, acc.w, ident, dtype, VNone, VNone, doc);
      r.Ok? ==>
        && Remembered(Wrapping(w1, Assign(acc.memo, ident, v))) && Extends(acc, Wrapping(w1, Assign(acc.memo, ident, v)))
        && r.value == InputRecord(ident, dtype, VNone, VNone, doc)
        && w1.inputNodes == acc.w.inputNodes + [r.value]
        && FindInputNode(acc.w.inputNodes, ident).None?
        && Assign(acc.memo, ident, v) == acc.memo + [Kwarg(ident, v)]
  {
    var (r, w1) := AddInput(env, acc.w, ident, dtype, VNone, VNone, doc);
    AddInputFrame(env, acc.w, ident, dtype, VNone, VNone, doc);
    AddInputSpec(env, acc.w, ident, dtype, VNone, VNone, doc);
    AssignSpec(acc.memo, ident, v);
    if r.Ok? {
      InputIdsGrow(acc.w, w1);
      assert w1.inputNodes[|acc.w.inputNodes|] == r.value;
      FindInputNodeSpec(acc.w.inputNodes, ident);
      assert ident !in InputIds(acc.w.inputNodes);
      var m := acc.memo + [Kwarg(ident, v)];
      assert m[..|acc.memo|] == acc.memo;
    }
  }

  /** `v` is guard `g` as `rebuild_condition` leaves it in the wrapping
      workflow with inputs `ins`: every `StepOperator` and `InputOperator`
      in it is now the wrapper's input named after it, formatters and one-
      and two-operand operators have their operands rebuilt the same way,
      and anything else is kept as it was. */
  predicate Rebuilt(g: Value, v: Value, ins: seq<InputRecord>)
    decreases g
  {
    match g
    case VStepOp(node, tag) =>
      var x := FindInputNode(ins, CondStepId(node, tag));
      x.Some? && v == VNode(NInput(x.value))
    case VInputOp(node) =>
      var x := FindInputNode(ins, CondInputId(node));
      x.Some? && (v == VInputOp(NInput(x.value)) || v == VNode(NInput(x.value)))
    case VFormat(f) =>
      && v.VFormat? && v.f.format == f.format && |v.f.kwargs| == |f.kwargs|
      && forall k :: 0 <= k < |f.kwargs| ==>
           v.f.kwargs[k].key == f.kwargs[k].key && Rebuilt(f.kwargs[k].value, v.f.kwargs[k].value, ins)
    case Op1(name, a) => v.Op1? && v.name == name && Rebuilt(a, v.internal, ins)
    case Op2(name, a, b) => v.Op2? && v.name == name && Rebuilt(a, v.lhs, ins) && Rebuilt(b, v.rhs, ins)
    case OrPrev(cs) => v.OrPrev? && |v.conds| == |cs| && forall k :: 0 <= k < |cs| ==> Rebuilt(cs[k], v.conds[k], ins)
    case _ => v == g
  }

  /** A rebuilt guard stays rebuilt as the wrapping workflow gains inputs. */
  lemma {:induction false} RebuiltGrows(g: Value, v: Value, ins: seq<InputRecord>, ins': seq<InputRecord>)
    requires Rebuilt(g, v, ins) && InputsGrow(ins, ins')
    ensures Rebuilt(g, v, ins')
    decreases g
  {
    match g
    case VStepOp(node, tag) =>
      FindInputNodeGrows(ins, ins', CondStepId(node, tag));
    case VInputOp(node) =>
      FindInputNodeGrows(ins, ins', CondInputId(node));
    case VFormat(f) =>
      forall k | 0 <= k < |f.kwargs| ensures Rebuilt(f.kwargs[k].value, v.f.kwargs[k].value, ins') {
        RebuiltGrows(f.kwargs[k].value, v.f.kwargs[k].value, ins, ins');
      }
    case Op1(_, a) =>
      RebuiltGrows(a, v.internal, ins, ins');
    case Op2(_, a, b) =>
      RebuiltGrows(a, v.lhs, ins, ins');
      RebuiltGrows(b, v.rhs, ins, ins');
    case OrPrev(cs) =>
      forall k | 0 <= k < |cs| ensures Rebuilt(cs[k], v.conds[k], ins') {
        RebuiltGrows(cs[k], v.conds[k], ins, ins');
      }
    case _ =>
  }

  /** Rebuilding a `StepOperator`: the input `cond_{node}_{tag}` when the
      wrapping workflow has it already; otherwise that input is appended
      with the type of the step output and remembered as standing for the
      operator. */
  lemma RebuildStepOp(env: Env, acc: Wrapping, op: Value)
    requires Remembered(acc) && op.VStepOp?
    ensures var (r, acc') := Rebuild(env, acc, op);
      r.Ok? ==> Remembered(acc') && Extends(acc, acc') && Rebuilt(op, r.value, acc'.w.inputNodes)
    ensures var (r, acc') := Rebuild(env, acc, op);
      var id := CondStepId(op.node, op.tag);
      var found := FindInputNode(acc.w.inputNodes, id);
      && (found.Some? ==> r == Ok(VNode(NInput(found.value))) && acc' == acc)
      && (found.None? && SourceOutput(op).Err? ==> r == Err(SourceOutput(op).error))
      && (found.None? && r.Ok? ==>
            && SourceOutput(op).Ok?
            && var x := InputRecord(id, SourceOutput(op).value.outtype, VNone, VNone, None);
            && r.value == VNode(NInput(x))
            && acc'.w.inputNodes == acc.w.inputNodes + [x]
            && acc'.memo == acc.memo + [Kwarg(id, op)])
  {
    var id := CondStepId(op.node, op.tag);
    if FindInputNode(acc.w.inputNodes, id).None? {
      var o := SourceOutput(op);
      if o.Ok? {
        RememberInput(env, acc, id, op, o.value.outtype, None);
        var (r, w1) := AddInput(env, acc.w, id, o.value.outtype, VNone, VNone, None);
        if r.Ok? { FindInputNodeAppend(acc.w.inputNodes, [r.value], id); }
      }
    } else {
      SelfExtends(acc);
    }
  }

  /** Rebuilding an `InputOperator`: the input `cond_{node}` when the
      wrapping workflow has it already (as the node itself); otherwise that
      input is appended with the type of the node's first output, remembered
      as standing for the outer node, and returned as an operator. */
  lemma RebuildInputOp(env: Env, acc: Wrapping, op: Value)
    requires Remembered(acc) && op.VInputOp?
    ensures var (r, acc') := Rebuild(env, acc, op);
      r.Ok? ==> Remembered(acc') && Extends(acc, acc') && Rebuilt(op, r.value, acc'.w.inputNodes)
    ensures var (r, acc') := Rebuild(env, acc, op);
      var id := CondInputId(op.inputNode);
      var found := FindInputNode(acc.w.inputNodes, id);
      var outs := NodeOutputs(op.inputNode);
      && (found.Some? ==> r == Ok(VNode(NInput(found.value))) && acc' == acc)
      && (found.None? && outs.None? ==> r == Err(NotSubscriptable))
      && (found.None? && outs.Some? && |outs.value| == 0 ==> r == Err(IndexOutOfRange))
      && (found.None? && r.Ok? ==>
            && outs.Some? && |outs.value| > 0
            && var x := InputRecord(id, outs.value[0].out.outtype, VNone, VNone, None);
            && r.value == VInputOp(NInput(x))
            && acc'.w.inputNodes == acc.w.inputNodes + [x]
            && acc'.memo == acc.memo + [Kwarg(id, VNode(op.inputNode))])
  {
    var id := CondInputId(op.inputNode);
    if FindInputNode(acc.w.inputNodes, id).None? {
      var outs := NodeOutputs(op.inputNode);
      if outs.Some? && |outs.value| > 0 {
        RememberInput(env, acc, id, VNode(op.inputNode), outs.value[0].out.outtype, None);
        var (r, w1) := AddInput(env, acc.w, id, outs.value[0].out.outtype, VNone, VNone, None);
        if r.Ok? { FindInputNodeAppend(acc.w.inputNodes, [r.value], id); }
      }
    } else {
      SelfExtends(acc);
    }
  }

  /** Rebuilding a guard only appends inputs to the wrapping workflow and
      entries to the connection map, keeps every remembered source an input,
      and gives the guard rebuilt over the wrapper's inputs. */
  lemma {:induction false} RebuildFrame(env: Env, acc: Wrapping, op: Value)
    requires Remembered(acc)
    ensures var (r, acc') := Rebuild(env, acc, op);
      r.Ok? ==> Remembered(acc') && Extends(acc, acc') && Rebuilt(op, r.value, acc'.w.inputNodes)
    decreases op, 1
  {
    match op
    case VStepOp(_, _) =>
      RebuildStepOp(env, acc, op);
    case VInputOp(_) =>
      RebuildInputOp(env, acc, op);
    case VFormat(f) =>
      RebuildFormatFrame(env, acc, op);
    case Op1(name, a) =>
      RebuildFrame(env, acc, a);
    case Op2(name, a, b) =>
      RebuildOp2Frame(env, acc, op);
    case OrPrev(cs) =>
      RebuildListFrame(env, acc, cs);
    case _ =>
      SelfExtends(acc);
  }

  /** What `rebuild_condition` returns and remembers: the guard rebuilt
      over the wrapper's inputs (see `Rebuilt`); a new input for a step or
      input operator is remembered last, bound to the operator or the outer
      input node; a value that is not one of the operators it traverses is
      returned unchanged and changes nothing. */
  lemma RebuildSpec(env: Env, acc: Wrapping, op: Value)
    requires Remembered(acc)
    ensures var (r, acc') := Rebuild(env, acc, op);
      r.Ok? ==> Remembered(acc') && Extends(acc, acc') && Rebuilt(op, r.value, acc'.w.inputNodes)
    ensures var (r, acc') := Rebuild(env, acc, op);
      op.VStepOp? && r.Ok? && FindInputNode(acc.w.inputNodes, CondStepId(op.node, op.tag)).None? ==>
        acc'.memo == acc.memo + [Kwarg(CondStepId(op.node, op.tag), op)]
    ensures var (r, acc') := Rebuild(env, acc, op);
      op.VInputOp? && r.Ok? && FindInputNode(acc.w.inputNodes, CondInputId(op.inputNode)).None? ==>
        acc'.memo == acc.memo + [Kwarg(CondInputId(op.inputNode), VNode(op.inputNode))]
    ensures !(op.VStepOp? || op.VInputOp? || op.VFormat? || op.Op1? || op.Op2? || op.OrPrev?) ==>
      Rebuild(env, acc, op) == (Ok(op), acc)
  {
    RebuildFrame(env, acc, op);
    if op.VStepOp? { RebuildStepOp(env, acc, op); }
    if op.VInputOp? { RebuildInputOp(env, acc, op); }
  }

  lemma {:induction false} RebuildFormatFrame(env: Env, acc: Wrapping, op: Value)
    requires Remembered(acc) && op.VFormat?
    ensures var (r, acc') := Rebuild(env, acc, op);
      r.Ok? ==> Remembered(acc') && Extends(acc, acc') && Rebuilt(op, r.value, acc'.w.inputNodes)
    decreases op, 0
  {
    RebuildKwargsFrame(env, acc, op.f.kwargs);
    var (r, acc1) := RebuildKwargs(env, acc, op.f.kwargs);
    if r.Ok? { NewSpec(env.scan, op.f.format, r.value); }
  }

  lemma {:induction false} RebuildOp2Frame(env: Env, acc: Wrapping, op: Value)
    requires Remembered(acc) && op.Op2?
    ensures var (r, acc') := Rebuild(env, acc, op);
      r.Ok? ==> Remembered(acc') && Extends(acc, acc') && Rebuilt(op, r.value, acc'.w.inputNodes)
    decreases op, 0
  {
    RebuildFrame(env, acc, op.lhs);
    var (ra, acc1) := Rebuild(env, acc, op.lhs);
    if ra.Ok? {
      RebuildFrame(env, acc1, op.rhs);
      var (rb, acc2) := Rebuild(env, acc1, op.rhs);
      if rb.Ok? {
        ExtendsTrans(acc, acc1, acc2);
        RebuiltGrows(op.lhs, ra.value, acc1.w.inputNodes, acc2.w.inputNodes);
      }
    }
  }

  /** Rebuilding a kwargs dictionary keeps its keys, in order, and rebuilds
      each value. */
  lemma {:induction false} RebuildKwargsFrame(env: Env, acc: Wrapping, kw: seq<Kwarg>)
    requires Remembered(acc)
    ensures var (r, acc') := RebuildKwargs(env, acc, kw);
      r.Ok? ==>
        && Remembered(acc') && Extends(acc, acc') && |r.value| == |kw|
        && forall k :: 0 <= k < |kw| ==>
             r.value[k].key == kw[k].key && Rebuilt(kw[k].value, r.value[k].value, acc'.w.inputNodes)
    decreases kw, 1
  {
    if |kw| == 0 {
      SelfExtends(acc);
    } else {
      RebuildFrame(env, acc, kw[0].value);
      var (h, acc1) := Rebuild(env, acc, kw[0].value);
      if h.Ok? {
        RebuildKwargsFrame(env, acc1, kw[1..]);
        var (t, acc2) := RebuildKwargs(env, acc1, kw[1..]);
        if t.Ok? {
          ExtendsTrans(acc, acc1, acc2);
          RebuiltGrows(kw[0].value, h.value, acc1.w.inputNodes, acc2.w.inputNodes);
          RebuiltKwargsCons(kw, h.value, t.value, acc2.w.inputNodes);
        }
      }
    }
  }

  /** Rebuilding a list of operands rebuilds each of them, in order. */
  lemma {:induction false} RebuildListFrame(env: Env, acc: Wrapping, cs: seq<Value>)
    requires Remembered(acc)
    ensures var (r, acc') := RebuildList(env, acc, cs);
      r.Ok? ==>
        && Remembered(acc') && Extends(acc, acc') && |r.value| == |cs|
        && forall k :: 0 <= k < |cs| ==> Rebuilt(cs[k], r.value[k], acc'.w.inputNodes)
    decreases cs, 1
  {
    if |cs| == 0 {
      SelfExtends(acc);
    } else {
      RebuildFrame(env, acc, cs[0]);
      var (h, acc1) := Rebuild(env, acc, cs[0]);
      if h.Ok? {
        RebuildListFrame(env, acc1, cs[1..]);
        var (t, acc2) := RebuildList(env, acc1, cs[1..]);
        if t.Ok? {
          ExtendsTrans(acc, acc1, acc2);
          RebuiltGrows(cs[0], h.value, acc1.w.inputNodes, acc2.w.inputNodes);
          RebuiltListCons(cs, h.value, t.value, acc2.w.inputNodes);
        }
      }
    }
  }

  lemma RebuiltKwargsCons(kw: seq<Kwarg>, h: Value, t: seq<Kwarg>, ins: seq<InputRecord>)
    requires |kw| > 0 && Rebuilt(kw[0].value, h, ins) && |t| == |kw| - 1
    requires forall k :: 0 <= k < |t| ==> t[k].key == kw[1..][k].key && Rebuilt(kw[1..][k].value, t[k].value, ins)
    ensures var r := [Kwarg(kw[0].key, h)] + t;
      |r| == |kw| && forall k :: 0 <= k < |kw| ==> r[k].key == kw[k].key && Rebuilt(kw[k].value, r[k].value, ins)
  {
    var r := [Kwarg(kw[0].key, h)] + t;
    forall k | 0 <= k < |kw| ensures r[k].key == kw[k].key && Rebuilt(kw[k].value, r[k].value, ins) {
      if k > 0 { assert r[k] == t[k - 1] && kw[k] == kw[1..][k - 1]; }
    }
  }

  lemma RebuiltListCons(cs: seq<Value>, h: Value, t: seq<Value>, ins: seq<InputRecord>)
    requires |cs| > 0 && Rebuilt(cs[0], h, ins) && |t| == |cs| - 1
    requires forall k :: 0 <= k < |t| ==> Rebuilt(cs[1..][k], t[k], ins)
    ensures var r := [h] + t;
      |r| == |cs| && forall k :: 0 <= k < |cs| ==> Rebuilt(cs[k], r[k], ins)
  {
    var r := [h] + t;
    forall k | 0 <= k < |cs| ensures Rebuilt(cs[k], r[k], ins) {
      if k > 0 { assert r[k] == t[k - 1] && cs[k] == cs[1..][k - 1]; }
    }
  }

  /** The connections of a branch keep their tags, and every new input
      stands for the outer value it replaces. */
  lemma {:induction false} WrapConnectionsFrame(env: Env, acc: Wrapping, toolInputs: seq<TInput>, caseId: string,
                                                conns: seq<Kwarg>, cm: seq<Kwarg>)
    requires Remembered(acc)
    ensures var (r, acc') := WrapConnections(env, acc, toolInputs, caseId, conns, cm);
      r.Ok? ==> Remembered(acc') && Extends(acc, acc') && KeySet(r.value) == KeySet(cm) + KeySet(conns)
    decreases |conns|, 2
  {
    if |conns| == 0 {
      SelfExtends(acc);
    } else if IsPythonPrimitive(conns[0].value) {
      var k, v := conns[0].key, conns[0].value;
      KeySetTail(conns);
      AssignKeys(cm, k, v);
      WrapConnectionsFrame(env, acc, toolInputs, caseId, conns[1..], Assign(cm, k, v));
    } else {
      WrapConnectionInput(env, acc, toolInputs, caseId, conns, cm);
    }
  }

  lemma WrapConnectionsKeys(env: Env, acc: Wrapping, toolInputs: seq<TInput>, caseId: string, conns: seq<Kwarg>)
    requires Remembered(acc)
    ensures var r := WrapConnections(env, acc, toolInputs, caseId, conns, []).0;
      r.Ok? ==> KeySet(r.value) == KeySet(conns)
  {
    WrapConnectionsFrame(env, acc, toolInputs, caseId, conns, []);
    assert KeySet([]) == {};
  }

  /** A connection that is not a literal becomes a new input of the
      wrapping workflow: `{case}_{tag}`, with the tool input's type and
      doc, added right after the inputs it had; `workflow_connection_map`
      binds it to the connection's value, and unless the tag comes again
      the step's connection map holds that input under the tag. */
  lemma {:induction false} WrapConnectionInput(env: Env, acc: Wrapping, toolInputs: seq<TInput>, caseId: string,
                                               conns: seq<Kwarg>, cm: seq<Kwarg>)
    requires Remembered(acc) && |conns| > 0 && !IsPythonPrimitive(conns[0].value)
    ensures var (r, acc') := WrapConnections(env, acc, toolInputs, caseId, conns, cm);
      r.Ok? ==> Remembered(acc') && Extends(acc, acc') && KeySet(r.value) == KeySet(cm) + KeySet(conns)
    ensures var (r, acc') := WrapConnections(env, acc, toolInputs, caseId, conns, cm);
      var k := conns[0].key;
      var ident := caseId + "_" + k;
      var toolin := FindInput(toolInputs, k);
      r.Ok? ==>
        && toolin.Some? && |acc'.w.inputNodes| > |acc.w.inputNodes|
        && var x := acc'.w.inputNodes[|acc.w.inputNodes|];
        && x == InputRecord(ident, toolin.value.intype, VNone, VNone, toolin.value.doc)
        && FindInputNode(acc'.w.inputNodes, ident) == Some(x)
        && Lookup(acc'.memo, ident) == Some(conns[0].value)
        && (k !in KeySet(conns[1..]) ==> Lookup(r.value, k) == Some(VNode(NInput(x))))
    decreases |conns|, 1
  {
    var k, v := conns[0].key, conns[0].value;
    var ident := caseId + "_" + k;
    var toolin := FindInput(toolInputs, k);
    if toolin.Some? {
      RememberInput(env, acc, ident, v, toolin.value.intype, toolin.value.doc);
      var (r, w1) := AddInput(env, acc.w, ident, toolin.value.intype, VNone, VNone, toolin.value.doc);
      if r.Ok? {
        var acc1 := Wrapping(w1, Assign(acc.memo, ident, v));
        var cm1 := Assign(cm, k, VNode(NInput(r.value)));
        WrapConnectionRest(env, acc, acc1, toolInputs, caseId, conns, cm, VNode(NInput(r.value)));
        WrapConnectionsFrame(env, acc1, toolInputs, caseId, conns[1..], cm1);
        WrapConnectionsWired(env, acc1, toolInputs, caseId, conns[1..], cm1);
        AssignSpec(cm, k, VNode(NInput(r.value)));
        AssignSpec(acc.memo, ident, v);
        var (t, acc2) := WrapConnections(env, acc1, toolInputs, caseId, conns[1..], cm1);
        if t.Ok? {
          assert acc2.w.inputNodes[..|w1.inputNodes|] == w1.inputNodes;
          assert acc2.w.inputNodes[|acc.w.inputNodes|] == w1.inputNodes[|acc.w.inputNodes|];
          FindInputNodeAppend(acc.w.inputNodes, [r.value], ident);
          FindInputNodeGrows(w1.inputNodes, acc2.w.inputNodes, ident);
          LookupGrows(acc1.memo, acc2.memo, ident);
        }
      }
    }
  }

  /** The remaining connections after the first became a new input. */
  lemma {:induction false} WrapConnectionRest(env: Env, acc: Wrapping, acc1: Wrapping, toolInputs: seq<TInput>, caseId: string,
                                              conns: seq<Kwarg>, cm: seq<Kwarg>, node: Value)
    requires Remembered(acc1) && Extends(acc, acc1) && |conns| > 0
    ensures var (t, acc2) := WrapConnections(env, acc1, toolInputs, caseId, conns[1..], Assign(cm, conns[0].key, node));
      t.Ok? ==> Remembered(acc2) && Extends(acc, acc2) && KeySet(t.value) == KeySet(cm) + KeySet(conns)
    decreases |conns|, 0
  {
    KeySetTail(conns);
    AssignKeys(cm, conns[0].key, node);
    WrapConnectionsFrame(env, acc1, toolInputs, caseId, conns[1..], Assign(cm, conns[0].key, node));
    var (t, acc2) := WrapConnections(env, acc1, toolInputs, caseId, conns[1..], Assign(cm, conns[0].key, node));
    if t.Ok? { ExtendsTrans(acc, acc1, acc2); }
  }

  /** Connection `c` of branch `caseId` as the branch's step `cm` receives
      it in a wrapping workflow with inputs `ins` and connection map
      `memo`: a literal as it was; any other value as the input
      `{case}_{tag}`, of the tool input's type and doc, which `memo` binds
      to that value. */
  predicate Wired(cm: seq<Kwarg>, ins: seq<InputRecord>, memo: seq<Kwarg>, toolInputs: seq<TInput>, caseId: string, c: Kwarg)
  {
    if IsPythonPrimitive(c.value) then Lookup(cm, c.key) == Some(c.value)
    else
      var ident := caseId + "_" + c.key;
      var toolin := FindInput(toolInputs, c.key);
      && toolin.Some?
      && var x := InputRecord(ident, toolin.value.intype, VNone, VNone, toolin.value.doc);
      && FindInputNode(ins, ident) == Some(x)
      && Lookup(cm, c.key) == Some(VNode(NInput(x)))
      && Lookup(memo, ident) == Some(c.value)
  }

  /** A wired connection stays wired as the wrapping grows. */
  lemma WiredGrows(cm: seq<Kwarg>, ins: seq<InputRecord>, memo: seq<Kwarg>, ins': seq<InputRecord>, memo': seq<Kwarg>,
                   toolInputs: seq<TInput>, caseId: string, c: Kwarg)
    requires Wired(cm, ins, memo, toolInputs, caseId, c) && InputsGrow(ins, ins') && MemoGrows(memo, memo')
    ensures Wired(cm, ins', memo', toolInputs, caseId, c)
  {
    if !IsPythonPrimitive(c.value) {
      FindInputNodeGrows(ins, ins', caseId + "_" + c.key);
      LookupGrows(memo, memo', caseId + "_" + c.key);
    }
  }

  /** The loop over a branch's connections: each connection whose tag does
      not come again later is wired as `Wired` says, and entries of the
      connection map for tags the branch does not connect are kept. */
  lemma {:induction false} WrapConnectionsWired(env: Env, acc: Wrapping, toolInputs: seq<TInput>, caseId: string,
                                                conns: seq<Kwarg>, cm: seq<Kwarg>)
    requires Remembered(acc)
    ensures var (r, acc') := WrapConnections(env, acc, toolInputs, caseId, conns, cm);
      r.Ok? ==>
        && (forall j :: j !in KeySet(conns) ==> Lookup(r.value, j) == Lookup(cm, j))
        && (forall i :: 0 <= i < |conns| && conns[i].key !in KeySet(conns[i + 1..]) ==>
              Wired(r.value, acc'.w.inputNodes, acc'.memo, toolInputs, caseId, conns[i]))
    decreases |conns|, 3
  {
    if |conns| > 0 {
      var k, v := conns[0].key, conns[0].value;
      KeySetTail(conns);
      forall i | 1 <= i < |conns| ensures conns[i] == conns[1..][i - 1] && conns[i + 1..] == conns[1..][i..] { }
      if IsPythonPrimitive(v) {
        AssignSpec(cm, k, v);
        WrapConnectionsWired(env, acc, toolInputs, caseId, conns[1..], Assign(cm, k, v));
      } else {
        var ident := caseId + "_" + k;
        var toolin := FindInput(toolInputs, k);
        if toolin.Some? {
          RememberInput(env, acc, ident, v, toolin.value.intype, toolin.value.doc);
          var (r0, w1) := AddInput(env, acc.w, ident, toolin.value.intype, VNone, VNone, toolin.value.doc);
          if r0.Ok? {
            var cm1 := Assign(cm, k, VNode(NInput(r0.value)));
            AssignSpec(cm, k, VNode(NInput(r0.value)));
            WrapConnectionsWired(env, Wrapping(w1, Assign(acc.memo, ident, v)), toolInputs, caseId, conns[1..], cm1);
            WrapConnectionInput(env, acc, toolInputs, caseId, conns, cm);
          }
        }
      }
    }
  }

  /** A branch that wraps without error appends exactly one step: the
      branch's tool, with its connections rewired, under `cond`. */
  lemma WrapStepLast(env: Env, acc: Wrapping, i: nat, tool: Tool, cond: Value)
    requires Remembered(acc)
    ensures var (e, acc') := WrapStep(env, acc, i, tool, cond);
      var cm := WrapConnections(env, acc, InputsMap(tool), CaseId(i), tool.connections, []).0;
      e.None? ==>
        && cm.Ok? && |acc'.w.stepNodes| == |acc.w.stepNodes| + 1
        && acc'.w.stepNodes[|acc.w.stepNodes|].id == CaseId(i)
        && acc'.w.stepNodes[|acc.w.stepNodes|].when == cond
        && acc'.w.stepNodes[|acc.w.stepNodes|].tool == tool.(connections := cm.value)
  {
    var (cm, acc1) := WrapConnections(env, acc, InputsMap(tool), CaseId(i), tool.connections, []);
    WrapConnectionsFrame(env, acc, InputsMap(tool), CaseId(i), tool.connections, []);
    if cm.Ok? {
      var t := tool.(connections := cm.value);
      AddStepOk(env, acc1.w, CaseId(i), t, cond);
      var (r, w2) := AddStep(env, acc1.w, CaseId(i), t, NoScatter, cond, false);
      if r.Ok? {
        assert w2.stepNodes[|acc.w.stepNodes|] == r.value;
      }
    }
  }

  /** A branch becomes one step `switch_case_{i+1}`, appended last, running
      the branch's tool under `cond`. */
  lemma WrapStepSpec(env: Env, acc: Wrapping, i: nat, tool: Tool, cond: Value)
    requires Remembered(acc)
    ensures var (e, acc') := WrapStep(env, acc, i, tool, cond);
      e.None? ==>
        && |acc'.w.stepNodes| == |acc.w.stepNodes| + 1
        && var s := acc'.w.stepNodes[|acc.w.stepNodes|];
           s.id == CaseId(i) && s.when == cond && s.tool.id == tool.id && s.tool.kind == tool.kind
  {
    WrapStepLast(env, acc, i, tool, cond);
  }

  /** The step of a branch has the same connection tags as the branch. */
  lemma WrapStepConnections(env: Env, acc: Wrapping, i: nat, tool: Tool, cond: Value)
    requires Remembered(acc)
    ensures var (e, acc') := WrapStep(env, acc, i, tool, cond);
      e.None? ==>
        && |acc'.w.stepNodes| == |acc.w.stepNodes| + 1
        && KeySet(acc'.w.stepNodes[|acc.w.stepNodes|].tool.connections) == KeySet(tool.connections)
  {
    WrapStepLast(env, acc, i, tool, cond);
    WrapConnectionsKeys(env, acc, InputsMap(tool), CaseId(i), tool.connections);
  }

  /** Wrapping a branch keeps the invariant of the wrapping and changes the
      workflow only by new inputs and the step appended last. */
  lemma WrapStepFrame(env: Env, acc: Wrapping, i: nat, tool: Tool, cond: Value)
    requires Remembered(acc)
    ensures var (e, acc') := WrapStep(env, acc, i, tool, cond);
      e.None? ==>
        && Remembered(acc') && acc'.w.outputNodes == acc.w.outputNodes && acc'.w.id == acc.w.id
        && |acc'.w.stepNodes| == |acc.w.stepNodes| + 1
        && acc'.w.stepNodes[..|acc.w.stepNodes|] == acc.w.stepNodes
  {
    var (cm, acc1) := WrapConnections(env, acc, InputsMap(tool), CaseId(i), tool.connections, []);
    WrapConnectionsFrame(env, acc, InputsMap(tool), CaseId(i), tool.connections, []);
    if cm.Ok? {
      var t := tool.(connections := cm.value);
      AddStepOk(env, acc1.w, CaseId(i), t, cond);
      var (r, w2) := AddStep(env, acc1.w, CaseId(i), t, NoScatter, cond, false);
      if r.Ok? {
        assert w2.stepNodes[..|acc.w.stepNodes|] == acc.w.stepNodes;
      }
    }
  }

  /** The step `s` of branch `j` receives each connection of the branch's
      `tool` (but one whose tag comes again later) as `Wired` says. */
  predicate StepWired(s: StepRecord, tool: Tool, j: nat, ins: seq<InputRecord>, memo: seq<Kwarg>)
  {
    forall k :: 0 <= k < |tool.connections| && tool.connections[k].key !in KeySet(tool.connections[k + 1..]) ==>
      Wired(s.tool.connections, ins, memo, InputsMap(tool), CaseId(j), tool.connections[k])
  }

  lemma StepWiredGrows(s: StepRecord, tool: Tool, j: nat, ins: seq<InputRecord>, memo: seq<Kwarg>,
                       ins': seq<InputRecord>, memo': seq<Kwarg>)
    requires StepWired(s, tool, j, ins, memo) && InputsGrow(ins, ins') && MemoGrows(memo, memo')
    ensures StepWired(s, tool, j, ins', memo')
  {
    forall k | 0 <= k < |tool.connections| && tool.connections[k].key !in KeySet(tool.connections[k + 1..])
      ensures Wired(s.tool.connections, ins', memo', InputsMap(tool), CaseId(j), tool.connections[k])
    {
      WiredGrows(s.tool.connections, ins, memo, ins', memo', InputsMap(tool), CaseId(j), tool.connections[k]);
    }
  }

  /** The step of a wrapped branch receives the branch's connections as
      `Wired` says, and the wrapping only grows. */
  lemma WrapStepWired(env: Env, acc: Wrapping, i: nat, tool: Tool, cond: Value)
    requires Remembered(acc)
    ensures var (e, acc') := WrapStep(env, acc, i, tool, cond);
      e.None? ==>
        && Grows(acc, acc') && |acc'.w.stepNodes| == |acc.w.stepNodes| + 1
        && StepWired(acc'.w.stepNodes[|acc.w.stepNodes|], tool, i, acc'.w.inputNodes, acc'.memo)
  {
    var (cm, acc1) := WrapConnections(env, acc, InputsMap(tool), CaseId(i), tool.connections, []);
    WrapConnectionsFrame(env, acc, InputsMap(tool), CaseId(i), tool.connections, []);
    WrapConnectionsWired(env, acc, InputsMap(tool), CaseId(i), tool.connections, []);
    WrapStepLast(env, acc, i, tool, cond);
    if cm.Ok? {
      var t := tool.(connections := cm.value);
      AddStepSpec(env, acc1.w, CaseId(i), t, NoScatter, cond, false);
      var (r, w2) := AddStep(env, acc1.w, CaseId(i), t, NoScatter, cond, false);
      if r.Ok? {
        var acc' := acc1.(w := w2);
        assert StepWired(acc'.w.stepNodes[|acc.w.stepNodes|], tool, i, acc1.w.inputNodes, acc1.memo);
        SelfExtends(acc1);
        StepWiredGrows(acc'.w.stepNodes[|acc.w.stepNodes|], tool, i, acc1.w.inputNodes, acc1.memo, w2.inputNodes, acc1.memo);
        GrowsTrans(acc, acc1, acc');
      }
    }
  }

  /** Step `s` is branch `j`, running the branch's tool; given the rebuilt
      guards `pcs` of all guarded branches, a guarded branch runs when its
      own guard holds and none of the earlier ones does, the default when
      none of them does. */
  predicate CaseStep(s: StepRecord, c: Case, j: nat, pcs: seq<Value>)
  {
    && s.id == CaseId(j) && s.tool.id == c.tool.id && s.tool.kind == c.tool.kind
    && (c.Guarded? ==> j < |pcs| && s.when == CaseGuard(pcs[..j], pcs[j]))
    && (c.Default? ==> s.when == DefaultGuard(pcs))
  }

  /** The number of guarded branches, when only the last may be a default. */
  function GuardCount(cases: seq<Case>): nat
  {
    |cases| - (if |cases| > 0 && cases[|cases| - 1].Default? then 1 else 0)
  }

  /** The steps the loop over the branches from `i` on leaves: the steps of
      the earlier branches, then one step per remaining branch; the guards
      collected extend those of the earlier branches. */
  predicate StepsWrapped(before: seq<StepRecord>, after: seq<StepRecord>, prev: seq<Value>,
                         cases: seq<Case>, i: nat, pcs: seq<Value>)
  {
    && i <= |cases| && |after| == |cases| && after[..i] == before
    && |pcs| == GuardCount(cases) && i <= |pcs| && pcs[..i] == prev
    && forall j :: i <= j < |cases| ==> CaseStep(after[j], cases[j], j, pcs)
  }

  /** Step `s` of branch `j` in a wrapping workflow with inputs `ins` and
      connection map `memo`: its connections wired as `Wired` says and, for
      a guarded branch, its collected guard `pcs[j]` the branch's guard
      rebuilt over those inputs. */
  predicate BranchBound(s: StepRecord, c: Case, j: nat, pcs: seq<Value>, ins: seq<InputRecord>, memo: seq<Kwarg>)
  {
    && StepWired(s, c.tool, j, ins, memo)
    && (c.Guarded? && j < |pcs| ==> Rebuilt(c.guard, pcs[j], ins))
  }

  lemma BranchBoundGrows(s: StepRecord, c: Case, j: nat, pcs: seq<Value>, ins: seq<InputRecord>, memo: seq<Kwarg>,
                         ins': seq<InputRecord>, memo': seq<Kwarg>)
    requires BranchBound(s, c, j, pcs, ins, memo) && InputsGrow(ins, ins') && MemoGrows(memo, memo')
    ensures BranchBound(s, c, j, pcs, ins', memo')
  {
    StepWiredGrows(s, c.tool, j, ins, memo, ins', memo');
    if c.Guarded? && j < |pcs| { RebuiltGrows(c.guard, pcs[j], ins, ins'); }
  }

  /** What the loop over the branches from `i` on establishes. */
  predicate CasesWrapped(acc: Wrapping, prev: seq<Value>, cases: seq<Case>, i: nat, pcs: seq<Value>, acc': Wrapping)
  {
    && Remembered(acc') && acc'.w.outputNodes == acc.w.outputNodes && acc'.w.id == acc.w.id
    && StepsWrapped(acc.w.stepNodes, acc'.w.stepNodes, prev, cases, i, pcs)
    && Grows(acc, acc')
    && forall j :: i <= j < |cases| ==> BranchBound(acc'.w.stepNodes[j], cases[j], j, pcs, acc'.w.inputNodes, acc'.memo)
  }

  /** One branch: a guarded branch adds its guard, rebuilt over the
      wrapper's inputs, to those collected and runs when it holds and none
      of the earlier ones does; a default runs when none of them does. The
      branch's step receives its connections as `Wired` says. */
  lemma WrapCaseSpec(env: Env, acc: Wrapping, prev: seq<Value>, c: Case, i: nat)
    requires Remembered(acc)
    ensures var (p, acc') := WrapCase(env, acc, prev, c, i);
      p.Ok? ==>
        && Remembered(acc') && acc'.w.outputNodes == acc.w.outputNodes && acc'.w.id == acc.w.id
        && |acc'.w.stepNodes| == |acc.w.stepNodes| + 1
        && acc'.w.stepNodes[..|acc.w.stepNodes|] == acc.w.stepNodes
        && var s := acc'.w.stepNodes[|acc.w.stepNodes|];
        && s.id == CaseId(i) && s.tool.id == c.tool.id && s.tool.kind == c.tool.kind
        && Grows(acc, acc') && StepWired(s, c.tool, i, acc'.w.inputNodes, acc'.memo)
        && (c.Guarded? ==>
              && |p.value| == |prev| + 1 && p.value[..|prev|] == prev && s.when == CaseGuard(prev, p.value[|prev|])
              && p.value[|prev|] == Rebuild(env, acc, c.guard).0.value
              && Rebuilt(c.guard, p.value[|prev|], acc'.w.inputNodes))
        && (c.Default? ==> p.value == prev && s.when == DefaultGuard(prev))
  {
    match c
    case Guarded(g, tool) =>
      RebuildFrame(env, acc, g);
      var (nc, acc1) := Rebuild(env, acc, g);
      if nc.Ok? {
        WrapStepSpec(env, acc1, i, tool, CaseGuard(prev, nc.value));
        WrapStepFrame(env, acc1, i, tool, CaseGuard(prev, nc.value));
        WrapStepWired(env, acc1, i, tool, CaseGuard(prev, nc.value));
        var (e, acc2) := WrapStep(env, acc1, i, tool, CaseGuard(prev, nc.value));
        if e.None? {
          RebuiltGrows(g, nc.value, acc1.w.inputNodes, acc2.w.inputNodes);
          GrowsTrans(acc, acc1, acc2);
        }
        assert (prev + [nc.value])[..|prev|] == prev;
      }
    case Default(tool) =>
      WrapStepSpec(env, acc, i, tool, DefaultGuard(prev));
      WrapStepFrame(env, acc, i, tool, DefaultGuard(prev));
      WrapStepWired(env, acc, i, tool, DefaultGuard(prev));
  }

  /** The loop over the branches from `i` on, when only the last one may be
      a default: branch `j` becomes the step `switch_case_{j+1}`, in order,
      as `CaseStep` says. */
  lemma {:induction false} WrapCasesSpec(env: Env, acc: Wrapping, prev: seq<Value>, cases: seq<Case>, i: nat)
    requires i <= |cases| && Remembered(acc) && |acc.w.stepNodes| == i && |prev| == i <= GuardCount(cases)
    requires forall j :: 0 <= j < |cases| - 1 ==> cases[j].Guarded?
    ensures var (r, acc') := WrapCases(env, acc, prev, cases, i);
      r.Ok? ==> CasesWrapped(acc, prev, cases, i, r.value, acc')
    decreases |cases| - i, 1
  {
    if i == |cases| {
      assert acc.w.stepNodes[..i] == acc.w.stepNodes;
      assert prev[..i] == prev;
      SelfExtends(acc);
    } else if cases[i].Guarded? {
      WrapGuardedCase(env, acc, prev, cases, i);
    } else {
      WrapDefaultCase(env, acc, prev, cases, i);
    }
  }

  /** A guarded branch, then the rest of the loop. */
  lemma {:induction false} WrapGuardedCase(env: Env, acc: Wrapping, prev: seq<Value>, cases: seq<Case>, i: nat)
    requires i < |cases| && cases[i].Guarded?
    requires Remembered(acc) && |acc.w.stepNodes| == i && |prev| == i <= GuardCount(cases)
    requires forall j :: 0 <= j < |cases| - 1 ==> cases[j].Guarded?
    ensures var (r, acc') := WrapCases(env, acc, prev, cases, i);
      r.Ok? ==> CasesWrapped(acc, prev, cases, i, r.value, acc')
    decreases |cases| - i, 0
  {
    WrapCaseSpec(env, acc, prev, cases[i], i);
    var (p, acc1) := WrapCase(env, acc, prev, cases[i], i);
    if p.Ok? {
      var nc := p.value[|prev|];
      assert p.value == prev + [nc];
      GuardCountStep(cases, i);
      WrapCasesSpec(env, acc1, p.value, cases, i + 1);
      var (r, acc') := WrapCases(env, acc1, p.value, cases, i + 1);
      if r.Ok? {
        ComposeGuarded(acc.w.stepNodes, acc1.w.stepNodes, acc'.w.stepNodes, prev, nc, cases, i, r.value);
        ComposeBound(acc, acc1, acc', cases, i, r.value);
      }
    }
  }

  /** The default branch, which is the last. */
  lemma WrapDefaultCase(env: Env, acc: Wrapping, prev: seq<Value>, cases: seq<Case>, i: nat)
    requires i < |cases| && cases[i].Default?
    requires Remembered(acc) && |acc.w.stepNodes| == i && |prev| == i <= GuardCount(cases)
    requires forall j :: 0 <= j < |cases| - 1 ==> cases[j].Guarded?
    ensures var (r, acc') := WrapCases(env, acc, prev, cases, i);
      r.Ok? ==> CasesWrapped(acc, prev, cases, i, r.value, acc')
  {
    WrapCaseSpec(env, acc, prev, cases[i], i);
    var (p, acc1) := WrapCase(env, acc, prev, cases[i], i);
    if p.Ok? {
      assert WrapCases(env, acc1, p.value, cases, i + 1) == (Ok(prev), acc1);
      ComposeDefault(acc.w.stepNodes, acc1.w.stepNodes, prev, cases, i);
      assert BranchBound(acc1.w.stepNodes[i], cases[i], i, prev, acc1.w.inputNodes, acc1.memo);
    }
  }

  lemma GuardCountStep(cases: seq<Case>, i: nat)
    requires i < |cases| && cases[i].Guarded? && i <= GuardCount(cases)
    ensures i + 1 <= GuardCount(cases)
  {
  }

  /** One guarded branch followed by the rest of the loop. */
  lemma ComposeGuarded(before: seq<StepRecord>, mid: seq<StepRecord>, after: seq<StepRecord>,
                       prev: seq<Value>, nc: Value, cases: seq<Case>, i: nat, pcs: seq<Value>)
    requires i < |cases| && cases[i].Guarded? && |before| == i && |prev| == i
    requires |mid| == i + 1 && mid[..i] == before
    requires mid[i].id == CaseId(i) && mid[i].when == CaseGuard(prev, nc)
    requires mid[i].tool.id == cases[i].tool.id && mid[i].tool.kind == cases[i].tool.kind
    requires StepsWrapped(mid, after, prev + [nc], cases, i + 1, pcs)
    ensures StepsWrapped(before, after, prev, cases, i, pcs)
  {
    assert after[..i] == after[..i + 1][..i];
    assert after[i] == after[..i + 1][i];
    assert pcs[..i] == pcs[..i + 1][..i];
    assert pcs[i] == pcs[..i + 1][i];
    assert CaseStep(after[i], cases[i], i, pcs);
  }

  /** A guarded branch's step stays bound, as `BranchBound` says, through
      the rest of the loop. */
  lemma ComposeBound(acc: Wrapping, acc1: Wrapping, acc': Wrapping, cases: seq<Case>, i: nat, pcs: seq<Value>)
    requires i < |cases| && cases[i].Guarded? && |acc.w.stepNodes| == i && |acc1.w.stepNodes| == i + 1
    requires Grows(acc, acc1) && StepWired(acc1.w.stepNodes[i], cases[i].tool, i, acc1.w.inputNodes, acc1.memo)
    requires i < |pcs| && Rebuilt(cases[i].guard, pcs[i], acc1.w.inputNodes)
    requires Grows(acc1, acc') && |acc'.w.stepNodes| == |cases| && acc'.w.stepNodes[..i + 1] == acc1.w.stepNodes
    requires forall j :: i + 1 <= j < |cases| ==> BranchBound(acc'.w.stepNodes[j], cases[j], j, pcs, acc'.w.inputNodes, acc'.memo)
    ensures Grows(acc, acc')
    ensures forall j :: i <= j < |cases| ==> BranchBound(acc'.w.stepNodes[j], cases[j], j, pcs, acc'.w.inputNodes, acc'.memo)
  {
    GrowsTrans(acc, acc1, acc');
    assert acc'.w.stepNodes[i] == acc1.w.stepNodes[i];
    BranchBoundGrows(acc1.w.stepNodes[i], cases[i], i, pcs, acc1.w.inputNodes, acc1.memo, acc'.w.inputNodes, acc'.memo);
  }

  /** The default branch, which ends the loop. */
  lemma ComposeDefault(before: seq<StepRecord>, after: seq<StepRecord>, prev: seq<Value>, cases: seq<Case>, i: nat)
    requires i + 1 == |cases| && cases[i].Default? && |before| == i && |prev| == i
    requires |after| == i + 1 && after[..i] == before
    requires after[i].id == CaseId(i) && after[i].when == DefaultGuard(prev)
    requires after[i].tool.id == cases[i].tool.id && after[i].tool.kind == cases[i].tool.kind
    ensures StepsWrapped(before, after, prev, cases, i, prev)
  {
    assert prev[..i] == prev;
    assert CaseStep(after[i], cases[i], i, prev);
  }

  /** The outputs of the first branch that another tool does not fit, in
      order. */
  lemma {:induction false} NonMatchingSpec(compare: seq<TOutput>, outs: seq<TOutput>)
    ensures NonMatching(compare, outs) == [] <==> forall j :: 0 <= j < |compare| ==> !Incompatible(compare[j], outs)
    ensures forall t :: t in NonMatching(compare, outs) <==>
      exists j :: 0 <= j < |compare| && compare[j].tag == t && Incompatible(compare[j], outs)
  {
    if |compare| > 0 {
      NonMatchingSpec(compare[1..], outs);
      assert forall j :: 1 <= j < |compare| ==> compare[j] == compare[1..][j - 1];
      forall t | t in NonMatching(compare, outs)
        ensures exists j :: 0 <= j < |compare| && compare[j].tag == t && Incompatible(compare[j], outs)
      {
        if !(Incompatible(compare[0], outs) && t == compare[0].tag) {
          var j :| 0 <= j < |compare[1..]| && compare[1..][j].tag == t && Incompatible(compare[1..][j], outs);
          assert compare[j + 1] == compare[1..][j];
        }
      }
    }
  }

  /** The schema check finds nothing exactly when every other tool fits the
      first branch's outputs; each diff it reports names a tool that does
      not, with the offending tags and its extra ones. */
  lemma {:induction false} SchemaDiffsSpec(compare: seq<TOutput>, tools: seq<Tool>)
    ensures SchemaDiffs(compare, tools) == [] <==>
      forall k :: 0 <= k < |tools| ==> NonMatching(compare, OutputsMap(tools[k])) == []
    ensures forall d :: d in SchemaDiffs(compare, tools) ==>
      exists k :: 0 <= k < |tools| && |d.nonMatching| > 0
        && d == SchemaDiff(tools[k].id, NonMatching(compare, OutputsMap(tools[k])),
                           OutputTags(OutputsMap(tools[k])) - OutputTags(compare))
  {
    if |tools| > 0 {
      SchemaDiffsSpec(compare, tools[1..]);
      assert forall k :: 1 <= k < |tools| ==> tools[k] == tools[1..][k - 1];
      forall d | d in SchemaDiffs(compare, tools)
        ensures exists k :: (0 <= k < |tools| && |d.nonMatching| > 0
          && d == SchemaDiff(tools[k].id, NonMatching(compare, OutputsMap(tools[k])),
                             OutputTags(OutputsMap(tools[k])) - OutputTags(compare)))
      {
        var first := SchemaDiff(tools[0].id, NonMatching(compare, OutputsMap(tools[0])),
                                OutputTags(OutputsMap(tools[0])) - OutputTags(compare));
        if !(d == first && |d.nonMatching| > 0) {
          assert d in SchemaDiffs(compare, tools[1..]);
          var k :| 0 <= k < |tools[1..]| && |d.nonMatching| > 0
            && d == SchemaDiff(tools[1..][k].id, NonMatching(compare, OutputsMap(tools[1..][k])),
                               OutputTags(OutputsMap(tools[1..][k])) - OutputTags(compare));
          assert tools[k + 1] == tools[1..][k];
        }
      }
    }
  }

  /** `stp[tag]` over all branch steps succeeds exactly when every step has
      that tag, and gives one step output per step, in order. */
  lemma {:induction false} StepItemsSpec(steps: seq<StepRecord>, tag: string)
    ensures StepItems(steps, tag).Ok? <==> forall k :: 0 <= k < |steps| ==> GetItem(steps[k], tag).Ok?
    ensures StepItems(steps, tag).Ok? ==>
      && |StepItems(steps, tag).value| == |steps|
      && forall k :: 0 <= k < |steps| ==> StepItems(steps, tag).value[k] == VStepOp(NStep(steps[k]), Some(tag))
  {
    if |steps| > 0 {
      StepItemsSpec(steps[1..], tag);
      GetItemSpec(steps[0], tag);
      assert forall k :: 1 <= k < |steps| ==> steps[k] == steps[1..][k - 1];
    }
  }

  /** One output of the wrapping workflow. */
  lemma AddWrapOutput(env: Env, w: WfState, tag: string, source: Value)
    requires Valid(w)
    ensures var (r, w1) := AddOutput(env, w, tag, None, source, VNone, VNone, Some(FirstNonNull));
      r.Ok? ==>
        && Valid(w1) && w1.inputNodes == w.inputNodes && w1.stepNodes == w.stepNodes && w1.id == w.id
        && w1.outputNodes == w.outputNodes + [r.value] && r.value.id == tag && r.value.pickValue == Some(FirstNonNull)
  {
    AddOutputState(env, w, tag, None, source, VNone, VNone, Some(FirstNonNull));
    AddOutputResult(env, w, tag, None, source, VNone, VNone, Some(FirstNonNull));
    AddOutputValid(env, w, tag, None, source, VNone, VNone, Some(FirstNonNull));
  }

  /** The outputs of the wrapping workflow: one per output of the first
      branch, in order, each picking the first non-null value. Nothing but
      the outputs changes. */
  lemma {:induction false} WrapOutputsSpec(env: Env, w: WfState, steps: seq<StepRecord>, outs: seq<TOutput>)
    requires Valid(w)
    ensures var (e, w') := WrapOutputs(env, w, steps, outs);
      e.None? ==>
        && Valid(w') && w'.inputNodes == w.inputNodes && w'.stepNodes == w.stepNodes && w'.id == w.id
        && OutputsAppended(w.outputNodes, w'.outputNodes, outs)
    decreases |outs|
  {
    if |outs| == 0 {
      assert w.outputNodes[..|w.outputNodes|] == w.outputNodes;
    } else {
      var srcs := StepItems(steps, outs[0].tag);
      if srcs.Ok? {
        var source := VList(srcs.value);
        AddWrapOutput(env, w, outs[0].tag, source);
        var (r, w1) := AddOutput(env, w, outs[0].tag, None, source, VNone, VNone, Some(FirstNonNull));
        if r.Ok? {
          WrapOutputsSpec(env, w1, steps, outs[1..]);
          var (e, w') := WrapOutputs(env, w1, steps, outs[1..]);
          if e.None? {
            OutputsAppendedCons(w.outputNodes, r.value, w'.outputNodes, outs);
          }
        }
      }
    }
  }

  /** `after` is `before` followed by one output per element of `outs`,
      named after it and picking the first non-null value. */
  predicate OutputsAppended(before: seq<OutputRecord>, after: seq<OutputRecord>, outs: seq<TOutput>)
  {
    && |after| == |before| + |outs|
    && after[..|before|] == before
    && forall k :: 0 <= k < |outs| ==>
         after[|before| + k].id == outs[k].tag && after[|before| + k].pickValue == Some(FirstNonNull)
  }

  lemma OutputsAppendedCons(before: seq<OutputRecord>, o: OutputRecord, after: seq<OutputRecord>, outs: seq<TOutput>)
    requires |outs| > 0 && o.id == outs[0].tag && o.pickValue == Some(FirstNonNull)
    requires OutputsAppended(before + [o], after, outs[1..])
    ensures OutputsAppended(before, after, outs)
  {
    var n := |before|;
    assert after[..n] == after[..n + 1][..n];
    assert after[n] == after[..n + 1][n];
    forall k | 1 <= k < |outs| ensures after[n + k].id == outs[k].tag {
      assert outs[k] == outs[1..][k - 1];
      assert after[(n + 1) + (k - 1)].id == outs[1..][k - 1].tag;
    }
  }

  /** `wrap_steps_in_workflow`, when only the last branch may be a default:
      a workflow named after the switch step whose steps are the branches
      in order, each under the guard `CaseStep` gives over the rebuilt
      guards `pcs` the loop collects, each such guard the branch's guard
      rebuilt over the wrapper's inputs, and each step's connections wired
      to inputs `switch_case_{j+1}_{tag}` that the tool's connection map
      binds to the branch's values (see `BranchBound`); its outputs are
      those of the first branch picking the first non-null value, and it is
      connected to an outer source for every input it remembered. */
  lemma WrapSpec(env: Env, stepId: string, cases: seq<Case>)
    requires forall j :: 0 <= j < |cases| - 1 ==> cases[j].Guarded?
    ensures !env.validate(stepId) ==> Wrap(env, stepId, cases) == Err(InvalidIdentifier(stepId))
    ensures env.validate(stepId) && |cases| == 0 ==> Wrap(env, stepId, cases) == Err(IndexOutOfRange)
    ensures var t := Wrap(env, stepId, cases);
      t.Ok? ==>
        && t.value.id == stepId && t.value.kind.WorkflowTool? && t.value.container.None?
        && var g := t.value.kind.graph;
        && g.id == stepId
        && |g.steps| == |cases|
        && var pcs := WrapCases(env, Wrapping(Empty(stepId), []), [], cases, 0).0;
        && pcs.Ok? && |pcs.value| == GuardCount(cases)
        && (forall j :: 0 <= j < |cases| ==>
              && CaseStep(g.steps[j], cases[j], j, pcs.value)
              && BranchBound(g.steps[j], cases[j], j, pcs.value, g.inputs, t.value.connections))
        && KeySet(t.value.connections) <= InputIds(g.inputs)
        && OutputsAppended([], g.outputs, OutputsMap(cases[0].tool))
  {
    WrapRefusals(env, stepId, cases);
    WrapResult(env, stepId, cases);
  }

  lemma WrapRefusals(env: Env, stepId: string, cases: seq<Case>)
    ensures !env.validate(stepId) ==> Wrap(env, stepId, cases) == Err(InvalidIdentifier(stepId))
    ensures env.validate(stepId) && |cases| == 0 ==> Wrap(env, stepId, cases) == Err(IndexOutOfRange)
  {
    if env.validate(stepId) && |cases| == 0 {
      assert WrapCases(env, Wrapping(Empty(stepId), []), [], cases, 0) == (Ok([]), Wrapping(Empty(stepId), []));
    }
  }

  lemma {:induction false} WrapResult(env: Env, stepId: string, cases: seq<Case>)
    requires forall j :: 0 <= j < |cases| - 1 ==> cases[j].Guarded?
    ensures var t := Wrap(env, stepId, cases);
      t.Ok? ==>
        && t.value.id == stepId && t.value.kind.WorkflowTool? && t.value.container.None?
        && var g := t.value.kind.graph;
        && g.id == stepId
        && |g.steps| == |cases|
        && var pcs := WrapCases(env, Wrapping(Empty(stepId), []), [], cases, 0).0;
        && pcs.Ok? && |pcs.value| == GuardCount(cases)
        && (forall j :: 0 <= j < |cases| ==>
              && CaseStep(g.steps[j], cases[j], j, pcs.value)
              && BranchBound(g.steps[j], cases[j], j, pcs.value, g.inputs, t.value.connections))
        && KeySet(t.value.connections) <= InputIds(g.inputs)
        && OutputsAppended([], g.outputs, OutputsMap(cases[0].tool))
  {
    if env.validate(stepId) && |cases| > 0 {
      EmptyValid(stepId);
      assert KeySet([]) == {};
      WrapCasesSpec(env, Wrapping(Empty(stepId), []), [], cases, 0);
      var (r, acc) := WrapCases(env, Wrapping(Empty(stepId), []), [], cases, 0);
      if r.Ok? {
        WrapFinish(env, stepId, cases, r.value, acc);
        var (e, w) := WrapOutputs(env, acc.w, acc.w.stepNodes, OutputsMap(cases[0].tool));
        if e.None? {
          assert Wrap(env, stepId, cases) == Ok(Tool(stepId, WorkflowTool(GraphOf(w)), acc.memo, None));
        }
      }
    }
  }

  /** After the branches are wrapped, the outputs of the first branch are
      added and the graph holds the branch steps in order. */
  lemma {:induction false} WrapFinish(env: Env, stepId: string, cases: seq<Case>, pcs: seq<Value>, acc: Wrapping)
    requires |cases| > 0 && CasesWrapped(Wrapping(Empty(stepId), []), [], cases, 0, pcs, acc)
    ensures |acc.w.stepNodes| > 0 && OutputsMap(acc.w.stepNodes[0].tool) == OutputsMap(cases[0].tool)
    ensures var (e, w) := WrapOutputs(env, acc.w, acc.w.stepNodes, OutputsMap(cases[0].tool));
      e.None? ==>
        && w.id == stepId && |w.stepNodes| == |cases| && |pcs| == GuardCount(cases)
        && (forall j :: 0 <= j < |cases| ==> CaseStep(w.stepNodes[j], cases[j], j, pcs))
        && (forall j :: 0 <= j < |cases| ==> BranchBound(w.stepNodes[j], cases[j], j, pcs, w.inputNodes, acc.memo))
        && KeySet(acc.memo) <= InputIds(w.inputNodes)
        && OutputsAppended([], w.outputNodes, OutputsMap(cases[0].tool))
  {
    var steps := acc.w.stepNodes;
    assert CaseStep(steps[0], cases[0], 0, pcs);
    WrapOutputsSpec(env, acc.w, steps, OutputsMap(cases[0].tool));
  }

  /** `Workflow.switch` refuses, before anything changes and in the
      source's order: fewer than two branches, a default that is not last,
      and branches whose outputs do not fit the first branch's. */
  lemma SwitchRefusals(env: Env, st: WfState, stepId: string, cases: seq<Case>)
    ensures var (r, st') := Switch(env, st, stepId, cases);
      && (|cases| <= 1 ==> r == Err(TooFewConditions) && st' == st)
      && (|cases| > 1 && (exists i :: 0 <= i < |cases| - 1 && cases[i].Default?) ==>
            r == Err(DefaultNotLast) && st' == st)
  {
  }

  /** The schema check of `switch`: when some branch does not fit the first
      branch's outputs, `switch` raises with one diff per such branch (see
      `SchemaDiffsSpec`) and changes nothing. */
  lemma SwitchSchemaRefusal(env: Env, st: WfState, stepId: string, cases: seq<Case>)
    requires |cases| > 1 && forall i :: 0 <= i < |cases| - 1 ==> cases[i].Guarded?
    requires exists k :: 1 <= k < |cases| && NonMatching(OutputsMap(cases[0].tool), OutputsMap(cases[k].tool)) != []
    ensures var diffs := SchemaDiffs(OutputsMap(cases[0].tool), CaseTools(cases)[1..]);
      |diffs| > 0 && Switch(env, st, stepId, cases) == (Err(SchemaMismatch(diffs)), st)
  {
    DiffsReported(cases);
    SwitchRefusesDiffs(env, st, stepId, cases);
  }

  /** A branch that does not fit the first gives at least one diff. */
  lemma DiffsReported(cases: seq<Case>)
    requires |cases| > 1
    requires exists k :: 1 <= k < |cases| && NonMatching(OutputsMap(cases[0].tool), OutputsMap(cases[k].tool)) != []
    ensures |SchemaDiffs(OutputsMap(cases[0].tool), CaseTools(cases)[1..])| > 0
  {
    var tools := CaseTools(cases);
    var k :| 1 <= k < |cases| && NonMatching(OutputsMap(cases[0].tool), OutputsMap(cases[k].tool)) != [];
    assert tools[1..][k - 1] == cases[k].tool;
    SchemaDiffsSpec(OutputsMap(cases[0].tool), tools[1..]);
  }

  /** With well-placed guards, diffs make `switch` raise them and change nothing. */
  lemma SwitchRefusesDiffs(env: Env, st: WfState, stepId: string, cases: seq<Case>)
    requires |cases| > 1 && forall i :: 0 <= i < |cases| - 1 ==> cases[i].Guarded?
    requires |SchemaDiffs(OutputsMap(cases[0].tool), CaseTools(cases)[1..])| > 0
    ensures Switch(env, st, stepId, cases) == (Err(SchemaMismatch(SchemaDiffs(OutputsMap(cases[0].tool), CaseTools(cases)[1..]))), st)
  {
    assert CaseTools(cases)[0] == cases[0].tool;
    assert !exists i :: 0 <= i < |cases| - 1 && cases[i].Default?;
  }

  /** On success `switch` adds one unconditional step holding the wrapping
      workflow, last, after checking that every branch fits the first
      branch's outputs; also when it fails, the invariant is kept. */
  lemma SwitchSpec(env: Env, st: WfState, stepId: string, cases: seq<Case>)
    requires Valid(st)
    ensures var (r, st') := Switch(env, st, stepId, cases);
      && Valid(st')
      && (r.Ok? ==>
        && |cases| > 1 && (forall i :: 0 <= i < |cases| - 1 ==> cases[i].Guarded?)
        && (forall k :: 1 <= k < |cases| ==> NonMatching(OutputsMap(cases[0].tool), OutputsMap(cases[k].tool)) == [])
        && Wrap(env, stepId, cases).Ok? && r.value.tool == Wrap(env, stepId, cases).value
        && r.value.id == stepId && r.value.when == VNone
        && st'.stepNodes == st.stepNodes + [r.value])
  {
    SwitchValid(env, st, stepId, cases);
    SwitchShape(env, st, stepId, cases);
    var (r, st') := Switch(env, st, stepId, cases);
    if r.Ok? {
      SwitchFits(cases);
      AddStepOk(env, st, stepId, Wrap(env, stepId, cases).value, VNone);
    }
  }

  /** `switch` keeps the invariant, also when it fails. */
  lemma {:induction false} SwitchValid(env: Env, st: WfState, stepId: string, cases: seq<Case>)
    requires Valid(st)
    ensures Valid(Switch(env, st, stepId, cases).1)
  {
    SwitchState(env, st, stepId, cases);
    var w := Wrap(env, stepId, cases);
    if w.Ok? {
      AddStepValid(env, st, stepId, w.value, NoScatter, VNone, false);
    }
  }

  /** Past its checks, `switch` adds the wrapping workflow as a step. */
  lemma SwitchAddsStep(env: Env, st: WfState, stepId: string, cases: seq<Case>)
    requires |cases| > 1 && forall i :: 0 <= i < |cases| - 1 ==> cases[i].Guarded?
    requires SchemaDiffs(OutputsMap(cases[0].tool), CaseTools(cases[1..])) == []
    requires Wrap(env, stepId, cases).Ok?
    ensures Switch(env, st, stepId, cases) == AddStep(env, st, stepId, Wrap(env, stepId, cases).value, NoScatter, VNone, false)
  {
    assert CaseTools(cases)[1..] == CaseTools(cases[1..]);
    assert !exists i :: 0 <= i < |cases| - 1 && cases[i].Default?;
  }

  /** `switch` either leaves the workflow as it was or adds the wrapping
      workflow as a step. */
  lemma {:induction false} SwitchState(env: Env, st: WfState, stepId: string, cases: seq<Case>)
    ensures || Switch(env, st, stepId, cases).1 == st
            || (&& Wrap(env, stepId, cases).Ok?
                && Switch(env, st, stepId, cases) == AddStep(env, st, stepId, Wrap(env, stepId, cases).value, NoScatter, VNone, false))
  {
  }

  /** A `switch` that succeeds passed all its checks and added the
      wrapping workflow as a step. */
  lemma {:induction false} SwitchShape(env: Env, st: WfState, stepId: string, cases: seq<Case>)
    ensures var (r, st') := Switch(env, st, stepId, cases);
      r.Ok? ==>
        && |cases| > 1 && (forall i :: 0 <= i < |cases| - 1 ==> cases[i].Guarded?)
        && SchemaDiffs(OutputsMap(cases[0].tool), CaseTools(cases)[1..]) == []
        && Wrap(env, stepId, cases).Ok?
        && (r, st') == AddStep(env, st, stepId, Wrap(env, stepId, cases).value, NoScatter, VNone, false)
  {
    if |cases| > 1 {
      assert CaseTools(cases)[0] == cases[0].tool;
    }
  }

  /** A `switch` that succeeds found every branch fitting the first
      branch's outputs. */
  lemma {:induction false} SwitchFits(cases: seq<Case>)
    requires |cases| > 1 && SchemaDiffs(OutputsMap(cases[0].tool), CaseTools(cases)[1..]) == []
    ensures forall k :: 1 <= k < |cases| ==> NonMatching(OutputsMap(cases[0].tool), OutputsMap(cases[k].tool)) == []
  {
    var tools := CaseTools(cases);
    assert forall k :: 1 <= k < |cases| ==> tools[1..][k - 1] == cases[k].tool;
    SchemaDiffsSpec(OutputsMap(cases[0].tool), tools[1..]);
  }
}
