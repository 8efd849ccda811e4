/** The publication checklist of `ToolEvaluator`: each check passes or
    names what is missing, and the checks of a command or code tool are
    read into one verdict. */
module ToolEvaluation {
  import opened Wrappers
  import opened Strings
  import opened Generator

  /** What a check returns: `True`, or the message of what is wrong. */
  datatype Verdict = Pass | Fail(message: string)

  /** The checks' results under their keys, in insertion order. */
  type Evaluation = seq<(string, Verdict)>

  datatype ToolKind = WorkflowKind | CommandToolKind | CodeToolKind | OtherKind(name: string)

  /** The tool's `metadata` attribute: a `ToolMetadata` with the three
      fields the check reads, or an object of another class. */
  datatype Metadata =
    | ToolMetadata(contributors: PyValue, dateCreated: PyValue, institution: PyValue)
    | OtherMetadata

  /** What the checks ask of a tool; `digestFound` stands for the registry
      lookup of a container image. */
  datatype ToolFacts = ToolFacts(
    kind: ToolKind,
    friendlyName: Option<string>,
    metadata: Metadata,
    tests: PyValue,
    container: Option<string>,
    digestFound: string -> bool)

  // ---------------------------------------------------------------------
  // The single checks
  // ---------------------------------------------------------------------

  const MissingFriendlyName: string := "Missing friendly name"
  /** The message as the source spells it. */
  const MissingUnitTests: string := "Mising unit tests"
  const IncorrectMetadataClass: string := "Incorrect metadata class"

  function EvaluateFriendlyName(friendlyName: Option<string>): (r: Verdict)
    ensures r == Fail(MissingFriendlyName) <==> friendlyName.None?
    ensures r.Pass? <==> friendlyName.Some?
  {
    if friendlyName.None? then Fail(MissingFriendlyName) else Pass
  }

  function EvaluateUnitTestExists(tests: PyValue): (r: Verdict)
    ensures r == Fail(MissingUnitTests) <==> !Truthy(tests)
    ensures r.Pass? <==> Truthy(tests)
  {
    if Truthy(tests) then Pass else Fail(MissingUnitTests)
  }

  /** A tool without a container passes; otherwise its image must be found. */
  function EvaluateContainer(container: Option<string>, digestFound: string -> bool): (r: Verdict)
    ensures container.None? ==> r.Pass?
    ensures container.Some? ==> (r.Pass? <==> digestFound(container.value))
    ensures r.Fail? ==> r.message == "image " + container.value + " not found"
  {
    if container.None? then Pass
    else if digestFound(container.value) then Pass
    else Fail("image " + container.value + " not found")
  }

  /** The three required metadata fields under the names the message uses. */
  function RequiredFields(m: Metadata): seq<(string, PyValue)>
    requires m.ToolMetadata?
  {
    [("contributors", m.contributors), ("created date", m.dateCreated), ("institution", m.institution)]
  }

  /** The names of the falsy fields, in order. */
  function MissingFields(fields: seq<(string, PyValue)>): seq<string>
  {
    if |fields| == 0 then []
    else MissingFields(fields[..|fields| - 1]) + MissingName(fields[|fields| - 1])
  }

  /** `evaluate_metadata` on its required fields. */
  function MetadataVerdict(m: Metadata): Verdict
  {
    if m.OtherMetadata? then Fail(IncorrectMetadataClass)
    else
      var missing := MissingFields(RequiredFields(m));
      if missing == [] then Pass else Fail("Missing metadata: " + Join(missing, ", "))
  }

  /** `evaluate_metadata`, looping over the required fields and appending
      the falsy ones. */
  method EvaluateMetadata(m: Metadata) returns (r: Verdict)
    ensures r == MetadataVerdict(m)
  {
    if m.OtherMetadata? {
      return Fail(IncorrectMetadataClass);
    }
    var required := RequiredFields(m);
    var missing: seq<string> := [];
    var i := 0;
    while i < |required|
      invariant 0 <= i <= |required|
      invariant missing == MissingFields(required[..i])
    {
      var (key, field) := required[i];
      if field == PNone || !Truthy(field) {
        missing := missing + [key];
      }
      assert required[..i + 1][..i] == required[..i];
      i := i + 1;
    }
    assert required[..i] == required;
    if missing != [] {
      return Fail("Missing metadata: " + Join(missing, ", "));
    }
    return Pass;
  }

  /** The missing fields are exactly the falsy ones, in order. */
  lemma {:induction false} MissingFieldsSpec(fields: seq<(string, PyValue)>)
    ensures |MissingFields(fields)| <= |fields|
    ensures forall i :: 0 <= i < |fields| && !Truthy(fields[i].1) ==> fields[i].0 in MissingFields(fields)
    ensures forall k :: k in MissingFields(fields) ==> exists i :: 0 <= i < |fields| && fields[i].0 == k && !Truthy(fields[i].1)
    ensures MissingFields(fields) == [] <==> forall i :: 0 <= i < |fields| ==> Truthy(fields[i].1)
  {
    if |fields| > 0 {
      var init := fields[..|fields| - 1];
      MissingFieldsSpec(init);
      forall k | k in MissingFields(fields)
        ensures exists i :: 0 <= i < |fields| && fields[i].0 == k && !Truthy(fields[i].1)
      {
        if k in MissingFields(init) {
          var i :| 0 <= i < |init| && init[i].0 == k && !Truthy(init[i].1);
          assert fields[i] == init[i];
        } else {
          assert fields[|fields| - 1].0 == k && !Truthy(fields[|fields| - 1].1);
        }
      }
      forall i | 0 <= i < |fields| && !Truthy(fields[i].1) ensures fields[i].0 in MissingFields(fields) {
        if i < |init| { assert init[i] == fields[i]; }
      }
      if MissingFields(fields) == [] {
        forall i | 0 <= i < |fields| ensures Truthy(fields[i].1) {
          if i < |init| { assert init[i] == fields[i]; }
        }
      }
    }
  }

  /** The falsy field's name, or nothing. */
  function MissingName(field: (string, PyValue)): seq<string>
  {
    if Truthy(field.1) then [] else [field.0]
  }

  /** The missing fields of three fields, one after another. */
  lemma MissingFieldsThree(f: seq<(string, PyValue)>)
    requires |f| == 3
    ensures MissingFields(f) == MissingName(f[0]) + MissingName(f[1]) + MissingName(f[2])
  {
    assert f[..2][..1] == f[..1] && f[..1][..0] == [] && f[..3] == f;
    assert MissingFields(f[..1]) == MissingName(f[0]);
    assert MissingFields(f[..2]) == MissingName(f[0]) + MissingName(f[1]);
  }

  /** Metadata passes exactly when it is a `ToolMetadata` whose contributors,
      creation date and institution are all truthy; the message lists the
      missing ones in that order. */
  lemma MetadataVerdictSpec(m: Metadata)
    ensures MetadataVerdict(m).Pass? <==>
      m.ToolMetadata? && Truthy(m.contributors) && Truthy(m.dateCreated) && Truthy(m.institution)
    ensures m.OtherMetadata? ==> MetadataVerdict(m) == Fail(IncorrectMetadataClass)
    ensures m.ToolMetadata? ==>
      MissingFields(RequiredFields(m)) ==
        MissingName(("contributors", m.contributors)) + MissingName(("created date", m.dateCreated))
          + MissingName(("institution", m.institution))
  {
    if m.ToolMetadata? {
      MissingFieldsThree(RequiredFields(m));
    }
  }

  /** Joining three parts puts the separator between each pair. */
  lemma JoinThree(a: string, b: string, c: string, sep: string)
    ensures Join([a, b, c], sep) == a + sep + b + sep + c
  {
    assert [a, b, c][1..] == [b, c] && [b, c][1..] == [c];
    assert Join([b, c], sep) == b + sep + c;
    assert a + sep + (b + sep + c) == a + sep + b + sep + c;
  }

  /** Metadata with none of the three fields names all three, in order. */
  lemma NoMetadataFields(m: Metadata)
    requires m.ToolMetadata? && !Truthy(m.contributors) && !Truthy(m.dateCreated) && !Truthy(m.institution)
    ensures MetadataVerdict(m) == Fail("Missing metadata: " + "contributors" + ", " + "created date" + ", " + "institution")
  {
    MetadataVerdictSpec(m);
    JoinThree("contributors", "created date", "institution", ", ");
  }

  // ---------------------------------------------------------------------
  // Reading the evaluation
  // ---------------------------------------------------------------------

  /** The failure messages, in evaluation order. */
  function Failures(ev: Evaluation): seq<string>
  {
    if |ev| == 0 then []
    else Failures(ev[..|ev| - 1]) + (if ev[|ev| - 1].1.Fail? then [ev[|ev| - 1].1.message] else [])
  }

  /** `_read_evaluation`: `True` when nothing failed, else the messages
      joined by `; `. */
  function ReadEvaluation(ev: Evaluation): Verdict
  {
    var errors := Failures(ev);
    if errors == [] then Pass else Fail(Join(errors, "; "))
  }

  /** `_read_evaluation`, looping over the keys and appending each result
      that is not `True`. */
  method ReadEvaluationLoop(ev: Evaluation) returns (r: Verdict)
    ensures r == ReadEvaluation(ev)
  {
    var errors: seq<string> := [];
    var i := 0;
    while i < |ev|
      invariant 0 <= i <= |ev|
      invariant errors == Failures(ev[..i])
    {
      if ev[i].1 != Pass {
        errors := errors + [ev[i].1.message];
      }
      assert ev[..i + 1][..i] == ev[..i];
      i := i + 1;
    }
    assert ev[..i] == ev;
    if errors == [] {
      return Pass;
    }
    return Fail(Join(errors, "; "));
  }

  /** Failures of two evaluations run one after the other. */
  lemma {:induction false} FailuresConcat(a: Evaluation, b: Evaluation)
    ensures Failures(a + b) == Failures(a) + Failures(b)
    decreases |b|
  {
    if |b| > 0 {
      FailuresConcat(a, b[..|b| - 1]);
      assert (a + b)[..|a + b| - 1] == a + b[..|b| - 1];
      assert (a + b)[|a + b| - 1] == b[|b| - 1];
    } else {
      assert a + b == a;
    }
  }

  /** The evaluation passes exactly when every check passed. */
  lemma {:induction false} ReadEvaluationSpec(ev: Evaluation)
    ensures ReadEvaluation(ev).Pass? <==> forall i :: 0 <= i < |ev| ==> ev[i].1.Pass?
    ensures ReadEvaluation(ev).Fail? ==> ReadEvaluation(ev).message == Join(Failures(ev), "; ")
    decreases |ev|
  {
    if |ev| > 0 {
      var init := ev[..|ev| - 1];
      ReadEvaluationSpec(init);
      if forall i :: 0 <= i < |ev| ==> ev[i].1.Pass? {
        assert forall i :: 0 <= i < |init| ==> init[i] == ev[i];
      } else {
        var i :| 0 <= i < |ev| && !ev[i].1.Pass?;
        if i < |init| { assert init[i] == ev[i]; }
      }
    }
  }

  // ---------------------------------------------------------------------
  // The evaluator
  // ---------------------------------------------------------------------

  /** `evaluate_generic`; the translation check writes files and always
      returns `True`. */
  function EvaluateGeneric(tool: ToolFacts): (ev: Evaluation)
    ensures |ev| == 5
    ensures ev[0].0 == "friendly_name" && ev[1].0 == "metadata" && ev[2].0 == "unit_tests_exists"
    ensures ev[3].0 == "container" && ev[4].0 == "translation"
  {
    [ ("friendly_name", EvaluateFriendlyName(tool.friendlyName)),
      ("metadata", MetadataVerdict(tool.metadata)),
      ("unit_tests_exists", EvaluateUnitTestExists(tool.tests)),
      ("container", EvaluateContainer(tool.container, tool.digestFound)),
      ("translation", Pass) ]
  }

  /** `ToolEvaluator.evaluate`: workflows always pass, command and code
      tools are read from their generic evaluation, other types raise. */
  function Evaluate(tool: ToolFacts): Result<Verdict>
  {
    match tool.kind
    case WorkflowKind => Ok(Pass)
    case CommandToolKind => Ok(ReadEvaluation(EvaluateGeneric(tool)))
    case CodeToolKind => Ok(ReadEvaluation(EvaluateGeneric(tool)))
    case OtherKind(name) => Err(UnrecognisedToolType(name))
  }

  /** A tool passes exactly when it is a workflow, or a command or code tool
      with a friendly name, full metadata, unit tests and a container that
      is absent or found; a failing tool's message lists the failures in
      key order. */
  lemma EvaluateSpec(tool: ToolFacts)
    ensures tool.kind.WorkflowKind? ==> Evaluate(tool) == Ok(Pass)
    ensures tool.kind.OtherKind? ==> Evaluate(tool).Err?
    ensures (tool.kind.CommandToolKind? || tool.kind.CodeToolKind?) ==>
      (Evaluate(tool) == Ok(Pass) <==>
        && tool.friendlyName.Some?
        && MetadataVerdict(tool.metadata).Pass?
        && Truthy(tool.tests)
        && EvaluateContainer(tool.container, tool.digestFound).Pass?)
    ensures (tool.kind.CommandToolKind? || tool.kind.CodeToolKind?) && Evaluate(tool).value.Fail? ==>
      Evaluate(tool).value.message == Join(Failures(EvaluateGeneric(tool)), "; ")
  {
    var ev := EvaluateGeneric(tool);
    ReadEvaluationSpec(ev);
    assert ev[0].1 == EvaluateFriendlyName(tool.friendlyName);
    assert ev[2].1 == EvaluateUnitTestExists(tool.tests);
  }

  /** A command tool missing only its unit tests fails with the unit-test
      message alone. */
  lemma OnlyTestsMissing(tool: ToolFacts)
    requires tool.kind.CommandToolKind? && tool.friendlyName.Some? && MetadataVerdict(tool.metadata).Pass?
    requires !Truthy(tool.tests) && tool.container.None?
    ensures Evaluate(tool) == Ok(Fail(MissingUnitTests))
  {
    var ev := EvaluateGeneric(tool);
    assert ev[..1] == [ev[0]] && ev[..2] == ev[..1] + [ev[1]] && ev[..3] == ev[..2] + [ev[2]];
    assert ev[..4] == ev[..3] + [ev[3]] && ev == ev[..4] + [ev[4]];
    assert Failures(ev[..1]) == [];
    assert Failures(ev[..2]) == [];
    assert Failures(ev[..3]) == [MissingUnitTests];
    assert Failures(ev[..4]) == [MissingUnitTests];
    assert Failures(ev) == [MissingUnitTests];
  }
}
