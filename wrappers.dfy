/** Failure-compatible wrappers and the error taxonomy of the compiler.
    Each `Error` constructor stands for one exception the Python code raises;
    its payload keeps the names the exception message lists. */
module Wrappers {

  datatype Option<+T> = None | Some(value: T)

  datatype Result<+T> = Ok(value: T) | Err(error: Error) {
    predicate IsFailure() { Err? }
    function PropagateFailure<U>(): Result<U>
      requires Err?
    {
      Err(error)
    }
    function Extract(): T
      requires Ok?
    {
      value
    }
  }

  datatype Error =
      // types
    | UnhandledPrimitive(primitive: string)
    | InvalidPrimitive(typeId: string)
    | UnknownCwlType(name: string)
    | UnparsableCwlType(className: string)
      // string formatter
    | IncorrectArgs(missing: set<string>)
    | TooManyArgs(unrecognised: set<string>)
    | InvalidByProduct(newParams: set<string>)
    | ConflictingArguments(conflicting: set<string>)
    | FormatChanged(diff: set<string>)
    | UnresolvedValues(unresolved: seq<string>)
      // graph construction
    | ProtectedKeyword(identifier: string)
    | DuplicateNode(identifier: string)
    | InvalidIdentifier(identifier: string)
    | BadScatter
    | UnknownScatterFields(fields: set<string>)
    | UnrecognisedParameters(unrecognisedTags: set<string>)
    | MissingParameters(missingTags: set<string>)
    | IncompatibleValueType(tag: string)
    | TooManyOutputs(nodeId: string)
    | NoOutputs(nodeId: string)
    | UnknownTag(nodeId: string, tag: string)
    | NotASource
    | NoneOutputSource
    | OutputNameIsList
    | OutputSourceNotInput(identifier: string)
    | UnknownInputSelected(input: string)
    | InvalidOutputSourceType
    | UnsupportedConnection
    | AttributeOnList
    | TooFewConditions
    | DefaultNotLast
    | SchemaMismatch(perTool: seq<SchemaDiff>)
    | KeyNotFound(key: string)
    | NotSubscriptable
    | IndexOutOfRange
      // lowering
    | MissingConnection(stepId: string, tag: string)
    | MissingContainer(toolId: string)
    | WildcardAsValue
    | UnconvertibleValue
    | EmptySelection
    | UnimplementedSelector
      // reverse parser
    | ExpressionSource(source: string)
    | UnknownSource(source: string)
    | NotAString
      // generator
    | NotImplementedTemplate(templateType: string)
      // publication checks
    | UnrecognisedToolType(toolType: string)

  /** One tool of a switch whose outputs do not fit the first branch: the
      first branch's tags it lacks or types incompatibly, and the tags it has
      beyond them. */
  datatype SchemaDiff = SchemaDiff(toolId: string, nonMatching: seq<string>, extra: set<string>)

  /** A list comprehension whose element expression may raise: the
      results in order, or the error of the first element that fails. */
  function MapResult<A, B>(f: A -> Result<B>, xs: seq<A>): Result<seq<B>>
  {
    if |xs| == 0 then Ok([])
    else
      var init :- MapResult(f, xs[..|xs| - 1]);
      var last :- f(xs[|xs| - 1]);
      Ok(init + [last])
  }

  /** The comprehension succeeds exactly when every element does, and then
      holds each element's result at that element's position. */
  lemma {:induction false} MapResultSpec<A, B>(f: A -> Result<B>, xs: seq<A>)
    ensures MapResult(f, xs).Ok? <==> forall i :: 0 <= i < |xs| ==> f(xs[i]).Ok?
    ensures MapResult(f, xs).Ok? ==>
      && |MapResult(f, xs).value| == |xs|
      && forall i :: 0 <= i < |xs| ==> MapResult(f, xs).value[i] == f(xs[i]).value
  {
    if |xs| > 0 {
      var init := xs[..|xs| - 1];
      MapResultSpec(f, init);
      assert forall i :: 0 <= i < |init| ==> init[i] == xs[i];
    }
  }

  /** A failing comprehension fails with the error of its first failing
      element. */
  lemma {:induction false} MapResultFirstError<A, B>(f: A -> Result<B>, xs: seq<A>, k: nat)
    requires k < |xs| && f(xs[k]).Err?
    requires forall i :: 0 <= i < k ==> f(xs[i]).Ok?
    ensures MapResult(f, xs) == Err(f(xs[k]).error)
  {
    MapResultSpec(f, xs[..k]);
    assert forall i :: 0 <= i < k ==> xs[..k][i] == xs[i];
    MapResultSnoc(f, xs, k);
    MapResultPrefixError(f, xs, k + 1);
  }

  /** One more element at the end of any list. */
  lemma MapResultAppend<A, B>(f: A -> Result<B>, xs: seq<A>, x: A)
    ensures MapResult(f, xs + [x]) ==
      if MapResult(f, xs).Err? then Err(MapResult(f, xs).error)
      else if f(x).Err? then Err(f(x).error)
      else Ok(MapResult(f, xs).value + [f(x).value])
  {
    assert (xs + [x])[..|xs|] == xs;
    assert (xs + [x])[|xs|] == x;
  }

  /** One more element: the comprehension over `xs[..i + 1]` extends the
      one over `xs[..i]`. */
  lemma MapResultSnoc<A, B>(f: A -> Result<B>, xs: seq<A>, i: nat)
    requires i < |xs|
    ensures MapResult(f, xs[..i + 1]) ==
      if MapResult(f, xs[..i]).Err? then MapResult(f, xs[..i])
      else if f(xs[i]).Err? then Err(f(xs[i]).error)
      else Ok(MapResult(f, xs[..i]).value + [f(xs[i]).value])
  {
    assert xs[..i + 1][..i] == xs[..i];
    assert xs[..i + 1][i] == xs[i];
  }

  /** Once a prefix fails, the whole comprehension fails the same way. */
  lemma {:induction false} MapResultPrefixError<A, B>(f: A -> Result<B>, xs: seq<A>, k: nat)
    requires k <= |xs| && MapResult(f, xs[..k]).Err?
    ensures MapResult(f, xs) == MapResult(f, xs[..k])
    decreases |xs| - k
  {
    if k < |xs| {
      assert xs[..k + 1][..k] == xs[..k];
      MapResultPrefixError(f, xs, k + 1);
    } else {
      assert xs[..k] == xs;
    }
  }
}
