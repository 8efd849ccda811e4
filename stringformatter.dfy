/** The `StringFormatter` operator: a format string with `{key}`
    placeholders, checked at construction against its kwargs, resolved to a
    literal once every kwarg has a primitive value, and concatenated with
    strings, selectors and other formatters. */
module StringFormatters {
  import opened Wrappers
  import opened Strings
  import opened Ir

  /** `get_keywords_between_braces`: the placeholder names of a format and
      its brace balance. Its definition is not part of this model, so every
      operation that scans takes it as a parameter. */
  type Scanner = string -> (set<string>, int)

  /** Python's `==` between two kwarg values. Strings and numbers compare by
      value; other objects compare as their class defines, so two
      separately built selectors need not be equal. */
  type ValueEquality = (Value, Value) -> bool

  const ImbalanceWarning: string :=
    "There was an imbalance of braces in the string _format, this might cause issues with concatenation"

  function Placeholder(key: string): string { "{" + key + "}" }

  /** `StringFormatter(format, **kwargs)`: the placeholders must be exactly
      the kwargs' keys. */
  function New(scan: Scanner, format: string, kwargs: seq<Kwarg>): Result<Formatter>
  {
    var keywords := scan(format).0;
    var skwargs := KeySet(kwargs);
    if keywords == skwargs then Ok(Formatter(format, kwargs))
    else if !(keywords <= skwargs) then Err(IncorrectArgs(keywords - skwargs))
    else Err(TooManyArgs(skwargs - keywords))
  }

  /** What the constructor logs: a warning when the braces do not balance. */
  function NewWarnings(scan: Scanner, format: string): (w: seq<string>)
    ensures |w| > 0 <==> scan(format).1 > 0
  {
    if scan(format).1 > 0 then [ImbalanceWarning] else []
  }

  /** Construction succeeds exactly on an exact match and then stores the
      kwargs; a placeholder without a kwarg is reported as missing, and
      kwargs that strictly contain the placeholders as unrecognised. */
  lemma NewSpec(scan: Scanner, format: string, kwargs: seq<Kwarg>)
    ensures New(scan, format, kwargs).Ok? <==> scan(format).0 == KeySet(kwargs)
    ensures New(scan, format, kwargs).Ok? ==> New(scan, format, kwargs).value == Formatter(format, kwargs)
    ensures !(scan(format).0 <= KeySet(kwargs)) <==>
      New(scan, format, kwargs) == Err(IncorrectArgs(scan(format).0 - KeySet(kwargs)))
    ensures scan(format).0 < KeySet(kwargs) <==>
      New(scan, format, kwargs) == Err(TooManyArgs(KeySet(kwargs) - scan(format).0))
  {
  }

  /** The value types `resolve_with_resolved_values` accepts: `str`, `int`
      (and so `bool`, a subclass of `int`) and `float`. */
  predicate Resolvable(v: Value)
  {
    v.VStr? || v.VInt? || v.VBool? || v.VFloat?
  }

  /** Python's `str(v)` for a resolvable value. */
  function StrOf(v: Value): string
    requires Resolvable(v)
  {
    match v
    case VStr(s) => s
    case VInt(i) => IntToString(i)
    case VBool(b) => if b then "True" else "False"
    case VFloat(t) => t
  }

  /** The supplied keys whose value is not resolvable, in order. */
  function UnresolvedKeys(values: seq<Kwarg>): (r: seq<string>)
    ensures |r| == 0 <==> forall i :: 0 <= i < |values| ==> Resolvable(values[i].value)
  {
    if |values| == 0 then []
    else
      var rest := UnresolvedKeys(values[1..]);
      assert forall i :: 1 <= i < |values| ==> values[i] == values[1..][i - 1];
      if Resolvable(values[0].value) then rest else [values[0].key] + rest
  }

  predicate AllResolvable(values: seq<Kwarg>)
  {
    forall i :: 0 <= i < |values| ==> Resolvable(values[i].value)
  }

  /** Replace every `{k}` by `str(v)`, one supplied value after another. */
  function ReplaceEach(s: string, values: seq<Kwarg>): string
    requires AllResolvable(values)
    decreases values
  {
    if |values| == 0 then s
    else ReplaceEach(ReplaceAll(s, Placeholder(values[0].key), StrOf(values[0].value)), values[1..])
  }

  /** `resolve_with_resolved_values`: the stored kwargs must still be the
      format's placeholders, every one of them must be supplied, and every
      supplied value must be resolvable. */
  function Resolve(scan: Scanner, f: Formatter, values: seq<Kwarg>): Result<string>
  {
    var s1 := KeySet(f.kwargs);
    var actual := scan(f.format).0;
    if s1 != actual then Err(FormatChanged((actual - s1) + (s1 - actual)))
    else if !(s1 <= KeySet(values)) then Err(IncorrectArgs(s1 - KeySet(values)))
    else if |UnresolvedKeys(values)| > 0 then Err(UnresolvedValues(UnresolvedKeys(values)))
    else Ok(ReplaceEach(f.format, values))
  }

  /** The value-by-value loop of `resolve_with_resolved_values`. */
  method ResolveWithResolvedValues(scan: Scanner, f: Formatter, values: seq<Kwarg>) returns (r: Result<string>)
    ensures r == Resolve(scan, f, values)
  {
    var s1 := KeySet(f.kwargs);
    var actual := scan(f.format).0;
    if s1 != actual {
      return Err(FormatChanged((actual - s1) + (s1 - actual)));
    }
    if !(s1 <= KeySet(values)) {
      return Err(IncorrectArgs(s1 - KeySet(values)));
    }
    var unresolved: seq<string> := [];
    var i := |values|;
    while i > 0
      invariant 0 <= i <= |values|
      invariant unresolved == UnresolvedKeys(values[i..])
    {
      i := i - 1;
      assert values[i..][1..] == values[i + 1..];
      if !Resolvable(values[i].value) {
        unresolved := [values[i].key] + unresolved;
      }
    }
    assert values[0..] == values;
    if |unresolved| > 0 {
      return Err(UnresolvedValues(unresolved));
    }
    var retval := f.format;
    var j := 0;
    while j < |values|
      invariant 0 <= j <= |values|
      invariant AllResolvable(values[j..])
      invariant ReplaceEach(retval, values[j..]) == ReplaceEach(f.format, values)
    {
      assert values[j..][1..] == values[j + 1..];
      retval := ReplaceAll(retval, Placeholder(values[j].key), StrOf(values[j].value));
      j := j + 1;
    }
    r := Ok(retval);
  }

  /** Each error of `resolve` in both directions, checked in the source's
      order: a changed format, a stored key not supplied, then any supplied
      value that is not a `str`, `int` or `float`. */
  lemma ResolveErrors(scan: Scanner, f: Formatter, values: seq<Kwarg>)
    ensures KeySet(f.kwargs) != scan(f.format).0 <==> Resolve(scan, f, values).Err? && Resolve(scan, f, values).error.FormatChanged?
    ensures KeySet(f.kwargs) == scan(f.format).0 ==>
      (!(KeySet(f.kwargs) <= KeySet(values)) <==> Resolve(scan, f, values) == Err(IncorrectArgs(KeySet(f.kwargs) - KeySet(values))))
    ensures KeySet(f.kwargs) == scan(f.format).0 && KeySet(f.kwargs) <= KeySet(values) ==>
      ((exists i :: 0 <= i < |values| && !Resolvable(values[i].value)) <==> Resolve(scan, f, values).Err?)
    ensures Resolve(scan, f, values).Ok? ==>
      KeySet(f.kwargs) <= KeySet(values) && AllResolvable(values) && Resolve(scan, f, values).value == ReplaceEach(f.format, values)
  {
  }

  /** A format containing none of the supplied placeholders resolves to
      itself. */
  lemma {:induction false} ReplaceEachAbsent(s: string, values: seq<Kwarg>)
    requires AllResolvable(values)
    requires forall i :: 0 <= i < |values| ==> !Contains(s, Placeholder(values[i].key))
    ensures ReplaceEach(s, values) == s
  {
    if |values| > 0 {
      ReplaceAbsent(s, Placeholder(values[0].key), StrOf(values[0].value));
      assert forall i :: 0 <= i < |values[1..]| ==> values[1..][i] == values[i + 1];
      ReplaceEachAbsent(s, values[1..]);
    }
  }

  lemma ResolveWithoutPlaceholders(scan: Scanner, f: Formatter, values: seq<Kwarg>)
    requires Resolve(scan, f, values).Ok?
    requires forall i :: 0 <= i < |values| ==> !Contains(f.format, Placeholder(values[i].key))
    ensures Resolve(scan, f, values) == Ok(f.format)
  {
    ReplaceEachAbsent(f.format, values);
  }

  /** With one supplied value, resolution cuts the format at every `{k}` and
      joins the pieces with `str(v)`. */
  lemma ResolveOne(scan: Scanner, f: Formatter, k: string, v: Value)
    requires Resolve(scan, f, [Kwarg(k, v)]).Ok?
    ensures Resolvable(v)
    ensures Resolve(scan, f, [Kwarg(k, v)]).value == Join(SplitOn(f.format, Placeholder(k)), StrOf(v))
  {
    var r := ReplaceAll(f.format, Placeholder(k), StrOf(v));
    assert [Kwarg(k, v)][1..] == [];
    assert ReplaceEach(f.format, [Kwarg(k, v)]) == ReplaceEach(r, []) == r;
    ReplaceIsSplitJoin(f.format, Placeholder(k), StrOf(v));
  }

  /** Python's `str(v)` for any kwarg value; a nested formatter shows as its
      own `repr`, and the other objects through `show` (their `__repr__`
      methods are not part of this model). */
  function Show(v: Value, show: Value -> string): string
    decreases v, 0
  {
    match v
    case VStr(s) => s
    case VInt(i) => IntToString(i)
    case VBool(b) => if b then "True" else "False"
    case VFloat(t) => t
    case VNone => "None"
    case VFormat(g) => ReprOf(g, show)
    case _ => show(v)
  }

  /** `StringFormatter.__repr__`: every `{k}` becomes `{str(v)}`. */
  function ReprOf(f: Formatter, show: Value -> string): string
    decreases f, 2
  {
    ReprEach(f.format, f.kwargs, show)
  }

  function ReprEach(s: string, kw: seq<Kwarg>, show: Value -> string): string
    decreases kw, 1
  {
    if |kw| == 0 then s
    else ReprEach(ReplaceAll(s, Placeholder(kw[0].key), "{" + Show(kw[0].value, show) + "}"), kw[1..], show)
  }

  /** The loop of `__repr__`. */
  method Repr(f: Formatter, show: Value -> string) returns (val: string)
    ensures val == ReprOf(f, show)
  {
    val := f.format;
    var i := 0;
    while i < |f.kwargs|
      invariant 0 <= i <= |f.kwargs|
      invariant ReprEach(val, f.kwargs[i..], show) == ReprOf(f, show)
    {
      var kw := f.kwargs[i];
      assert f.kwargs[i..][1..] == f.kwargs[i + 1..];
      val := ReplaceAll(val, Placeholder(kw.key), "{" + Show(kw.value, show) + "}");
      i := i + 1;
    }
  }

  /** `repr` keeps the braces: a formatter without kwargs shows its format,
      and a single kwarg `k` turns each `{k}` into `{str(v)}`. */
  lemma ReprSpec(f: Formatter, show: Value -> string)
    ensures |f.kwargs| == 0 ==> ReprOf(f, show) == f.format
    ensures |f.kwargs| == 1 ==>
      ReprOf(f, show) == Join(SplitOn(f.format, Placeholder(f.kwargs[0].key)), "{" + Show(f.kwargs[0].value, show) + "}")
  {
    if |f.kwargs| == 1 {
      var k := f.kwargs[0];
      var r := ReplaceAll(f.format, Placeholder(k.key), "{" + Show(k.value, show) + "}");
      assert f.kwargs[1..] == [];
      assert ReprEach(f.format, f.kwargs, show) == ReprEach(r, [], show) == r;
      ReplaceIsSplitJoin(f.format, Placeholder(k.key), "{" + Show(k.value, show) + "}");
    }
  }

  /** The operator values `get_leaves` descends into. A `StepOperator` or
      `InputOperator` is kept whole as a leaf. */
  predicate IsCompound(v: Value)
  {
    v.VFormat? || v.Op1? || v.Op2? || v.OrPrev? || v.OpOther?
  }

  /** `get_leaves`: the kwarg values in insertion order, each nested
      operator replaced by its own leaves. */
  function Leaves(f: Formatter): seq<Value>
    decreases f, 2
  {
    KwargLeaves(f.kwargs)
  }

  function KwargLeaves(kw: seq<Kwarg>): seq<Value>
    decreases kw, 1
  {
    if |kw| == 0 then [] else ValueLeaves(kw[0].value) + KwargLeaves(kw[1..])
  }

  function ValueLeaves(v: Value): seq<Value>
    decreases v, 0
  {
    match v
    case VFormat(g) => Leaves(g)
    case Op1(_, a) => ValueLeaves(a)
    case Op2(_, a, b) => ValueLeaves(a) + ValueLeaves(b)
    case OrPrev(cs) => ListLeaves(cs)
    case OpOther(_, args) => ListLeaves(args)
    case _ => [v]
  }

  function ListLeaves(vs: seq<Value>): seq<Value>
    decreases vs, 1
  {
    if |vs| == 0 then [] else ValueLeaves(vs[0]) + ListLeaves(vs[1..])
  }

  /** The loop of `get_leaves`, descending into nested formatters by
      calling itself. */
  method GetLeaves(f: Formatter) returns (leaves: seq<Value>)
    ensures leaves == Leaves(f)
    decreases f
  {
    leaves := [];
    var i := 0;
    while i < |f.kwargs|
      invariant 0 <= i <= |f.kwargs|
      invariant leaves + KwargLeaves(f.kwargs[i..]) == Leaves(f)
    {
      var a := f.kwargs[i].value;
      assert f.kwargs[i] in f.kwargs;
      var more;
      if a.VFormat? {
        more := GetLeaves(a.f);
      } else {
        more := ValueLeaves(a);
      }
      KwargLeavesNext(f.kwargs, i, leaves, more, Leaves(f));
      leaves := leaves + more;
      i := i + 1;
    }
  }

  /** One more keyword argument of the loop of `GetLeaves`. */
  lemma KwargLeavesNext(kw: seq<Kwarg>, i: nat, leaves: seq<Value>, more: seq<Value>, all: seq<Value>)
    requires i < |kw| && leaves + KwargLeaves(kw[i..]) == all
    requires more == ValueLeaves(kw[i].value)
    ensures leaves + more + KwargLeaves(kw[i + 1..]) == all
  {
    assert kw[i..][1..] == kw[i + 1..];
    var rest := KwargLeaves(kw[i + 1..]);
    assert leaves + more + rest == leaves + (more + rest);
  }

  /** No leaf is itself an operator that `get_leaves` would descend into. */
  lemma {:induction false} ValueLeavesFlat(v: Value)
    ensures forall i :: 0 <= i < |ValueLeaves(v)| ==> !IsCompound(ValueLeaves(v)[i])
    decreases v, 0
  {
    match v
    case VFormat(g) =>
      assert ValueLeaves(v) == KwargLeaves(g.kwargs);
      KwargLeavesFlat(g.kwargs);
    case Op1(_, a) => ValueLeavesFlat(a);
    case Op2(_, a, b) => ValueLeavesFlat(a); ValueLeavesFlat(b);
    case OrPrev(cs) => ListLeavesFlat(cs);
    case OpOther(_, args) => ListLeavesFlat(args);
    case _ =>
  }

  lemma {:induction false} KwargLeavesFlat(kw: seq<Kwarg>)
    ensures forall i :: 0 <= i < |KwargLeaves(kw)| ==> !IsCompound(KwargLeaves(kw)[i])
    decreases kw, 1
  {
    if |kw| > 0 {
      assert kw[0] in kw;
      ValueLeavesFlat(kw[0].value);
      KwargLeavesFlat(kw[1..]);
    }
  }

  lemma {:induction false} ListLeavesFlat(vs: seq<Value>)
    ensures forall i :: 0 <= i < |ListLeaves(vs)| ==> !IsCompound(ListLeaves(vs)[i])
    decreases vs, 1
  {
    if |vs| > 0 {
      ValueLeavesFlat(vs[0]);
      ListLeavesFlat(vs[1..]);
    }
  }

  function Values(kw: seq<Kwarg>): (r: seq<Value>)
    ensures |r| == |kw|
    ensures forall i :: 0 <= i < |kw| ==> r[i] == kw[i].value
  {
    if |kw| == 0 then [] else [kw[0].value] + Values(kw[1..])
  }

  /** With no operator among the kwarg values, the leaves are the values
      themselves, in insertion order. */
  lemma {:induction false} LeavesOfPlainKwargs(kw: seq<Kwarg>)
    requires forall i :: 0 <= i < |kw| ==> !IsCompound(kw[i].value)
    ensures KwargLeaves(kw) == Values(kw)
  {
    if |kw| > 0 {
      assert forall i :: 0 <= i < |kw[1..]| ==> kw[1..][i] == kw[i + 1];
      LeavesOfPlainKwargs(kw[1..]);
    }
  }

  /** The right operand of `+`: a string, an `InputSelector` (given as the
      formatter its `to_string_formatter` returns), a formatter, or any
      other object, for which `__add__` returns `None`. */
  datatype Operand = OStr(s: string) | OSelector(asFormatter: Formatter) | OFormatter(g: Formatter) | OOther

  /** `_create_new_formatter_from_strings_and_args`: a missing placeholder
      in the joined format becomes `InvalidByProductException`; too many
      kwargs propagates unchanged. */
  function CreateFromStrings(scan: Scanner, strings: seq<string>, kwargs: seq<Kwarg>): Result<Formatter>
  {
    var newFormat := Join(strings, "");
    var r := New(scan, newFormat, kwargs);
    if r.Err? && r.error.IncorrectArgs? then Err(InvalidByProduct(scan(newFormat).0 - KeySet(kwargs)))
    else r
  }

  /** Both values are present and `!=` holds between them. */
  predicate Differ(eq: ValueEquality, x: Option<Value>, y: Option<Value>)
  {
    x.Some? && y.Some? && !eq(x.value, y.value)
  }

  /** The shared keys whose values differ. */
  function Conflicts(eq: ValueEquality, a: seq<Kwarg>, b: seq<Kwarg>): set<string>
  {
    set k | k in KeySet(a) && k in KeySet(b) && Differ(eq, Lookup(a, k), Lookup(b, k))
  }

  /** `{**a, **b}`: `a`'s keys in order (taking `b`'s value where `b` has
      one), then `b`'s new keys in order. */
  function Merge(a: seq<Kwarg>, b: seq<Kwarg>): seq<Kwarg>
  {
    Overwrite(a, b) + Fresh(b, a)
  }

  function Overwrite(a: seq<Kwarg>, b: seq<Kwarg>): (r: seq<Kwarg>)
    ensures |r| == |a|
    ensures forall i :: 0 <= i < |a| ==> r[i].key == a[i].key
  {
    if |a| == 0 then []
    else
      var v := Lookup(b, a[0].key);
      [Kwarg(a[0].key, if v.Some? then v.value else a[0].value)] + Overwrite(a[1..], b)
  }

  function Fresh(b: seq<Kwarg>, a: seq<Kwarg>): seq<Kwarg>
  {
    if |b| == 0 then []
    else if b[0].key in KeySet(a) then Fresh(b[1..], a)
    else [b[0]] + Fresh(b[1..], a)
  }

  /** `StringFormatter + StringFormatter`. */
  function AddFormatters(scan: Scanner, eq: ValueEquality, f: Formatter, g: Formatter): Result<Formatter>
  {
    var conflicts := Conflicts(eq, f.kwargs, g.kwargs);
    if |conflicts| > 0 then Err(ConflictingArguments(conflicts))
    else CreateFromStrings(scan, [f.format, g.format], Merge(f.kwargs, g.kwargs))
  }

  /** `StringFormatter.__add__`. The source's pre-check for a string operand
      compares each kwarg with the formatter's own kwargs and so never
      fires; it has no counterpart here. */
  function Add(scan: Scanner, eq: ValueEquality, f: Formatter, other: Operand): Result<Option<Formatter>>
  {
    match other
    case OStr(s) =>
      var g :- CreateFromStrings(scan, [f.format, s], f.kwargs);
      Ok(Some(g))
    case OSelector(sf) =>
      var g :- AddFormatters(scan, eq, f, sf);
      Ok(Some(g))
    case OFormatter(h) =>
      var g :- AddFormatters(scan, eq, f, h);
      Ok(Some(g))
    case OOther => Ok(None)
  }

  /** `StringFormatter.__radd__`: `StringFormatter(other) + self`. */
  function RAdd(scan: Scanner, eq: ValueEquality, other: string, f: Formatter): Result<Formatter>
  {
    var g :- New(scan, other, []);
    AddFormatters(scan, eq, g, f)
  }

  /** Appending a string keeps the kwargs and concatenates the formats; it
      fails with `InvalidByProductException` exactly when the joined format
      has a placeholder without a kwarg, and with `TooManyArgsException`
      when it has lost one. */
  lemma AddStringSpec(scan: Scanner, eq: ValueEquality, f: Formatter, s: string)
    ensures Add(scan, eq, f, OStr(s)).Ok? <==> scan(f.format + s).0 == KeySet(f.kwargs)
    ensures Add(scan, eq, f, OStr(s)).Ok? ==> Add(scan, eq, f, OStr(s)).value == Some(Formatter(f.format + s, f.kwargs))
    ensures !(scan(f.format + s).0 <= KeySet(f.kwargs)) <==>
      Add(scan, eq, f, OStr(s)) == Err(InvalidByProduct(scan(f.format + s).0 - KeySet(f.kwargs)))
    ensures scan(f.format + s).0 < KeySet(f.kwargs) <==>
      Add(scan, eq, f, OStr(s)) == Err(TooManyArgs(KeySet(f.kwargs) - scan(f.format + s).0))
  {
    assert Join([f.format, s], "") == f.format + s;
  }

  /** The merged kwargs have distinct keys, keep the left operand's order
      followed by the right operand's new keys, and give every key the right
      operand's value where it has one. */
  lemma MergeSpec(a: seq<Kwarg>, b: seq<Kwarg>)
    requires DistinctKeys(a) && DistinctKeys(b)
    ensures DistinctKeys(Merge(a, b))
    ensures KeySet(Merge(a, b)) == KeySet(a) + KeySet(b)
    ensures Merge(a, b)[..|a|] == Overwrite(a, b)
    ensures forall k :: Lookup(Merge(a, b), k) == (if Lookup(b, k).Some? then Lookup(b, k) else Lookup(a, k))
  {
    var o, fr := Overwrite(a, b), Fresh(b, a);
    OverwriteSpec(a, b);
    FreshSpec(b, a);
    KeySetAppend(o, fr);
    DistinctAppend(o, fr);
    assert (o + fr)[..|a|] == o;
    forall k ensures Lookup(o + fr, k) == (if Lookup(b, k).Some? then Lookup(b, k) else Lookup(a, k)) {
      LookupAppend(o, fr, k);
      LookupSome(o, k);
      LookupSome(a, k);
    }
  }

  lemma OverwriteSpec(a: seq<Kwarg>, b: seq<Kwarg>)
    ensures KeySet(Overwrite(a, b)) == KeySet(a)
    ensures DistinctKeys(a) ==> DistinctKeys(Overwrite(a, b))
    ensures forall k :: k in KeySet(a) ==>
      Lookup(Overwrite(a, b), k) == (if Lookup(b, k).Some? then Lookup(b, k) else Lookup(a, k))
  {
    OverwriteKeys(a, b);
    OverwriteLookup(a, b);
  }

  /** Overwriting keeps the keys in place. */
  lemma OverwriteKeys(a: seq<Kwarg>, b: seq<Kwarg>)
    ensures KeySet(Overwrite(a, b)) == KeySet(a)
    ensures DistinctKeys(a) ==> DistinctKeys(Overwrite(a, b))
  {
    var o := Overwrite(a, b);
    forall k | k in KeySet(o) ensures k in KeySet(a) {
      var i :| 0 <= i < |o| && o[i].key == k;
      assert a[i].key == k;
    }
    forall k | k in KeySet(a) ensures k in KeySet(o) {
      var i :| 0 <= i < |a| && a[i].key == k;
      assert o[i].key == k;
    }
  }

  /** Every key of the left operand takes the right operand's value where
      it has one. */
  lemma {:induction false} OverwriteLookup(a: seq<Kwarg>, b: seq<Kwarg>)
    ensures forall k :: k in KeySet(a) ==>
      Lookup(Overwrite(a, b), k) == (if Lookup(b, k).Some? then Lookup(b, k) else Lookup(a, k))
  {
    if |a| > 0 {
      OverwriteLookup(a[1..], b);
      KeySetTail(a);
      assert Overwrite(a, b)[1..] == Overwrite(a[1..], b);
    }
  }

  lemma {:induction false} FreshSpec(b: seq<Kwarg>, a: seq<Kwarg>)
    requires DistinctKeys(b)
    ensures DistinctKeys(Fresh(b, a))
    ensures KeySet(Fresh(b, a)) == KeySet(b) - KeySet(a)
    ensures forall k :: k !in KeySet(a) ==> Lookup(Fresh(b, a), k) == Lookup(b, k)
  {
    if |b| > 0 {
      KeySetTail(b);
      FreshSpec(b[1..], a);
      var rest := Fresh(b[1..], a);
      if b[0].key !in KeySet(a) {
        var r := [b[0]] + rest;
        assert r[1..] == rest;
        KeySetTail(r);
        DistinctAppend([b[0]], rest);
      }
    }
  }

  /** Two formatters concatenate unless a shared key is bound to values
      that are not equal, in which case the conflicting keys are reported;
      otherwise the result is built from the two formats and the merged
      kwargs. */
  lemma AddFormattersSpec(scan: Scanner, eq: ValueEquality, f: Formatter, g: Formatter)
    ensures (exists k :: k in KeySet(f.kwargs) && k in KeySet(g.kwargs) && Differ(eq, Lookup(f.kwargs, k), Lookup(g.kwargs, k))) <==>
      AddFormatters(scan, eq, f, g) == Err(ConflictingArguments(Conflicts(eq, f.kwargs, g.kwargs)))
    ensures Conflicts(eq, f.kwargs, g.kwargs) == {} ==>
      AddFormatters(scan, eq, f, g) == CreateFromStrings(scan, [f.format, g.format], Merge(f.kwargs, g.kwargs))
  {
    var c := Conflicts(eq, f.kwargs, g.kwargs);
    if exists k :: k in KeySet(f.kwargs) && k in KeySet(g.kwargs) && Differ(eq, Lookup(f.kwargs, k), Lookup(g.kwargs, k)) {
      var k :| k in KeySet(f.kwargs) && k in KeySet(g.kwargs) && Differ(eq, Lookup(f.kwargs, k), Lookup(g.kwargs, k));
      assert k in c;
    }
  }

  /** A successful concatenation of formatters has the two formats joined,
      binds every key of the right operand to its value there and every
      other key to its value in the left operand, and the two operands
      agree on every shared key. */
  lemma {:induction false} AddFormattersMerged(scan: Scanner, eq: ValueEquality, f: Formatter, g: Formatter)
    requires DistinctKeys(f.kwargs) && DistinctKeys(g.kwargs)
    ensures AddFormatters(scan, eq, f, g).Ok? ==>
      && AddFormatters(scan, eq, f, g).value.format == f.format + g.format
      && KeySet(AddFormatters(scan, eq, f, g).value.kwargs) == KeySet(f.kwargs) + KeySet(g.kwargs)
      && DistinctKeys(AddFormatters(scan, eq, f, g).value.kwargs)
      && (forall k :: k in KeySet(f.kwargs) && k !in KeySet(g.kwargs) ==>
            Lookup(AddFormatters(scan, eq, f, g).value.kwargs, k) == Lookup(f.kwargs, k))
      && (forall k :: k in KeySet(g.kwargs) ==> Lookup(AddFormatters(scan, eq, f, g).value.kwargs, k) == Lookup(g.kwargs, k))
      && (forall k :: k in KeySet(f.kwargs) && k in KeySet(g.kwargs) ==> !Differ(eq, Lookup(f.kwargs, k), Lookup(g.kwargs, k)))
  {
    AddFormattersOk(scan, eq, f, g);
    if AddFormatters(scan, eq, f, g).Ok? {
      MergeSpec(f.kwargs, g.kwargs);
      MergeAgrees(eq, f.kwargs, g.kwargs);
    }
  }

  /** A successful concatenation of formatters had no conflicts and joins
      the formats over the merged kwargs. */
  lemma AddFormattersOk(scan: Scanner, eq: ValueEquality, f: Formatter, g: Formatter)
    ensures AddFormatters(scan, eq, f, g).Ok? ==>
      && Conflicts(eq, f.kwargs, g.kwargs) == {}
      && AddFormatters(scan, eq, f, g).value == Formatter(f.format + g.format, Merge(f.kwargs, g.kwargs))
  {
    assert Join([f.format, g.format], "") == f.format + g.format;
  }

  /** Without conflicts the merged kwargs take the right operand's values,
      keep the left operand's other values, and the operands agree on
      every shared key. */
  lemma MergeAgrees(eq: ValueEquality, a: seq<Kwarg>, b: seq<Kwarg>)
    requires DistinctKeys(a) && DistinctKeys(b) && Conflicts(eq, a, b) == {}
    ensures forall k :: k in KeySet(a) && k !in KeySet(b) ==> Lookup(Merge(a, b), k) == Lookup(a, k)
    ensures forall k :: k in KeySet(b) ==> Lookup(Merge(a, b), k) == Lookup(b, k)
    ensures forall k :: k in KeySet(a) && k in KeySet(b) ==> !Differ(eq, Lookup(a, k), Lookup(b, k))
  {
    MergeSpec(a, b);
    forall k | k in KeySet(a) && k !in KeySet(b) ensures Lookup(Merge(a, b), k) == Lookup(a, k) {
      LookupSome(b, k);
      LookupSome(a, k);
    }
    forall k | k in KeySet(b) ensures Lookup(Merge(a, b), k) == Lookup(b, k) {
      LookupSome(b, k);
    }
    forall k | k in KeySet(a) && k in KeySet(b) ensures !Differ(eq, Lookup(a, k), Lookup(b, k)) {
      assert k !in Conflicts(eq, a, b);
    }
  }

  /** `other + formatter` first builds a formatter from `other` with no
      kwargs, so it fails when `other` has placeholders, and otherwise is
      the concatenation of formatters. */
  lemma RAddSpec(scan: Scanner, eq: ValueEquality, other: string, f: Formatter)
    ensures scan(other).0 != {} ==> RAdd(scan, eq, other, f) == Err(IncorrectArgs(scan(other).0))
    ensures scan(other).0 == {} ==> RAdd(scan, eq, other, f) == AddFormatters(scan, eq, Formatter(other, []), f)
  {
    assert KeySet([]) == {};
    assert scan(other).0 - {} == scan(other).0;
  }

  /** A selector operand behaves as the formatter it converts to, and any
      other operand gives `None`. */
  lemma AddOperandSpec(scan: Scanner, eq: ValueEquality, f: Formatter, g: Formatter)
    ensures Add(scan, eq, f, OSelector(g)) == Add(scan, eq, f, OFormatter(g))
    ensures Add(scan, eq, f, OOther) == Ok(None)
    ensures Add(scan, eq, f, OFormatter(g)).Ok? <==> AddFormatters(scan, eq, f, g).Ok?
  {
  }
}
