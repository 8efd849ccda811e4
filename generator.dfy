/** The literal serialiser of the tool scaffolder: `get_string_repr` turns a
    Python value into the source text that rebuilds it, and
    `convert_generic_class` renders an object as a constructor call over
    the parameters of its class's `__init__`. */
module Generator {
  import opened Wrappers
  import opened Strings

  /** The Python values the serialiser meets. A float carries its `str()`,
      which is not modelled; an object carries what reflection would give:
      its class name, the parameters of `__init__` in order, the optional
      `init_key_map` and its attributes. */
  datatype PyValue =
    | PNone
    | PBool(b: bool)
    | PInt(i: int)
    | PFloat(text: string)
    | PStr(s: string)
    | PList(items: seq<PyValue>)
    | PDate(year: int, month: int, day: int)
    | PObject(className: string, params: seq<Param>, keyMap: map<string, Option<string>>, attrs: seq<Attr>)

  /** A parameter of `__init__`; `None` stands for `inspect.Parameter.empty`. */
  datatype Param = Param(name: string, default: Option<PyValue>)

  datatype Attr = Attr(name: string, value: PyValue)

  /** Source text, and the warnings logged while producing it. */
  datatype Rendered = Rendered(text: string, warnings: seq<string>)

  /** Python's `==` between two values, which user classes may override. */
  type Equality = (PyValue, PyValue) -> bool

  // ---------------------------------------------------------------------
  // Strings
  // ---------------------------------------------------------------------

  /** Newlines written as `\n`, then every `"` turned into `'`. */
  function Escaped(s: string): string
  {
    ReplaceAll(ReplaceAll(s, "\n", "\\n"), "\"", "'")
  }

  /** Writing newlines as `\n` leaves no newline, adds no `"`, and changes
      nothing in a string without a newline. */
  lemma {:induction false} EscapeNewlinesSpec(s: string)
    ensures Lacks(ReplaceAll(s, "\n", "\\n"), '\n')
    ensures Lacks(s, '\n') ==> ReplaceAll(s, "\n", "\\n") == s
    ensures Lacks(s, '"') ==> Lacks(ReplaceAll(s, "\n", "\\n"), '"')
    decreases |s|
  {
    if |s| > 0 {
      EscapeNewlinesSpec(s[1..]);
      var r := ReplaceAll(s[1..], "\n", "\\n");
      if s[0] == '\n' {
        assert s[..1] == "\n";
        var e := "\\n" + r;
        assert ReplaceAll(s, "\n", "\\n") == e;
        if Lacks(s, '"') {
          assert Lacks(s[1..], '"');
          forall j | 0 <= j < |e| ensures e[j] != '"' {
            if j >= 2 { assert e[j] == r[j - 2]; }
          }
        }
      } else {
        assert s[..1] != "\n";
        var e := [s[0]] + r;
        assert ReplaceAll(s, "\n", "\\n") == e;
        if Lacks(s, '"') {
          assert Lacks(s[1..], '"');
          forall j | 0 <= j < |e| ensures e[j] != '"' {
            if j >= 1 { assert e[j] == r[j - 1]; }
          }
        }
      }
    }
  }

  /** Reading the `\n` escapes back gives the string again, for strings
      without a backslash. */
  lemma {:induction false} EscapeNewlinesRoundTrip(s: string)
    requires Lacks(s, '\\')
    ensures ReplaceAll(ReplaceAll(s, "\n", "\\n"), "\\n", "\n") == s
    decreases |s|
  {
    if |s| > 0 {
      EscapeNewlinesRoundTrip(s[1..]);
      var r := ReplaceAll(s[1..], "\n", "\\n");
      if s[0] == '\n' {
        assert s[..1] == "\n";
        var e := "\\n" + r;
        assert ReplaceAll(s, "\n", "\\n") == e;
        assert e[..2] == "\\n" && e[2..] == r;
      } else {
        assert s[..1] != "\n";
        var e := [s[0]] + r;
        assert ReplaceAll(s, "\n", "\\n") == e;
        assert e[1..] == r;
        if |e| >= 2 { assert e[..2][0] == s[0]; }
      }
    }
  }

  /** The escaped text has no newline and no `"`; a string without either
      is kept as it is, and a string without `"` or a backslash is read back
      by undoing the `\n` escapes. */
  lemma EscapedSpec(s: string)
    ensures Lacks(Escaped(s), '\n') && Lacks(Escaped(s), '"')
    ensures Lacks(s, '\n') && Lacks(s, '"') ==> Escaped(s) == s
    ensures Lacks(s, '\\') && Lacks(s, '"') ==> ReplaceAll(Escaped(s), "\\n", "\n") == s
  {
    var n := ReplaceAll(s, "\n", "\\n");
    EscapeNewlinesSpec(s);
    ReplaceChar(n, '"', '\'');
    var q := ReplaceAll(n, "\"", "'");
    assert q == Escaped(s);
    if Lacks(s, '"') {
      LacksNotContained(n, '"');
      ReplaceAbsent(n, "\"", "'");
      if Lacks(s, '\\') { EscapeNewlinesRoundTrip(s); }
    }
    forall i | 0 <= i < |q| ensures q[i] != '\n' {
      assert q[i] == (if n[i] == '"' then '\'' else n[i]);
    }
  }

  // ---------------------------------------------------------------------
  // get_string_repr
  // ---------------------------------------------------------------------

  /** The `ignore_fields` of `convert_generic_class`, with `self`, `args`
      and `kwargs` always added. */
  function Ignored(fields: seq<string>): set<string>
  {
    (set f | f in fields) + {"self", "args", "kwargs"}
  }

  /** `get_string_repr`: lists as `[a, b]`, strings in double quotes,
      numbers, booleans and `None` by `str`, dates as a `datetime` call and
      every other object through `convert_generic_class`. */
  function Repr(eq: Equality, v: PyValue): Rendered
    decreases v, 2
  {
    match v
    case PList(items) =>
      var parts := ReprItems(eq, v, |items|);
      Rendered("[" + Join(Texts(parts), ", ") + "]", AllWarnings(parts))
    case PStr(s) => Rendered("\"" + Escaped(s) + "\"", [])
    case PInt(i) => Rendered(IntToString(i), [])
    case PFloat(text) => Rendered(text, [])
    case PBool(b) => Rendered(if b then "True" else "False", [])
    case PNone => Rendered(NoneText, [])
    case PDate(y, m, d) =>
      Rendered("datetime(" + IntToString(y) + ", " + IntToString(m) + ", " + IntToString(d) + ")", [])
    case PObject(_, _, _, _) => ConvertGenericClass(eq, v, Ignored([]))
  }

  /** The renderings of the first `n` elements of a list. */
  function ReprItems(eq: Equality, v: PyValue, n: nat): (rs: seq<Rendered>)
    requires v.PList? && n <= |v.items|
    ensures |rs| == n
    decreases v, 0, n
  {
    if n == 0 then [] else ReprItems(eq, v, n - 1) + [Repr(eq, v.items[n - 1])]
  }

  function Texts(rs: seq<Rendered>): (ts: seq<string>)
    ensures |ts| == |rs| && forall i :: 0 <= i < |rs| ==> ts[i] == rs[i].text
  {
    seq(|rs|, i requires 0 <= i < |rs| => rs[i].text)
  }

  function AllWarnings(rs: seq<Rendered>): seq<string>
  {
    if |rs| == 0 then [] else AllWarnings(rs[..|rs| - 1]) + rs[|rs| - 1].warnings
  }

  // ---------------------------------------------------------------------
  // convert_generic_class
  // ---------------------------------------------------------------------

  /** The `name=value` options and the warnings of a prefix of the
      parameters. */
  datatype Options = Options(entries: seq<string>, warnings: seq<string>)

  /** The attribute a parameter is read from: `init_key_map.get(name, name)`. */
  function TargetKey(t: PyValue, name: string): Option<string>
    requires t.PObject?
  {
    if name in t.keyMap then t.keyMap[name] else Some(name)
  }

  /** The index of the attribute called `key`. */
  function AttrIndex(attrs: seq<Attr>, key: string): (r: Option<nat>)
    ensures r.Some? ==> r.value < |attrs| && attrs[r.value].name == key
    ensures r.Some? ==> forall i :: 0 <= i < r.value ==> attrs[i].name != key
    ensures r.None? <==> forall i :: 0 <= i < |attrs| ==> attrs[i].name != key
  {
    if |attrs| == 0 then None
    else if attrs[0].name == key then Some(0)
    else
      var r := AttrIndex(attrs[1..], key);
      if r.Some? then Some(r.value + 1) else None
  }

  /** `getattr(t, key)`, or `None` when the object has no such attribute. */
  function AttrValue(t: PyValue, key: string): PyValue
    requires t.PObject?
  {
    var i := AttrIndex(t.attrs, key);
    if i.Some? then t.attrs[i.value].value else PNone
  }

  /** A value is left out when it equals the parameter's default (or is
      `None` with a `None` default); a parameter without a default never
      matches. */
  predicate Skipped(eq: Equality, v: PyValue, default: Option<PyValue>)
  {
    default.Some? && ((v == PNone && default.value == PNone) || eq(v, default.value))
  }

  function MissingAttrWarning(className: string, key: string): string
  {
    "Object " + className + " didn't have attribute " + key + ", setting to None and it might get skipped"
  }

  /** What parameter `k` contributes: nothing when ignored or mapped to
      `None`; otherwise a warning if the attribute is missing, and the
      option `name=repr` unless the value is skipped. */
  function ParamStep(eq: Equality, t: PyValue, ignore: set<string>, k: nat): Options
    requires t.PObject? && k < |t.params|
    decreases t, 0, 0
  {
    var p := t.params[k];
    var key := TargetKey(t, p.name);
    if p.name in ignore || key.None? then Options([], [])
    else
      var i := AttrIndex(t.attrs, key.value);
      if i.None? then
        var warned := [MissingAttrWarning(t.className, key.value)];
        if Skipped(eq, PNone, p.default) then Options([], warned)
        else Options([p.name + "=" + NoneText], warned)
      else
        var v := t.attrs[i.value].value;
        assert t.attrs[i.value] in t.attrs;
        if Skipped(eq, v, p.default) then Options([], [])
        else
          var r := Repr(eq, v);
          Options([p.name + "=" + r.text], r.warnings)
  }

  /** The options and warnings of the first `n` parameters, in order. */
  function Entries(eq: Equality, t: PyValue, ignore: set<string>, n: nat): Options
    requires t.PObject? && n <= |t.params|
    decreases t, 0, n
  {
    if n == 0 then Options([], [])
    else
      var acc := Entries(eq, t, ignore, n - 1);
      var step := ParamStep(eq, t, ignore, n - 1);
      Options(acc.entries + step.entries, acc.warnings + step.warnings)
  }

  /** `convert_generic_class`: `ClassName(k=v, ...)`. */
  function ConvertGenericClass(eq: Equality, t: PyValue, ignore: set<string>): Rendered
    requires t.PObject?
    decreases t, 1
  {
    var opts := Entries(eq, t, ignore, |t.params|);
    Rendered(t.className + "(" + Join(opts.entries, ", ") + ")", opts.warnings)
  }

  /** `convert_generic_class`, looping over the parameters and appending
      to the options. */
  method ConvertGenericClassLoop(eq: Equality, t: PyValue, ignoreFields: seq<string>) returns (text: string, warnings: seq<string>)
    requires t.PObject?
    ensures Rendered(text, warnings) == ConvertGenericClass(eq, t, Ignored(ignoreFields))
  {
    var ignore := Ignored(ignoreFields);
    var options: seq<string> := [];
    warnings := [];
    var k := 0;
    while k < |t.params|
      invariant 0 <= k <= |t.params|
      invariant Options(options, warnings) == Entries(eq, t, ignore, k)
    {
      var p := t.params[k];
      if p.name !in ignore {
        var key := if p.name in t.keyMap then t.keyMap[p.name] else Some(p.name);
        if key.Some? {
          var i := AttrIndex(t.attrs, key.value);
          var v := PNone;
          if i.Some? {
            v := t.attrs[i.value].value;
          } else {
            warnings := warnings + [MissingAttrWarning(t.className, key.value)];
          }
          if !Skipped(eq, v, p.default) {
            var r := Repr(eq, v);
            options := options + [p.name + "=" + r.text];
            warnings := warnings + r.warnings;
          }
        }
      }
      k := k + 1;
    }
    text := t.className + "(" + Join(options, ", ") + ")";
  }
  // ---------------------------------------------------------------------
  // Properties of the rendering
  // ---------------------------------------------------------------------

  /** A string renders between two double quotes with none inside and no
      raw newline; a string without newlines or quotes is rendered as is,
      and one without quotes or backslashes is read back by undoing `\n`. */
  lemma StringReprSpec(eq: Equality, s: string)
    ensures Repr(eq, PStr(s)).warnings == []
    ensures |Repr(eq, PStr(s)).text| >= 2
    ensures Repr(eq, PStr(s)).text[0] == '"' && Repr(eq, PStr(s)).text[|Repr(eq, PStr(s)).text| - 1] == '"'
    ensures forall i :: 0 < i < |Repr(eq, PStr(s)).text| - 1 ==> Repr(eq, PStr(s)).text[i] != '"' && Repr(eq, PStr(s)).text[i] != '\n'
    ensures Lacks(s, '\n') && Lacks(s, '"') ==> Repr(eq, PStr(s)).text == "\"" + s + "\""
    ensures Lacks(s, '\\') && Lacks(s, '"') ==>
      ReplaceAll(Repr(eq, PStr(s)).text[1..|Repr(eq, PStr(s)).text| - 1], "\\n", "\n") == s
  {
    var e := Escaped(s);
    var t := "\"" + e + "\"";
    EscapedSpec(s);
    assert Repr(eq, PStr(s)).text == t;
    assert t[1..|t| - 1] == e;
    forall i | 0 < i < |t| - 1 ensures t[i] != '"' && t[i] != '\n' {
      assert t[i] == e[i - 1];
    }
  }

  /** The double-quoted form of each string. */
  function Quoted(es: seq<string>): (qs: seq<string>)
    ensures |qs| == |es| && forall i :: 0 <= i < |es| ==> qs[i] == "\"" + es[i] + "\""
  {
    seq(|es|, i requires 0 <= i < |es| => "\"" + es[i] + "\"")
  }

  /** The split of `n` quoted strings joined by `, `: the strings at the
      odd positions and `, ` between them. */
  predicate QuotedParts(p: seq<string>, es: seq<string>)
  {
    && |p| == 2 * |es| + 1
    && p[2 * |es|] == ""
    && (forall i :: 0 <= i < |es| ==> p[2 * i + 1] == es[i])
    && (forall i :: 0 < i < |es| ==> p[2 * i] == ", ")
  }

  lemma QuotedPartsSnoc(p: seq<string>, es: seq<string>, e: string)
    requires |es| > 0 && QuotedParts(p, es)
    ensures QuotedParts(p[..|p| - 1] + [p[|p| - 1] + ", "] + [e, ""], es + [e])
  {
    var q := p[..|p| - 1] + [p[|p| - 1] + ", "] + [e, ""];
    var es' := es + [e];
    assert |q| == 2 * |es'| + 1;
    forall i | 0 <= i < |es'| ensures q[2 * i + 1] == es'[i] {
      if i < |es| { assert q[2 * i + 1] == p[2 * i + 1]; }
    }
    forall i | 0 < i < |es'| ensures q[2 * i] == ", " {
      if i < |es| { assert q[2 * i] == p[2 * i]; }
    }
  }

  /** A quote-free string followed by a quote splits into it and "". */
  lemma QuoteTerminated(e: string)
    requires Lacks(e, '"')
    ensures Split(e + "\"", '"') == [e, ""]
  {
    SplitAround(e, "", '"');
    assert e + ['"'] + "" == e + "\"";
    SplitAbsent(e, '"');
  }

  lemma JoinQuotedSnoc(init: seq<string>, e: string)
    requires |init| > 0
    ensures Join(Quoted(init + [e]), ", ") == (Join(Quoted(init), ", ") + ", ") + ['"'] + (e + "\"")
  {
    assert Quoted(init + [e]) == Quoted(init) + ["\"" + e + "\""];
    JoinSnoc(Quoted(init), "\"" + e + "\"", ", ");
  }

  lemma SplitStep(j: string, e: string)
    requires Lacks(e, '"')
    ensures var p := Split(j, '"');
      Split((j + ", ") + ['"'] + (e + "\""), '"') == p[..|p| - 1] + [p[|p| - 1] + ", "] + [e, ""]
  {
    QuoteTerminated(e);
    SplitAround(j + ", ", e + "\"", '"');
    SplitAppendPlain(j, ", ", '"');
  }

  /** Splitting a comma-joined list of quoted quote-free strings at the
      quotes gives the strings back at the odd positions, with `, ` between
      them. */
  lemma {:induction false} QuotedJoinSplit(es: seq<string>)
    requires forall i :: 0 <= i < |es| ==> Lacks(es[i], '"')
    ensures QuotedParts(Split(Join(Quoted(es), ", "), '"'), es)
    decreases |es|
  {
    if |es| > 0 {
      var init := es[..|es| - 1];
      var e := es[|es| - 1];
      assert Quoted(es) == Quoted(init) + ["\"" + e + "\""];
      var tail := e + "\"";
      QuoteTerminated(e);
      if |init| == 0 {
        assert Join(Quoted(es), ", ") == "" + ['"'] + tail;
        SplitAround("", tail, '"');
      } else {
        QuotedJoinSplit(init);
        var j := Join(Quoted(init), ", ");
        JoinQuotedSnoc(init, e);
        assert init + [e] == es;
        SplitStep(j, e);
        QuotedPartsSnoc(Split(j, '"'), init, e);
      }
    }
  }

  /** The element renderings of a list are its elements' renderings. */
  lemma {:induction false} ReprItemsSpec(eq: Equality, v: PyValue, n: nat)
    requires v.PList? && n <= |v.items|
    ensures forall i :: 0 <= i < n ==> ReprItems(eq, v, n)[i] == Repr(eq, v.items[i])
    decreases n
  {
    if n > 0 { ReprItemsSpec(eq, v, n - 1); }
  }

  /** A list of strings renders in square brackets, and splitting the text
      between them at the double quotes gives back each string's escaped
      form at the odd positions, separated by `, `. */
  lemma StringListRoundTrip(eq: Equality, items: seq<PyValue>)
    requires forall i :: 0 <= i < |items| ==> items[i].PStr?
    ensures |Repr(eq, PList(items)).text| >= 2
    ensures Repr(eq, PList(items)).text[0] == '[' && Repr(eq, PList(items)).text[|Repr(eq, PList(items)).text| - 1] == ']'
    ensures QuotedParts(Split(Repr(eq, PList(items)).text[1..|Repr(eq, PList(items)).text| - 1], '"'),
                        seq(|items|, i requires 0 <= i < |items| => Escaped(items[i].s)))
  {
    var v := PList(items);
    var es := seq(|items|, i requires 0 <= i < |items| => Escaped(items[i].s));
    var parts := ReprItems(eq, v, |items|);
    ReprItemsSpec(eq, v, |items|);
    forall i | 0 <= i < |items| ensures Lacks(es[i], '"') && Texts(parts)[i] == Quoted(es)[i] {
      EscapedSpec(items[i].s);
    }
    assert Texts(parts) == Quoted(es);
    QuotedJoinSplit(es);
    var inner := Join(Quoted(es), ", ");
    var t := "[" + inner + "]";
    assert Repr(eq, v).text == t;
    assert t[1..|t| - 1] == inner;
  }

  // ---------------------------------------------------------------------
  // Properties of convert_generic_class
  // ---------------------------------------------------------------------

  /** Parameter `k` is emitted: not ignored, not mapped to `None`, and its
      value differs from its default. */
  predicate Kept(eq: Equality, t: PyValue, ignore: set<string>, k: nat)
    requires t.PObject? && k < |t.params|
  {
    var p := t.params[k];
    var key := TargetKey(t, p.name);
    p.name !in ignore && key.Some? && !Skipped(eq, AttrValue(t, key.value), p.default)
  }

  /** The option parameter `k` emits, when it is kept. */
  function OptionOf(eq: Equality, t: PyValue, k: nat): string
    requires t.PObject? && k < |t.params| && TargetKey(t, t.params[k].name).Some?
  {
    var p := t.params[k];
    p.name + "=" + Repr(eq, AttrValue(t, TargetKey(t, p.name).value)).text
  }

  /** The kept parameters among the first `n`, in order. */
  function KeptIndices(eq: Equality, t: PyValue, ignore: set<string>, n: nat): (ks: seq<nat>)
    requires t.PObject? && n <= |t.params|
    ensures forall j :: 0 <= j < |ks| ==> ks[j] < n
  {
    if n == 0 then []
    else KeptIndices(eq, t, ignore, n - 1) + (if Kept(eq, t, ignore, n - 1) then [n - 1] else [])
  }

  /** Parameter `k` contributes its option exactly when it is kept; it
      warns when its attribute is missing, and says nothing when ignored. */
  lemma ParamStepSpec(eq: Equality, t: PyValue, ignore: set<string>, k: nat)
    requires t.PObject? && k < |t.params|
    ensures |ParamStep(eq, t, ignore, k).entries| == (if Kept(eq, t, ignore, k) then 1 else 0)
    ensures Kept(eq, t, ignore, k) ==> ParamStep(eq, t, ignore, k).entries[0] == OptionOf(eq, t, k)
    ensures var key := TargetKey(t, t.params[k].name);
      t.params[k].name !in ignore && key.Some? && AttrIndex(t.attrs, key.value).None? ==>
      ParamStep(eq, t, ignore, k).warnings == [MissingAttrWarning(t.className, key.value)]
    ensures t.params[k].name in ignore || TargetKey(t, t.params[k].name).None? ==>
      ParamStep(eq, t, ignore, k).warnings == []
  {
  }

  /** The kept indices are increasing and are exactly the kept parameters. */
  lemma {:induction false} KeptIndicesSpec(eq: Equality, t: PyValue, ignore: set<string>, n: nat)
    requires t.PObject? && n <= |t.params|
    ensures forall j :: 0 <= j < |KeptIndices(eq, t, ignore, n)| ==> Kept(eq, t, ignore, KeptIndices(eq, t, ignore, n)[j])
    ensures forall j, j' :: 0 <= j < j' < |KeptIndices(eq, t, ignore, n)| ==>
      KeptIndices(eq, t, ignore, n)[j] < KeptIndices(eq, t, ignore, n)[j']
    ensures forall k :: 0 <= k < n ==> (Kept(eq, t, ignore, k) <==> k in KeptIndices(eq, t, ignore, n))
    decreases n
  {
    if n > 0 {
      KeptIndicesSpec(eq, t, ignore, n - 1);
    }
  }

  /** The options are those of the kept parameters, in parameter order. */
  lemma {:induction false} EntriesSpec(eq: Equality, t: PyValue, ignore: set<string>, n: nat)
    requires t.PObject? && n <= |t.params|
    ensures |Entries(eq, t, ignore, n).entries| == |KeptIndices(eq, t, ignore, n)|
    ensures forall j :: 0 <= j < |KeptIndices(eq, t, ignore, n)| ==>
      Kept(eq, t, ignore, KeptIndices(eq, t, ignore, n)[j]) &&
      Entries(eq, t, ignore, n).entries[j] == OptionOf(eq, t, KeptIndices(eq, t, ignore, n)[j])
    decreases n
  {
    KeptIndicesSpec(eq, t, ignore, n);
    if n > 0 {
      EntriesSpec(eq, t, ignore, n - 1);
      ParamStepSpec(eq, t, ignore, n - 1);
      var ks, es := KeptIndices(eq, t, ignore, n - 1), Entries(eq, t, ignore, n - 1).entries;
      if Kept(eq, t, ignore, n - 1) {
        assert KeptIndices(eq, t, ignore, n) == ks + [n - 1];
        assert Entries(eq, t, ignore, n).entries == es + [OptionOf(eq, t, n - 1)];
      } else {
        assert KeptIndices(eq, t, ignore, n) == ks;
        assert Entries(eq, t, ignore, n).entries == es;
      }
    }
  }

  /** With no parameter kept, no option is emitted. */
  lemma NoneKept(eq: Equality, t: PyValue, ignore: set<string>, n: nat)
    requires t.PObject? && n <= |t.params|
    requires forall k :: 0 <= k < n ==> !Kept(eq, t, ignore, k)
    ensures Entries(eq, t, ignore, n).entries == []
  {
    EntriesSpec(eq, t, ignore, n);
  }

  /** An object whose parameters are all ignored or at their defaults
      renders as a call with no arguments. */
  lemma AllDefaultsEmptyCall(eq: Equality, t: PyValue, ignore: set<string>)
    requires t.PObject?
    requires forall k :: 0 <= k < |t.params| ==> !Kept(eq, t, ignore, k)
    ensures ConvertGenericClass(eq, t, ignore).text == t.className + "()"
  {
    NoneKept(eq, t, ignore, |t.params|);
  }
  // ---------------------------------------------------------------------
  // convert_command_tool_fragments
  // ---------------------------------------------------------------------

  datatype ToolId = ToolIdText(s: string) | ToolIdParts(parts: seq<string>)

  datatype BaseCommand = CommandText(s: string) | CommandParts(parts: seq<string>)

  datatype TemplateType = BaseTemplate | Gatk4Template | OtherTemplate(value: string)

  /** The arguments handed to the tool template generators, which are not
      part of this model. */
  datatype ToolTemplate =
    | RegularToolTemplate(toolname: string, name: string, friendlyName: string, toolProvider: string,
                          baseCommand: string, inputs: seq<string>, outputs: seq<string>, metadata: string)
    | Gatk4ToolTemplate(gatkCommand: string, inputs: seq<string>, outputs: seq<string>, metadata: string)

  datatype VersionTemplate = VersionTemplate(name: string, version: string, container: string)

  /** The two templates' arguments, the metadata object as the call leaves
      it, and the warnings logged while rendering. */
  datatype Fragments = Fragments(tool: ToolTemplate, version: VersionTemplate, metadata: PyValue, warnings: seq<string>)

  /** Python's truth value of a value. */
  predicate Truthy(v: PyValue)
  {
    match v
    case PNone => false
    case PBool(b) => b
    case PInt(i) => i != 0
    case PFloat(text) => text != "0.0" && text != "-0.0"
    case PStr(s) => s != ""
    case PList(items) => items != []
    case PDate(_, _, _) => true
    case PObject(_, _, _, _) => true
  }

  /** `setattr`: the attribute is replaced where it is, or added last. */
  function SetAttr(attrs: seq<Attr>, name: string, v: PyValue): seq<Attr>
  {
    var i := AttrIndex(attrs, name);
    if i.Some? then attrs[i.value := Attr(name, v)] else attrs + [Attr(name, v)]
  }

  /** The first attribute called `key` is the one `AttrIndex` finds. */
  lemma AttrIndexAt(a: seq<Attr>, key: string, i: nat)
    requires i < |a| && a[i].name == key && forall j :: 0 <= j < i ==> a[j].name != key
    ensures AttrIndex(a, key) == Some(i)
  {
    assert AttrIndex(a, key).Some?;
  }

  /** Two attribute lists with the same names up to the shorter one's
      length, and no `key` beyond it, find `key` at the same place. */
  lemma AttrIndexSameNames(a: seq<Attr>, b: seq<Attr>, key: string)
    requires |a| <= |b| && forall i :: 0 <= i < |a| ==> a[i].name == b[i].name
    requires forall i :: |a| <= i < |b| ==> b[i].name != key
    ensures AttrIndex(a, key) == AttrIndex(b, key)
  {
    var ia := AttrIndex(a, key);
    if ia.Some? {
      AttrIndexAt(b, key, ia.value);
    } else {
      assert forall i :: 0 <= i < |b| ==> b[i].name != key;
    }
  }

  /** After `setattr`, the attribute has the new value. */
  lemma SetAttrSpec(t: PyValue, name: string, v: PyValue)
    requires t.PObject?
    ensures AttrValue(t.(attrs := SetAttr(t.attrs, name, v)), name) == v
  {
    var r := SetAttr(t.attrs, name, v);
    var i := AttrIndex(t.attrs, name);
    if i.Some? {
      AttrIndexAt(r, name, i.value);
    } else {
      AttrIndexAt(r, name, |t.attrs|);
    }
  }

  /** `setattr` leaves every other attribute alone. */
  lemma SetAttrOthers(t: PyValue, name: string, v: PyValue, key: string)
    requires t.PObject? && key != name
    ensures AttrValue(t.(attrs := SetAttr(t.attrs, name, v)), key) == AttrValue(t, key)
  {
    var r := SetAttr(t.attrs, name, v);
    AttrIndexSameNames(t.attrs, r, key);
    var i := AttrIndex(t.attrs, key);
    if i.Some? { assert r[i.value] == t.attrs[i.value]; }
  }

  /** The metadata as the call leaves it: `dateCreated` set to now when
      falsy, `dateUpdated` always set to now. */
  function Stamped(metadata: PyValue, now: PyValue): PyValue
    requires metadata.PObject?
  {
    var created := if Truthy(AttrValue(metadata, "dateCreated")) then metadata
      else metadata.(attrs := SetAttr(metadata.attrs, "dateCreated", now));
    created.(attrs := SetAttr(created.attrs, "dateUpdated", now))
  }

  /** Stamping sets `dateUpdated`, fills a falsy `dateCreated`, and leaves
      every other attribute, the class and its parameters alone. */
  lemma StampedSpec(metadata: PyValue, now: PyValue, key: string)
    requires metadata.PObject?
    ensures Stamped(metadata, now).PObject?
    ensures Stamped(metadata, now).className == metadata.className && Stamped(metadata, now).params == metadata.params
    ensures AttrValue(Stamped(metadata, now), "dateUpdated") == now
    ensures AttrValue(Stamped(metadata, now), "dateCreated") ==
      if Truthy(AttrValue(metadata, "dateCreated")) then AttrValue(metadata, "dateCreated") else now
    ensures key != "dateCreated" && key != "dateUpdated" ==> AttrValue(Stamped(metadata, now), key) == AttrValue(metadata, key)
  {
    var created := if Truthy(AttrValue(metadata, "dateCreated")) then metadata
      else metadata.(attrs := SetAttr(metadata.attrs, "dateCreated", now));
    SetAttrSpec(metadata, "dateCreated", now);
    SetAttrSpec(created, "dateUpdated", now);
    SetAttrOthers(created, "dateUpdated", now, "dateCreated");
    if key != "dateCreated" && key != "dateUpdated" {
      SetAttrOthers(metadata, "dateCreated", now, key);
      SetAttrOthers(created, "dateUpdated", now, key);
    }
  }

  /** The tool name: a list of parts is title-cased and concatenated. */
  function ToolName(title: string -> string, id: ToolId): string
  {
    match id
    case ToolIdText(s) => s
    case ToolIdParts(parts) => Join(seq(|parts|, i requires 0 <= i < |parts| => title(parts[i])), "")
  }

  /** A string base command in double quotes; a list as Python's `str` of
      it, each part written by `repr`. */
  function BaseCommandText(pyRepr: string -> string, bc: BaseCommand): string
  {
    match bc
    case CommandText(s) => "\"" + s + "\""
    case CommandParts(parts) => "[" + Join(seq(|parts|, i requires 0 <= i < |parts| => pyRepr(parts[i])), ", ") + "]"
  }

  /** `basecommand[1]`: the second character of a string, or the second
      part of a list. */
  function GatkCommand(bc: BaseCommand): Result<string>
  {
    match bc
    case CommandText(s) => if |s| >= 2 then Ok([s[1]]) else Err(IndexOutOfRange)
    case CommandParts(parts) => if |parts| >= 2 then Ok(parts[1]) else Err(IndexOutOfRange)
  }

  function ReprAll(eq: Equality, vs: seq<PyValue>): (rs: seq<Rendered>)
    ensures |rs| == |vs| && forall i :: 0 <= i < |vs| ==> rs[i] == Repr(eq, vs[i])
  {
    seq(|vs|, i requires 0 <= i < |vs| => Repr(eq, vs[i]))
  }

  /** `convert_command_tool_fragments`, given `str.title`, `repr` of a
      string and the current time as parameters. */
  function ConvertFragments(eq: Equality, title: string -> string, pyRepr: string -> string, now: PyValue,
                            templateType: TemplateType, toolId: ToolId, baseCommand: BaseCommand,
                            friendlyName: string, toolProvider: string, ins: seq<PyValue>, outs: seq<PyValue>,
                            metadata: PyValue, version: string, container: string): Result<Fragments>
    requires metadata.PObject?
  {
    var stamped := Stamped(metadata, now);
    var name := ToolName(title, toolId);
    var bc := BaseCommandText(pyRepr, baseCommand);
    var rIns := ReprAll(eq, ins);
    var rOuts := ReprAll(eq, outs);
    var rMeta := Repr(eq, stamped);
    var warnings := AllWarnings(rIns) + AllWarnings(rOuts) + rMeta.warnings;
    var versionTemplate := VersionTemplate(name, version, container);
    match templateType
    case BaseTemplate =>
      Ok(Fragments(RegularToolTemplate(name, name, title(friendlyName), toolProvider, bc, Texts(rIns), Texts(rOuts), rMeta.text),
                   versionTemplate, stamped, warnings))
    case Gatk4Template =>
      var gatk :- GatkCommand(baseCommand);
      Ok(Fragments(Gatk4ToolTemplate(gatk, Texts(rIns), Texts(rOuts), rMeta.text), versionTemplate, stamped, warnings))
    case OtherTemplate(value) => Err(NotImplementedTemplate(value))
  }

  /** Only the two known template types convert; a GATK template also
      needs a second base-command element. */
  lemma ConvertFragmentsErrors(eq: Equality, title: string -> string, pyRepr: string -> string, now: PyValue,
                               templateType: TemplateType, toolId: ToolId, baseCommand: BaseCommand,
                               friendlyName: string, toolProvider: string, ins: seq<PyValue>, outs: seq<PyValue>,
                               metadata: PyValue, version: string, container: string)
    requires metadata.PObject?
    ensures var r := ConvertFragments(eq, title, pyRepr, now, templateType, toolId, baseCommand, friendlyName, toolProvider, ins, outs, metadata, version, container);
      && (r.Err? <==> templateType.OtherTemplate? || (templateType.Gatk4Template? && GatkCommand(baseCommand).Err?))
      && (templateType.OtherTemplate? ==> r == Err(NotImplementedTemplate(templateType.value)))
      && (templateType.Gatk4Template? && r.Err? ==> r == Err(IndexOutOfRange))
  {
  }

  /** A converted tool template carries the rendered inputs and outputs in
      order, the rendered stamped metadata, and the quoted base command. */
  lemma ConvertFragmentsSpec(eq: Equality, title: string -> string, pyRepr: string -> string, now: PyValue,
                             templateType: TemplateType, toolId: ToolId, baseCommand: BaseCommand,
                             friendlyName: string, toolProvider: string, ins: seq<PyValue>, outs: seq<PyValue>,
                             metadata: PyValue, version: string, container: string)
    requires metadata.PObject?
    ensures var r := ConvertFragments(eq, title, pyRepr, now, templateType, toolId, baseCommand, friendlyName, toolProvider, ins, outs, metadata, version, container);
      r.Ok? ==>
        && |r.value.tool.inputs| == |ins| && (forall i :: 0 <= i < |ins| ==> r.value.tool.inputs[i] == Repr(eq, ins[i]).text)
        && |r.value.tool.outputs| == |outs| && (forall i :: 0 <= i < |outs| ==> r.value.tool.outputs[i] == Repr(eq, outs[i]).text)
        && r.value.metadata == Stamped(metadata, now)
        && r.value.tool.metadata == Repr(eq, Stamped(metadata, now)).text
        && r.value.version == VersionTemplate(ToolName(title, toolId), version, container)
        && (r.value.tool.RegularToolTemplate? <==> templateType.BaseTemplate?)
        && (templateType.BaseTemplate? && baseCommand.CommandText? ==> r.value.tool.baseCommand == "\"" + baseCommand.s + "\"")
        && (templateType.Gatk4Template? ==> r.value.tool.gatkCommand == GatkCommand(baseCommand).value)
  {
  }
}
