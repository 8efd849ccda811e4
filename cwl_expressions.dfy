/** Lowering of values to CWL v1.0: literals, input selectors, the cpu and
    memory selectors, string formatters (as JavaScript `replace` chains) and
    output globs. `unwrap_expression` is `UnwrapExpression`; its
    `code_environment` flag says whether the text lands inside a JavaScript
    expression (then strings are quoted and selectors are bare) or in a
    plain CWL field (then selectors are wrapped in `$(...)`). */
module CwlExpressions {
  import opened Wrappers
  import opened Strings
  import opened Ir

  /** What `unwrap_expression` returns: `None`, a string, or a number passed
      through unchanged (a `bool` is an `int` in Python, so it passes too). */
  datatype Lowered = LNone | LStr(s: string) | LInt(i: int) | LBool(b: bool) | LFloat(text: string)

  /** Python's `str()` of a lowered value, as an f-string inserts it. */
  function Str(l: Lowered): string
  {
    match l
    case LNone => "None"
    case LStr(s) => s
    case LInt(i) => IntToString(i)
    case LBool(b) => if b then "True" else "False"
    case LFloat(t) => t
  }

  function Quote(s: string): string { "\"" + s + "\"" }

  const CpuExpression: string := "$(inputs.runtime_cpu)"
  const MemoryExpression: string := "$(Math.floor(inputs.runtime_memory))"

  /** `is_selector`: the selector classes, and the operator classes, which
      this model takes to be selectors as well (`StringFormatter` is one). */
  predicate IsSelector(v: Value)
  {
    || v.VInputSel? || v.VWildcard? || v.VFormat? || v.VCpu? || v.VMemory?
    || v.VStepOp? || v.VInputOp? || v.Op1? || v.Op2? || v.OrPrev? || v.OpOther?
  }

  /** `translate_input_selector`: `inputs.X`, with `.basename` when asked
      for, bare in code and wrapped in `$(...)` elsewhere; an empty selection
      fails. */
  function TranslateInputSelector(input: string, useBasename: bool, code: bool): Result<string>
  {
    if |input| == 0 then Err(EmptySelection)
    else
      var base := "inputs." + input + (if useBasename then ".basename" else "");
      Ok(if code then base else "$(" + base + ")")
  }

  /** `unwrap_expression`. The operators' own `cwl()` methods are not part
      of this model; lowering an operator, a node reference or a list fails
      as the final `raise` does. */
  function UnwrapExpression(v: Value, code: bool): Result<Lowered>
    decreases v, 2
  {
    match v
    case VNone => Ok(LNone)
    case VStr(s) => Ok(LStr(if code then Quote(s) else s))
    case VInt(i) => Ok(LInt(i))
    case VBool(b) => Ok(LBool(b))
    case VFloat(t) => Ok(LFloat(t))
    case VFilename(g) => Ok(LStr(if code then Quote(g) else g))
    case VFormat(f) =>
      var s :- TranslateStringFormatter(f);
      Ok(LStr(s))
    case VInputSel(x, b) =>
      var s :- TranslateInputSelector(x, b, code);
      Ok(LStr(s))
    case VWildcard(_) => Err(WildcardAsValue)
    case VCpu => Ok(LStr(CpuExpression))
    case VMemory => Ok(LStr(MemoryExpression))
    case _ => Err(UnconvertibleValue)
  }

  /** The characters Python's `re.escape` prefixes with a backslash. */
  const RegexSpecial: string := "()[]{}?*+-|^$\\.&~# \t\n\r\U{000B}\U{000C}"

  /** Python's `re.escape`: the result reads as a pattern that matches
      only the literal text. */
  function RegexEscape(s: string): (r: string)
    ensures LiteralPattern(r)
  {
    if |s| == 0 then ""
    else
      var h := if s[0] in RegexSpecial then ['\\', s[0]] else [s[0]];
      var t := RegexEscape(s[1..]);
      assert (h + t)[|h|..] == t;
      h + t
  }

  /** A regex pattern made of escaped characters (`\` and one character)
      and characters that are not special, so it matches its literal text. */
  predicate LiteralPattern(r: string)
    decreases |r|
  {
    if |r| == 0 then true
    else if r[0] == '\\' then |r| >= 2 && LiteralPattern(r[2..])
    else r[0] !in RegexSpecial && LiteralPattern(r[1..])
  }

  /** The text a literal pattern matches: every escape replaced by the
      character it escapes. */
  function RegexUnescape(r: string): string
    decreases |r|
  {
    if |r| == 0 then ""
    else if r[0] == '\\' && |r| >= 2 then [r[1]] + RegexUnescape(r[2..])
    else [r[0]] + RegexUnescape(r[1..])
  }

  /** The escaped pattern matches exactly the text it was made from. */
  lemma {:induction false} RegexEscapeRoundTrip(s: string)
    ensures RegexUnescape(RegexEscape(s)) == s
  {
    if |s| > 0 {
      RegexEscapeRoundTrip(s[1..]);
      var t := RegexEscape(s[1..]);
      if s[0] in RegexSpecial {
        assert RegexEscape(s) == ['\\', s[0]] + t;
        assert (['\\', s[0]] + t)[2..] == t;
      } else {
        assert RegexEscape(s) == [s[0]] + t;
        assert ([s[0]] + t)[1..] == t;
        assert s[0] != '\\';
      }
      assert s == [s[0]] + s[1..];
    }
  }

  /** One `.replace(/\{k\}/g, v)` call of a formatter's lowering. */
  function ReplaceCall(key: string, v: Lowered): string
  {
    ".replace(/" + RegexEscape("{" + key + "}") + "/g, " + Str(v) + ")"
  }

  /** `selector._format.replace("\\", "\\\\")`. */
  function EscapeBackslashes(s: string): string
  {
    ReplaceAll(s, "\\", "\\\\")
  }

  /** `translate_string_formatter`. The source's `code_environment`
      parameter is never read, so it is not a parameter here; every kwarg
      value is lowered in code. */
  function TranslateStringFormatter(f: Formatter): Result<string>
    decreases f, 1
  {
    if |f.kwargs| == 0 then Ok(EscapeBackslashes(f.format))
    else
      var reps :- Replacements(f.kwargs);
      Ok("$(\"" + EscapeBackslashes(f.format) + "\"" + reps + ")")
  }

  function Replacements(kw: seq<Kwarg>): Result<string>
    decreases kw, 0
  {
    if |kw| == 0 then Ok("")
    else
      assert kw[0] in kw;
      var v :- UnwrapExpression(kw[0].value, true);
      var rest :- Replacements(kw[1..]);
      Ok(ReplaceCall(kw[0].key, v) + rest)
  }

  /** Every kwarg value lowered in code, in order. */
  function LowerValues(kw: seq<Kwarg>): Result<seq<Lowered>>
  {
    if |kw| == 0 then Ok([])
    else
      var v :- UnwrapExpression(kw[0].value, true);
      var rest :- LowerValues(kw[1..]);
      Ok([v] + rest)
  }

  /** The call list for kwargs whose values all lower: one call per kwarg,
      in insertion order. */
  function Calls(kw: seq<Kwarg>, vs: seq<Lowered>): string
    requires |kw| == |vs|
  {
    if |kw| == 0 then "" else ReplaceCall(kw[0].key, vs[0]) + Calls(kw[1..], vs[1..])
  }

  /** Lowering the kwarg values fails exactly when one of them fails, and
      otherwise lowers each of them in place. */
  lemma {:induction false} LowerValuesSpec(kw: seq<Kwarg>)
    ensures LowerValues(kw).Err? <==> exists i :: 0 <= i < |kw| && UnwrapExpression(kw[i].value, true).Err?
    ensures LowerValues(kw).Ok? ==>
      && |LowerValues(kw).value| == |kw|
      && forall i :: 0 <= i < |kw| ==> UnwrapExpression(kw[i].value, true) == Ok(LowerValues(kw).value[i])
  {
    if |kw| > 0 {
      LowerValuesSpec(kw[1..]);
      if exists i :: 0 <= i < |kw| && UnwrapExpression(kw[i].value, true).Err? {
        var i :| 0 <= i < |kw| && UnwrapExpression(kw[i].value, true).Err?;
        if i > 0 { assert kw[1..][i - 1] == kw[i]; }
      }
      if UnwrapExpression(kw[0].value, true).Ok? && LowerValues(kw[1..]).Err? {
        var i :| 0 <= i < |kw[1..]| && UnwrapExpression(kw[1..][i].value, true).Err?;
        assert kw[i + 1] == kw[1..][i];
      }
      if LowerValues(kw).Ok? {
        forall i | 0 <= i < |kw| ensures UnwrapExpression(kw[i].value, true) == Ok(LowerValues(kw).value[i]) {
          if i > 0 { assert kw[1..][i - 1] == kw[i]; }
        }
      }
    }
  }

  /** The replacement chain is one `replace` call per kwarg, in order, each
      with that kwarg's value lowered in code; it fails when a value does. */
  lemma {:induction false} ReplacementsSpec(kw: seq<Kwarg>)
    ensures Replacements(kw).Ok? <==> LowerValues(kw).Ok?
    ensures Replacements(kw).Err? ==> Replacements(kw) == Err(LowerValues(kw).error)
    ensures Replacements(kw).Ok? ==> |LowerValues(kw).value| == |kw| && Replacements(kw).value == Calls(kw, LowerValues(kw).value)
  {
    if |kw| > 0 {
      ReplacementsSpec(kw[1..]);
      if LowerValues(kw).Ok? {
        assert LowerValues(kw).value[1..] == LowerValues(kw[1..]).value;
      }
    }
  }

  /** A formatter without kwargs lowers to its format with every backslash
      doubled; with kwargs it lowers to `$("fmt")` followed by one `replace`
      call per kwarg in order, and fails exactly when one of the kwarg
      values cannot be lowered. */
  lemma TranslateStringFormatterSpec(f: Formatter)
    ensures |f.kwargs| == 0 ==> TranslateStringFormatter(f) == Ok(DoubleBackslashes(f.format))
    ensures |f.kwargs| > 0 ==>
      (TranslateStringFormatter(f).Err? <==> exists i :: 0 <= i < |f.kwargs| && UnwrapExpression(f.kwargs[i].value, true).Err?)
    ensures |f.kwargs| > 0 && TranslateStringFormatter(f).Ok? ==>
      && LowerValues(f.kwargs).Ok?
      && |LowerValues(f.kwargs).value| == |f.kwargs|
      && (forall i :: 0 <= i < |f.kwargs| ==> UnwrapExpression(f.kwargs[i].value, true) == Ok(LowerValues(f.kwargs).value[i]))
      && TranslateStringFormatter(f).value == "$(\"" + DoubleBackslashes(f.format) + "\"" + Calls(f.kwargs, LowerValues(f.kwargs).value) + ")"
  {
    EscapeIsDoubling(f.format);
    ReplacementsSpec(f.kwargs);
    LowerValuesSpec(f.kwargs);
  }

  /** The reference definition of the escaping: every backslash becomes two,
      every other character stays. */
  function DoubleBackslashes(s: string): string
  {
    if |s| == 0 then "" else (if s[0] == '\\' then "\\\\" else [s[0]]) + DoubleBackslashes(s[1..])
  }

  /** Reading a doubled string back, a pair of backslashes at a time. */
  function UndoubleBackslashes(s: string): string
  {
    if |s| >= 2 && s[0] == '\\' && s[1] == '\\' then "\\" + UndoubleBackslashes(s[2..])
    else if |s| == 0 then ""
    else [s[0]] + UndoubleBackslashes(s[1..])
  }

  lemma {:induction false} EscapeIsDoubling(s: string)
    ensures EscapeBackslashes(s) == DoubleBackslashes(s)
    decreases |s|
  {
    if |s| > 0 {
      EscapeIsDoubling(s[1..]);
      if s[..1] != "\\" {
        assert s[0] != '\\';
      }
    }
  }

  /** The escaping loses nothing: undoubling its result gives the format
      back. */
  lemma {:induction false} EscapeRoundTrip(s: string)
    ensures UndoubleBackslashes(EscapeBackslashes(s)) == s
  {
    EscapeIsDoubling(s);
    DoubleRoundTrip(s);
  }

  lemma {:induction false} DoubleRoundTrip(s: string)
    ensures UndoubleBackslashes(DoubleBackslashes(s)) == s
  {
    if |s| > 0 {
      DoubleRoundTrip(s[1..]);
      var d := DoubleBackslashes(s);
      if s[0] == '\\' {
        assert d == "\\\\" + DoubleBackslashes(s[1..]);
        assert d[2..] == DoubleBackslashes(s[1..]);
      } else {
        assert d == [s[0]] + DoubleBackslashes(s[1..]);
        assert d[1..] == DoubleBackslashes(s[1..]);
      }
    }
  }

  /** The three shapes of a lowered glob: none, an expression or pattern,
      or a plain (non-selector) value passed through as it is. */
  datatype Glob = NoGlob | GlobText(text: string) | RawGlob(raw: Value)

  const StringGlobWarning: string :=
    "String globs are being phased out from tool output selections, please use the provided Selector (InputSelector or WildcardSelector) classes. "

  /** `translate_to_cwl_glob`. */
  function TranslateToCwlGlob(glob: Value): Result<Glob>
  {
    if !Truthy(glob) then Ok(NoGlob)
    else if !IsSelector(glob) then Ok(RawGlob(glob))
    else
      match glob
      case VInputSel(x, b) =>
        var s :- TranslateInputSelector(x, b, false);
        Ok(GlobText(s))
      case VFormat(f) =>
        var s :- TranslateStringFormatter(f);
        Ok(GlobText(s))
      case VWildcard(p) => Ok(GlobText(p))
      case _ => Err(UnimplementedSelector)
  }

  /** What `translate_to_cwl_glob` logs: a warning for a plain glob. */
  function GlobWarnings(glob: Value): (w: seq<string>)
    ensures |w| > 0 <==> TranslateToCwlGlob(glob).Ok? && TranslateToCwlGlob(glob).value.RawGlob?
  {
    if Truthy(glob) && !IsSelector(glob) then [StringGlobWarning] else []
  }

  /** An input selector lowers to `inputs.X` (and `.basename` when asked),
      bare in code and as `$(...)` outside it, and fails exactly on an empty
      selection; the text always names the selected input. */
  lemma InputSelectorSpec(input: string, useBasename: bool, code: bool)
    ensures TranslateInputSelector(input, useBasename, code).Err? <==> |input| == 0
    ensures TranslateInputSelector(input, useBasename, code).Ok? ==>
      var t := TranslateInputSelector(input, useBasename, code).value;
      var base := "inputs." + input + (if useBasename then ".basename" else "");
      && (code ==> t == base)
      && (!code ==> t == "$(" + t[2..|t| - 1] + ")" && t[2..|t| - 1] == base)
      && StartsWith(base, "inputs." + input)
      && (useBasename <==> EndsWith(base, ".basename") && |base| == |"inputs." + input| + |".basename"|)
  {
    if |input| > 0 {
      var base := "inputs." + input + (if useBasename then ".basename" else "");
      assert base[..|"inputs." + input|] == "inputs." + input;
      if !code {
        var t := "$(" + base + ")";
        assert t[2..|t| - 1] == base;
      }
      if useBasename {
        assert base[|base| - |".basename"|..] == ".basename";
      }
    }
  }

  /** Literals lower by their kind: `None` stays `None`, strings are quoted
      exactly in code, numbers pass through; a wildcard used as a value
      fails, while the cpu and memory selectors give fixed expressions. */
  lemma UnwrapExpressionSpec(v: Value, code: bool)
    ensures v.VNone? ==> UnwrapExpression(v, code) == Ok(LNone)
    ensures UnwrapExpression(v, code).Ok? && UnwrapExpression(v, code).value.LNone? ==> v.VNone?
    ensures v.VStr? ==> UnwrapExpression(v, code) == Ok(LStr(if code then "\"" + v.s + "\"" else v.s))
    ensures v.VInt? ==> UnwrapExpression(v, code) == Ok(LInt(v.i))
    ensures v.VWildcard? ==> UnwrapExpression(v, code) == Err(WildcardAsValue)
    ensures v.VInputSel? ==> (UnwrapExpression(v, code).Err? <==> |v.input| == 0)
    ensures v.VInputSel? && UnwrapExpression(v, code).Ok? ==>
      UnwrapExpression(v, code).value.LStr? && (StartsWith(UnwrapExpression(v, code).value.s, "$(") <==> !code)
    ensures v.VCpu? || v.VMemory? ==>
      UnwrapExpression(v, code).Ok? && StartsWith(UnwrapExpression(v, code).value.s, "$(")
    ensures v.VFormat? ==> UnwrapExpression(v, code) == UnwrapExpression(v, !code)
  {
    if v.VInputSel? && |v.input| > 0 {
      var t := UnwrapExpression(v, code).value.s;
      assert !code ==> t[..2] == "$(";
      assert code ==> t[..2] == "in";
    }
    if v.VCpu? { assert CpuExpression[..2] == "$("; }
    if v.VMemory? { assert MemoryExpression[0] == '$' && MemoryExpression[1] == '('; }
  }

  /** A glob and a value lowered outside code agree on input selectors and
      string formatters; a wildcard is its raw pattern as a glob but an
      error as a value; a falsy glob is no glob at all. */
  lemma GlobVersusValue(glob: Value)
    ensures (glob.VInputSel? && |glob.input| > 0) || glob.VFormat? ==>
      (TranslateToCwlGlob(glob).Ok? <==> UnwrapExpression(glob, false).Ok?) &&
      (TranslateToCwlGlob(glob).Ok? ==> TranslateToCwlGlob(glob) == Ok(GlobText(UnwrapExpression(glob, false).value.s)))
    ensures glob.VInputSel? && |glob.input| == 0 ==> TranslateToCwlGlob(glob) == Err(EmptySelection)
    ensures glob.VWildcard? ==> TranslateToCwlGlob(glob) == Ok(GlobText(glob.pattern)) && UnwrapExpression(glob, false) == Err(WildcardAsValue)
    ensures !Truthy(glob) <==> TranslateToCwlGlob(glob) == Ok(NoGlob)
    ensures glob.VStr? && |glob.s| > 0 ==> TranslateToCwlGlob(glob) == Ok(RawGlob(glob)) && |GlobWarnings(glob)| == 1
  {
  }
}
