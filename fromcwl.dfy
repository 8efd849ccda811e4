/** The reverse parser's string helpers: CWL identifiers normalised to Janis
    identifiers, CWL type strings and type lists parsed to data types,
    JavaScript tokens and basic CWL expressions converted to values and
    string formatters, and workflow step sources resolved against the nodes
    of a workflow. Python's `re` patterns are written out as the predicates
    they decide. */
module CwlIngestion {
  import opened Wrappers
  import opened Strings
  import opened DataTypes
  import opened Ir
  import opened StringFormatters
  import CwlExpressions

  // ---------------------------------------------------------------------
  // Identifiers
  // ---------------------------------------------------------------------

  /** Janis reserves `input` and `output`, so those two names are renamed. */
  function RenameReserved(s: string): string
  {
    if s == "input" then "inp" else if s == "output" then "outp" else s
  }

  /** Every `-` turned into `_`. */
  function Underscored(s: string): string { ReplaceAll(s, "-", "_") }

  /** `get_source_from_identifier`: the text after the last `#`, with dashes
      turned into underscores and the reserved names renamed. */
  function SourceFromIdentifier(identifier: string): string
  {
    var tail := if Contains(identifier, "#") then AfterLast(identifier, '#') else identifier;
    RenameReserved(Underscored(tail))
  }

  /** `get_tag_from_identifier`: the source, then the text after its last
      `/`, normalised the same way. */
  function TagFromIdentifier(identifier: string): string
  {
    RenameReserved(Underscored(SlashTail(SourceFromIdentifier(identifier))))
  }

  /** Underscoring maps the string character by character: it removes every
      dash, keeps every other character, and a second pass changes nothing. */
  lemma UnderscoredSpec(s: string)
    ensures |Underscored(s)| == |s|
    ensures Lacks(Underscored(s), '-')
    ensures forall c :: c != '_' && Lacks(s, c) ==> Lacks(Underscored(s), c)
    ensures Lacks(s, '-') ==> Underscored(s) == s
    ensures Underscored(Underscored(s)) == Underscored(s)
  {
    ReplaceChar(s, '-', '_');
    LacksNotContained(Underscored(s), '-');
    ReplaceAbsent(Underscored(s), "-", "_");
    if Lacks(s, '-') {
      LacksNotContained(s, '-');
      ReplaceAbsent(s, "-", "_");
    }
  }

  /** The `while "-" in identifier` loop of both helpers. */
  method ReplaceDashes(s: string) returns (r: string)
    ensures r == Underscored(s)
  {
    r := s;
    while Contains(r, "-")
      invariant Underscored(r) == Underscored(s)
      decreases if Contains(r, "-") then 1 else 0
    {
      UnderscoredSpec(r);
      LacksNotContained(Underscored(r), '-');
      r := Underscored(r);
    }
    LacksNotContained(r, '-');
    UnderscoredSpec(r);
  }

  method GetSourceFromIdentifier(identifier: string) returns (r: string)
    ensures r == SourceFromIdentifier(identifier)
  {
    r := identifier;
    if Contains(r, "#") {
      r := AfterLast(r, '#');
    }
    r := ReplaceDashes(r);
    r := RenameReserved(r);
  }

  method GetTagFromIdentifier(identifier: string) returns (r: string)
    ensures r == TagFromIdentifier(identifier)
  {
    r := GetSourceFromIdentifier(identifier);
    if Contains(r, "/") {
      r := AfterLast(r, '/');
    }
    r := ReplaceDashes(r);
    r := RenameReserved(r);
  }

  /** Normalising the chosen tail yields a name free of dashes and of any
      character the tail lacks, and never a reserved name. */
  lemma NormalisedSpec(tail: string)
    ensures Lacks(RenameReserved(Underscored(tail)), '-')
    ensures forall c :: c !in "_inpout" && Lacks(tail, c) ==> Lacks(RenameReserved(Underscored(tail)), c)
    ensures RenameReserved(Underscored(tail)) != "input" && RenameReserved(Underscored(tail)) != "output"
  {
    UnderscoredSpec(tail);
  }

  /** A source never contains `#` or `-` and is never `input` or `output`;
      an identifier that is already such a name is kept, so normalising
      twice changes nothing. */
  lemma SourceFromIdentifierSpec(identifier: string)
    ensures Lacks(SourceFromIdentifier(identifier), '#')
    ensures Lacks(SourceFromIdentifier(identifier), '-')
    ensures SourceFromIdentifier(identifier) != "input" && SourceFromIdentifier(identifier) != "output"
    ensures Lacks(identifier, '#') && Lacks(identifier, '-') && identifier != "input" && identifier != "output"
      ==> SourceFromIdentifier(identifier) == identifier
    ensures SourceFromIdentifier(SourceFromIdentifier(identifier)) == SourceFromIdentifier(identifier)
  {
    var tail := if Contains(identifier, "#") then AfterLast(identifier, '#') else identifier;
    if Contains(identifier, "#") {
      AfterLastHasNo(identifier, '#');
    } else {
      LacksNotContained(identifier, '#');
    }
    NormalisedSpec(tail);
    var r := SourceFromIdentifier(identifier);
    LacksNotContained(r, '#');
    UnderscoredSpec(r);
    if Lacks(identifier, '#') && Lacks(identifier, '-') {
      LacksNotContained(identifier, '#');
      UnderscoredSpec(identifier);
    }
  }

  /** The text after the last `#` is what is kept. */
  lemma SourceAfterLastHash(ns: string, name: string)
    requires Lacks(name, '#')
    ensures SourceFromIdentifier(ns + "#" + name) == RenameReserved(Underscored(name))
  {
    var id := ns + "#" + name;
    CharContained(id, '#', |ns|);
    AfterLastOfConcat(ns, name, '#');
  }

  /** The text after the last `/` of a source. */
  function SlashTail(source: string): string
  {
    if Contains(source, "/") then AfterLast(source, '/') else source
  }

  lemma SlashTailSpec(source: string)
    requires Lacks(source, '#')
    ensures Lacks(SlashTail(source), '#') && Lacks(SlashTail(source), '/')
    ensures Lacks(source, '/') ==> SlashTail(source) == source
  {
    var tail := SlashTail(source);
    if Contains(source, "/") {
      AfterLastHasNo(source, '/');
      SplitJoin(source, '/');
      var parts := Split(source, '/');
      forall j | 0 <= j < |tail| ensures tail[j] != '#' {
        JoinLastChar(parts, "/", j);
      }
    } else {
      LacksNotContained(source, '/');
    }
    LacksNotContained(source, '/');
  }

  /** A tag additionally never contains `/`, and a source without `/` is its
      own tag. */
  lemma TagFromIdentifierSpec(identifier: string)
    ensures Lacks(TagFromIdentifier(identifier), '#')
    ensures Lacks(TagFromIdentifier(identifier), '/')
    ensures Lacks(TagFromIdentifier(identifier), '-')
    ensures TagFromIdentifier(identifier) != "input" && TagFromIdentifier(identifier) != "output"
    ensures Lacks(SourceFromIdentifier(identifier), '/') ==> TagFromIdentifier(identifier) == SourceFromIdentifier(identifier)
  {
    var source := SourceFromIdentifier(identifier);
    SourceFromIdentifierSpec(identifier);
    SlashTailSpec(source);
    assert TagFromIdentifier(identifier) == RenameReserved(Underscored(SlashTail(source)));
    NormalisedSpec(SlashTail(source));
    if Lacks(source, '/') {
      UnderscoredSpec(source);
    }
  }

  /** Normalising a tag again changes nothing. */
  lemma TagIdempotent(identifier: string)
    ensures TagFromIdentifier(TagFromIdentifier(identifier)) == TagFromIdentifier(identifier)
  {
    var t := TagFromIdentifier(identifier);
    TagFromIdentifierSpec(identifier);
    SourceFromIdentifierSpec(t);
    TagFromIdentifierSpec(t);
  }

  /** Every character of the last part of a join is a character of the
      joined string. */
  lemma {:induction false} JoinLastChar(parts: seq<string>, sep: string, j: nat)
    requires |parts| > 0 && j < |parts[|parts| - 1]|
    ensures exists k :: 0 <= k < |Join(parts, sep)| && Join(parts, sep)[k] == parts[|parts| - 1][j]
    decreases |parts|
  {
    if |parts| == 1 {
      assert Join(parts, sep)[j] == parts[0][j];
    } else {
      JoinLastChar(parts[1..], sep, j);
      var k :| 0 <= k < |Join(parts[1..], sep)| && Join(parts[1..], sep)[k] == parts[1..][|parts[1..]| - 1][j];
      var pre := parts[0] + sep;
      assert Join(parts, sep) == pre + Join(parts[1..], sep);
      assert Join(parts, sep)[|pre| + k] == Join(parts[1..], sep)[k];
    }
  }

  /** `AfterLast` of a string joined at its last separator is the part
      after it. */
  lemma {:induction false} AfterLastOfConcat(a: string, b: string, c: char)
    requires Lacks(b, c)
    ensures |Split(a + [c] + b, c)| >= 2
    ensures AfterLast(a + [c] + b, c) == b
    decreases |a|
  {
    var s := a + [c] + b;
    if |a| == 0 {
      assert s == [c] + b;
      assert s[1..] == b;
      SplitAbsent(b, c);
    } else {
      AfterLastOfConcat(a[1..], b, c);
      assert s[1..] == a[1..] + [c] + b;
    }
  }
  // ---------------------------------------------------------------------
  // Types
  // ---------------------------------------------------------------------

  /** A CWL type as the document loader hands it over: a type name, a list
      of alternatives, one of the four array-schema classes, an input enum
      schema, or an object of any other class. */
  datatype CwlType =
    | TName(name: string)
    | TList(members: seq<CwlType>)
    | TArraySchema(items: CwlType)
    | TEnumSchema
    | TOther(className: string)

  /** The Janis class of a bare CWL type name; `Any` becomes `String` and
      `long` becomes `Int`. */
  function BaseTypeClass(name: string): Option<TypeClass>
  {
    if name == "File" then Some(FileClass)
    else if name == "Directory" then Some(DirectoryClass)
    else if name == "string" then Some(StringClass)
    else if name == "int" then Some(IntClass)
    else if name == "float" then Some(FloatClass)
    else if name == "boolean" then Some(BooleanClass)
    else if name == "stdout" then Some(StdoutClass)
    else if name == "stderr" then Some(StderrClass)
    else if name == "Any" then Some(StringClass)
    else if name == "long" then Some(IntClass)
    else None
  }

  /** `n` copies of `[]`. */
  function Brackets(n: nat): string
  {
    if n == 0 then "" else Brackets(n - 1) + "[]"
  }

  /** The name with its trailing `[]` pairs removed, and how many there were. */
  function StripArraySuffixes(s: string): (r: (string, nat))
    decreases |s|
  {
    if EndsWith(s, "[]") then
      var inner := StripArraySuffixes(s[..|s| - 2]);
      (inner.0, inner.1 + 1)
    else (s, 0)
  }

  /** Stripping leaves a name that does not end in `[]`, followed in the
      original by as many `[]` pairs as were counted. */
  lemma {:induction false} StripArraySuffixesSpec(s: string)
    ensures !EndsWith(StripArraySuffixes(s).0, "[]")
    ensures s == StripArraySuffixes(s).0 + Brackets(StripArraySuffixes(s).1)
    decreases |s|
  {
    if EndsWith(s, "[]") {
      StripArraySuffixesSpec(s[..|s| - 2]);
      assert s == s[..|s| - 2] + "[]";
    }
  }

  /** A base name followed by `[]` pairs strips back to that name. */
  lemma {:induction false} StripBrackets(b: string, n: nat)
    requires !EndsWith(b, "[]")
    ensures StripArraySuffixes(b + Brackets(n)) == (b, n)
    decreases n
  {
    if n > 0 {
      var s := b + Brackets(n);
      assert s == (b + Brackets(n - 1)) + "[]";
      assert s[..|s| - 2] == b + Brackets(n - 1);
      StripBrackets(b, n - 1);
    } else {
      assert b + Brackets(0) == b;
    }
  }

  /** The base name of a type string: `?` removed everywhere, then the
      trailing `[]` pairs. */
  function TypeNameBase(name: string): string
  {
    StripArraySuffixes(ReplaceAll(name, "?", "")).0
  }

  /** `from_cwl_inner_type` on a string. The array count is computed but not
      applied, as in the source. */
  function FromTypeName(name: string): Result<DataType>
  {
    var optional := Contains(name, "?");
    var base := TypeNameBase(name);
    match BaseTypeClass(base)
    case None => Err(UnknownCwlType(base))
    case Some(c) => Ok(Scalar(c, optional))
  }

  /** A `null` alternative of a type list. */
  predicate IsNull(c: CwlType) { c == TName("null") }

  predicate HasNull(cs: seq<CwlType>)
  {
    TName("null") in cs
  }

  /** The alternatives other than `null`, in order. */
  function NonNull(cs: seq<CwlType>): seq<CwlType>
  {
    if |cs| == 0 then []
    else
      var last := cs[|cs| - 1];
      assert cs == cs[..|cs| - 1] + [last];
      NonNull(cs[..|cs| - 1]) + (if IsNull(last) then [] else [last])
  }

  /** The alternatives kept are exactly those that are not `null`, and no
      more of them than the list has. */
  lemma {:induction false} NonNullSpec(cs: seq<CwlType>)
    ensures |NonNull(cs)| <= |cs|
    ensures forall c :: c in NonNull(cs) <==> c in cs && !IsNull(c)
    ensures !HasNull(cs) ==> NonNull(cs) == cs
  {
    if |cs| > 0 {
      var init := cs[..|cs| - 1];
      NonNullSpec(init);
      assert cs == init + [cs[|cs| - 1]];
    }
  }

  /** Every type of a sequence, made optional. */
  function AllOptional(ts: seq<DataType>): (r: seq<DataType>)
    ensures |r| == |ts|
    ensures forall i :: 0 <= i < |ts| ==> r[i] == ts[i].WithOptional(true)
  {
    seq(|ts|, i requires 0 <= i < |ts| => ts[i].WithOptional(true))
  }

  /** The types of the first `n` alternatives of a type list other than
      `null`, in order, or the first error. */
  function MemberTypes(t: CwlType, n: nat): Result<seq<DataType>>
    requires t.TList? && n <= |t.members|
    decreases t, 0, n
  {
    if n == 0 then Ok([])
    else
      var init := MemberTypes(t, n - 1);
      var c := t.members[n - 1];
      if init.Err? || IsNull(c) then init
      else
        var ty := FromCwlType(c);
        if ty.Err? then Err(ty.error) else Ok(init.value + [ty.value])
  }

  /** `from_cwl_inner_type`: a list's `null` alternative makes the others
      optional, one remaining alternative is returned itself and several
      become a union; an array schema becomes an array of its item type and
      an enum schema a string. */
  function FromCwlType(t: CwlType): Result<DataType>
    decreases t, 1
  {
    match t
    case TName(name) => FromTypeName(name)
    case TList(cs) =>
      var types :- MemberTypes(t, |cs|);
      var optional := HasNull(cs);
      if |types| == 1 then Ok(if optional then types[0].WithOptional(true) else types[0])
      else Ok(Union(if optional then AllOptional(types) else types, false))
    case TArraySchema(items) =>
      var inner :- FromCwlType(items);
      Ok(Array(inner, false))
    case TEnumSchema => Ok(Scalar(StringClass, false))
    case TOther(cls) => Err(UnparsableCwlType(cls))
  }

  /** The `while cwl_type.endswith("[]")` loop. */
  method ParseTypeName(name: string) returns (r: Result<DataType>)
    ensures r == FromTypeName(name)
  {
    var optional := Contains(name, "?");
    var base := ReplaceAll(name, "?", "");
    var arrayCount := 0;
    while EndsWith(base, "[]")
      invariant StripArraySuffixes(ReplaceAll(name, "?", "")).0 == StripArraySuffixes(base).0
      decreases |base|
    {
      arrayCount := arrayCount + 1;
      base := base[..|base| - 2];
    }
    var cls := BaseTypeClass(base);
    if cls.None? {
      return Err(UnknownCwlType(base));
    }
    r := Ok(Scalar(cls.value, optional));
  }

  /** `from_cwl_inner_type`, with the loop over a list's alternatives. */
  method FromCwlInnerType(t: CwlType) returns (r: Result<DataType>)
    ensures r == FromCwlType(t)
    decreases t, 1
  {
    match t
    case TName(name) =>
      r := ParseTypeName(name);
    case TList(_) =>
      r := FromCwlTypeList(t);
    case TArraySchema(items) =>
      var inner := FromCwlInnerType(items);
      if inner.Err? {
        return Err(inner.error);
      }
      r := Ok(Array(inner.value, false));
    case TEnumSchema =>
      r := Ok(Scalar(StringClass, false));
    case TOther(cls) =>
      r := Err(UnparsableCwlType(cls));
  }

  /** The list case of `from_cwl_inner_type`: the loop that appends each
      alternative other than `null` and notes whether `null` was seen. */
  method FromCwlTypeList(t: CwlType) returns (r: Result<DataType>)
    requires t.TList?
    ensures r == FromCwlType(t)
    decreases t, 0
  {
    var cs := t.members;
    var optional := false;
    var types: seq<DataType> := [];
    var i := 0;
    while i < |cs|
      invariant 0 <= i <= |cs|
      invariant MemberTypes(t, i) == Ok(types)
      invariant optional <==> HasNull(cs[..i])
    {
      assert cs[..i + 1] == cs[..i] + [cs[i]];
      if IsNull(cs[i]) {
        optional := true;
      } else {
        var ty := FromCwlInnerType(cs[i]);
        if ty.Err? {
          MemberTypesPrefixError(t, i + 1, |cs|);
          return Err(ty.error);
        }
        types := types + [ty.value];
      }
      i := i + 1;
    }
    assert cs[..i] == cs;
    if |types| == 1 {
      r := Ok(if optional then types[0].WithOptional(true) else types[0]);
    } else {
      r := Ok(Union(if optional then AllOptional(types) else types, false));
    }
  }

  /** Once a prefix of the alternatives fails, every longer prefix fails
      with the same error. */
  lemma {:induction false} MemberTypesPrefixError(t: CwlType, n: nat, m: nat)
    requires t.TList? && n <= m <= |t.members|
    requires MemberTypes(t, n).Err?
    ensures MemberTypes(t, m) == MemberTypes(t, n)
    decreases m
  {
    if m > n {
      MemberTypesPrefixError(t, n, m - 1);
    }
  }

  /** `?` anywhere in a type string makes it optional, trailing `[]` pairs
      are dropped without effect, and a base name outside the table is
      reported by that name. */
  lemma TypeNameSpec(name: string, b: string, n: nat)
    requires !EndsWith(b, "[]")
    requires ReplaceAll(name, "?", "") == b + Brackets(n)
    ensures BaseTypeClass(b).None? ==> FromTypeName(name) == Err(UnknownCwlType(b))
    ensures BaseTypeClass(b).Some? ==> FromTypeName(name) == Ok(Scalar(BaseTypeClass(b).value, Contains(name, "?")))
  {
    StripBrackets(b, n);
  }

  /** Array suffixes are not applied: `T[]` parses exactly as `T`. */
  lemma ArraySuffixIgnored(name: string)
    ensures FromTypeName(name + "[]") == FromTypeName(name)
  {
    DeleteCharAppend(name, "[]", '?');
    assert ReplaceAll("[]", "?", "") == "[]";
    var y := ReplaceAll(name, "?", "");
    var st := StripArraySuffixes(y);
    StripArraySuffixesSpec(y);
    assert y + "[]" == st.0 + Brackets(st.1 + 1);
    StripBrackets(st.0, st.1 + 1);
    CharAppendContains(name, "[]", '?');
  }

  /** Deleting a character distributes over concatenation. */
  lemma {:induction false} DeleteCharAppend(a: string, b: string, c: char)
    ensures ReplaceAll(a + b, [c], "") == ReplaceAll(a, [c], "") + ReplaceAll(b, [c], "")
    decreases |a|
  {
    if |a| > 0 {
      DeleteCharAppend(a[1..], b, c);
      assert (a + b)[1..] == a[1..] + b;
      assert (a + b)[..1] == a[..1];
    } else {
      assert a + b == b;
    }
  }

  lemma CharAppendContains(a: string, b: string, c: char)
    requires Lacks(b, c)
    ensures Contains(a + b, [c]) == Contains(a, [c])
  {
    LacksNotContained(a + b, c);
    LacksNotContained(a, c);
    assert Lacks(a + b, c) ==> Lacks(a, c) by {
      if Lacks(a + b, c) {
        forall i | 0 <= i < |a| ensures a[i] != c {
          assert (a + b)[i] == a[i];
        }
      }
    }
    assert Lacks(a, c) ==> Lacks(a + b, c) by {
      if Lacks(a, c) {
        forall i | 0 <= i < |a + b| ensures (a + b)[i] != c {
          if i >= |a| { assert (a + b)[i] == b[i - |a|]; }
        }
      }
    }
  }

  /** The type list's alternatives other than `null` are converted as
      `map` would convert them. */
  lemma {:induction false} MemberTypesSpec(t: CwlType, n: nat)
    requires t.TList? && n <= |t.members|
    ensures MemberTypes(t, n) == MapResult(FromCwlType, NonNull(t.members[..n]))
    decreases n
  {
    if n > 0 {
      MemberTypesSpec(t, n - 1);
      NonNullPrefix(t.members, n);
      var c := t.members[n - 1];
      if IsNull(c) {
        assert NonNull(t.members[..n]) == NonNull(t.members[..n - 1]);
      } else {
        MapResultAppend(FromCwlType, NonNull(t.members[..n - 1]), c);
        assert NonNull(t.members[..n]) == NonNull(t.members[..n - 1]) + [c];
        assert FromCwlType(c) == (FromCwlType)(c);
      }
    }
  }

  /** One more alternative: `null` is dropped, any other kept at the end. */
  lemma NonNullPrefix(cs: seq<CwlType>, n: nat)
    requires 0 < n <= |cs|
    ensures NonNull(cs[..n]) == NonNull(cs[..n - 1]) + (if IsNull(cs[n - 1]) then [] else [cs[n - 1]])
  {
    assert cs[..n][..n - 1] == cs[..n - 1];
    assert cs[..n][n - 1] == cs[n - 1];
  }

  /** A type list parses when each of its alternatives other than `null`
      does; a single one is returned itself, optional when the list has a
      `null`; otherwise the result is a required union of them all in
      order, each made optional when the list has a `null`. */
  lemma ListTypeSpec(cs: seq<CwlType>)
    ensures FromCwlType(TList(cs)).Ok? <==> forall i :: 0 <= i < |NonNull(cs)| ==> FromCwlType(NonNull(cs)[i]).Ok?
    ensures FromCwlType(TList(cs)).Ok? && |NonNull(cs)| == 1 ==>
      FromCwlType(TList(cs)).value ==
        (if HasNull(cs) then FromCwlType(NonNull(cs)[0]).value.WithOptional(true) else FromCwlType(NonNull(cs)[0]).value)
    ensures FromCwlType(TList(cs)).Ok? && |NonNull(cs)| != 1 ==>
      && FromCwlType(TList(cs)).value.Union?
      && !FromCwlType(TList(cs)).value.optional
      && |FromCwlType(TList(cs)).value.members| == |NonNull(cs)|
      && forall i :: 0 <= i < |NonNull(cs)| ==>
           FromCwlType(TList(cs)).value.members[i] == (if HasNull(cs) then FromCwlType(NonNull(cs)[i]).value.WithOptional(true) else FromCwlType(NonNull(cs)[i]).value)
  {
    var t := TList(cs);
    assert cs[..|cs|] == cs;
    MemberTypesSpec(t, |cs|);
    MapResultSpec(FromCwlType, NonNull(cs));
  }
  // ---------------------------------------------------------------------
  // JavaScript tokens
  // ---------------------------------------------------------------------

  /** Python's `\s` in a `str` pattern: the characters `str.isspace`
      accepts, that is the ASCII whitespace, the separators U+001C to
      U+001F, U+0085, U+00A0, U+1680, U+2000 to U+200A, U+2028, U+2029,
      U+202F, U+205F and U+3000. */
  predicate IsSpace(c: char)
  {
    || c == ' ' || ('\t' <= c <= '\r') || ('\U{001C}' <= c <= '\U{001F}')
    || c == '\U{0085}' || c == '\U{00A0}' || c == '\U{1680}'
    || ('\U{2000}' <= c <= '\U{200A}') || c == '\U{2028}' || c == '\U{2029}'
    || c == '\U{202F}' || c == '\U{205F}' || c == '\U{3000}'
  }

  predicate AllSpaces(t: string) { forall i :: 0 <= i < |t| ==> IsSpace(t[i]) }

  /** The text a `$` can end a match at when the pattern's last element
      cannot match a newline: `$` matches at the very end or before one
      final newline. */
  function Body(t: string): string
  {
    if |t| > 0 && t[|t| - 1] == '\n' then t[..|t| - 1] else t
  }

  /** The number of leading whitespace characters. */
  function LeadingSpaces(t: string): (n: nat)
    ensures n <= |t|
    ensures forall k :: 0 <= k < n ==> IsSpace(t[k])
    ensures n < |t| ==> !IsSpace(t[n])
  {
    if |t| > 0 && IsSpace(t[0]) then 1 + LeadingSpaces(t[1..]) else 0
  }

  function LeadingDigits(t: string): (n: nat)
    ensures n <= |t|
    ensures forall k :: 0 <= k < n ==> IsDigit(t[k])
    ensures n < |t| ==> !IsDigit(t[n])
  {
    if |t| > 0 && IsDigit(t[0]) then 1 + LeadingDigits(t[1..]) else 0
  }

  function TrailingSpaces(t: string): (n: nat)
    ensures n <= |t|
    ensures n < |t| ==> !IsSpace(t[|t| - 1 - n])
  {
    if |t| > 0 && IsSpace(t[|t| - 1]) then 1 + TrailingSpaces(t[..|t| - 1]) else 0
  }

  function TrailingDigits(t: string): (n: nat)
    ensures n <= |t|
    ensures forall m :: |t| - n <= m < |t| ==> IsDigit(t[m])
  {
    if |t| > 0 && IsDigit(t[|t| - 1]) then 1 + TrailingDigits(t[..|t| - 1]) else 0
  }

  /** The class `[A-z0-9_]` as written: the range `A-z` also spans the six
      characters between `Z` and `a`. */
  predicate SelectorCharAsWritten(c: char)
  {
    ('A' <= c <= 'z') || IsDigit(c) || c == '_'
  }

  /** The class `[A-Za-z0-9_]` of identifier characters. */
  predicate SelectorChar(c: char)
  {
    ('A' <= c <= 'Z') || ('a' <= c <= 'z') || IsDigit(c) || c == '_'
  }

  /** `^inputs\.(C+)$` for a character class `C`, with its group. */
  function MatchSelector(inClass: char -> bool, token: string): Option<string>
  {
    var b := Body(token);
    if |b| > 7 && b[..7] == "inputs." && forall i :: 7 <= i < |b| ==> inClass(b[i]) then Some(b[7..]) else None
  }

  /** `^".+?"$`: a quote, at least one character other than a newline, and
      a quote at the end. */
  predicate MatchString(token: string)
  {
    var b := Body(token);
    |b| >= 3 && b[0] == '"' && b[|b| - 1] == '"' && Lacks(b[1..|b| - 1], '\n')
  }

  /** `^\s*\d+\s*$`, with the digits it matched. */
  function MatchInt(t: string): Option<string>
  {
    var i := LeadingSpaces(t);
    var j := i + LeadingDigits(t[i..]);
    if j > i && AllSpaces(t[j..]) then Some(t[i..j]) else None
  }

  /** The first alternative of `^\s*(\d*\.\d+)|(\d+\.\d*)\s*$`: optional
      whitespace and digits at the start, a point and a digit. */
  predicate MatchFloatStart(t: string)
  {
    var i := LeadingSpaces(t);
    var j := i + LeadingDigits(t[i..]);
    j + 1 < |t| && t[j] == '.' && IsDigit(t[j + 1])
  }

  /** The second alternative, searched anywhere: a digit, a point, digits
      and whitespace up to the end. */
  predicate MatchFloatEnd(t: string)
  {
    var u := t[..|t| - TrailingSpaces(t)];
    var k := |u| - TrailingDigits(u);
    k >= 2 && u[k - 1] == '.' && IsDigit(u[k - 2])
  }

  /** `parse_number_from_string`, caught as `convert_javascript_token`
      catches it. `pyFloat` stands for Python's `float()` on the string: the
      text `str()` gives for the float, or `None` where it raises. */
  function ParseNumber(pyFloat: string -> Option<string>, t: string): Option<Value>
  {
    match MatchInt(t)
    case Some(digits) => Some(VInt(DigitsValue(digits)))
    case None =>
      if MatchFloatStart(t) || MatchFloatEnd(t) then
        match pyFloat(t)
        case Some(text) => Some(VFloat(text))
        case None => None
      else None
  }

  /** A converted token and the warnings logged while converting it. */
  datatype Converted = Converted(value: Value, warnings: seq<string>)

  function ExprPlaceholder(token: string): string { "<expr>" + token + "</expr>" }

  function TokenWarning(token: string): string
  {
    "Couldn't translate javascript token, will use the placeholder '" + ExprPlaceholder(token) + "'"
  }

  /** `convert_javascript_token` with the selector's character class as a
      parameter: a selector, a quoted string without its quotes, a number,
      or else the placeholder and a warning. */
  function ConvertWith(inClass: char -> bool, pyFloat: string -> Option<string>, token: string): Converted
  {
    match MatchSelector(inClass, token)
    case Some(x) => Converted(VInputSel(x, false), [])
    case None =>
      if MatchString(token) then Converted(VStr(token[1..|token| - 1]), [])
      else
        match ParseNumber(pyFloat, token)
        case Some(v) => Converted(v, [])
        case None => Converted(VStr(ExprPlaceholder(token)), [TokenWarning(token)])
  }

  /** `convert_javascript_token` as written, with `[A-z0-9_]`. */
  function ConvertTokenAsWritten(pyFloat: string -> Option<string>, token: string): Converted
  {
    ConvertWith(SelectorCharAsWritten, pyFloat, token)
  }

  /** `convert_javascript_token` with the identifier class it evidently
      means; the rest of this module uses this one. */
  function ConvertToken(pyFloat: string -> Option<string>, token: string): Converted
  {
    ConvertWith(SelectorChar, pyFloat, token)
  }

  /** The two classes differ in exactly the five characters between `Z` and
      `a` other than the underscore. */
  lemma SelectorClassesDiffer(c: char)
    ensures SelectorChar(c) ==> SelectorCharAsWritten(c)
    ensures SelectorCharAsWritten(c) && !SelectorChar(c) <==> c in "[\\]^`"
  {
  }

  /** A token that starts like `inputs.` and has no point after it is
      neither a quoted string nor a number. */
  lemma NotStringOrNumber(pyFloat: string -> Option<string>, t: string)
    requires |t| > 7 && t[0] == 'i' && t[5] == 's' && t[6] == '.'
    requires !IsSpace(t[|t| - 1]) && forall i :: 7 <= i < |t| ==> t[i] != '.'
    ensures !MatchString(t) && ParseNumber(pyFloat, t).None?
  {
    assert Body(t)[0] == 'i';
    assert LeadingSpaces(t) == 0 && LeadingDigits(t[0..]) == 0;
    assert TrailingSpaces(t) == 0;
    assert t[..|t| - 0] == t;
  }

  /** As written, a selection whose name uses one of those five characters
      is taken for an input selector; with the identifier class it falls
      back to the placeholder. */
  lemma SelectorClassMismatch(pyFloat: string -> Option<string>, x: string, j: nat)
    requires |x| > 0 && forall i :: 0 <= i < |x| ==> SelectorCharAsWritten(x[i])
    requires j < |x| && !SelectorChar(x[j])
    ensures ConvertTokenAsWritten(pyFloat, "inputs." + x) == Converted(VInputSel(x, false), [])
    ensures ConvertToken(pyFloat, "inputs." + x) ==
      Converted(VStr(ExprPlaceholder("inputs." + x)), [TokenWarning("inputs." + x)])
  {
    var t := "inputs." + x;
    assert t[|t| - 1] == x[|x| - 1];
    assert Body(t) == t;
    assert t[..7] == "inputs." && t[7..] == x;
    assert forall i :: 7 <= i < |t| ==> t[i] == x[i - 7];
    assert !SelectorChar(t[7 + j]);
    assert t[0] == 'i' && t[5] == 's' && t[6] == '.';
    NotStringOrNumber(pyFloat, t);
  }

  /** `a[0]` is such a name: its `[` lies between `Z` and `a`. */
  lemma SelectorClassExample()
    ensures forall i :: 0 <= i < |"a[0]"| ==> SelectorCharAsWritten("a[0]"[i])
    ensures !SelectorChar("a[0]"[1])
  {
  }

  /** A selection of an input named by identifier characters converts back
      to that selection, and lowering the selection in code gives exactly
      that token. */
  lemma SelectorTokenRoundTrip(pyFloat: string -> Option<string>, x: string)
    requires |x| > 0 && forall i :: 0 <= i < |x| ==> SelectorChar(x[i])
    ensures CwlExpressions.TranslateInputSelector(x, false, true) == Ok("inputs." + x)
    ensures ConvertToken(pyFloat, "inputs." + x) == Converted(VInputSel(x, false), [])
  {
    var t := "inputs." + x;
    assert t[|t| - 1] == x[|x| - 1];
    assert Body(t) == t;
    assert t[..7] == "inputs." && t[7..] == x;
    assert forall i :: 7 <= i < |t| ==> t[i] == x[i - 7];
    assert "inputs." + x + "" == t;
  }

  /** A double-quoted string without newlines converts to the string
      between the quotes, which is what lowering a string in code quotes. */
  lemma QuotedTokenRoundTrip(pyFloat: string -> Option<string>, m: string)
    requires |m| > 0 && Lacks(m, '\n')
    ensures CwlExpressions.UnwrapExpression(VStr(m), true) == Ok(CwlExpressions.LStr(CwlExpressions.Quote(m)))
    ensures ConvertToken(pyFloat, CwlExpressions.Quote(m)) == Converted(VStr(m), [])
  {
    var t := CwlExpressions.Quote(m);
    assert Body(t) == t;
    assert t[0] == '"';
    assert |t| > 7 ==> t[..7][0] == '"';
    assert t[1..|t| - 1] == m;
  }

  /** The decimal text of a natural number converts to that number. */
  lemma IntTokenRoundTrip(pyFloat: string -> Option<string>, n: nat)
    ensures ConvertToken(pyFloat, NatToString(n)) == Converted(VInt(n), [])
  {
    var t := NatToString(n);
    NatToStringRoundTrip(n);
    assert IsDigit(t[0]);
    assert MatchSelector(SelectorChar, t).None? by {
      var b := Body(t);
      if |b| > 7 { assert b[0] == t[0]; assert b[..7][0] == b[0]; }
    }
    assert !MatchString(t) by {
      var b := Body(t);
      if |b| >= 3 { assert b[0] == t[0]; }
    }
    assert LeadingSpaces(t) == 0;
    AllDigitsLeading(t);
    assert t[0..][..|t|] == t;
  }

  lemma {:induction false} AllDigitsLeading(t: string)
    requires AllDigits(t)
    ensures LeadingDigits(t) == |t|
    decreases |t|
  {
    if |t| > 0 {
      AllDigitsLeading(t[1..]);
    }
  }

  /** The placeholder is used, with exactly one warning naming the token,
      precisely when the token is neither a selector, nor a quoted string,
      nor a number; no other conversion warns. */
  lemma PlaceholderSpec(pyFloat: string -> Option<string>, token: string)
    ensures ConvertToken(pyFloat, token).warnings != [] <==>
      MatchSelector(SelectorChar, token).None? && !MatchString(token) && ParseNumber(pyFloat, token).None?
    ensures ConvertToken(pyFloat, token).warnings != [] <==>
      ConvertToken(pyFloat, token).value == VStr(ExprPlaceholder(token))
    ensures ConvertToken(pyFloat, token).warnings != [] ==> ConvertToken(pyFloat, token).warnings == [TokenWarning(token)]
  {
    if MatchString(token) && MatchSelector(SelectorChar, token).None? {
      assert |token[1..|token| - 1]| != |ExprPlaceholder(token)|;
    }
  }
  // ---------------------------------------------------------------------
  // Basic expressions
  // ---------------------------------------------------------------------

  /** `^\$\((.+)\)$`: the whole expression is one `$(...)`, and its group. */
  function SingleToken(expr: string): Option<string>
  {
    var b := Body(expr);
    if |b| >= 4 && b[..2] == "$(" && b[|b| - 1] == ')' && Lacks(b[2..|b| - 1], '\n') then Some(b[2..|b| - 1])
    else None
  }

  /** The lazy group of `\s+?(.+?)\s\}$` once `return` ends at `p`: the
      first length `k` of the whitespace run that leaves a group without a
      newline. */
  function FunctionGroup(b: string, p: nat, k: nat): Option<string>
    requires k >= 1
    decreases |b| - p - k
  {
    if |b| < p + k + 3 then None
    else if !IsSpace(b[p + k - 1]) then None
    else if b[|b| - 1] != '}' || !IsSpace(b[|b| - 2]) then None
    else if Lacks(b[p + k..|b| - 2], '\n') then Some(b[p + k..|b| - 2])
    else FunctionGroup(b, p, k + 1)
  }

  /** `^\$\{\s+?return\s+?(.+?)\s\}$`, and its group. */
  function FunctionToken(expr: string): Option<string>
  {
    var b := Body(expr);
    if |b| < 2 || b[..2] != "${" then None
    else
      var q := 2 + LeadingSpaces(b[2..]);
      if q == 2 || !OccursAt(b, "return", q) then None
      else FunctionGroup(b, q + 6, 1)
  }

  /** The first `)` at or after index `j`. */
  function FirstClose(t: string, j: nat): (r: Option<nat>)
    ensures r.Some? ==> j <= r.value < |t| && t[r.value] == ')'
    ensures r.Some? ==> forall m :: j <= m < r.value ==> t[m] != ')'
    ensures r.None? ==> forall m :: j <= m < |t| ==> t[m] != ')'
    decreases |t| - j
  {
    if j >= |t| then None else if t[j] == ')' then Some(j) else FirstClose(t, j + 1)
  }

  /** `findall` of `\$\((.+?)\)` from index `i`: at each `$(` the group runs
      to the first `)` after at least one character, provided no newline
      comes first; the scan resumes after the match, or one character on
      when there is none. */
  function InlineTokens(t: string, i: nat): seq<string>
    decreases |t| - i
  {
    if i + 4 > |t| then []
    else if t[i..i + 2] == "$(" then
      match FirstClose(t, i + 3)
      case Some(j) =>
        if Lacks(t[i + 2..j], '\n') then [t[i + 2..j]] + InlineTokens(t, j + 1) else InlineTokens(t, i + 1)
      case None => InlineTokens(t, i + 1)
    else InlineTokens(t, i + 1)
  }

  /** The order in which a Python `set` of the inline tokens is iterated:
      each distinct token exactly once. The order itself depends on string
      hashing, so it is a parameter. */
  predicate TokenOrder(expr: string, order: seq<string>)
  {
    && (forall a, b :: 0 <= a < b < |order| ==> order[a] != order[b])
    && (forall i :: 0 <= i < |order| ==> order[i] in InlineTokens(expr, 0))
    && (forall i :: 0 <= i < |InlineTokens(expr, 0)| ==> InlineTokens(expr, 0)[i] in order)
  }

  function TokenKey(n: nat): string { "JANIS_CWL_TOKEN_" + NatToString(n) }

  /** The format after the first `n` tokens were replaced by their keys. */
  function Rewritten(expr: string, order: seq<string>, n: nat): string
    requires n <= |order|
  {
    if n == 0 then expr
    else ReplaceAll(Rewritten(expr, order, n - 1), "$(" + order[n - 1] + ")", Placeholder(TokenKey(n)))
  }

  /** The kwargs filled for the first `n` tokens. */
  function Replacers(pyFloat: string -> Option<string>, order: seq<string>, n: nat): (kw: seq<Kwarg>)
    requires n <= |order|
    ensures |kw| == n
    ensures forall i :: 0 <= i < n ==> kw[i] == Kwarg(TokenKey(i + 1), ConvertToken(pyFloat, order[i]).value)
  {
    seq(n, i requires 0 <= i < n => Kwarg(TokenKey(i + 1), ConvertToken(pyFloat, order[i]).value))
  }

  lemma ReplacersSnoc(pyFloat: string -> Option<string>, order: seq<string>, n: nat)
    requires n < |order|
    ensures Replacers(pyFloat, order, n + 1) ==
      Replacers(pyFloat, order, n) + [Kwarg(TokenKey(n + 1), ConvertToken(pyFloat, order[n]).value)]
  {
  }

  /** The warnings logged while converting the first `n` tokens. */
  function ReplacerWarnings(pyFloat: string -> Option<string>, order: seq<string>, n: nat): seq<string>
    requires n <= |order|
  {
    if n == 0 then [] else ReplacerWarnings(pyFloat, order, n - 1) + ConvertToken(pyFloat, order[n - 1]).warnings
  }

  /** `parse_basic_expression`: a single `$(...)` or a `${ return ... }`
      body converts as one token; otherwise each distinct inline token is
      replaced by a numbered key and the result is a string formatter over
      those keys. */
  function BasicExpression(scan: Scanner, pyFloat: string -> Option<string>, expr: string, order: seq<string>): Result<Converted>
    requires TokenOrder(expr, order)
  {
    match SingleToken(expr)
    case Some(g) => Ok(ConvertToken(pyFloat, g))
    case None =>
      match FunctionToken(expr)
      case Some(g) => Ok(ConvertToken(pyFloat, g))
      case None =>
        var format := Rewritten(expr, order, |order|);
        var f :- New(scan, format, Replacers(pyFloat, order, |order|));
        Ok(Converted(VFormat(f), ReplacerWarnings(pyFloat, order, |order|) + NewWarnings(scan, format)))
  }

  method ParseBasicExpression(scan: Scanner, pyFloat: string -> Option<string>, expr: string, order: seq<string>)
    returns (r: Result<Converted>)
    requires TokenOrder(expr, order)
    ensures r == BasicExpression(scan, pyFloat, expr, order)
  {
    var single := SingleToken(expr);
    if single.Some? {
      return Ok(ConvertToken(pyFloat, single.value));
    }
    var bigger := FunctionToken(expr);
    if bigger.Some? {
      return Ok(ConvertToken(pyFloat, bigger.value));
    }
    var stringFormat := expr;
    var tokenReplacers: seq<Kwarg> := [];
    var warnings: seq<string> := [];
    var idx := 0;
    while idx < |order|
      invariant 0 <= idx <= |order|
      invariant stringFormat == Rewritten(expr, order, idx)
      invariant tokenReplacers == Replacers(pyFloat, order, idx)
      invariant warnings == ReplacerWarnings(pyFloat, order, idx)
    {
      var token := order[idx];
      var key := TokenKey(idx + 1);
      stringFormat := ReplaceAll(stringFormat, "$(" + token + ")", Placeholder(key));
      var converted := ConvertToken(pyFloat, token);
      ReplacersSnoc(pyFloat, order, idx);
      tokenReplacers := tokenReplacers + [Kwarg(key, converted.value)];
      warnings := warnings + converted.warnings;
      idx := idx + 1;
    }
    var f := New(scan, stringFormat, tokenReplacers);
    if f.Err? {
      return Err(f.error);
    }
    r := Ok(Converted(VFormat(f.value), warnings + NewWarnings(scan, stringFormat)));
  }
  /** Different indices give different keys. */
  lemma TokenKeyInjective(a: nat, b: nat)
    ensures TokenKey(a) == TokenKey(b) <==> a == b
  {
    if TokenKey(a) == TokenKey(b) {
      var prefix := "JANIS_CWL_TOKEN_";
      assert TokenKey(a)[|prefix|..] == NatToString(a);
      assert TokenKey(b)[|prefix|..] == NatToString(b);
      NatToStringRoundTrip(a);
      NatToStringRoundTrip(b);
    }
  }

  /** The kwargs are keyed `JANIS_CWL_TOKEN_1` to `JANIS_CWL_TOKEN_n`, with
      no key twice. */
  lemma ReplacersKeys(pyFloat: string -> Option<string>, order: seq<string>, n: nat)
    requires n <= |order|
    ensures KeySet(Replacers(pyFloat, order, n)) == set i | 1 <= i <= n :: TokenKey(i)
    ensures DistinctKeys(Replacers(pyFloat, order, n))
  {
    var kw := Replacers(pyFloat, order, n);
    forall i, j | 0 <= i < j < |kw| ensures kw[i].key != kw[j].key {
      TokenKeyInjective(i + 1, j + 1);
    }
    forall x | x in KeySet(kw) ensures x in set i | 1 <= i <= n :: TokenKey(i) {
      var i :| 0 <= i < |kw| && kw[i].key == x;
      assert x == TokenKey(i + 1);
    }
    forall x | x in set i | 1 <= i <= n :: TokenKey(i) ensures x in KeySet(kw) {
      var i :| 1 <= i <= n && x == TokenKey(i);
      assert kw[i - 1].key == x;
    }
  }

  /** Each distinct token is numbered once, so there are as many keys as
      distinct inline tokens. */
  lemma {:induction false} DistinctCount(order: seq<string>)
    requires forall a, b :: 0 <= a < b < |order| ==> order[a] != order[b]
    ensures |set x | x in order| == |order|
  {
    if |order| > 0 {
      var init := order[..|order| - 1];
      DistinctCount(init);
      var last := order[|order| - 1];
      assert order == init + [last];
      assert (set x | x in order) == (set x | x in init) + {last};
      assert last !in init;
    }
  }

  /** Without a single or function token, the expression parses exactly
      when the rewritten format's placeholders are the keys; the formatter
      then holds the rewritten format and one kwarg per distinct token, the
      i-th the conversion of the i-th token. */
  lemma FormatterExpressionSpec(scan: Scanner, pyFloat: string -> Option<string>, expr: string, order: seq<string>)
    requires TokenOrder(expr, order)
    requires SingleToken(expr).None? && FunctionToken(expr).None?
    ensures |order| == |set x | x in InlineTokens(expr, 0)|
    ensures BasicExpression(scan, pyFloat, expr, order).Ok? <==>
      scan(Rewritten(expr, order, |order|)).0 == set i | 1 <= i <= |order| :: TokenKey(i)
    ensures BasicExpression(scan, pyFloat, expr, order).Ok? ==>
      && BasicExpression(scan, pyFloat, expr, order).value.value ==
           VFormat(Formatter(Rewritten(expr, order, |order|), Replacers(pyFloat, order, |order|)))
      && DistinctKeys(Replacers(pyFloat, order, |order|))
  {
    DistinctCount(order);
    assert (set x | x in order) == (set x | x in InlineTokens(expr, 0));
    ReplacersKeys(pyFloat, order, |order|);
    NewSpec(scan, Rewritten(expr, order, |order|), Replacers(pyFloat, order, |order|));
  }

  lemma {:induction false} InlineTokensNoDollar(t: string, i: nat)
    requires Lacks(t, '$')
    ensures InlineTokens(t, i) == []
    decreases |t| - i
  {
    if i + 4 <= |t| {
      assert t[i..i + 2][0] == t[i];
      InlineTokensNoDollar(t, i + 1);
    }
  }

  /** Text without any `$` becomes a formatter of itself with no kwargs,
      which fails only when the text has placeholders of its own. */
  lemma PlainTextExpression(scan: Scanner, pyFloat: string -> Option<string>, expr: string, order: seq<string>)
    requires TokenOrder(expr, order) && Lacks(expr, '$')
    ensures order == []
    ensures BasicExpression(scan, pyFloat, expr, order) ==
      if scan(expr).0 == {} then Ok(Converted(VFormat(Formatter(expr, [])), NewWarnings(scan, expr)))
      else Err(IncorrectArgs(scan(expr).0))
  {
    InlineTokensNoDollar(expr, 0);
    DistinctCount(order);
    assert (set x | x in order) == (set x | x in InlineTokens(expr, 0)) == {};
    var b := Body(expr);
    if |b| >= 2 {
      assert b[..2][0] == expr[0];
    }
    assert SingleToken(expr).None? && FunctionToken(expr).None?;
    assert order == [];
    assert Replacers(pyFloat, order, 0) == [];
    assert Rewritten(expr, order, 0) == expr;
    assert ReplacerWarnings(pyFloat, order, 0) + NewWarnings(scan, expr) == NewWarnings(scan, expr);
    assert KeySet([]) == {};
    NewSpec(scan, expr, []);
    if scan(expr).0 == {} {
      assert New(scan, expr, []) == Ok(Formatter(expr, []));
    } else {
      assert scan(expr).0 - {} == scan(expr).0;
      assert New(scan, expr, []) == Err(IncorrectArgs(scan(expr).0));
    }
  }

  /** The lowering of an input selection outside code, parsed back, is that
      selection again. */
  lemma SelectorExpressionRoundTrip(scan: Scanner, pyFloat: string -> Option<string>, x: string, order: seq<string>)
    requires |x| > 0 && forall i :: 0 <= i < |x| ==> SelectorChar(x[i])
    requires TokenOrder("$(inputs." + x + ")", order)
    ensures CwlExpressions.TranslateInputSelector(x, false, false) == Ok("$(inputs." + x + ")")
    ensures BasicExpression(scan, pyFloat, "$(inputs." + x + ")", order) == Ok(Converted(VInputSel(x, false), []))
  {
    var e := "$(inputs." + x + ")";
    assert Body(e) == e;
    assert e[..2] == "$(";
    assert e[2..|e| - 1] == "inputs." + x;
    assert Lacks("inputs." + x, '\n') by {
      forall i | 0 <= i < |"inputs." + x| ensures ("inputs." + x)[i] != '\n' {
        if i >= 7 { assert ("inputs." + x)[i] == x[i - 7]; }
      }
    }
    assert "$(" + ("inputs." + x + "") + ")" == e;
    SelectorTokenRoundTrip(pyFloat, x);
  }

  /** A `${ return ... }` body converts its returned expression. */
  lemma FunctionBodyExpression(scan: Scanner, pyFloat: string -> Option<string>, g: string, order: seq<string>)
    requires |g| > 0 && Lacks(g, '\n')
    requires TokenOrder("${ return " + g + " }", order)
    ensures FunctionToken("${ return " + g + " }") == Some(g)
    ensures BasicExpression(scan, pyFloat, "${ return " + g + " }", order) == Ok(ConvertToken(pyFloat, g))
  {
    var e := "${ return " + g + " }";
    assert Body(e) == e;
    assert e[..2] == "${" && e[1] == '{';
    assert e[2..][0] == ' ' && e[2..][1] == 'r';
    assert LeadingSpaces(e[2..]) == 1;
    assert e[3..9] == "return";
    assert OccursAt(e, "return", 3);
    assert e[9] == ' ';
    assert e[10..|e| - 2] == g;
  }

  /** Every inline token is non-empty, has no newline, has no `)` after its
      first character, and occurs as `$(token)` in the expression. */
  lemma {:induction false} InlineTokensSpec(t: string, i: nat)
    ensures forall k :: 0 <= k < |InlineTokens(t, i)| ==>
      && |InlineTokens(t, i)[k]| > 0
      && Lacks(InlineTokens(t, i)[k], '\n')
      && (forall m :: 1 <= m < |InlineTokens(t, i)[k]| ==> InlineTokens(t, i)[k][m] != ')')
      && Contains(t, "$(" + InlineTokens(t, i)[k] + ")")
    decreases |t| - i
  {
    if i + 4 <= |t| {
      var found := t[i..i + 2] == "$(" && FirstClose(t, i + 3).Some? && Lacks(t[i + 2..FirstClose(t, i + 3).value], '\n');
      if found {
        var j := FirstClose(t, i + 3).value;
        var tok := t[i + 2..j];
        InlineTokensSpec(t, j + 1);
        assert t[i..j + 1] == "$(" + tok + ")";
        assert OccursAt(t, "$(" + tok + ")", i);
        assert forall m :: 1 <= m < |tok| ==> tok[m] == t[i + 2 + m];
      } else {
        InlineTokensSpec(t, i + 1);
      }
    }
  }
  // ---------------------------------------------------------------------
  // Step sources
  // ---------------------------------------------------------------------

  /** A step input's `source` as the loader hands it over. */
  datatype SourceRef = RNone | RStr(s: string) | RList(items: seq<SourceRef>) | ROther

  /** The falsy `potential_prefix` values are `None` and the empty string. */
  predicate TruthyPrefix(prefix: Option<string>) { prefix.Some? && prefix.value != "" }

  /** The source with a leading `{workflow id}/`, then a leading
      `{prefix}/`, removed. */
  function LocalSource(wfId: string, prefix: Option<string>, s: string): string
  {
    var parsed := SourceFromIdentifier(s);
    var inWorkflow := if StartsWith(parsed, wfId + "/") then parsed[|wfId| + 1..] else parsed;
    if TruthyPrefix(prefix) && StartsWith(inWorkflow, prefix.value + "/") then inWorkflow[|prefix.value| + 1..]
    else inWorkflow
  }

  lemma SplitAtSeparator(s: string, c: char)
    requires Contains(s, [c])
    ensures |Split(s, c)| >= 2
  {
    SplitJoin(s, c);
    LacksNotContained(s, c);
  }

  /** The last two parts of a split on `/`, or the whole string with no tag. */
  function SplitSource(local: string): (string, Option<string>)
  {
    if Contains(local, "/") then
      SplitAtSeparator(local, '/');
      var parts := Split(local, '/');
      (parts[|parts| - 2], Some(parts[|parts| - 1]))
    else (local, None)
  }

  /** The node named by the source, or the step output it selects. */
  function SelectFromNode(nodes: map<string, Node>, sourceStr: string, tag: string): Result<Value>
  {
    if sourceStr !in nodes then Err(UnknownSource(sourceStr))
    else
      var node := nodes[sourceStr];
      if tag != "" && node.NStep? then GetItem(node.step, tag) else Ok(VNode(node))
  }

  /** `parse_workflow_source` on a string, as written: a source without a
      `/` has tag `None`, which `get_tag_from_identifier` turns into the
      string `None`. */
  function StrSourceAsWritten(wfId: string, nodes: map<string, Node>, prefix: Option<string>, s: string): Result<Value>
  {
    var local := LocalSource(wfId, prefix, s);
    if StartsWith(local, "$(") then Err(ExpressionSource(s))
    else
      var (sourceStr, tagStr) := SplitSource(local);
      var tag := TagFromIdentifier(if tagStr.Some? then tagStr.value else NoneText);
      SelectFromNode(nodes, sourceStr, tag)
  }

  /** `parse_workflow_source` on a string with the absent tag kept absent,
      so that the `if tag_str` test can skip `get_item`. */
  function StrSource(wfId: string, nodes: map<string, Node>, prefix: Option<string>, s: string): Result<Value>
  {
    var local := LocalSource(wfId, prefix, s);
    if StartsWith(local, "$(") then Err(ExpressionSource(s))
    else
      var (sourceStr, tagStr) := SplitSource(local);
      var tag := if tagStr.Some? then TagFromIdentifier(tagStr.value) else "";
      SelectFromNode(nodes, sourceStr, tag)
  }

  /** `parse_workflow_source`: `None` stays `None`, a list is parsed element
      by element, and anything but a string is refused. */
  function ParseWorkflowSource(wfId: string, nodes: map<string, Node>, prefix: Option<string>, src: SourceRef): Result<Value>
    decreases src, 1
  {
    match src
    case RNone => Ok(VNone)
    case RList(items) =>
      var vs :- ParseSourceList(wfId, nodes, prefix, src, |items|);
      Ok(VList(vs))
    case RStr(s) => StrSource(wfId, nodes, prefix, s)
    case ROther => Err(NotAString)
  }

  /** The list comprehension over the first `n` elements of a list source. */
  function ParseSourceList(wfId: string, nodes: map<string, Node>, prefix: Option<string>, src: SourceRef, n: nat): Result<seq<Value>>
    requires src.RList? && n <= |src.items|
    decreases src, 0, n
  {
    if n == 0 then Ok([])
    else
      var init := ParseSourceList(wfId, nodes, prefix, src, n - 1);
      if init.Err? then init
      else
        var last := ParseWorkflowSource(wfId, nodes, prefix, src.items[n - 1]);
        if last.Err? then Err(last.error) else Ok(init.value + [last.value])
  }

  /** A list source is parsed as a map over its elements. */
  lemma {:induction false} ParseSourceListSpec(wfId: string, nodes: map<string, Node>, prefix: Option<string>, src: SourceRef, n: nat)
    requires src.RList? && n <= |src.items|
    ensures ParseSourceList(wfId, nodes, prefix, src, n) ==
      MapResult((x: SourceRef) => ParseWorkflowSource(wfId, nodes, prefix, x), src.items[..n])
    decreases n
  {
    if n > 0 {
      ParseSourceListSpec(wfId, nodes, prefix, src, n - 1);
      var xs := src.items[..n];
      assert xs[..|xs| - 1] == src.items[..n - 1];
      assert xs[|xs| - 1] == src.items[n - 1];
    }
  }

  /** A list source parses exactly when each element does, into the list
      of their values. */
  lemma ListSourceSpec(wfId: string, nodes: map<string, Node>, prefix: Option<string>, items: seq<SourceRef>)
    ensures ParseWorkflowSource(wfId, nodes, prefix, RList(items)).Ok? <==>
      forall i :: 0 <= i < |items| ==> ParseWorkflowSource(wfId, nodes, prefix, items[i]).Ok?
    ensures ParseWorkflowSource(wfId, nodes, prefix, RList(items)).Ok? ==>
      && ParseWorkflowSource(wfId, nodes, prefix, RList(items)).value.VList?
      && |ParseWorkflowSource(wfId, nodes, prefix, RList(items)).value.items| == |items|
      && forall i :: 0 <= i < |items| ==>
           ParseWorkflowSource(wfId, nodes, prefix, items[i]) == Ok(ParseWorkflowSource(wfId, nodes, prefix, RList(items)).value.items[i])
  {
    var src := RList(items);
    assert items[..|items|] == items;
    ParseSourceListSpec(wfId, nodes, prefix, src, |items|);
    MapResultSpec((x: SourceRef) => ParseWorkflowSource(wfId, nodes, prefix, x), items);
  }

  /** A parsed string source is a node of the workflow, or a step output of
      one selected by a tag free of `#`, `/` and `-`; a failure names the
      expression or the missing node, or is the step's unknown tag. */
  lemma StrSourceSpec(wfId: string, nodes: map<string, Node>, prefix: Option<string>, s: string)
    ensures StrSource(wfId, nodes, prefix, s).Ok? ==>
      exists k :: k in nodes &&
        (|| StrSource(wfId, nodes, prefix, s).value == VNode(nodes[k])
         || (exists t :: nodes[k].NStep? && Lacks(t, '#') && Lacks(t, '/') && Lacks(t, '-') &&
               StrSource(wfId, nodes, prefix, s).value == VStepOp(nodes[k], Some(t))))
    ensures StrSource(wfId, nodes, prefix, s).Err? ==>
      || StrSource(wfId, nodes, prefix, s) == Err(ExpressionSource(s))
      || (exists k :: k !in nodes && StrSource(wfId, nodes, prefix, s) == Err(UnknownSource(k)))
      || (exists id, t :: StrSource(wfId, nodes, prefix, s) == Err(UnknownTag(id, t)))
  {
    var local := LocalSource(wfId, prefix, s);
    if !StartsWith(local, "$(") {
      var (sourceStr, tagStr) := SplitSource(local);
      if tagStr.Some? {
        TagFromIdentifierSpec(tagStr.value);
      }
      var tag := if tagStr.Some? then TagFromIdentifier(tagStr.value) else "";
      if sourceStr in nodes && tag != "" && nodes[sourceStr].NStep? {
        GetItemSpec(nodes[sourceStr].step, tag);
      }
    }
  }
  /** A name the identifier normalisation keeps as it is. */
  predicate CleanName(x: string)
  {
    Lacks(x, '#') && Lacks(x, '-') && Lacks(x, '/') && x != "input" && x != "output"
  }

  lemma LacksJoin(a: string, b: string, c: char, d: char)
    requires Lacks(a, d) && Lacks(b, d) && c != d
    ensures Lacks(a + [c] + b, d)
  {
    var s := a + [c] + b;
    forall i | 0 <= i < |s| ensures s[i] != d {
      if i < |a| { assert s[i] == a[i]; }
      else if i > |a| { assert s[i] == b[i - |a| - 1]; }
    }
  }

  /** A string with one separator splits into the two sides of it. */
  lemma {:induction false} SplitTwo(a: string, b: string, c: char)
    requires Lacks(a, c) && Lacks(b, c)
    ensures Split(a + [c] + b, c) == [a, b]
    decreases |a|
  {
    var s := a + [c] + b;
    if |a| == 0 {
      assert s[1..] == b;
      SplitAbsent(b, c);
    } else {
      assert s[1..] == a[1..] + [c] + b;
      SplitTwo(a[1..], b, c);
      assert [a[0]] + a[1..] == a;
    }
  }

  /** A name without `/` starts with `w/` only if it is `w` itself, when
      `w` has no `/` either. */
  lemma SlashedPrefix(x: string, y: string, w: string)
    requires Lacks(x, '/') && Lacks(w, '/')
    requires StartsWith(x + "/" + y, w + "/")
    ensures x == w
  {
    var s := x + "/" + y;
    var sw := w + "/";
    assert s[..|sw|] == sw;
    forall i | 0 <= i < |w| ensures s[i] != '/' {
      assert s[..|sw|][i] == w[i];
    }
    assert s[|w|] == s[..|sw|][|w|];
    forall i | 0 <= i < |x| ensures s[i] != '/' {
      assert s[i] == x[i];
    }
    assert s[|x|] == '/';
    assert |x| == |w|;
    forall i | 0 <= i < |x| ensures x[i] == w[i] {
      assert s[i] == x[i];
      assert s[..|sw|][i] == w[i];
    }
  }

  /** A name without `/` never starts with `w/`. */
  lemma PlainNoPrefix(x: string, w: string)
    requires Lacks(x, '/')
    ensures !StartsWith(x, w + "/")
  {
    if |w| + 1 <= |x| { assert x[..|w| + 1][|w|] == x[|w|]; }
  }

  /** No prefix is stripped from `x/y` when `x` is neither the workflow id
      nor the prefix. */
  lemma LocalStepOutput(wfId: string, prefix: Option<string>, x: string, y: string)
    requires CleanName(x) && Lacks(y, '#') && Lacks(y, '-') && Lacks(y, '/')
    requires Lacks(wfId, '/') && x != wfId
    requires TruthyPrefix(prefix) ==> Lacks(prefix.value, '/') && x != prefix.value
    ensures LocalSource(wfId, prefix, x + "/" + y) == x + "/" + y
  {
    var s := x + "/" + y;
    LacksJoin(x, y, '/', '#');
    LacksJoin(x, y, '/', '-');
    assert s[|x|] == '/';
    SourceFromIdentifierSpec(s);
    if StartsWith(s, wfId + "/") { SlashedPrefix(x, y, wfId); }
    if TruthyPrefix(prefix) && StartsWith(s, prefix.value + "/") { SlashedPrefix(x, y, prefix.value); }
  }

  /** A string source, once its local form and its split are known. */
  lemma StrSourceParts(wfId: string, nodes: map<string, Node>, prefix: Option<string>, s: string, src: string, tagStr: Option<string>)
    requires !StartsWith(LocalSource(wfId, prefix, s), "$(")
    requires SplitSource(LocalSource(wfId, prefix, s)) == (src, tagStr)
    ensures StrSource(wfId, nodes, prefix, s) == SelectFromNode(nodes, src, if tagStr.Some? then TagFromIdentifier(tagStr.value) else "")
    ensures StrSourceAsWritten(wfId, nodes, prefix, s) == SelectFromNode(nodes, src, TagFromIdentifier(if tagStr.Some? then tagStr.value else NoneText))
  {
  }

  lemma SplitSourceTwo(x: string, y: string)
    requires Lacks(x, '/') && Lacks(y, '/')
    ensures SplitSource(x + "/" + y) == (x, Some(y))
  {
    var s := x + "/" + y;
    SplitTwo(x, y, '/');
    assert s[|x|] == '/';
    CharContained(s, '/', |x|);
  }

  /** A tag free of `#`, `-` and `/` is kept, apart from the reserved names. */
  lemma TagOfPlain(y: string)
    requires Lacks(y, '#') && Lacks(y, '-') && Lacks(y, '/')
    ensures TagFromIdentifier(y) == RenameReserved(y)
  {
    LacksNotContained(y, '#');
    UnderscoredSpec(y);
    assert SourceFromIdentifier(y) == RenameReserved(y);
    TagFromIdentifierSpec(y);
  }

  /** `x/y` selects output (or input) `y` of node `x`, on both readings of
      the tag. */
  lemma StepOutputSource(wfId: string, nodes: map<string, Node>, prefix: Option<string>, x: string, y: string)
    requires CleanName(x) && (|x| == 0 || x[0] != '$') && Lacks(y, '#') && Lacks(y, '-') && Lacks(y, '/')
    requires Lacks(wfId, '/') && x != wfId
    requires TruthyPrefix(prefix) ==> Lacks(prefix.value, '/') && x != prefix.value
    ensures StrSource(wfId, nodes, prefix, x + "/" + y) == SelectFromNode(nodes, x, RenameReserved(y))
    ensures StrSourceAsWritten(wfId, nodes, prefix, x + "/" + y) == SelectFromNode(nodes, x, RenameReserved(y))
  {
    var s := x + "/" + y;
    LocalStepOutput(wfId, prefix, x, y);
    if |x| > 0 { assert s[0] == x[0]; } else { assert s[0] == '/'; }
    SplitSourceTwo(x, y);
    StrSourceParts(wfId, nodes, prefix, s, x, Some(y));
    TagOfPlain(y);
  }

  /** The workflow id in front of a source is stripped. */
  lemma LocalQualified(wfId: string, prefix: Option<string>, x: string, y: string)
    requires CleanName(x) && Lacks(y, '#') && Lacks(y, '-') && Lacks(y, '/')
    requires Lacks(wfId, '/') && Lacks(wfId, '#') && Lacks(wfId, '-')
    requires TruthyPrefix(prefix) ==> Lacks(prefix.value, '/') && x != prefix.value
    ensures LocalSource(wfId, prefix, wfId + "/" + (x + "/" + y)) == x + "/" + y
  {
    var short := x + "/" + y;
    var q := wfId + "/" + short;
    LacksJoin(x, y, '/', '#');
    LacksJoin(x, y, '/', '-');
    LacksJoin(wfId, short, '/', '#');
    LacksJoin(wfId, short, '/', '-');
    assert q[|wfId|] == '/';
    SourceFromIdentifierSpec(q);
    assert q[..|wfId| + 1] == wfId + "/";
    assert q[|wfId| + 1..] == short;
    assert short[|x|] == '/';
    if TruthyPrefix(prefix) && StartsWith(short, prefix.value + "/") { SlashedPrefix(x, y, prefix.value); }
  }

  /** A source qualified by the workflow id names the same node and tag. */
  lemma QualifiedSourceEquivalent(wfId: string, nodes: map<string, Node>, prefix: Option<string>, x: string, y: string)
    requires CleanName(x) && (|x| == 0 || x[0] != '$') && Lacks(y, '#') && Lacks(y, '-') && Lacks(y, '/')
    requires Lacks(wfId, '/') && Lacks(wfId, '#') && Lacks(wfId, '-') && x != wfId
    requires TruthyPrefix(prefix) ==> Lacks(prefix.value, '/') && x != prefix.value
    ensures StrSource(wfId, nodes, prefix, wfId + "/" + (x + "/" + y)) == StrSource(wfId, nodes, prefix, x + "/" + y)
  {
    LocalQualified(wfId, prefix, x, y);
    LocalStepOutput(wfId, prefix, x, y);
    NotExpression(x, y);
    SameLocalSource(wfId, nodes, prefix, wfId + "/" + (x + "/" + y), x + "/" + y);
  }

  /** `x/y` is not an expression when `x` does not start with `$`. */
  lemma NotExpression(x: string, y: string)
    requires |x| == 0 || x[0] != '$'
    ensures !StartsWith(x + "/" + y, "$(")
  {
    var short := x + "/" + y;
    if |x| > 0 { assert short[0] == x[0]; } else { assert short[0] == '/'; }
  }

  /** Two sources with the same local part, not an expression, select the same. */
  lemma SameLocalSource(wfId: string, nodes: map<string, Node>, prefix: Option<string>, a: string, b: string)
    requires LocalSource(wfId, prefix, a) == LocalSource(wfId, prefix, b)
    requires !StartsWith(LocalSource(wfId, prefix, a), "$(")
    ensures StrSource(wfId, nodes, prefix, a) == StrSource(wfId, nodes, prefix, b)
  {
  }

  /** The prefix in front of a source is stripped. */
  lemma LocalPrefixed(wfId: string, p: string, x: string, y: string)
    requires CleanName(x) && Lacks(y, '#') && Lacks(y, '-') && Lacks(y, '/')
    requires |p| > 0 && Lacks(p, '/') && Lacks(p, '#') && Lacks(p, '-') && p != wfId
    requires Lacks(wfId, '/')
    ensures LocalSource(wfId, Some(p), p + "/" + (x + "/" + y)) == x + "/" + y
  {
    var short := x + "/" + y;
    var q := p + "/" + short;
    LacksJoin(x, y, '/', '#');
    LacksJoin(x, y, '/', '-');
    LacksJoin(p, short, '/', '#');
    LacksJoin(p, short, '/', '-');
    assert q[|p|] == '/';
    SourceFromIdentifierSpec(q);
    if StartsWith(q, wfId + "/") { SlashedPrefix(p, short, wfId); }
    assert q[..|p| + 1] == p + "/";
    assert q[|p| + 1..] == short;
  }

  /** The prefix handed down for a subworkflow is stripped. */
  lemma PrefixStripped(wfId: string, nodes: map<string, Node>, p: string, x: string, y: string)
    requires CleanName(x) && (|x| == 0 || x[0] != '$') && Lacks(y, '#') && Lacks(y, '-') && Lacks(y, '/')
    requires |p| > 0 && Lacks(p, '/') && Lacks(p, '#') && Lacks(p, '-') && p != wfId && p != x
    requires Lacks(wfId, '/') && x != wfId
    ensures StrSource(wfId, nodes, Some(p), p + "/" + (x + "/" + y)) == StrSource(wfId, nodes, Some(p), x + "/" + y)
  {
    LocalPrefixed(wfId, p, x, y);
    LocalStepOutput(wfId, Some(p), x, y);
    NotExpression(x, y);
    SameLocalSource(wfId, nodes, Some(p), p + "/" + (x + "/" + y), x + "/" + y);
  }

  /** A source that is an expression is refused. */
  lemma ExpressionSourceRejected(wfId: string, nodes: map<string, Node>, prefix: Option<string>, s: string)
    requires StartsWith(s, "$(") && Lacks(s, '#') && Lacks(s, '-')
    requires |wfId| == 0 || wfId[0] != '$'
    requires TruthyPrefix(prefix) ==> prefix.value[0] != '$'
    ensures StrSource(wfId, nodes, prefix, s) == Err(ExpressionSource(s))
    ensures StrSourceAsWritten(wfId, nodes, prefix, s) == Err(ExpressionSource(s))
  {
    assert s[0] == '$';
    assert s != "input" && s != "output";
    SourceFromIdentifierSpec(s);
    if |wfId| == 0 { assert (wfId + "/")[0] == '/'; } else { assert (wfId + "/")[0] == wfId[0]; }
    if TruthyPrefix(prefix) { assert (prefix.value + "/")[0] == prefix.value[0]; }
  }

  /** A plain name has nothing stripped and no tag. */
  lemma LocalPlainName(wfId: string, prefix: Option<string>, x: string)
    requires CleanName(x)
    ensures LocalSource(wfId, prefix, x) == x
    ensures SplitSource(x) == (x, None)
  {
    SourceFromIdentifierSpec(x);
    PlainNoPrefix(x, wfId);
    if TruthyPrefix(prefix) { PlainNoPrefix(x, prefix.value); }
    LacksNotContained(x, '/');
  }

  /** The tag `None` is a clean name. */
  lemma NoneTag()
    ensures TagFromIdentifier(NoneText) == NoneText
  {
    assert CleanName(NoneText);
    SourceFromIdentifierSpec(NoneText);
    TagFromIdentifierSpec(NoneText);
  }

  /** A source that names a step without a tag: as written, the missing tag
      becomes the text `None` and `get_item` refuses it; with the tag kept
      absent the source is the step node itself. */
  lemma TaglessStepSource(wfId: string, nodes: map<string, Node>, prefix: Option<string>, x: string)
    requires CleanName(x) && (|x| == 0 || x[0] != '$')
    requires x in nodes && nodes[x].NStep?
    requires NoneText !in InputTags(StepInputs(nodes[x].step)) && NoneText !in OutputTags(StepOutputs(nodes[x].step))
    ensures StrSourceAsWritten(wfId, nodes, prefix, x) == Err(UnknownTag(nodes[x].step.id, NoneText))
    ensures StrSource(wfId, nodes, prefix, x) == Ok(VNode(nodes[x]))
  {
    TaglessAsWritten(wfId, nodes, prefix, x);
    PlainNameSource(wfId, nodes, prefix, x);
  }

  /** As written, a plain name selects the tag `None` of its node. */
  lemma TaglessAsWritten(wfId: string, nodes: map<string, Node>, prefix: Option<string>, x: string)
    requires CleanName(x) && (|x| == 0 || x[0] != '$')
    requires x in nodes && nodes[x].NStep?
    requires NoneText !in InputTags(StepInputs(nodes[x].step)) && NoneText !in OutputTags(StepOutputs(nodes[x].step))
    ensures StrSourceAsWritten(wfId, nodes, prefix, x) == Err(UnknownTag(nodes[x].step.id, NoneText))
  {
    PlainNameAsWritten(wfId, nodes, prefix, x);
    NoneTag();
    SelectUnknownTag(nodes, x, NoneText);
  }

  /** As written, a plain name selects the tag `None`. */
  lemma PlainNameAsWritten(wfId: string, nodes: map<string, Node>, prefix: Option<string>, x: string)
    requires CleanName(x) && (|x| == 0 || x[0] != '$')
    ensures StrSourceAsWritten(wfId, nodes, prefix, x) == SelectFromNode(nodes, x, TagFromIdentifier(NoneText))
  {
    LocalPlainName(wfId, prefix, x);
    StrSourceParts(wfId, nodes, prefix, x, x, None);
  }

  /** A plain name, of a step or of any other node, is that node. */
  lemma PlainNameSource(wfId: string, nodes: map<string, Node>, prefix: Option<string>, x: string)
    requires CleanName(x) && (|x| == 0 || x[0] != '$')
    requires x in nodes
    ensures StrSource(wfId, nodes, prefix, x) == Ok(VNode(nodes[x]))
  {
    LocalPlainName(wfId, prefix, x);
    StrSourceParts(wfId, nodes, prefix, x, x, None);
  }

  /** Selecting a tag a step does not have is refused. */
  lemma SelectUnknownTag(nodes: map<string, Node>, x: string, tag: string)
    requires x in nodes && nodes[x].NStep? && tag != ""
    requires tag !in InputTags(StepInputs(nodes[x].step)) && tag !in OutputTags(StepOutputs(nodes[x].step))
    ensures SelectFromNode(nodes, x, tag) == Err(UnknownTag(nodes[x].step.id, tag))
  {
  }
}
