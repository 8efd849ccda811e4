/** The type system: native types, their CWL and WDL spellings, and the
    directional compatibility relation `CanReceiveFrom` between data types. */
module DataTypes {
  import opened Wrappers
  import opened Strings

  type NativeType = string

  const KStr: NativeType := "str"
  const KInt: NativeType := "int"
  const KLong: NativeType := "long"
  const KFloat: NativeType := "float"
  const KBool: NativeType := "bool"
  const KDouble: NativeType := "double"
  const KFile: NativeType := "file"
  const KDirectory: NativeType := "dir"
  const KArray: NativeType := "array"
  const KStdout: NativeType := "stdout"

  /** The primitive list, `kDouble` listed twice as in the source. */
  const Primitives: seq<NativeType> := [KStr, KInt, KFloat, KLong, KDouble, KBool, KDouble]
  const AllNative: seq<NativeType> := Primitives + [KFile, KDirectory, KArray]

  predicate IsPrimitive(t: NativeType) { t in Primitives }

  predicate IsValid(t: NativeType) { t in AllNative }

  /** The CWL v1.0 type name of a native type; stdout is handled although it
      is not a valid native type. */
  function MapToCwl(t: NativeType): Result<string>
  {
    if t == KBool then Ok("boolean")
    else if t == KInt then Ok("int")
    else if t == KLong then Ok("long")
    else if t == KFloat then Ok("float")
    else if t == KDouble then Ok("double")
    else if t == KStr then Ok("string")
    else if t == KFile then Ok("File")
    else if t == KDirectory then Ok("Directory")
    else if t == KArray then Ok("array")
    else if t == KStdout then Ok("stdout")
    else Err(UnhandledPrimitive(t))
  }

  /** The WDL type name of a native type; a directory has none. */
  function MapToWdl(t: NativeType): Result<Option<string>>
  {
    if t == KBool then Ok(Some("Boolean"))
    else if t == KInt then Ok(Some("Int"))
    else if t == KLong || t == KFloat || t == KDouble then Ok(Some("Float"))
    else if t == KStr then Ok(Some("String"))
    else if t == KFile then Ok(Some("File"))
    else if t == KStdout then Ok(Some("File"))
    else if t == KDirectory then Ok(None)
    else if t == KArray then Ok(Some("Array"))
    else Err(UnhandledPrimitive(t))
  }

  /** `is_primitive` holds exactly for the six scalar kinds. */
  lemma PrimitiveKinds(t: NativeType)
    ensures IsPrimitive(t) <==> t in {KStr, KInt, KFloat, KLong, KDouble, KBool}
  {
  }

  /** `is_valid` adds file, dir and array to the primitives but not stdout,
      although both mappings handle stdout; every valid type maps to CWL. */
  lemma ValidKinds(t: NativeType)
    ensures IsValid(t) <==> IsPrimitive(t) || t in {KFile, KDirectory, KArray}
    ensures !IsValid(KStdout) && MapToCwl(KStdout).Ok? && MapToWdl(KStdout) == Ok(Some("File"))
    ensures IsValid(t) ==> MapToCwl(t).Ok? && MapToWdl(t).Ok?
  {
  }

  /** The two mappings accept exactly the same native types, and WDL
      collapses long, float and double into one Float while CWL keeps them
      apart. */
  lemma MappingsAgreeOnDomain(t: NativeType)
    ensures MapToCwl(t).Ok? <==> MapToWdl(t).Ok?
    ensures MapToCwl(t).Ok? <==> IsValid(t) || t == KStdout
    ensures MapToCwl(t).Err? ==> MapToCwl(t).error == UnhandledPrimitive(t)
    ensures MapToWdl(t) == Ok(Some("Float")) <==> t in {KLong, KFloat, KDouble}
    ensures MapToWdl(t) == Ok(None) <==> t == KDirectory
    ensures forall u :: MapToCwl(t).Ok? && MapToCwl(u).Ok? && t != u ==> MapToCwl(t) != MapToCwl(u)
  {
  }

  /** A class of the type hierarchy: its name, native primitive, secondary
      files and the names of all its base classes. */
  datatype TypeClass = TypeClass(name: string, primitive: NativeType,
                                 secondaries: Option<seq<string>>, bases: seq<string>)

  /** The class names an instance of `c` is an `isinstance` of. */
  function Lineage(c: TypeClass): seq<string> { [c.name] + c.bases }

  /** A data type: a scalar class, an array of an element type or a union of
      member types, each carrying its own `optional` flag. */
  datatype DataType =
    | Scalar(cls: TypeClass, optional: bool)
    | Array(subtype: DataType, optional: bool)
    | Union(members: seq<DataType>, optional: bool)
  {
    /** A copy of this type with `optional` set as given. */
    function WithOptional(b: bool): (t: DataType)
      ensures t.optional == b
    {
      match this
      case Scalar(c, _) => Scalar(c, b)
      case Array(s, _) => Array(s, b)
      case Union(ms, _) => Union(ms, b)
    }
  }

  predicate EqualsExceptOptional(a: DataType, b: DataType)
  {
    a.WithOptional(false) == b.WithOptional(false)
  }

  function Name(t: DataType): string
    decreases t, 0
  {
    match t
    case Scalar(c, _) => c.name
    case Array(s, _) => "Array<" + Id(s) + ">"
    case Union(_, _) => "Union"
  }

  /** `DataType.id()`. */
  function Id(t: DataType): string
    decreases t, 1
  {
    if t.optional then "Optional<" + Name(t) + ">" else Name(t)
  }

  function Primitive(t: DataType): NativeType
  {
    match t
    case Scalar(c, _) => c.primitive
    case Array(_, _) => KArray
    case Union(_, _) => KStr
  }

  function SecondaryFiles(t: DataType): Option<seq<string>>
  {
    if t.Scalar? then t.cls.secondaries else None
  }

  /** `received_type()`: the type a connection from `t` delivers. */
  function ReceivedType(t: DataType): DataType { t }

  /** `isinstance(src.received_type(), type(dst.received_type()))` (with
      `received_type` the identity), extended
      element-wise to arrays and member-wise to unions. */
  predicate ClassMatch(dst: DataType, src: DataType)
    decreases dst, 1
  {
    match dst
    case Scalar(c, _) => src.Scalar? && c.name in Lineage(src.cls)
    case Array(sub, _) => src.Array? && CanReceiveFrom(sub, src.subtype)
    case Union(ms, _) =>
      if src.Union?
      then forall j :: 0 <= j < |src.members| ==> SomeMemberMatches(ms, src.members[j])
      else SomeMemberMatches(ms, src)
  }

  /** Some member of a union destination matches `src`. */
  predicate SomeMemberMatches(ms: seq<DataType>, src: DataType)
    decreases ms, 0
  {
    exists i :: 0 <= i < |ms| && ClassMatch(ms[i], src)
  }

  /** `DataType.can_receive_from`: the class must match; an optional
      destination then accepts anything, a required one only a required
      source. */
  predicate CanReceiveFrom(dst: DataType, src: DataType)
    decreases dst, 2
  {
    ClassMatch(dst, src) && (dst.optional || !src.optional)
  }

  /** Making the destination optional never loses a source, and making the
      source optional never gains one. */
  lemma CanReceiveFromMonotone(dst: DataType, src: DataType)
    ensures CanReceiveFrom(dst, src) ==> CanReceiveFrom(dst.WithOptional(true), src)
    ensures CanReceiveFrom(dst, src.WithOptional(true)) ==> CanReceiveFrom(dst, src)
    ensures CanReceiveFrom(dst, src) ==> CanReceiveFrom(dst, src.WithOptional(false))
  {
    WithOptionalKeeps(dst, true);
    WithOptionalKeeps(src, true);
    WithOptionalKeeps(src, false);
    ClassMatchIgnoresOptional(dst, src, dst.WithOptional(true), src);
    ClassMatchIgnoresOptional(dst, src, dst, src.WithOptional(true));
    ClassMatchIgnoresOptional(dst, src, dst, src.WithOptional(false));
  }

  /** Setting `optional` changes nothing else. */
  lemma WithOptionalKeeps(t: DataType, b: bool)
    ensures EqualsExceptOptional(t, t.WithOptional(b))
  {
  }

  lemma {:induction false} ClassMatchReflexive(t: DataType)
    ensures ClassMatch(t, t)
    decreases t
  {
    match t
    case Scalar(c, _) =>
    case Array(sub, _) =>
      ClassMatchReflexive(sub);
    case Union(ms, _) =>
      forall j | 0 <= j < |ms| ensures SomeMemberMatches(ms, ms[j]) {
        ClassMatchReflexive(ms[j]);
      }
  }

  /** Every type receives from itself; a required destination never receives
      from an optional copy of itself, and an optional one always does. */
  lemma ReceivesFromItself(t: DataType)
    ensures CanReceiveFrom(t, t)
    ensures t.optional ==> !CanReceiveFrom(t.WithOptional(false), t)
    ensures CanReceiveFrom(t.WithOptional(true), t.WithOptional(false))
  {
    ClassMatchReflexive(t);
    ClassMatchIgnoresOptional(t, t, t.WithOptional(true), t.WithOptional(false));
  }

  /** The class check does not look at either `optional` flag. */
  lemma ClassMatchIgnoresOptional(d: DataType, s: DataType, d': DataType, s': DataType)
    requires EqualsExceptOptional(d, d') && EqualsExceptOptional(s, s')
    ensures ClassMatch(d, s) == ClassMatch(d', s')
  {
    match d
    case Scalar(_, _) =>
    case Array(_, _) =>
    case Union(ms, _) =>
      assert d'.Union? && d'.members == ms;
      if s.Union? {
        assert s'.Union? && s'.members == s.members;
      } else {
        assert !s'.Union?;
        forall i | 0 <= i < |ms| ensures ClassMatch(ms[i], s) == ClassMatch(ms[i], s') {
          ClassMatchIgnoresOptional(ms[i], s, ms[i], s');
        }
        assert SomeMemberMatches(ms, s) == SomeMemberMatches(ms, s');
      }
  }

  /** `id()` is `Optional<name>` exactly when the type is optional. */
  lemma IdShape(t: DataType)
    ensures t.optional ==> Id(t) == "Optional<" + Name(t) + ">"
    ensures !t.optional ==> Id(t) == Name(t)
    ensures Id(t.WithOptional(true)) == "Optional<" + Id(t.WithOptional(false)) + ">"
  {
    match t
    case Scalar(_, _) =>
    case Array(_, _) =>
    case Union(_, _) =>
  }

  /** A CWL type expression: a (possibly `?`-suffixed) type name, an array
      schema or a list of alternatives. */
  datatype CwlType =
    | CwlName(name: string)
    | CwlArray(items: CwlType, optional: bool)
    | CwlUnion(alternatives: seq<CwlType>)

  function QuestionMarkIfOptional(t: DataType): string
  {
    if t.optional then "?" else ""
  }

  /** `DataType.cwl_type()`: the CWL name of the primitive, with `?` when
      optional; arrays and unions become schemas. */
  function CwlTypeOf(t: DataType): Result<CwlType>
  {
    match t
    case Scalar(c, opt) =>
      var n :- MapToCwl(c.primitive);
      Ok(CwlName(n + QuestionMarkIfOptional(t)))
    case Array(sub, opt) =>
      var items :- CwlTypeOf(sub);
      Ok(CwlArray(items, opt))
    case Union(ms, opt) =>
      var alts :- CwlTypesOf(ms);
      Ok(CwlUnion(alts))
  }

  function CwlTypesOf(ts: seq<DataType>): Result<seq<CwlType>>
  {
    if |ts| == 0 then Ok([])
    else
      var h :- CwlTypeOf(ts[0]);
      var r :- CwlTypesOf(ts[1..]);
      Ok([h] + r)
  }

  /** The CWL name of a scalar is the mapped primitive, and it ends in `?`
      exactly when the type is optional; an unhandled primitive fails. */
  lemma CwlTypeOfScalar(c: TypeClass, opt: bool)
    ensures MapToCwl(c.primitive).Err? ==> CwlTypeOf(Scalar(c, opt)) == Err(UnhandledPrimitive(c.primitive))
    ensures MapToCwl(c.primitive).Ok? ==>
      && CwlTypeOf(Scalar(c, opt)).Ok?
      && var n := CwlTypeOf(Scalar(c, opt)).value.name;
         (EndsWith(n, "?") <==> opt)
         && n == MapToCwl(c.primitive).value + (if opt then "?" else "")
  {
    if MapToCwl(c.primitive).Ok? {
      var base := MapToCwl(c.primitive).value;
      var n := CwlTypeOf(Scalar(c, opt)).value.name;
      assert |base| > 0 && base[|base| - 1] != '?';
      if !opt {
        assert n == base;
        assert n[|n| - 1..] != "?";
      }
    }
  }

  /** A (CWL) parameter record: the fields `map_cwl_type` sets. */
  datatype CwlParameter = CwlParameter(id: string, paramType: Option<CwlType>, secondaryFiles: Option<seq<string>>)

  /** `DataType.map_cwl_type`. */
  function MapCwlType(t: DataType, p: CwlParameter): Result<CwlParameter>
  {
    if !IsValid(Primitive(t)) then Err(InvalidPrimitive(Id(t)))
    else
      var n :- MapToCwl(Primitive(t));
      Ok(p.(paramType := Some(CwlName(n + QuestionMarkIfOptional(t))), secondaryFiles := SecondaryFiles(t)))
  }

  /** `map_cwl_type` fails exactly for an invalid primitive (stdout
      included); otherwise it keeps the id, sets the (optionally `?`-suffixed)
      type and the secondary files. */
  lemma MapCwlTypeSpec(t: DataType, p: CwlParameter)
    ensures MapCwlType(t, p).Err? <==> !IsValid(Primitive(t))
    ensures MapCwlType(t, p).Err? ==> MapCwlType(t, p).error == InvalidPrimitive(Id(t))
    ensures MapCwlType(t, p).Ok? ==>
      var q := MapCwlType(t, p).value;
      && q.id == p.id
      && q.secondaryFiles == SecondaryFiles(t)
      && q.paramType == Some(CwlName(MapToCwl(Primitive(t)).value + (if t.optional then "?" else "")))
    ensures Primitive(t) == KStdout ==> MapCwlType(t, p).Err?
  {
    ValidKinds(Primitive(t));
  }

  // The standard classes the compiler refers to by name.
  const StringClass := TypeClass("String", KStr, None, [])
  const FilenameClass := TypeClass("Filename", KStr, None, ["String"])
  const IntClass := TypeClass("Int", KInt, None, [])
  const FloatClass := TypeClass("Float", KFloat, None, [])
  const DoubleClass := TypeClass("Double", KDouble, None, [])
  const BooleanClass := TypeClass("Boolean", KBool, None, [])
  const FileClass := TypeClass("File", KFile, None, [])
  const DirectoryClass := TypeClass("Directory", KDirectory, None, [])
  const StdoutClass := TypeClass("Stdout", KStdout, None, ["File"])
  const StderrClass := TypeClass("Stderr", "stderr", None, ["File"])
}
