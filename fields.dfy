/**
 * Field descriptors of the profile schemas, the typed values a decoded record
 * holds, and the per-field coercion from JSON to a typed value.
 */
module Fields {
  import opened Json
  import opened Wrappers
  import Tags

  /** The declared type of a field, without its optionality. */
  datatype Kind = KInt | KStr | KBool | KDateTime | KRating | KStrList

  /**
   * What happens when the wire key is absent: a field without a default is
   * required; `Optional[...] = None` defaults to None (and accepts null);
   * `List[str] = []` defaults to the empty list (and rejects null).
   */
  datatype Presence = Required | DefaultNone | DefaultEmptyList

  /** A pre-validation transform registered for a field. */
  datatype Hook = NoHook | FlattenGroups

  /** One declared field: its canonical name, its wire key, its kind, its default and its hook. */
  datatype Field = Field(name: string, key: string, kind: Kind, presence: Presence, hook: Hook)

  /** A field whose wire key is its own name and that has no hook. */
  function Plain(name: string, kind: Kind, presence: Presence): (f: Field)
    ensures f.name == name && f.key == name && f.kind == kind && f.presence == presence && f.hook == NoHook
  {
    Field(name, name, kind, presence, NoHook)
  }

  /** A typed field value of a decoded record; VNone is Python's None. */
  datatype Value =
    | VNone
    | VInt(i: int)
    | VStr(s: string)
    | VBool(b: bool)
    | VDateTime(stamp: string)
    | VRating(token: string)
    | VStrList(strs: seq<string>)

  /**
   * The validity of a timestamp string and of a rating token. Both are defined
   * outside the modelled file (the datetime parser and `sankaku.types.Rating`),
   * so every decode is parameterised by them.
   */
  datatype Formats = Formats(isRating: string -> bool, isDateTime: string -> bool)

  /** Why one field failed. */
  datatype Problem =
    | Missing
    | TypeMismatch(expected: Kind, received: JValue)
    | FormatError(stamp: string)
    | UnknownEnumValue(token: string)
    | TransformFailure(reason: Tags.GroupError)

  /** The value of an absent field, or the error its absence causes. */
  function Absent(p: Presence): (r: Result<Value, Problem>)
    ensures r.Failure? <==> p == Required
    ensures r.Failure? ==> r.error == Missing
    ensures p == DefaultNone ==> r == Success(VNone)
    ensures p == DefaultEmptyList ==> r == Success(VStrList([]))
  {
    match p
    case Required => Failure(Missing)
    case DefaultNone => Success(VNone)
    case DefaultEmptyList => Success(VStrList([]))
  }

  /** `v` is a well-formed value of kind `k`. */
  predicate HasKind(v: Value, k: Kind, fmt: Formats)
  {
    match k
    case KInt => v.VInt?
    case KStr => v.VStr?
    case KBool => v.VBool?
    case KDateTime => v.VDateTime? && fmt.isDateTime(v.stamp)
    case KRating => v.VRating? && fmt.isRating(v.token)
    case KStrList => v.VStrList?
  }

  /** `v` may be stored under field `f`: a value of its kind, or None where the field is Optional. */
  predicate Fits(v: Value, f: Field, fmt: Formats)
  {
    HasKind(v, f.kind, fmt) || (f.presence == DefaultNone && v == VNone)
  }

  /** The JSON a typed value is read from. */
  function Wire(v: Value): (j: JValue)
  {
    match v
    case VNone => JNull
    case VInt(i) => JInt(i)
    case VStr(s) => JStr(s)
    case VBool(b) => JBool(b)
    case VDateTime(s) => JStr(s)
    case VRating(t) => JStr(t)
    case VStrList(xs) => JArray(Strs(xs))
  }

  /** The strings of a JSON array whose every item is a string. */
  function AllStrs(items: seq<JValue>): (r: Result<seq<string>, Problem>)
    ensures r.Success? <==> forall i :: 0 <= i < |items| ==> items[i].JStr?
    ensures r.Success? ==> Strs(r.value) == items
  {
    if forall i :: 0 <= i < |items| ==> items[i].JStr? then
      var xs := seq(|items|, i requires 0 <= i < |items| => items[i].s);
      assert Strs(xs) == items;
      Success(xs)
    else
      Failure(TypeMismatch(KStrList, JArray(items)))
  }

  /** Strict coercion of a present JSON value to kind `k`; null is accepted only when `nullable`. */
  function Coerce(k: Kind, nullable: bool, raw: JValue, fmt: Formats): (r: Result<Value, Problem>)
    ensures raw == JNull ==> (r.Success? <==> nullable)
    ensures r.Success? ==> raw == Wire(r.value)
    ensures r.Success? ==> HasKind(r.value, k, fmt) || (nullable && r.value == VNone)
    ensures k == KDateTime && raw.JStr? && !fmt.isDateTime(raw.s) ==> r == Failure(FormatError(raw.s))
    ensures k == KRating && raw.JStr? && !fmt.isRating(raw.s) ==> r == Failure(UnknownEnumValue(raw.s))
    ensures r.Failure? ==> r.error == TypeMismatch(k, raw)
                           || (k == KDateTime && raw.JStr? && r.error == FormatError(raw.s))
                           || (k == KRating && raw.JStr? && r.error == UnknownEnumValue(raw.s))
  {
    if raw == JNull then
      if nullable then Success(VNone) else Failure(TypeMismatch(k, raw))
    else
      match k
      case KInt => if raw.JInt? then Success(VInt(raw.i)) else Failure(TypeMismatch(k, raw))
      case KStr => if raw.JStr? then Success(VStr(raw.s)) else Failure(TypeMismatch(k, raw))
      case KBool => if raw.JBool? then Success(VBool(raw.b)) else Failure(TypeMismatch(k, raw))
      case KDateTime =>
        if !raw.JStr? then Failure(TypeMismatch(k, raw))
        else if fmt.isDateTime(raw.s) then Success(VDateTime(raw.s))
        else Failure(FormatError(raw.s))
      case KRating =>
        if !raw.JStr? then Failure(TypeMismatch(k, raw))
        else if fmt.isRating(raw.s) then Success(VRating(raw.s))
        else Failure(UnknownEnumValue(raw.s))
      case KStrList =>
        if !raw.JArray? then Failure(TypeMismatch(k, raw))
        else
          match AllStrs(raw.items)
          case Failure(e) => Failure(e)
          case Success(xs) => Success(VStrList(xs))
  }

  /**
   * Coercion is exact: it accepts a JSON value precisely when that value is the
   * wire form of a well-kinded value (or null for a nullable field), and then
   * yields that value.
   */
  lemma CoerceExact(k: Kind, nullable: bool, raw: JValue, fmt: Formats, v: Value)
    ensures Coerce(k, nullable, raw, fmt) == Success(v) <==>
              raw == Wire(v) && (HasKind(v, k, fmt) || (nullable && v == VNone))
  {
    if raw == Wire(v) && (HasKind(v, k, fmt) || (nullable && v == VNone)) {
      var r := Coerce(k, nullable, raw, fmt);
      if v.VStrList? && v != VNone {
        assert raw == JArray(Strs(v.strs));
        assert AllStrs(raw.items).Success?;
        StrsInjective(AllStrs(raw.items).value, v.strs);
      }
    }
  }

  /** The value the hook registered for a field makes of the raw JSON. */
  function Transform(h: Hook, raw: JValue): (r: Result<JValue, Problem>)
    ensures h == NoHook ==> r == Success(raw)
    ensures h == FlattenGroups ==> (r.Success? <==> Tags.FlattenHook(raw).Success?)
    ensures h == FlattenGroups && r.Success? ==> r.value == Tags.FlattenHook(raw).value
    ensures h == FlattenGroups && r.Failure? ==> r.error == TransformFailure(Tags.FlattenHook(raw).error)
  {
    match h
    case NoHook => Success(raw)
    case FlattenGroups =>
      match Tags.FlattenHook(raw)
      case Failure(e) => Failure(TransformFailure(e))
      case Success(v) => Success(v)
  }

}
