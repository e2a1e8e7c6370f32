/**
 * The validation engine behind every profile model: each declared field is read
 * from its wire key, transformed by its hook, defaulted when absent, coerced to
 * its kind, and all field errors are collected before anything is returned.
 */
module Decoding {
  import opened Json
  import opened Wrappers
  import opened Fields
  import Tags

  /** A tier's declared fields, in declaration order. */
  type Schema = seq<Field>

  /** A decoded profile: canonical field name to typed value. */
  type Record = map<string, Value>

  /** One field's failure, named by the field's canonical name. */
  datatype FieldError = FieldError(field: string, problem: Problem)

  /** No two fields of a schema share a canonical name or a wire key. */
  predicate WellFormed(s: Schema)
  {
    forall i, j :: 0 <= i < j < |s| ==> s[i].name != s[j].name && s[i].key != s[j].key
  }

  /** The canonical names a schema declares. */
  function Names(s: Schema): (names: set<string>)
    ensures forall i :: 0 <= i < |s| ==> s[i].name in names
    decreases |s|
  {
    if s == [] then {}
    else
      assert forall i :: 1 <= i < |s| ==> s[i] == s[1..][i - 1];
      {s[0].name} + Names(s[1..])
  }

  /** The position of a declared name. */
  lemma {:induction false} NameIndex(s: Schema, n: string) returns (i: nat)
    requires n in Names(s)
    ensures i < |s| && s[i].name == n
    decreases |s|
  {
    if s[0].name == n {
      i := 0;
    } else {
      var j := NameIndex(s[1..], n);
      i := j + 1;
    }
  }

  /** The wire keys a schema reads. */
  function Keys(s: Schema): (keys: set<string>)
    ensures forall i :: 0 <= i < |s| ==> s[i].key in keys
    decreases |s|
  {
    if s == [] then {}
    else
      assert forall i :: 1 <= i < |s| ==> s[i] == s[1..][i - 1];
      {s[0].key} + Keys(s[1..])
  }

  /** One field's outcome: its default when its wire key is absent, else its hook followed by coercion. */
  function Resolve(f: Field, obj: Object, fmt: Formats): (r: Result<Value, Problem>)
    ensures f.key !in obj ==> r == Absent(f.presence)
    ensures f.key in obj ==> r != Failure(Missing)
    ensures f.key in obj && r.Success? ==> Fits(r.value, f, fmt)
    ensures f.key in obj && f.hook == NoHook && r.Success? ==> obj[f.key] == Wire(r.value)
  {
    if f.key !in obj then Absent(f.presence)
    else
      match Transform(f.hook, obj[f.key])
      case Failure(p) => Failure(p)
      case Success(raw) => Coerce(f.kind, f.presence == DefaultNone, raw, fmt)
  }

  /** The error of one field, if it has one. */
  function ErrorOf(f: Field, obj: Object, fmt: Formats): (errs: seq<FieldError>)
    ensures errs == [] <==> Resolve(f, obj, fmt).Success?
    ensures errs != [] ==> errs == [FieldError(f.name, Resolve(f, obj, fmt).error)]
  {
    match Resolve(f, obj, fmt)
    case Failure(p) => [FieldError(f.name, p)]
    case Success(_) => []
  }

  /** Every field's error, in declaration order; no field stops the others from being checked. */
  function Errors(s: Schema, obj: Object, fmt: Formats): (errs: seq<FieldError>)
    ensures errs == [] <==> forall i {:trigger Resolve(s[i], obj, fmt)} :: 0 <= i < |s| ==> Resolve(s[i], obj, fmt).Success?
    decreases |s|
  {
    if s == [] then []
    else
      assert forall i :: 1 <= i < |s| ==> s[i] == s[1..][i - 1];
      ErrorOf(s[0], obj, fmt) + Errors(s[1..], obj, fmt)
  }

  /** Each failing field contributes its error. */
  lemma {:induction false} ErrorsHasEach(s: Schema, obj: Object, fmt: Formats, i: nat)
    requires i < |s| && Resolve(s[i], obj, fmt).Failure?
    ensures FieldError(s[i].name, Resolve(s[i], obj, fmt).error) in Errors(s, obj, fmt)
    decreases |s|
  {
    if i > 0 {
      assert s[i] == s[1..][i - 1];
      ErrorsHasEach(s[1..], obj, fmt, i - 1);
    }
  }

  /** Each reported error is the error of some failing field. */
  lemma {:induction false} ErrorsOnlyFrom(s: Schema, obj: Object, fmt: Formats, e: FieldError)
    requires e in Errors(s, obj, fmt)
    ensures exists i :: 0 <= i < |s| && Resolve(s[i], obj, fmt).Failure?
                        && e == FieldError(s[i].name, Resolve(s[i], obj, fmt).error)
    decreases |s|
  {
    if e !in ErrorOf(s[0], obj, fmt) {
      ErrorsOnlyFrom(s[1..], obj, fmt, e);
      var i :| 0 <= i < |s[1..]| && Resolve(s[1..][i], obj, fmt).Failure?
               && e == FieldError(s[1..][i].name, Resolve(s[1..][i], obj, fmt).error);
      assert s[1..][i] == s[i + 1];
    }
  }

  /** The record of a payload every field of which resolved. */
  function Build(s: Schema, obj: Object, fmt: Formats): (rec: Record)
    requires WellFormed(s)
    requires forall i {:trigger Resolve(s[i], obj, fmt)} :: 0 <= i < |s| ==> Resolve(s[i], obj, fmt).Success?
    ensures rec.Keys == Names(s)
    ensures forall i {:trigger Resolve(s[i], obj, fmt)} :: 0 <= i < |s| ==> rec[s[i].name] == Resolve(s[i], obj, fmt).value
    decreases |s|
  {
    if s == [] then map[]
    else
      assert forall i :: 1 <= i < |s| ==> s[i] == s[1..][i - 1];
      Build(s[1..], obj, fmt)[s[0].name := Resolve(s[0], obj, fmt).value]
  }

  /**
   * Validating a payload against a tier: a record holding every declared field,
   * or the non-empty list of every field's error and no record.
   */
  function Decode(s: Schema, obj: Object, fmt: Formats): (r: Result<Record, seq<FieldError>>)
    requires WellFormed(s)
    ensures r.Success? <==> forall i {:trigger Resolve(s[i], obj, fmt)} :: 0 <= i < |s| ==> Resolve(s[i], obj, fmt).Success?
    ensures r.Success? ==> r.value.Keys == Names(s)
    ensures r.Success? ==> forall i {:trigger Resolve(s[i], obj, fmt)} :: 0 <= i < |s| ==> r.value[s[i].name] == Resolve(s[i], obj, fmt).value
    ensures r.Failure? ==> |r.error| > 0 && r.error == Errors(s, obj, fmt)
  {
    var errs := Errors(s, obj, fmt);
    if errs == [] then Success(Build(s, obj, fmt)) else Failure(errs)
  }

  /** A field that does not resolve makes decoding fail, with its error among the reported ones. */
  lemma FieldFails(s: Schema, obj: Object, fmt: Formats, i: nat)
    requires WellFormed(s) && i < |s| && Resolve(s[i], obj, fmt).Failure?
    ensures Decode(s, obj, fmt).Failure?
    ensures FieldError(s[i].name, Resolve(s[i], obj, fmt).error) in Decode(s, obj, fmt).error
  {
    ErrorsHasEach(s, obj, fmt, i);
  }

  /** A field that resolves is named by no error, and a successful decode holds its value. */
  lemma FieldSucceeds(s: Schema, obj: Object, fmt: Formats, i: nat)
    requires WellFormed(s) && i < |s| && Resolve(s[i], obj, fmt).Success?
    ensures forall e :: e in Errors(s, obj, fmt) ==> e.field != s[i].name
    ensures Decode(s, obj, fmt).Success? ==>
              s[i].name in Decode(s, obj, fmt).value
              && Decode(s, obj, fmt).value[s[i].name] == Resolve(s[i], obj, fmt).value
  {
    forall e | e in Errors(s, obj, fmt) ensures e.field != s[i].name {
      ErrorsOnlyFrom(s, obj, fmt, e);
      var j :| 0 <= j < |s| && Resolve(s[j], obj, fmt).Failure?
               && e == FieldError(s[j].name, Resolve(s[j], obj, fmt).error);
      assert j != i;
    }
  }

  /** What a successful decode holds for one field. */
  lemma DecodedField(s: Schema, obj: Object, fmt: Formats, i: nat)
    requires WellFormed(s) && i < |s| && Decode(s, obj, fmt).Success?
    ensures Resolve(s[i], obj, fmt).Success?
    ensures s[i].name in Decode(s, obj, fmt).value
    ensures Decode(s, obj, fmt).value[s[i].name] == Resolve(s[i], obj, fmt).value
  {
    FieldSucceeds(s, obj, fmt, i);
  }

  /** A successful decode holds a required string field as the string under its wire key. */
  lemma DecodedString(s: Schema, obj: Object, fmt: Formats, i: nat)
    requires WellFormed(s) && i < |s| && Decode(s, obj, fmt).Success?
    requires s[i].kind == KStr && s[i].presence == Required && s[i].hook == NoHook
    ensures s[i].key in obj && obj[s[i].key].JStr?
    ensures s[i].name in Decode(s, obj, fmt).value
    ensures Decode(s, obj, fmt).value[s[i].name] == VStr(obj[s[i].key].s)
  {
    DecodedField(s, obj, fmt, i);
  }

  /** A required field whose wire key is absent makes decoding fail with an error naming it. */
  lemma MissingRequiredFails(s: Schema, obj: Object, fmt: Formats, i: nat)
    requires WellFormed(s) && i < |s|
    requires s[i].presence == Required && s[i].key !in obj
    ensures Decode(s, obj, fmt).Failure?
    ensures FieldError(s[i].name, Missing) in Decode(s, obj, fmt).error
  {
    assert Resolve(s[i], obj, fmt) == Failure(Missing);
    FieldFails(s, obj, fmt, i);
  }

  /**
   * A defaulted field whose wire key is absent causes no error, and a successful
   * decode holds its declared default.
   */
  lemma AbsentIsDefaulted(s: Schema, obj: Object, fmt: Formats, i: nat)
    requires WellFormed(s) && i < |s|
    requires s[i].presence != Required && s[i].key !in obj
    ensures forall e :: e in Errors(s, obj, fmt) ==> e.field != s[i].name
    ensures Decode(s, obj, fmt).Success? ==>
              s[i].name in Decode(s, obj, fmt).value
              && Decode(s, obj, fmt).value[s[i].name] == Absent(s[i].presence).value
  {
    assert Resolve(s[i], obj, fmt) == Absent(s[i].presence);
    FieldSucceeds(s, obj, fmt, i);
  }

  /**
   * A required list field with the flattening hook, given groups of tags: when
   * every group has a tag it decodes to the first tag of each group, and an
   * empty group makes decoding fail with an error naming that group.
   */
  lemma FlattenedField(s: Schema, obj: Object, fmt: Formats, i: nat, groups: seq<seq<string>>)
    requires WellFormed(s) && i < |s|
    requires s[i].kind == KStrList && s[i].presence == Required && s[i].hook == FlattenGroups
    requires s[i].key in obj && obj[s[i].key] == Tags.GroupsJson(groups)
    ensures (forall g :: 0 <= g < |groups| ==> |groups[g]| > 0) ==>
              forall e :: e in Errors(s, obj, fmt) ==> e.field != s[i].name
    ensures (forall g :: 0 <= g < |groups| ==> |groups[g]| > 0) && Decode(s, obj, fmt).Success? ==>
              && s[i].name in Decode(s, obj, fmt).value
              && Decode(s, obj, fmt).value[s[i].name] == VStrList(Tags.Flatten(groups))
    ensures (exists g :: 0 <= g < |groups| && groups[g] == []) ==>
              && Decode(s, obj, fmt).Failure?
              && exists g :: 0 <= g < |groups| && groups[g] == []
                             && FieldError(s[i].name, TransformFailure(Tags.EmptyGroup(g))) in Decode(s, obj, fmt).error
  {
    Tags.HookIsFlatten(groups);
    if forall g :: 0 <= g < |groups| ==> |groups[g]| > 0 {
      var tags := Tags.Flatten(groups);
      CoerceExact(KStrList, false, JArray(Strs(tags)), fmt, VStrList(tags));
      assert Resolve(s[i], obj, fmt) == Success(VStrList(tags));
      FieldSucceeds(s, obj, fmt, i);
    } else {
      var g :| 0 <= g < |groups| && groups[g] == []
               && Tags.FlattenHook(Tags.GroupsJson(groups)) == Failure(Tags.EmptyGroup(g));
      assert Resolve(s[i], obj, fmt) == Failure(TransformFailure(Tags.EmptyGroup(g)));
      FieldFails(s, obj, fmt, i);
    }
  }

  /**
   * The same field given a flat list of tags, the wire form of a decoded list:
   * every tag is cut down to its first character, and an empty tag makes
   * decoding fail with an error naming its position.
   */
  lemma FlatTagsField(s: Schema, obj: Object, fmt: Formats, i: nat, tags: seq<string>)
    requires WellFormed(s) && i < |s|
    requires s[i].kind == KStrList && s[i].presence == Required && s[i].hook == FlattenGroups
    requires s[i].key in obj && obj[s[i].key] == Wire(VStrList(tags))
    ensures (forall g :: 0 <= g < |tags| ==> |tags[g]| > 0) ==>
              forall e :: e in Errors(s, obj, fmt) ==> e.field != s[i].name
    ensures (forall g :: 0 <= g < |tags| ==> |tags[g]| > 0) && Decode(s, obj, fmt).Success? ==>
              && s[i].name in Decode(s, obj, fmt).value
              && Decode(s, obj, fmt).value[s[i].name] == VStrList(Tags.Initials(tags))
    ensures (exists g :: 0 <= g < |tags| && tags[g] == []) ==>
              && Decode(s, obj, fmt).Failure?
              && exists g :: 0 <= g < |tags| && tags[g] == []
                             && FieldError(s[i].name, TransformFailure(Tags.EmptyGroup(g))) in Decode(s, obj, fmt).error
  {
    ResolveFlatTags(s[i], obj, fmt, tags);
    if forall g :: 0 <= g < |tags| ==> |tags[g]| > 0 {
      FieldSucceeds(s, obj, fmt, i);
    } else {
      var g :| 0 <= g < |tags| && tags[g] == []
               && Resolve(s[i], obj, fmt) == Failure(TransformFailure(Tags.EmptyGroup(g)));
      FieldFails(s, obj, fmt, i);
    }
  }

  /** How the hooked field resolves from a flat list of tags. */
  lemma ResolveFlatTags(f: Field, obj: Object, fmt: Formats, tags: seq<string>)
    requires f.kind == KStrList && f.presence == Required && f.hook == FlattenGroups
    requires f.key in obj && obj[f.key] == Wire(VStrList(tags))
    ensures (forall g :: 0 <= g < |tags| ==> |tags[g]| > 0) ==>
              Resolve(f, obj, fmt) == Success(VStrList(Tags.Initials(tags)))
    ensures (exists g :: 0 <= g < |tags| && tags[g] == []) ==>
              exists g :: 0 <= g < |tags| && tags[g] == []
                          && Resolve(f, obj, fmt) == Failure(TransformFailure(Tags.EmptyGroup(g)))
  {
    var raw := JArray(Strs(tags));
    assert obj[f.key] == raw;
    Tags.HookOnFlatTags(tags);
    if forall g :: 0 <= g < |tags| ==> |tags[g]| > 0 {
      var initials := Tags.Initials(tags);
      assert Transform(f.hook, raw) == Success(JArray(Strs(initials)));
      CoerceExact(KStrList, false, JArray(Strs(initials)), fmt, VStrList(initials));
    } else {
      var g :| 0 <= g < |tags| && tags[g] == [] && Tags.FlattenHook(raw) == Failure(Tags.EmptyGroup(g));
      assert Transform(f.hook, raw) == Failure(TransformFailure(Tags.EmptyGroup(g)));
    }
  }

  /**
   * Absence of a defaulted field never breaks decoding: dropping its key from a
   * payload that decodes leaves a payload that decodes to the same record with
   * that field at its default.
   */
  lemma RemoveDefaulted(s: Schema, obj: Object, fmt: Formats, i: nat)
    requires WellFormed(s) && i < |s| && s[i].presence != Required
    requires Decode(s, obj, fmt).Success?
    ensures Decode(s, obj - {s[i].key}, fmt).Success?
    ensures Decode(s, obj - {s[i].key}, fmt).value == Decode(s, obj, fmt).value[s[i].name := Absent(s[i].presence).value]
  {
    var o2 := obj - {s[i].key};
    forall j | 0 <= j < |s| && j != i ensures Resolve(s[j], o2, fmt) == Resolve(s[j], obj, fmt) {
      assert s[j].key != s[i].key;
    }
    assert Resolve(s[i], o2, fmt) == Absent(s[i].presence);
    var r1, r2 := Decode(s, obj, fmt).value, Decode(s, o2, fmt).value;
    forall n | n in r2.Keys ensures r2[n] == r1[s[i].name := Absent(s[i].presence).value][n] {
      var j := NameIndex(s, n);
    }
    assert r2 == r1[s[i].name := Absent(s[i].presence).value];
  }

  /** The errors of an extended schema are the parent's followed by the extension's. */
  lemma {:induction false} ErrorsAppend(a: Schema, b: Schema, obj: Object, fmt: Formats)
    ensures Errors(a + b, obj, fmt) == Errors(a, obj, fmt) + Errors(b, obj, fmt)
    decreases |a|
  {
    if a != [] {
      assert (a + b)[1..] == a[1..] + b;
      assert (a + b)[0] == a[0];
      ErrorsAppend(a[1..], b, obj, fmt);
      var x, y, z := ErrorOf(a[0], obj, fmt), Errors(a[1..], obj, fmt), Errors(b, obj, fmt);
      assert Errors(a + b, obj, fmt) == x + (y + z);
      assert Errors(a, obj, fmt) == x + y;
      assert x + (y + z) == (x + y) + z;
    } else {
      assert a + b == b;
    }
  }

  lemma {:induction false} NamesAppend(a: Schema, b: Schema)
    ensures Names(a + b) == Names(a) + Names(b)
    decreases |a|
  {
    if a == [] {
      assert a + b == b;
    } else {
      assert (a + b)[1..] == a[1..] + b;
      NamesAppend(a[1..], b);
    }
  }

  /** The parts of a well-formed schema are well formed, and they declare different names. */
  lemma WellFormedParts(a: Schema, b: Schema)
    requires WellFormed(a + b)
    ensures WellFormed(a) && WellFormed(b)
    ensures forall i, j :: 0 <= i < |a| && 0 <= j < |b| ==> a[i].name != b[j].name
  {
    var s := a + b;
    forall i, j | 0 <= i < j < |a| ensures a[i].name != a[j].name && a[i].key != a[j].key {
      assert s[i] == a[i] && s[j] == a[j];
    }
    forall i, j | 0 <= i < j < |b| ensures b[i].name != b[j].name && b[i].key != b[j].key {
      assert s[|a| + i] == b[i] && s[|a| + j] == b[j];
    }
    forall i, j | 0 <= i < |a| && 0 <= j < |b| ensures a[i].name != b[j].name {
      assert s[i] == a[i] && s[|a| + j] == b[j];
    }
  }

  /**
   * A tier that extends another decodes exactly when both the parent's fields and
   * its own do, and its record is the parent's record together with its own fields.
   */
  lemma DecodeAppend(a: Schema, b: Schema, obj: Object, fmt: Formats)
    requires WellFormed(a + b)
    ensures WellFormed(a) && WellFormed(b)
    ensures Decode(a + b, obj, fmt).Success? <==> Decode(a, obj, fmt).Success? && Decode(b, obj, fmt).Success?
    ensures Decode(a + b, obj, fmt).Success? ==>
              Decode(a + b, obj, fmt).value == Decode(a, obj, fmt).value + Decode(b, obj, fmt).value
    ensures Decode(a + b, obj, fmt).Failure? ==>
              Decode(a + b, obj, fmt).error == Errors(a, obj, fmt) + Errors(b, obj, fmt)
  {
    WellFormedParts(a, b);
    ErrorsAppend(a, b, obj, fmt);
    if Decode(a + b, obj, fmt).Success? {
      RecordAppend(a, b, obj, fmt);
    }
  }

  /**
   * On a payload valid for the parent tier, an extended tier fails exactly when
   * its own fields do, and then with exactly their errors.
   */
  lemma ExtensionErrors(a: Schema, b: Schema, obj: Object, fmt: Formats)
    requires WellFormed(a + b) && WellFormed(a) && Decode(a, obj, fmt).Success?
    ensures WellFormed(b)
    ensures Decode(a + b, obj, fmt).Failure? <==> Decode(b, obj, fmt).Failure?
    ensures Decode(a + b, obj, fmt).Failure? ==> Decode(a + b, obj, fmt).error == Decode(b, obj, fmt).error
  {
    DecodeAppend(a, b, obj, fmt);
    assert Errors(a, obj, fmt) == [];
    assert Errors(a, obj, fmt) + Errors(b, obj, fmt) == Errors(b, obj, fmt);
  }

  lemma RecordAppend(a: Schema, b: Schema, obj: Object, fmt: Formats)
    requires WellFormed(a + b) && WellFormed(a) && WellFormed(b)
    requires forall i, j :: 0 <= i < |a| && 0 <= j < |b| ==> a[i].name != b[j].name
    requires Decode(a + b, obj, fmt).Success? && Decode(a, obj, fmt).Success? && Decode(b, obj, fmt).Success?
    ensures Decode(a + b, obj, fmt).value == Decode(a, obj, fmt).value + Decode(b, obj, fmt).value
  {
    var s := a + b;
    var r, ra, rb := Decode(s, obj, fmt).value, Decode(a, obj, fmt).value, Decode(b, obj, fmt).value;
    NamesAppend(a, b);
    forall n | n in r.Keys ensures r[n] == (ra + rb)[n] {
      if n in rb.Keys {
        var i := NameIndex(b, n);
        assert s[|a| + i] == b[i];
        assert r[n] == Resolve(s[|a| + i], obj, fmt).value == Resolve(b[i], obj, fmt).value;
      } else {
        var i := NameIndex(a, n);
        assert s[i] == a[i];
        assert r[n] == Resolve(s[i], obj, fmt).value == Resolve(a[i], obj, fmt).value;
      }
    }
    assert r == ra + rb;
  }

  /** Two field lists share no canonical name and no wire key. */
  predicate Disjoint(a: Schema, b: Schema)
  {
    forall i, j :: 0 <= i < |a| && 0 <= j < |b| ==> a[i].name != b[j].name && a[i].key != b[j].key
  }

  lemma WellFormedAppend(a: Schema, b: Schema)
    requires WellFormed(a) && WellFormed(b) && Disjoint(a, b)
    ensures WellFormed(a + b)
  {
    var s := a + b;
    forall i, j | 0 <= i < j < |s| ensures s[i].name != s[j].name && s[i].key != s[j].key {
      if j < |a| {
        assert s[i] == a[i] && s[j] == a[j];
      } else if i < |a| {
        assert s[i] == a[i] && s[j] == b[j - |a|];
      } else {
        assert s[i] == b[i - |a|] && s[j] == b[j - |a|];
      }
    }
  }

  lemma DisjointAppend(a1: Schema, a2: Schema, b: Schema)
    requires Disjoint(a1, b) && Disjoint(a2, b)
    ensures Disjoint(a1 + a2, b)
  {
    var a := a1 + a2;
    forall i, j | 0 <= i < |a| && 0 <= j < |b| ensures a[i].name != b[j].name && a[i].key != b[j].key {
      if i < |a1| { assert a[i] == a1[i]; } else { assert a[i] == a2[i - |a1|]; }
    }
  }

  /** The wire form of one field's value; a hooked list goes out as one-tag groups. */
  function WireOf(f: Field, v: Value): JValue
  {
    if f.hook == FlattenGroups && v.VStrList? then Tags.GroupsJson(Tags.Singletons(v.strs)) else Wire(v)
  }

  /** A record of tier `s`: exactly the tier's fields, each holding a value it may hold. */
  predicate Conforms(s: Schema, rec: Record, fmt: Formats)
  {
    && rec.Keys == Names(s)
    && forall i :: 0 <= i < |s| ==> Fits(rec[s[i].name], s[i], fmt)
  }

  /** A hooked field is a list of strings that cannot be None. */
  predicate HooksOnLists(s: Schema)
  {
    forall i :: 0 <= i < |s| && s[i].hook == FlattenGroups ==> s[i].kind == KStrList && s[i].presence != DefaultNone
  }

  /** A payload from which `rec` is decoded: each field's value under its wire key. */
  function Encode(s: Schema, rec: Record): (obj: Object)
    requires WellFormed(s) && Names(s) <= rec.Keys
    ensures obj.Keys == Keys(s)
    ensures forall i :: 0 <= i < |s| ==> obj[s[i].key] == WireOf(s[i], rec[s[i].name])
    decreases |s|
  {
    if s == [] then map[]
    else
      assert forall i :: 1 <= i < |s| ==> s[i] == s[1..][i - 1];
      Encode(s[1..], rec)[s[0].key := WireOf(s[0], rec[s[0].name])]
  }

  /** A field resolves to `v` from a payload holding the wire form of `v` under its key. */
  lemma ResolveWire(f: Field, obj: Object, fmt: Formats, v: Value)
    requires f.key in obj && obj[f.key] == WireOf(f, v) && Fits(v, f, fmt)
    requires f.hook == FlattenGroups ==> f.kind == KStrList && f.presence != DefaultNone
    ensures Resolve(f, obj, fmt) == Success(v)
  {
    if f.hook == FlattenGroups {
      Tags.FlattenSingletons(v.strs);
      Tags.HookIsFlatten(Tags.Singletons(v.strs));
      CoerceExact(f.kind, false, JArray(Strs(v.strs)), fmt, v);
    } else {
      CoerceExact(f.kind, f.presence == DefaultNone, Wire(v), fmt, v);
    }
  }

  /** Each field of an encoded record resolves to the record's value. */
  lemma ResolveEncoded(s: Schema, rec: Record, fmt: Formats, i: nat)
    requires WellFormed(s) && HooksOnLists(s) && Conforms(s, rec, fmt) && i < |s|
    ensures Resolve(s[i], Encode(s, rec), fmt) == Success(rec[s[i].name])
  {
    ResolveWire(s[i], Encode(s, rec), fmt, rec[s[i].name]);
  }

  /** Every record of a tier is decoded back from its encoding. */
  lemma RoundTrip(s: Schema, rec: Record, fmt: Formats)
    requires WellFormed(s) && HooksOnLists(s) && Conforms(s, rec, fmt)
    ensures Decode(s, Encode(s, rec), fmt) == Success(rec)
  {
    var obj := Encode(s, rec);
    forall i | 0 <= i < |s| ensures Resolve(s[i], obj, fmt) == Success(rec[s[i].name]) {
      ResolveEncoded(s, rec, fmt, i);
    }
    var d := Decode(s, obj, fmt).value;
    forall n | n in rec.Keys ensures d[n] == rec[n] {
      var i := NameIndex(s, n);
    }
    assert d == rec;
  }
}
