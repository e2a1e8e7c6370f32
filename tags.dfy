/**
 * The pre-validation hook of ExtendedUser.blacklisted_tags: the service sends
 * the blacklist as groups of tags and the model keeps the first tag of each
 * group, in order.
 */
module Tags {
  import opened Json
  import opened Wrappers

  /** Flattening on well-shaped input: the first tag of every group, in order. */
  function Flatten(groups: seq<seq<string>>): (tags: seq<string>)
    requires forall i :: 0 <= i < |groups| ==> |groups[i]| > 0
    ensures |tags| == |groups|
    ensures forall i :: 0 <= i < |groups| ==> tags[i] == groups[i][0]
  {
    if groups == [] then [] else [groups[0][0]] + Flatten(groups[1..])
  }

  /** Flattening commutes with concatenation: groups keep their relative order. */
  lemma {:induction false} FlattenAppend(a: seq<seq<string>>, b: seq<seq<string>>)
    requires forall i :: 0 <= i < |a| ==> |a[i]| > 0
    requires forall i :: 0 <= i < |b| ==> |b[i]| > 0
    ensures forall i :: 0 <= i < |a + b| ==> |(a + b)[i]| > 0
    ensures Flatten(a + b) == Flatten(a) + Flatten(b)
  {
    assert forall i :: 0 <= i < |a + b| ==> (a + b)[i] == if i < |a| then a[i] else b[i - |a|];
    var l, r := Flatten(a + b), Flatten(a) + Flatten(b);
    assert |l| == |r|;
    forall i | 0 <= i < |l| ensures l[i] == r[i] {
      if i < |a| { assert l[i] == a[i][0]; } else { assert l[i] == b[i - |a|][0]; }
    }
  }

  /** Every tag in its own group; the shape Flatten undoes. */
  function Singletons(tags: seq<string>): (groups: seq<seq<string>>)
    ensures |groups| == |tags|
    ensures forall i :: 0 <= i < |tags| ==> groups[i] == [tags[i]]
  {
    seq(|tags|, i requires 0 <= i < |tags| => [tags[i]])
  }

  lemma FlattenSingletons(tags: seq<string>)
    ensures forall i :: 0 <= i < |tags| ==> |Singletons(tags)[i]| > 0
    ensures Flatten(Singletons(tags)) == tags
  {
  }

  /** Why `tag[0]` (or iterating the hook's input) raised, and at which group. */
  datatype GroupError =
    | NotIterable            // the value is not a list or string: TypeError
    | EmptyGroup(index: nat) // `tag[0]` on an empty list or string: IndexError
    | NoKeyZero(index: nat)  // `tag[0]` on a JSON object, whose keys are strings: KeyError
    | NotSubscriptable(index: nat) // `tag[0]` on null, a bool or a number: TypeError

  /** Python's `tag[0]` on one JSON element; a string yields its first character. */
  function First(item: JValue, index: nat): (r: Result<JValue, GroupError>)
    ensures r.Success? <==> (item.JArray? && |item.items| > 0) || (item.JStr? && |item.s| > 0)
    ensures r.Success? && item.JArray? ==> r.value == item.items[0]
    ensures item.JStr? && |item.s| > 0 ==> r == Success(JStr([item.s[0]]))
    ensures r == Failure(EmptyGroup(index)) <==> (item.JArray? && item.items == []) || (item.JStr? && item.s == [])
    ensures r == Failure(NoKeyZero(index)) <==> item.JObject?
    ensures r == Failure(NotSubscriptable(index)) <==> item.JNull? || item.JBool? || item.JInt?
    ensures r.Failure? ==> !r.error.NotIterable? && r.error.index == index
  {
    match item
    case JArray(xs) => if |xs| > 0 then Success(xs[0]) else Failure(EmptyGroup(index))
    case JStr(s) => if |s| > 0 then Success(JStr([s[0]])) else Failure(EmptyGroup(index))
    case JObject(_) => Failure(NoKeyZero(index))
    case _ => Failure(NotSubscriptable(index))
  }

  /** The elements Python's `for tag in v` visits; a string yields its characters. */
  function Elements(v: JValue): (r: Result<seq<JValue>, GroupError>)
    ensures r.Success? <==> v.JArray? || v.JStr?
    ensures v.JArray? ==> r == Success(v.items)
    ensures v.JStr? ==> r.Success? && |r.value| == |v.s|
    ensures v.JStr? ==> forall i :: 0 <= i < |v.s| ==> r.value[i] == JStr([v.s[i]])
    ensures r.Failure? ==> r.error == NotIterable
  {
    match v
    case JArray(xs) => Success(xs)
    case JStr(s) => Success(seq(|s|, i requires 0 <= i < |s| => JStr([s[i]])))
    case _ => Failure(NotIterable)
  }

  /** `[tag[0] for tag in items]`, stopping at the first element that raises. */
  function FirstOfEach(items: seq<JValue>, from: nat): (r: Result<seq<JValue>, GroupError>)
    ensures r.Success? <==> forall i :: 0 <= i < |items| ==> First(items[i], from + i).Success?
    ensures r.Success? ==> |r.value| == |items|
    ensures r.Success? ==> forall i :: 0 <= i < |items| ==> r.value[i] == First(items[i], from + i).value
    ensures r.Failure? ==> exists i :: 0 <= i < |items| && First(items[i], from + i) == Failure(r.error)
                                      && forall j :: 0 <= j < i ==> First(items[j], from + j).Success?
    decreases |items|
  {
    if items == [] then Success([])
    else
      match First(items[0], from)
      case Failure(e) => Failure(e)
      case Success(t) =>
        match FirstOfEach(items[1..], from + 1)
        case Failure(e) => Failure(e)
        case Success(ts) => Success([t] + ts)
  }

  /** The validator `flatten_blacklisted_tags` applied to the raw JSON value. */
  function FlattenHook(v: JValue): (r: Result<JValue, GroupError>)
    ensures r.Success? ==> r.value.JArray?
    ensures v.JArray? ==> r == (match FirstOfEach(v.items, 0)
                                case Success(ts) => Success(JArray(ts))
                                case Failure(e) => Failure(e))
    ensures v.JStr? ==> r.Success? && |r.value.items| == |v.s|
    ensures v.JStr? ==> forall i :: 0 <= i < |v.s| ==> r.value.items[i] == JStr([v.s[i]])
    ensures !(v.JArray? || v.JStr?) ==> r == Failure(NotIterable)
  {
    match Elements(v)
    case Failure(e) => Failure(e)
    case Success(items) =>
      match FirstOfEach(items, 0)
      case Failure(e) => Failure(e)
      case Success(ts) => Success(JArray(ts))
  }

  /** The raw JSON shape of a blacklist: an array of arrays of strings. */
  function GroupsJson(groups: seq<seq<string>>): (v: JValue)
    ensures v.JArray? && |v.items| == |groups|
    ensures forall i :: 0 <= i < |groups| ==> v.items[i] == JArray(Strs(groups[i]))
  {
    JArray(seq(|groups|, i requires 0 <= i < |groups| => JArray(Strs(groups[i]))))
  }

  /**
   * On a well-shaped blacklist the hook is Flatten; it fails exactly when some
   * group is empty, and then names the first empty group.
   */
  lemma HookIsFlatten(groups: seq<seq<string>>)
    ensures FlattenHook(GroupsJson(groups)).Success? <==> forall i :: 0 <= i < |groups| ==> |groups[i]| > 0
    ensures (forall i :: 0 <= i < |groups| ==> |groups[i]| > 0) ==>
              FlattenHook(GroupsJson(groups)) == Success(JArray(Strs(Flatten(groups))))
    ensures FlattenHook(GroupsJson(groups)).Failure? ==>
              exists i :: 0 <= i < |groups| && groups[i] == []
                          && FlattenHook(GroupsJson(groups)) == Failure(EmptyGroup(i))
  {
    var v := GroupsJson(groups);
    var r := FirstOfEach(v.items, 0);
    forall i | 0 <= i < |groups|
      ensures First(v.items[i], i).Success? <==> |groups[i]| > 0
      ensures |groups[i]| > 0 ==> First(v.items[i], i).value == JStr(groups[i][0])
      ensures |groups[i]| == 0 ==> First(v.items[i], i) == Failure(EmptyGroup(i))
    {
    }
    if forall i :: 0 <= i < |groups| ==> |groups[i]| > 0 {
      var ts := r.value;
      assert ts == Strs(Flatten(groups));
    }
  }

  /** The first character of every tag. */
  function Initials(tags: seq<string>): (r: seq<string>)
    requires forall i :: 0 <= i < |tags| ==> |tags[i]| > 0
    ensures |r| == |tags|
    ensures forall i :: 0 <= i < |tags| ==> |r[i]| == 1 && r[i][0] == tags[i][0]
  {
    seq(|tags|, i requires 0 <= i < |tags| => [tags[i][0]])
  }

  /**
   * On a flat list of tags, which is how a decoded blacklist is written back out,
   * `tag[0]` takes the first character of each tag: the hook succeeds exactly when
   * no tag is empty, and then keeps only the initials.
   */
  lemma HookOnFlatTags(tags: seq<string>)
    ensures FlattenHook(JArray(Strs(tags))).Success? <==> forall i :: 0 <= i < |tags| ==> |tags[i]| > 0
    ensures (forall i :: 0 <= i < |tags| ==> |tags[i]| > 0) ==>
              FlattenHook(JArray(Strs(tags))) == Success(JArray(Strs(Initials(tags))))
    ensures FlattenHook(JArray(Strs(tags))).Failure? ==>
              exists i :: 0 <= i < |tags| && tags[i] == []
                          && FlattenHook(JArray(Strs(tags))) == Failure(EmptyGroup(i))
  {
    var items := Strs(tags);
    forall i | 0 <= i < |tags|
      ensures First(items[i], i).Success? <==> |tags[i]| > 0
      ensures |tags[i]| > 0 ==> First(items[i], i).value == JStr([tags[i][0]])
      ensures |tags[i]| == 0 ==> First(items[i], i) == Failure(EmptyGroup(i))
    {
    }
    if forall i :: 0 <= i < |tags| ==> |tags[i]| > 0 {
      var ts := FirstOfEach(items, 0).value;
      assert ts == Strs(Initials(tags));
    }
  }
}
