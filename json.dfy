/** The JSON values the imageboard service sends back. */
module Json {

  /** A JSON value. Only integral numbers are modelled; an object maps keys to values. */
  datatype JValue =
    | JNull
    | JBool(b: bool)
    | JInt(i: int)
    | JStr(s: string)
    | JArray(items: seq<JValue>)
    | JObject(members: map<string, JValue>)

  /** A decoded JSON object: the payload handed to a profile model. */
  type Object = map<string, JValue>

  /** The JSON array of the given strings, in order. */
  function Strs(xs: seq<string>): (r: seq<JValue>)
    ensures |r| == |xs|
    ensures forall i :: 0 <= i < |xs| ==> r[i] == JStr(xs[i])
  {
    seq(|xs|, i requires 0 <= i < |xs| => JStr(xs[i]))
  }

  /** Strs loses nothing: two lists with the same JSON form are equal. */
  lemma StrsInjective(xs: seq<string>, ys: seq<string>)
    requires Strs(xs) == Strs(ys)
    ensures xs == ys
  {
    assert |xs| == |ys|;
    forall i | 0 <= i < |xs| ensures xs[i] == ys[i] {
      assert Strs(xs)[i] == Strs(ys)[i];
    }
  }

}
