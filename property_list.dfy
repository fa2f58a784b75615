/**
 * The `NSDictionary` values the SDK reads its step descriptions from: keys are
 * strings and a value is a string, an array of values, or some other object.
 */
module PropertyList {
  import opened Wrappers

  datatype Value =
    | PString(s: string)
    | PArray(items: seq<Value>)
    | POther

  type Dictionary = map<string, Value>

  /** `dict[key] as? String` */
  function StringFor(d: Dictionary, key: string): (r: Option<string>)
    ensures r.Some? <==> key in d && d[key].PString?
    ensures r.Some? ==> d[key] == PString(r.value)
  {
    if key in d && d[key].PString? then Some(d[key].s) else None
  }

  /** `dict[key] as? [String]`: the cast succeeds only for an array all of whose items are strings. */
  function StringListFor(d: Dictionary, key: string): (r: Option<seq<string>>)
    ensures r.Some? <==> key in d && d[key].PArray? && forall i :: 0 <= i < |d[key].items| ==> d[key].items[i].PString?
    ensures r.Some? ==> |r.value| == |d[key].items|
    ensures r.Some? ==> forall i :: 0 <= i < |r.value| ==> d[key].items[i] == PString(r.value[i])
  {
    if key in d && d[key].PArray? && forall i :: 0 <= i < |d[key].items| ==> d[key].items[i].PString? then
      var items := d[key].items;
      Some(seq(|items|, i requires 0 <= i < |items| => items[i].s))
    else
      None
  }
}
