/** The decoded JSON body of a webhook delivery, as the handler sees it after
    `request.json()`: Python's None, bool, int, str, list and dict. */
module JsonValue {
  import opened Wrappers

  datatype Json =
    | JNull
    | JBool(b: bool)
    | JNum(n: int)
    | JStr(s: string)
    | JArr(items: seq<Json>)
    | JObj(fields: map<string, Json>)

  /** Python truthiness: None, False, 0, "", [] and {} are false, all else true. */
  predicate Truthy(v: Json)
  {
    match v
    case JNull => false
    case JBool(b) => b
    case JNum(n) => n != 0
    case JStr(s) => s != ""
    case JArr(items) => items != []
    case JObj(fields) => fields != map[]
  }

  /** `d.get(key, default)` on a dict: the stored value when the key is present. */
  function GetOr(fields: map<string, Json>, key: string, default: Json): (v: Json)
    ensures key !in fields ==> v == default
    ensures key in fields ==> v == fields[key]
  {
    if key in fields then fields[key] else default
  }

  /** `d.get(key)`: None (here JNull) when the key is absent. */
  function Get(fields: map<string, Json>, key: string): (v: Json)
    ensures key in fields ==> v == fields[key]
    ensures key !in fields ==> v == JNull && !Truthy(v)
  {
    GetOr(fields, key, JNull)
  }

  /** The chained lookup `v.get(k1, {}).get(k2, {})...get(kn, default)`.
      Each `.get` is an attribute of dicts only, so calling it on any other
      value raises; that is the `None` result. */
  function Chain(v: Json, path: seq<string>, default: Json): (r: Option<Json>)
    requires |path| >= 1
    ensures r.None? <==> exists i :: 0 <= i < |path| && !Prefix(v, path[..i]).JObj?
    ensures r.Some? ==>
              && Prefix(v, path[..|path| - 1]).JObj?
              && r.value == GetOr(Prefix(v, path[..|path| - 1]).fields, path[|path| - 1], default)
    decreases |path|
  {
    if !v.JObj? then (assert !Prefix(v, path[..0]).JObj?; None)
    else if |path| == 1 then
      assert forall i :: 0 <= i < |path| ==> path[..i] == [];
      Some(GetOr(v.fields, path[0], default))
    else
      var next := GetOr(v.fields, path[0], JObj(map[]));
      var r := Chain(next, path[1..], default);
      PrefixStep(v, path);
      assert path[..|path| - 1][1..] == path[1..][..|path[1..]| - 1];
      r
  }

  /** The value reached by following `keys` with `.get(k, {})` from `v`,
      as long as every step lands on a dict. */
  function Prefix(v: Json, keys: seq<string>): Json
    decreases |keys|
  {
    if keys == [] || !v.JObj? then v
    else Prefix(GetOr(v.fields, keys[0], JObj(map[])), keys[1..])
  }

  lemma PrefixStep(v: Json, path: seq<string>)
    requires v.JObj? && |path| >= 2
    ensures (exists i :: 0 <= i < |path| && !Prefix(v, path[..i]).JObj?)
        <==> (exists i :: 0 <= i < |path| - 1
                && !Prefix(GetOr(v.fields, path[0], JObj(map[])), path[1..][..i]).JObj?)
  {
    var next := GetOr(v.fields, path[0], JObj(map[]));
    forall i | 1 <= i < |path|
      ensures Prefix(v, path[..i]) == Prefix(next, path[1..][..i - 1])
    {
      assert path[..i][1..] == path[1..][..i - 1];
    }
    if exists i :: 0 <= i < |path| && !Prefix(v, path[..i]).JObj? {
      var i :| 0 <= i < |path| && !Prefix(v, path[..i]).JObj?;
      assert i != 0;
      assert !Prefix(next, path[1..][..i - 1]).JObj?;
    }
    if exists i :: 0 <= i < |path| - 1 && !Prefix(next, path[1..][..i]).JObj? {
      var i :| 0 <= i < |path| - 1 && !Prefix(next, path[1..][..i]).JObj?;
      assert Prefix(v, path[..i + 1]) == Prefix(next, path[1..][..i]);
    }
  }
}
