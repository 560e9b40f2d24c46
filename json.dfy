/** JSON values as Python's json module produces them, with the dict
    operations the core uses. Numbers are integers only; encoding and parsing
    text are not modelled (a parse outcome is an input of the operations that
    need one). */
module Json {
  import opened Wrappers

  datatype Json =
    | Null
    | Bool(b: bool)
    | Num(n: int)
    | Str(s: string)
    | Arr(items: seq<Json>)
    | Obj(fields: seq<(string, Json)>)

  /** The value json.loads keeps for `key`: with duplicate keys the last one wins. */
  function Lookup(fields: seq<(string, Json)>, key: string): (r: Option<Json>)
    ensures r.None? <==> forall i :: 0 <= i < |fields| ==> fields[i].0 != key
    ensures r.Some? ==> exists i :: 0 <= i < |fields| && fields[i] == (key, r.value) &&
                          forall j :: i < j < |fields| ==> fields[j].0 != key
  {
    if fields == [] then None
    else
      var last := fields[|fields| - 1];
      if last.0 == key then Some(last.1) else Lookup(fields[..|fields| - 1], key)
  }

  /** dict.get(key, default). */
  function GetOr(fields: seq<(string, Json)>, key: string, default: Json): Json {
    var v := Lookup(fields, key);
    if v.Some? then v.value else default
  }

  /** dict.get(key): a missing key and a JSON null both give Python None. */
  function GetOpt(fields: seq<(string, Json)>, key: string): (r: Option<Json>)
    ensures r.Some? ==> r.value != Null
  {
    var v := Lookup(fields, key);
    if v.Some? && v.value != Null then v else None
  }

  /** Python truthiness of a decoded value. */
  predicate Truthy(v: Json) {
    match v
    case Null => false
    case Bool(b) => b
    case Num(n) => n != 0
    case Str(s) => s != ""
    case Arr(items) => items != []
    case Obj(fields) => fields != []
  }

  /** Truthiness of an optional value, None being falsy. */
  predicate TruthyOpt(v: Option<Json>) {
    v.Some? && Truthy(v.value)
  }
}
