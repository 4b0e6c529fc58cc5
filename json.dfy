/** An already-parsed JSON document and the accessors of `nlohmann::json`
    that the Malcore client uses: `operator[]` with a key or an index on a
    const document, `get<std::string>()`, `is_string()` and range-`for`
    iteration. Every accessor that would throw a `json::exception` (or whose
    behaviour nlohmann leaves undefined, such as a missing key under the
    const `operator[]`) yields `None`. */
module JsonValue {
  import opened Wrappers

  /** An object's members are listed in the container's iteration order
      (nlohmann keeps object keys sorted); numbers are never read by the
      client, so integer numbers suffice. */
  datatype Json =
    | Null
    | Bool(b: bool)
    | Num(n: int)
    | Str(s: string)
    | Arr(items: seq<Json>)
    | Obj(members: seq<(string, Json)>)

  /** The value of the first entry named `key`: the lookup of a JSON
      object's members and of a request's headers alike. */
  function Find<V>(entries: seq<(string, V)>, key: string): Option<V>
  {
    if entries == [] then None
    else if entries[0].0 == key then Some(entries[0].1)
    else Find(entries[1..], key)
  }

  /** Find succeeds exactly when some entry has the key, and then yields
      the value of the first such entry. */
  lemma {:induction false} FindSpec<V>(entries: seq<(string, V)>, key: string)
    ensures Find(entries, key).Some? <==> exists i :: 0 <= i < |entries| && entries[i].0 == key
    ensures Find(entries, key).Some? ==>
              exists i :: 0 <= i < |entries| && entries[i] == (key, Find(entries, key).value)
                          && forall k :: 0 <= k < i ==> entries[k].0 != key
  {
    if entries != [] && entries[0].0 != key {
      FindSpec(entries[1..], key);
      if Find(entries, key).Some? {
        var i :| 0 <= i < |entries[1..]| && entries[1..][i] == (key, Find(entries, key).value)
                 && forall k :: 0 <= k < i ==> entries[1..][k].0 != key;
        assert entries[i + 1] == (key, Find(entries, key).value);
        assert forall k :: 0 <= k < i + 1 ==> entries[k].0 != key by {
          forall k | 0 <= k < i + 1 ensures entries[k].0 != key {
            if k > 0 { assert entries[k] == entries[1..][k - 1]; }
          }
        }
      } else {
        forall i | 0 <= i < |entries| ensures entries[i].0 != key {
          if i > 0 { assert entries[i] == entries[1..][i - 1]; }
        }
      }
    }
  }

  /** The entry at `i` is the one found when no entry before it has the
      same key. */
  lemma {:induction false} FindAt<V>(entries: seq<(string, V)>, i: nat, key: string)
    requires i < |entries| && entries[i].0 == key
    requires forall k :: 0 <= k < i ==> entries[k].0 != key
    ensures Find(entries, key) == Some(entries[i].1)
  {
    if i > 0 {
      FindAt(entries[1..], i - 1, key);
    }
  }

  /** `json[key]` on a const document: only an object that has the key. */
  function Member(j: Json, key: string): Option<Json>
  {
    if j.Obj? then Find(j.members, key) else None
  }

  /** A key lookup succeeds exactly on an object that has the key, and
      yields the value of its first member with that key. */
  lemma MemberSpec(j: Json, key: string)
    ensures Member(j, key).Some? <==> j.Obj? && exists i :: 0 <= i < |j.members| && j.members[i].0 == key
    ensures Member(j, key).Some? ==>
              exists i :: 0 <= i < |j.members| && j.members[i] == (key, Member(j, key).value)
                          && forall k :: 0 <= k < i ==> j.members[k].0 != key
  {
    if j.Obj? {
      FindSpec(j.members, key);
    }
  }

  /** No two members share a key, as in the `std::map` nlohmann keeps an
      object in. */
  predicate UniqueKeys(members: seq<(string, Json)>)
  {
    forall i, k :: 0 <= i < k < |members| ==> members[i].0 != members[k].0
  }

  /** `json[index]` on a const document: only an array long enough. */
  function At(j: Json, index: nat): Option<Json>
  {
    if j.Arr? && index < |j.items| then Some(j.items[index]) else None
  }

  /** `get<std::string>()`: throws unless the value is a string. */
  function GetString(j: Json): Option<string>
  {
    if j.Str? then Some(j.s) else None
  }

  /** `json[key].get<std::string>()`. */
  function StringAt(j: Json, key: string): (r: Option<string>)
    ensures r.Some? <==> Member(j, key).Some? && Member(j, key).value.Str?
    ensures r.Some? ==> Member(j, key) == Some(Str(r.value))
  {
    match Member(j, key)
    case None => None
    case Some(v) => GetString(v)
  }

  /** What a range-`for` over a json visits: the items of an array, the
      values of an object in member order, nothing for null, and the value
      itself, once, for any other scalar. */
  function Elements(j: Json): (r: seq<Json>)
    ensures j.Obj? ==> |r| == |j.members| && forall i :: 0 <= i < |r| ==> r[i] == j.members[i].1
    ensures (j.Bool? || j.Num? || j.Str?) ==> r == [j]
    ensures j.Arr? ==> r == j.items
    ensures j.Null? ==> r == []
  {
    match j
    case Null => []
    case Arr(items) => items
    case Obj(members) => seq(|members|, i requires 0 <= i < |members| => members[i].1)
    case _ => [j]
  }

  /** Indexing an array agrees with iterating it: `json[i]` is the
      `i`-th value the range-`for` visits. */
  lemma AtIsElement(j: Json, index: nat)
    requires j.Arr?
    ensures At(j, index).Some? <==> index < |Elements(j)|
    ensures At(j, index).Some? ==> At(j, index).value == Elements(j)[index]
  {
  }

  /** On an object without duplicate keys, each value the range-`for`
      visits is what `json[key]` gives for its key. */
  lemma MemberIsElement(j: Json, i: nat)
    requires j.Obj? && UniqueKeys(j.members) && i < |j.members|
    ensures Member(j, j.members[i].0) == Some(Elements(j)[i])
  {
    FindAt(j.members, i, j.members[i].0);
  }

  /** One navigation step of a path such as `data.packer_information[0]`. */
  datatype Step = Key(name: string) | Index(pos: nat)

  function Select(j: Json, step: Step): Option<Json>
  {
    match step
    case Key(name) => Member(j, name)
    case Index(pos) => At(j, pos)
  }

  /** Follows a chain of `operator[]` calls; `None` as soon as a step fails. */
  function Lookup(j: Json, path: seq<Step>): Option<Json>
    decreases |path|
  {
    if path == [] then Some(j)
    else
      match Select(j, path[0])
      case None => None
      case Some(child) => Lookup(child, path[1..])
  }

  /** Looking up `p + q` is looking up `p`, then `q` from where `p` led. */
  lemma {:induction false} LookupAppend(j: Json, p: seq<Step>, q: seq<Step>)
    ensures Lookup(j, p + q) == match Lookup(j, p) case None => None case Some(c) => Lookup(c, q)
    decreases |p|
  {
    if p == [] {
      assert p + q == q;
    } else {
      assert (p + q)[0] == p[0];
      assert (p + q)[1..] == p[1..] + q;
      match Select(j, p[0])
      case None =>
      case Some(child) => LookupAppend(child, p[1..], q);
    }
  }

  /** The const accessor chain ending in `get<std::string>()` succeeds
      exactly when the path resolves to a string. */
  function StringAtPath(j: Json, path: seq<Step>): (r: Option<string>)
    ensures r.Some? <==> Lookup(j, path).Some? && Lookup(j, path).value.Str?
    ensures r.Some? ==> Lookup(j, path) == Some(Str(r.value))
  {
    match Lookup(j, path)
    case None => None
    case Some(v) => GetString(v)
  }
}
