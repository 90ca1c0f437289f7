/**
 * JSON values (RFC 8259) as the service reads and writes them. An object is the ordered
 * list of its members, which is both how System.Text.Json exposes a parsed object and how
 * a .NET Dictionary that is only ever added to enumerates (insertion order).
 */
module Json {
  import opened Wrappers
  import opened Primitives
  import Text

  datatype Json =
    | JNull
    | JBool(b: bool)
    | JNumber(n: real)
    | JString(s: string)
    | JArray(items: seq<Json>)
    | JObject(members: seq<(string, Json)>)

  type Members = seq<(string, Json)>

  function Num(i: int): Json { JNumber(i as real) }

  /** The member names, in order. */
  function Keys(ms: Members): (ks: seq<string>)
    ensures |ks| == |ms|
    ensures forall i :: 0 <= i < |ms| ==> ks[i] == ms[i].0
  {
    if ms == [] then [] else [ms[0].0] + Keys(ms[1..])
  }

  predicate UniqueKeys(ms: Members)
  {
    Text.NoDuplicates(Keys(ms))
  }

  lemma UniqueTail(ms: Members)
    requires ms != [] && UniqueKeys(ms)
    ensures ms[0].0 !in Keys(ms[1..]) && UniqueKeys(ms[1..])
  {
    var ks, ts := Keys(ms), Keys(ms[1..]);
    assert ts == ks[1..];
    forall j | 0 <= j < |ts| ensures ts[j] != ms[0].0 {
      assert ts[j] == ks[j + 1];
    }
  }

  /**
   * The value of member `name`. When a name occurs twice the last occurrence wins, as
   * JsonElement.TryGetProperty does.
   */
  function Get(ms: Members, name: string): (r: Option<Json>)
    ensures r.Some? <==> name in Keys(ms)
    ensures r.Some? ==> (name, r.value) in ms
  {
    if ms == [] then None
    else
      var rest := Get(ms[1..], name);
      if rest.Some? then rest
      else if ms[0].0 == name then Some(ms[0].1)
      else None
  }

  /** The entry at `i` is what a lookup of its name finds when no later entry has that name. */
  lemma {:induction false} GetAt(ms: Members, i: nat)
    requires i < |ms|
    requires forall j :: i < j < |ms| ==> ms[j].0 != ms[i].0
    ensures Get(ms, ms[i].0) == Some(ms[i].1)
  {
    if i > 0 {
      GetAt(ms[1..], i - 1);
    } else {
      assert ms[i].0 !in Keys(ms[1..]) by {
        forall j | 0 <= j < |ms| - 1 ensures Keys(ms[1..])[j] != ms[i].0 {
          assert ms[1..][j] == ms[j + 1];
        }
      }
    }
  }

  /** `dict[name] = value`: replaces the value in place when the name is present, appends otherwise. */
  function Put(ms: Members, name: string, value: Json): (r: Members)
    ensures Keys(r) == if name in Keys(ms) then Keys(ms) else Keys(ms) + [name]
  {
    if ms == [] then [(name, value)]
    else if ms[0].0 == name then [(name, value)] + ms[1..]
    else [ms[0]] + Put(ms[1..], name, value)
  }

  /** Copies every entry of `entries` into `ms`, in order, as a foreach over a Dictionary does. */
  function PutAll(ms: Members, entries: Members): Members
    decreases |entries|
  {
    if entries == [] then ms else PutAll(Put(ms, entries[0].0, entries[0].1), entries[1..])
  }

  lemma {:induction false} PutKeepsUnique(ms: Members, name: string, value: Json)
    requires UniqueKeys(ms)
    ensures UniqueKeys(Put(ms, name, value))
  {
    var ks := Keys(ms);
    if name !in ks {
      var ks' := ks + [name];
      assert forall i, j :: 0 <= i < j < |ks'| ==> ks'[i] != ks'[j] by {
        forall i, j | 0 <= i < j < |ks'| ensures ks'[i] != ks'[j] {
          if j == |ks| { assert ks'[i] == ks[i] && ks[i] in ks; }
        }
      }
    }
  }

  /** After `Put`, the name maps to the new value. */
  lemma {:induction false} PutThenGet(ms: Members, name: string, value: Json)
    requires UniqueKeys(ms)
    ensures Get(Put(ms, name, value), name) == Some(value)
  {
    if ms != [] {
      var tail := ms[1..];
      UniqueTail(ms);
      if ms[0].0 == name {
        assert Put(ms, name, value)[1..] == tail;
      } else {
        PutThenGet(tail, name, value);
        assert Put(ms, name, value)[1..] == Put(tail, name, value);
      }
    }
  }

  /** `Put` leaves every other name's value as it was. */
  lemma {:induction false} PutOtherGet(ms: Members, name: string, value: Json, other: string)
    requires other != name
    ensures Get(Put(ms, name, value), other) == Get(ms, other)
  {
    if ms != [] {
      if ms[0].0 == name {
        assert Put(ms, name, value)[1..] == ms[1..];
      } else {
        PutOtherGet(ms[1..], name, value, other);
        assert Put(ms, name, value)[1..] == Put(ms[1..], name, value);
      }
    }
  }

  /** Two writes to one name: the second overwrites the first, and the position stays. */
  lemma {:induction false} PutPut(ms: Members, name: string, first: Json, second: Json)
    ensures Put(Put(ms, name, first), name, second) == Put(ms, name, second)
  {
    if ms != [] && ms[0].0 != name {
      PutPut(ms[1..], name, first, second);
      assert Put(ms, name, first)[1..] == Put(ms[1..], name, first);
    }
  }

  /** `PutAll` writes the entries front to back, so a loop that puts one entry at a time computes it. */
  lemma {:induction false} PutAllSnoc(ms: Members, entries: Members, e: (string, Json))
    ensures PutAll(ms, entries + [e]) == Put(PutAll(ms, entries), e.0, e.1)
    decreases |entries|
  {
    if entries != [] {
      assert (entries + [e])[1..] == entries[1..] + [e];
      PutAllSnoc(Put(ms, entries[0].0, entries[0].1), entries[1..], e);
    }
  }

  lemma {:induction false} PutAllKeepsUnique(ms: Members, entries: Members)
    requires UniqueKeys(ms)
    ensures UniqueKeys(PutAll(ms, entries))
    decreases |entries|
  {
    if entries != [] {
      PutKeepsUnique(ms, entries[0].0, entries[0].1);
      PutAllKeepsUnique(Put(ms, entries[0].0, entries[0].1), entries[1..]);
    }
  }

  /** A name that no entry writes keeps its value through `PutAll`. */
  lemma {:induction false} PutAllOtherGet(ms: Members, entries: Members, other: string)
    requires other !in Keys(entries)
    ensures Get(PutAll(ms, entries), other) == Get(ms, other)
    decreases |entries|
  {
    if entries != [] {
      assert Keys(entries)[0] == entries[0].0;
      assert Keys(entries[1..]) == Keys(entries)[1..];
      PutOtherGet(ms, entries[0].0, entries[0].1, other);
      PutAllOtherGet(Put(ms, entries[0].0, entries[0].1), entries[1..], other);
    }
  }

  /** Copying a dictionary with distinct names carries every value over. */
  lemma {:induction false} PutAllGet(ms: Members, entries: Members, name: string)
    requires UniqueKeys(ms) && UniqueKeys(entries)
    requires name in Keys(entries)
    ensures Get(PutAll(ms, entries), name) == Get(entries, name)
    decreases |entries|
  {
    var e := entries[0];
    var rest := entries[1..];
    UniqueTail(entries);
    PutKeepsUnique(ms, e.0, e.1);
    if e.0 == name {
      PutThenGet(ms, name, e.1);
      PutAllOtherGet(Put(ms, e.0, e.1), rest, name);
      assert Get(rest, name).None?;
    } else {
      assert name in Keys(rest) by { assert Keys(entries) == [e.0] + Keys(rest); }
      PutAllGet(Put(ms, e.0, e.1), rest, name);
    }
  }

  /** No name of `entries` already occurs in `ms`. */
  predicate FreshNames(ms: Members, entries: Members)
  {
    forall i :: 0 <= i < |entries| ==> entries[i].0 !in Keys(ms)
  }

  /** The names after `PutAll`: the old ones in place, then each new name in first-write order. */
  lemma {:induction false} PutAllKeys(ms: Members, entries: Members)
    requires UniqueKeys(entries) && FreshNames(ms, entries)
    ensures Keys(PutAll(ms, entries)) == Keys(ms) + Keys(entries)
    decreases |entries|
  {
    if entries != [] {
      var ms' := PutAllKeysStep(ms, entries);
      PutAllKeys(ms', entries[1..]);
    }
  }

  /** One step of `PutAll` on a fresh name: the name is appended and the rest stay fresh. */
  lemma PutAllKeysStep(ms: Members, entries: Members) returns (ms': Members)
    requires entries != [] && UniqueKeys(entries) && FreshNames(ms, entries)
    ensures ms' == Put(ms, entries[0].0, entries[0].1)
    ensures UniqueKeys(entries[1..]) && FreshNames(ms', entries[1..])
    ensures Keys(ms') + Keys(entries[1..]) == Keys(ms) + Keys(entries)
  {
    ms' := Put(ms, entries[0].0, entries[0].1);
    UniqueTail(entries);
    FreshAfterPut(ms, entries);
    AppendFresh(ms, entries);
  }

  lemma AppendFresh(ms: Members, entries: Members)
    requires entries != [] && entries[0].0 !in Keys(ms)
    ensures Keys(Put(ms, entries[0].0, entries[0].1)) + Keys(entries[1..]) == Keys(ms) + Keys(entries)
  {
    var name := entries[0].0;
    var a, rest := Keys(ms), Keys(entries[1..]);
    assert Keys(Put(ms, name, entries[0].1)) == a + [name];
    assert Keys(entries) == [name] + rest by { assert entries != []; }
    Regroup(a, name, rest);
  }

  lemma Regroup(a: seq<string>, name: string, rest: seq<string>)
    ensures (a + [name]) + rest == a + ([name] + rest)
  {
  }

  lemma FreshAfterPut(ms: Members, entries: Members)
    requires entries != [] && FreshNames(ms, entries)
    requires entries[0].0 !in Keys(entries[1..])
    ensures FreshNames(Put(ms, entries[0].0, entries[0].1), entries[1..])
  {
    var name := entries[0].0;
    var ks' := Keys(Put(ms, name, entries[0].1));
    assert ks' == Keys(ms) + [name];
    var rest := entries[1..];
    forall i | 0 <= i < |rest| ensures rest[i].0 !in ks' {
      assert rest[i] == entries[i + 1];
      assert rest[i].0 == Keys(rest)[i];
    }
  }

  // ------------------------------------------------- JsonElement accessors

  /** `JsonElement.TryGetProperty`: only an object may be asked. */
  function TryGetProperty(j: Json, name: string): (r: Result<Option<Json>, Exception>)
    ensures r.Failure? <==> !j.JObject?
    ensures r.Failure? ==> r.error == JsonKindMismatch
    ensures r.Success? ==> r.value == Get(j.members, name)
  {
    if j.JObject? then Success(Get(j.members, name)) else Failure(JsonKindMismatch)
  }

  /** `JsonElement.GetProperty`: a missing member raises KeyNotFoundException. */
  function GetProperty(j: Json, name: string): (r: Result<Json, Exception>)
    ensures r.Success? <==> j.JObject? && name in Keys(j.members)
    ensures r.Success? ==> Get(j.members, name) == Some(r.value)
    ensures j.JObject? && name !in Keys(j.members) ==> r == Failure(JsonPropertyMissing(name))
  {
    if !j.JObject? then Failure(JsonKindMismatch)
    else
      match Get(j.members, name)
      case Some(v) => Success(v)
      case None => Failure(JsonPropertyMissing(name))
  }

  /** `JsonElement.GetString`: a JSON null reads as a C# null. */
  function GetString(j: Json): (r: Result<Option<string>, Exception>)
    ensures r.Success? <==> j.JString? || j.JNull?
    ensures j.JString? ==> r == Success(Some(j.s))
    ensures j.JNull? ==> r == Success(None)
  {
    match j
    case JString(s) => Success(Some(s))
    case JNull => Success(None)
    case _ => Failure(JsonKindMismatch)
  }

  /** `JsonElement.GetDouble`. */
  function GetDouble(j: Json): (r: Result<real, Exception>)
    ensures r.Success? <==> j.JNumber?
    ensures j.JNumber? ==> r.value == j.n
  {
    if j.JNumber? then Success(j.n) else Failure(JsonKindMismatch)
  }

  /** `JsonElement.EnumerateArray`. */
  function EnumerateArray(j: Json): (r: Result<seq<Json>, Exception>)
    ensures r.Success? <==> j.JArray?
    ensures j.JArray? ==> r.value == j.items
    ensures r.Failure? ==> r.error == JsonKindMismatch
  {
    if j.JArray? then Success(j.items) else Failure(JsonKindMismatch)
  }
}
