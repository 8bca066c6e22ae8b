/** What a tool may be called with, and what of its answer the model gets to see. */
module AgentTools {
  import opened Wrappers
  import opened Rules

  const MAX_STRING := 500
  const MAX_ITEMS := 50
  const MAX_ARG_STRING := 256
  const MAX_DEPTH := 4
  const ELLIPSIS: string := ['\U{2026}']

  // ---------------------------------------------------------------- bounding an observation

  /** Values tools return. Mappings keep their order; `Other` is any type JSON does not have, by its text. */
  datatype Value =
    | Nothing
    | Flag(b: bool)
    | Figure(n: real)
    | Plain(s: string)
    | Dict(entries: seq<Entry>)
    | List(items: seq<Value>)
    | Other(text: string)

  datatype Entry = Entry(key: string, value: Value)

  function Prefix(s: string, n: nat): string { if |s| <= n then s else s[..n] }

  function Take<T>(s: seq<T>, n: nat): seq<T> { if |s| <= n then s else s[..n] }

  /** Assignment into an ordered mapping: a key that is there keeps its place. */
  function Assign(entries: seq<Entry>, key: string, value: Value): seq<Entry> {
    if entries == [] then [Entry(key, value)]
    else if entries[0].key == key then [Entry(key, value)] + entries[1..]
    else [entries[0]] + Assign(entries[1..], key, value)
  }

  function BoundText(s: string): string {
    if |s| <= MAX_STRING then s else s[..MAX_STRING] + ELLIPSIS
  }

  function Bound(v: Value, depth: nat): Value
    decreases v
  {
    if depth > MAX_DEPTH then Plain(ELLIPSIS)
    else
      match v
      case Plain(s) => Plain(BoundText(s))
      case Dict(entries) => Dict(BoundEntries(Take(entries, MAX_ITEMS), depth))
      case List(items) => List(BoundItems(Take(items, MAX_ITEMS), depth))
      case Other(text) => Plain(Prefix(text, MAX_STRING))
      case _ => v
  }

  function BoundEntries(entries: seq<Entry>, depth: nat): seq<Entry>
    decreases entries
  {
    if entries == [] then []
    else
      var n := |entries| - 1;
      Assign(BoundEntries(entries[..n], depth), Prefix(entries[n].key, MAX_ARG_STRING),
          Bound(entries[n].value, depth + 1))
  }

  function BoundItems(items: seq<Value>, depth: nat): seq<Value>
    decreases items
  {
    if items == [] then [] else BoundItems(items[..|items| - 1], depth) + [Bound(items[|items| - 1], depth + 1)]
  }

  predicate Distinct(entries: seq<Entry>) {
    entries == [] || (!Keyed(entries[..|entries| - 1], entries[|entries| - 1].key)
        && Distinct(entries[..|entries| - 1]))
  }

  predicate Keyed(entries: seq<Entry>, key: string) {
    exists i :: 0 <= i < |entries| && entries[i].key == key
  }

  /** Values within every bound: short text or text already cut, few items, short distinct keys, shallow,
      and nothing that is not JSON. */
  predicate Within(v: Value, depth: nat)
    decreases v
  {
    if depth > MAX_DEPTH then v == Plain(ELLIPSIS)
    else
      match v
      case Plain(s) => |s| <= MAX_STRING || (|s| == MAX_STRING + 1 && s[MAX_STRING..] == ELLIPSIS)
      case Dict(entries) => |entries| <= MAX_ITEMS && Distinct(entries) && EntriesWithin(entries, depth)
      case List(items) => |items| <= MAX_ITEMS && ItemsWithin(items, depth)
      case Other(_) => false
      case _ => true
  }

  predicate EntriesWithin(entries: seq<Entry>, depth: nat)
    decreases entries
  {
    entries == [] ||
    (var n := |entries| - 1;
     |entries[n].key| <= MAX_ARG_STRING && Within(entries[n].value, depth + 1) && EntriesWithin(entries[..n], depth))
  }

  predicate ItemsWithin(items: seq<Value>, depth: nat)
    decreases items
  {
    items == [] || (Within(items[|items| - 1], depth + 1) && ItemsWithin(items[..|items| - 1], depth))
  }

  // ---------------------------------------------------------------- facts about ordered mappings

  lemma {:induction false} AssignNew(entries: seq<Entry>, key: string, value: Value)
    requires !Keyed(entries, key)
    ensures Assign(entries, key, value) == entries + [Entry(key, value)]
  {
    if entries != [] {
      assert entries[0].key != key;
      assert forall i :: 0 <= i < |entries[1..]| ==> entries[1..][i] == entries[i + 1];
      AssignNew(entries[1..], key, value);
    }
  }

  lemma {:induction false} AssignOld(entries: seq<Entry>, key: string, value: Value)
    requires Keyed(entries, key)
    ensures exists i :: 0 <= i < |entries| && entries[i].key == key
                        && Assign(entries, key, value) == entries[i := Entry(key, value)]
  {
    if entries[0].key == key {
      assert [Entry(key, value)] + entries[1..] == entries[0 := Entry(key, value)];
    } else {
      var k :| 0 <= k < |entries| && entries[k].key == key;
      assert entries[1..][k - 1].key == key;
      AssignOld(entries[1..], key, value);
      var i :| 0 <= i < |entries[1..]| && entries[1..][i].key == key
               && Assign(entries[1..], key, value) == entries[1..][i := Entry(key, value)];
      assert [entries[0]] + entries[1..][i := Entry(key, value)] == entries[i + 1 := Entry(key, value)];
    }
  }

  lemma {:induction false} UpdateKeepsDistinct(entries: seq<Entry>, i: nat, value: Value)
    requires Distinct(entries) && i < |entries|
    ensures Distinct(entries[i := Entry(entries[i].key, value)])
  {
    var n := |entries| - 1;
    var next := entries[i := Entry(entries[i].key, value)];
    if i == n {
      assert next[..n] == entries[..n];
    } else {
      assert next[..n] == entries[..n][i := Entry(entries[i].key, value)];
      UpdateKeepsDistinct(entries[..n], i, value);
      assert forall j :: 0 <= j < n ==> next[..n][j].key == entries[..n][j].key;
    }
  }

  lemma {:induction false} UpdateKeepsWithin(entries: seq<Entry>, i: nat, value: Value, depth: nat)
    requires EntriesWithin(entries, depth) && i < |entries| && Within(value, depth + 1)
    ensures EntriesWithin(entries[i := Entry(entries[i].key, value)], depth)
  {
    var n := |entries| - 1;
    var next := entries[i := Entry(entries[i].key, value)];
    if i == n {
      assert next[..n] == entries[..n];
      EntryAt(entries, i, depth);
    } else {
      assert next[..n] == entries[..n][i := Entry(entries[i].key, value)];
      UpdateKeepsWithin(entries[..n], i, value, depth);
    }
  }

  lemma {:induction false} EntryAt(entries: seq<Entry>, i: nat, depth: nat)
    requires EntriesWithin(entries, depth) && i < |entries|
    ensures |entries[i].key| <= MAX_ARG_STRING && Within(entries[i].value, depth + 1)
  {
    if i < |entries| - 1 { EntryAt(entries[..|entries| - 1], i, depth); }
  }

  lemma AssignKeepsBounds(entries: seq<Entry>, key: string, value: Value, depth: nat)
    requires Distinct(entries) && EntriesWithin(entries, depth)
    requires |key| <= MAX_ARG_STRING && Within(value, depth + 1)
    ensures var next := Assign(entries, key, value);
            |next| <= |entries| + 1 && Distinct(next) && EntriesWithin(next, depth)
  {
    if Keyed(entries, key) {
      AssignOld(entries, key, value);
      var i :| 0 <= i < |entries| && entries[i].key == key
               && Assign(entries, key, value) == entries[i := Entry(key, value)];
      UpdateKeepsDistinct(entries, i, value);
      UpdateKeepsWithin(entries, i, value, depth);
    } else {
      AssignNew(entries, key, value);
      assert (entries + [Entry(key, value)])[..|entries|] == entries;
    }
  }

  // ---------------------------------------------------------------- bounding bounds, and only that

  /** Whatever a tool returns, what is shown is within every bound. */
  lemma {:induction false} BoundIsWithin(v: Value, depth: nat)
    ensures Within(Bound(v, depth), depth)
    decreases v
  {
    if depth <= MAX_DEPTH {
      match v
      case Dict(entries) => EntriesBounded(Take(entries, MAX_ITEMS), depth);
      case List(items) => ItemsBounded(Take(items, MAX_ITEMS), depth);
      case Plain(s) =>
        if |s| > MAX_STRING { assert (s[..MAX_STRING] + ELLIPSIS)[MAX_STRING..] == ELLIPSIS; }
      case _ =>
    }
  }

  lemma {:induction false} EntriesBounded(entries: seq<Entry>, depth: nat)
    ensures var out := BoundEntries(entries, depth);
            |out| <= |entries| && Distinct(out) && EntriesWithin(out, depth)
    decreases entries
  {
    if entries != [] {
      var n := |entries| - 1;
      EntriesBounded(entries[..n], depth);
      BoundIsWithin(entries[n].value, depth + 1);
      AssignKeepsBounds(BoundEntries(entries[..n], depth), Prefix(entries[n].key, MAX_ARG_STRING),
                        Bound(entries[n].value, depth + 1), depth);
    }
  }

  lemma {:induction false} ItemsBounded(items: seq<Value>, depth: nat)
    ensures |BoundItems(items, depth)| == |items| && ItemsWithin(BoundItems(items, depth), depth)
    decreases items
  {
    if items != [] {
      var n := |items| - 1;
      ItemsBounded(items[..n], depth);
      BoundIsWithin(items[n], depth + 1);
      assert BoundItems(items, depth)[..n] == BoundItems(items[..n], depth);
    }
  }

  /** Values within bounds pass through untouched. */
  lemma {:induction false} WithinIsKept(v: Value, depth: nat)
    requires Within(v, depth)
    ensures Bound(v, depth) == v
    decreases v
  {
    if depth <= MAX_DEPTH {
      match v
      case Dict(entries) => EntriesKept(entries, depth);
      case List(items) => ItemsKept(items, depth);
      case Plain(s) =>
        if |s| > MAX_STRING { assert s == s[..MAX_STRING] + s[MAX_STRING..]; }
      case _ =>
    }
  }

  lemma {:induction false} EntriesKept(entries: seq<Entry>, depth: nat)
    requires Distinct(entries) && EntriesWithin(entries, depth)
    ensures BoundEntries(entries, depth) == entries
    decreases entries
  {
    if entries != [] {
      var n := |entries| - 1;
      EntriesKept(entries[..n], depth);
      WithinIsKept(entries[n].value, depth + 1);
      AssignNew(entries[..n], entries[n].key, entries[n].value);
      assert BoundEntries(entries, depth) == Assign(entries[..n], entries[n].key, entries[n].value);
      assert Entry(entries[n].key, entries[n].value) == entries[n];
      assert entries == entries[..n] + [entries[n]];
    }
  }

  lemma {:induction false} ItemsKept(items: seq<Value>, depth: nat)
    requires ItemsWithin(items, depth)
    ensures BoundItems(items, depth) == items
    decreases items
  {
    if items != [] {
      var n := |items| - 1;
      ItemsKept(items[..n], depth);
      WithinIsKept(items[n], depth + 1);
      assert items == items[..n] + [items[n]];
    }
  }

  /** Bounding changes exactly the values out of bounds, and bounding again changes nothing. */
  lemma BoundIsExact(v: Value, depth: nat)
    ensures Bound(v, depth) == v <==> Within(v, depth)
    ensures Bound(Bound(v, depth), depth) == Bound(v, depth)
  {
    BoundIsWithin(v, depth);
    WithinIsKept(Bound(v, depth), depth);
    if Within(v, depth) { WithinIsKept(v, depth); }
  }

  function Lookup(entries: seq<Entry>, key: string): Option<Value> {
    if entries == [] then None
    else if entries[0].key == key then Some(entries[0].value)
    else Lookup(entries[1..], key)
  }

  /** The value of the last entry whose key, cut to length, is `key`. */
  function LastCutTo(entries: seq<Entry>, key: string): Option<Value> {
    if entries == [] then None
    else
      var last := entries[|entries| - 1];
      if Prefix(last.key, MAX_ARG_STRING) == key then Some(last.value) else LastCutTo(entries[..|entries| - 1], key)
  }

  lemma {:induction false} LookupAssigned(entries: seq<Entry>, key: string, value: Value, k: string)
    ensures Lookup(Assign(entries, key, value), k) == if k == key then Some(value) else Lookup(entries, k)
  {
    if entries == [] {
      assert [Entry(key, value)][1..] == [];
    } else if entries[0].key == key {
      assert ([Entry(key, value)] + entries[1..])[1..] == entries[1..];
    } else {
      LookupAssigned(entries[1..], key, value, k);
      assert ([entries[0]] + Assign(entries[1..], key, value))[1..] == Assign(entries[1..], key, value);
    }
  }

  /** Where keys are distinct, every entry is found under its own. */
  lemma {:induction false} EachIsLookedUp(entries: seq<Entry>)
    requires forall i, j :: 0 <= i < j < |entries| ==> entries[i].key != entries[j].key
    ensures forall i :: 0 <= i < |entries| ==> Lookup(entries, entries[i].key) == Some(entries[i].value)
  {
    if entries != [] {
      EachIsLookedUp(entries[1..]);
      forall i | 0 <= i < |entries| ensures Lookup(entries, entries[i].key) == Some(entries[i].value) {
        if i > 0 { assert entries[i] == entries[1..][i - 1]; }
      }
    }
  }

  /** A bounded mapping holds, under each shortened key, the bounded value last stored under a key that
      shortens to it; and no other key. */
  lemma {:induction false} BoundedLookup(entries: seq<Entry>, depth: nat, key: string)
    ensures Lookup(BoundEntries(entries, depth), key) ==
            match LastCutTo(entries, key) case None => None case Some(v) => Some(Bound(v, depth + 1))
  {
    if entries != [] {
      var n := |entries| - 1;
      BoundedLookup(entries[..n], depth, key);
      LookupAssigned(BoundEntries(entries[..n], depth), Prefix(entries[n].key, MAX_ARG_STRING),
                     Bound(entries[n].value, depth + 1), key);
    }
  }

  /** A bounded list holds the bounded first items, in order. */
  lemma {:induction false} BoundedItem(items: seq<Value>, depth: nat, i: nat)
    requires i < |items|
    ensures |BoundItems(items, depth)| == |items| && BoundItems(items, depth)[i] == Bound(items[i], depth + 1)
  {
    ItemsBounded(items, depth);
    if i < |items| - 1 {
      BoundedItem(items[..|items| - 1], depth, i);
    } else {
      ItemsBounded(items[..i], depth);
    }
  }

  // ---------------------------------------------------------------- validating arguments

  datatype ParamType = StringParam | NumberParam | BoolParam

  datatype ToolParam = ToolParam(kind: ParamType, required: bool)

  type Args = map<string, Json>

  predicate IsArgument(value: Json, t: ParamType) {
    match t
    case NumberParam => value.Num?
    case StringParam => value.Str? && |value.s| <= MAX_ARG_STRING
    case BoolParam => value.Bool?
  }

  /** None where the call raises. */
  method ValidateArgs(params: map<string, ToolParam>, raw: Args) returns (result: Option<Args>)
    ensures result == Validated(params, raw)
  {
    if !(raw.Keys <= params.Keys) { return None; }
    var names := params.Keys;
    var typed: Args := map[];
    while names != {}
      invariant names <= params.Keys
      invariant forall p :: p in params && p !in names ==>
        (p in raw ==> IsArgument(raw[p], params[p].kind)) && (p !in raw ==> !params[p].required)
      invariant typed == map p | p in raw && p !in names :: raw[p]
      decreases names
    {
      var p :| p in names;
      if p !in raw {
        if params[p].required { return None; }
      } else {
        if !IsArgument(raw[p], params[p].kind) { return None; }
        typed := typed[p := raw[p]];
      }
      names := names - {p};
    }
    assert typed == raw;
    return Some(typed);
  }

  /** Accepted as they are, or not at all. */
  function Validated(params: map<string, ToolParam>, raw: Args): Option<Args> {
    if && raw.Keys <= params.Keys
       && (forall p :: p in params && params[p].required ==> p in raw)
       && (forall p :: p in raw ==> IsArgument(raw[p], params[p].kind))
    then Some(raw) else None
  }

  /** Accepted exactly if every argument is a declared parameter of its type and no required one is missing. */
  lemma ValidatedExactly(params: map<string, ToolParam>, raw: Args)
    ensures Validated(params, raw).Some? <==>
            forall name ::
              && (name in raw ==> name in params && IsArgument(raw[name], params[name].kind))
              && (name in params && params[name].required ==> name in raw)
    ensures Validated(params, raw).Some? ==> Validated(params, raw) == Some(raw)
  {
  }
}
