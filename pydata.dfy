/** The Python values the adapters receive and manipulate: decoded JSON, and the
    ordered dictionary `subject -> [grade, units]` of matriculation scores, which some
    adapters rename and consume in place. */
module PyData {
  import opened Wrappers
  import opened Text

  /** A decoded JSON value of the request body. */
  datatype Json = JNull | JBool(b: bool) | JInt(i: int) | JStr(s: string)
                | JList(items: seq<Json>) | JObj(members: map<string, Json>)

  /** Python truthiness of a decoded value (`if x:`). */
  predicate Truthy(j: Json) {
    match j
    case JNull => false
    case JBool(b) => b
    case JInt(i) => i != 0
    case JStr(s) => s != ""
    case JList(xs) => xs != []
    case JObj(m) => m != map[]
  }

  /** Lists and dicts are unhashable: using one as a dictionary key raises `TypeError`. */
  predicate Hashable(j: Json) {
    !j.JList? && !j.JObj?
  }

  /** `str(x)` (and f-string interpolation) of a hashable value. */
  function ScalarText(j: Json): string
    requires Hashable(j)
  {
    match j
    case JNull => "None"
    case JBool(b) => if b then "True" else "False"
    case JInt(i) => IntToString(i)
    case JStr(s) => s
  }

  /** `int(x)`; `None` stands for the `ValueError` or `TypeError` Python raises. */
  function PyInt(j: Json): Option<int> {
    match j
    case JInt(i) => Some(i)
    case JBool(b) => Some(if b then 1 else 0)
    case JStr(s) => ParseInt(s)
    case _ => None
  }

  /** The exception `int(x)` raises when `PyInt(x)` is `None`: `ValueError` for a
      string that is no integer, `TypeError` for `None`, a list or an object. */
  function IntError(j: Json): (e: string)
    ensures e == "ValueError" || e == "TypeError"
    ensures e == "ValueError" <==> j.JStr?
  {
    if j.JStr? then "ValueError" else "TypeError"
  }

  /** `len(x)`; `None` stands for the `TypeError` of a value without a length. */
  function PyLen(j: Json): Option<nat> {
    match j
    case JStr(s) => Some(|s|)
    case JList(xs) => Some(|xs|)
    case JObj(m) => Some(|m|)
    case _ => None
  }

  /** One `[grade, units]` value of `highschool_scores`. */
  datatype Grade = Grade(grade: Json, units: Json)

  // ---------------------------------------------------------------------------
  // Ordered dictionaries: insertion order is iteration order, `d[k] = v` keeps the
  // position of an existing key and appends a new one, `pop`/`del` removes a key.

  type Dict<V> = seq<(string, V)>

  function KeysOf<V>(d: Dict<V>): (ks: seq<string>)
    ensures |ks| == |d| && forall i :: 0 <= i < |d| ==> ks[i] == d[i].0
    decreases |d|
  {
    if d == [] then [] else [d[0].0] + KeysOf(d[1..])
  }

  function ValuesOf<V>(d: Dict<V>): (vs: seq<V>)
    ensures |vs| == |d| && forall i :: 0 <= i < |d| ==> vs[i] == d[i].1
    decreases |d|
  {
    if d == [] then [] else [d[0].1] + ValuesOf(d[1..])
  }

  predicate DistinctKeys<V>(d: Dict<V>) {
    forall i, j :: 0 <= i < j < |d| ==> d[i].0 != d[j].0
  }

  predicate Distinct(s: seq<string>) {
    forall i, j :: 0 <= i < j < |s| ==> s[i] != s[j]
  }

  /** `d.get(k)` */
  function Get<V>(d: Dict<V>, k: string): Option<V>
    decreases |d|
  {
    if d == [] then None else if d[0].0 == k then Some(d[0].1) else Get(d[1..], k)
  }

  /** `d[k] = v` */
  function Put<V>(d: Dict<V>, k: string, v: V): Dict<V>
    decreases |d|
  {
    if d == [] then [(k, v)]
    else if d[0].0 == k then [(k, v)] + d[1..]
    else [d[0]] + Put(d[1..], k, v)
  }

  /** `del d[k]` (or `d.pop(k)` with its value dropped) */
  function Remove<V>(d: Dict<V>, k: string): Dict<V>
    decreases |d|
  {
    if d == [] then []
    else if d[0].0 == k then d[1..]
    else [d[0]] + Remove(d[1..], k)
  }

  lemma {:induction false} GetSomeIffKey<V>(d: Dict<V>, k: string)
    ensures Get(d, k).Some? <==> k in KeysOf(d)
    decreases |d|
  {
    if d != [] && d[0].0 != k {
      GetSomeIffKey(d[1..], k);
      assert KeysOf(d) == [d[0].0] + KeysOf(d[1..]);
    }
  }

  lemma {:induction false} GetAt<V>(d: Dict<V>, i: nat)
    requires DistinctKeys(d) && i < |d|
    ensures Get(d, d[i].0) == Some(d[i].1)
    decreases i
  {
    if i > 0 {
      GetAt(d[1..], i - 1);
    }
  }

  lemma {:induction false} GetPut<V>(d: Dict<V>, k: string, v: V, x: string)
    ensures Get(Put(d, k, v), x) == if x == k then Some(v) else Get(d, x)
    decreases |d|
  {
    if d != [] && d[0].0 != k {
      GetPut(d[1..], k, v, x);
    }
  }

  lemma {:induction false} GetRemove<V>(d: Dict<V>, k: string, x: string)
    requires DistinctKeys(d)
    ensures Get(Remove(d, k), x) == if x == k then None else Get(d, x)
    decreases |d|
  {
    if d != [] {
      if d[0].0 == k {
        if x == k {
          GetSomeIffKey(d[1..], k);
        }
      } else {
        GetRemove(d[1..], k, x);
      }
    }
  }

  /** A key missing from `a` is looked up in `b`. */
  lemma GetAppend<V>(a: Dict<V>, b: Dict<V>, k: string)
    requires k !in KeysOf(a)
    ensures Get(a + b, k) == Get(b, k)
  {
    assert forall i :: 0 <= i < |a| ==> KeysOf(a)[i] == a[i].0;
    GetAppendMissing(a, b, k);
  }

  lemma {:induction false} GetAppendMissing<V>(a: Dict<V>, b: Dict<V>, k: string)
    requires forall i :: 0 <= i < |a| ==> a[i].0 != k
    ensures Get(a + b, k) == Get(b, k)
    decreases |a|
  {
    if a == [] {
      assert a + b == b;
    } else {
      var ab := a + b;
      assert ab[0] == a[0] && ab[1..] == a[1..] + b;
      assert forall i :: 0 <= i < |a[1..]| ==> a[1..][i] == a[i + 1];
      GetAppendMissing(a[1..], b, k);
    }
  }

  /** Removing a key missing from `a` leaves `a` alone. */
  lemma RemoveAppend<V>(a: Dict<V>, b: Dict<V>, k: string)
    requires k !in KeysOf(a)
    ensures Remove(a + b, k) == a + Remove(b, k)
  {
    assert forall i :: 0 <= i < |a| ==> KeysOf(a)[i] == a[i].0;
    RemoveAppendMissing(a, b, k);
  }

  lemma {:induction false} RemoveAppendMissing<V>(a: Dict<V>, b: Dict<V>, k: string)
    requires forall i :: 0 <= i < |a| ==> a[i].0 != k
    ensures Remove(a + b, k) == a + Remove(b, k)
    decreases |a|
  {
    if a == [] {
      assert a + b == b;
    } else {
      var ab := a + b;
      assert ab[0] == a[0] && ab[1..] == a[1..] + b;
      assert forall i :: 0 <= i < |a[1..]| ==> a[1..][i] == a[i + 1];
      RemoveAppendMissing(a[1..], b, k);
      assert [a[0]] + (a[1..] + Remove(b, k)) == a + Remove(b, k);
    }
  }

  lemma {:induction false} KeysOfPut<V>(d: Dict<V>, k: string, v: V)
    ensures KeysOf(Put(d, k, v)) == if k in KeysOf(d) then KeysOf(d) else KeysOf(d) + [k]
    decreases |d|
  {
    if d != [] && d[0].0 != k {
      KeysOfPut(d[1..], k, v);
      assert KeysOf(d) == [d[0].0] + KeysOf(d[1..]);
    }
  }

  lemma {:induction false} KeysOfRemove<V>(d: Dict<V>, k: string)
    ensures forall x :: x in KeysOf(Remove(d, k)) ==> x in KeysOf(d)
    ensures |Remove(d, k)| == if k in KeysOf(d) then |d| - 1 else |d|
    decreases |d|
  {
    if d != [] && d[0].0 != k {
      KeysOfRemove(d[1..], k);
      assert KeysOf(d) == [d[0].0] + KeysOf(d[1..]);
    }
  }

  lemma {:induction false} DistinctPut<V>(d: Dict<V>, k: string, v: V)
    requires DistinctKeys(d)
    ensures DistinctKeys(Put(d, k, v))
  {
    KeysOfPut(d, k, v);
    var r := Put(d, k, v);
    forall i, j | 0 <= i < j < |r| ensures r[i].0 != r[j].0 {
      assert KeysOf(r)[i] == r[i].0 && KeysOf(r)[j] == r[j].0;
      if j < |d| {
        assert KeysOf(d)[i] == d[i].0 && KeysOf(d)[j] == d[j].0;
      }
    }
  }

  lemma {:induction false} DistinctRemove<V>(d: Dict<V>, k: string)
    requires DistinctKeys(d)
    ensures DistinctKeys(Remove(d, k))
    decreases |d|
  {
    if d != [] && d[0].0 != k {
      DistinctRemove(d[1..], k);
      KeysOfRemove(d[1..], k);
      var r := Remove(d, k);
      assert d[0].0 !in KeysOf(d[1..]) by {
        forall t | 0 <= t < |d[1..]| ensures KeysOf(d[1..])[t] != d[0].0 {
          assert d[1..][t] == d[t + 1];
        }
      }
      forall j | 1 <= j < |r| ensures r[0].0 != r[j].0 {
        assert r[j].0 == KeysOf(Remove(d[1..], k))[j - 1];
        assert r[j].0 in KeysOf(Remove(d[1..], k));
      }
    }
  }

  lemma {:induction false} DistinctKeysOf<V>(d: Dict<V>)
    requires DistinctKeys(d)
    ensures Distinct(KeysOf(d))
  {
  }

  /** `d.pop(k)` removes exactly the value `Get(d, k)` from the multiset of values. */
  lemma {:induction false} ValuesOfRemove<V>(d: Dict<V>, k: string)
    requires Get(d, k).Some?
    ensures multiset(ValuesOf(Remove(d, k))) + multiset{Get(d, k).value} == multiset(ValuesOf(d))
    decreases |d|
  {
    assert ValuesOf(d) == [d[0].1] + ValuesOf(d[1..]);
    if d[0].0 != k {
      ValuesOfRemove(d[1..], k);
      assert ValuesOf(Remove(d, k)) == [d[0].1] + ValuesOf(Remove(d[1..], k));
    }
  }

  /** `d[k] = v` adds `v` and no other value. */
  lemma {:induction false} ValuesOfPut<V>(d: Dict<V>, k: string, v: V)
    ensures multiset(ValuesOf(Put(d, k, v))) <= multiset(ValuesOf(d)) + multiset{v}
    decreases |d|
  {
    if d != [] {
      var rest := multiset(ValuesOf(d[1..]));
      assert ValuesOf(d) == [d[0].1] + ValuesOf(d[1..]);
      if d[0].0 == k {
        assert ValuesOf(Put(d, k, v)) == [v] + ValuesOf(d[1..]);
      } else {
        ValuesOfPut(d[1..], k, v);
        assert ValuesOf(Put(d, k, v)) == [d[0].1] + ValuesOf(Put(d[1..], k, v));
      }
    }
  }

  lemma {:induction false} GetInValues<V>(d: Dict<V>, k: string)
    requires Get(d, k).Some?
    ensures Get(d, k).value in multiset(ValuesOf(d))
    decreases |d|
  {
    assert ValuesOf(d) == [d[0].1] + ValuesOf(d[1..]);
    if d[0].0 != k {
      GetInValues(d[1..], k);
    }
  }

  // ---------------------------------------------------------------------------
  // Renaming keys through a table, as `for s in d.copy(): if s in T: d[T[s]] = d.pop(s)`

  /** One iteration of the renaming loop, for the snapshot key `s`. */
  function RenameStep<V>(d: Dict<V>, s: string, table: map<string, string>): Dict<V> {
    if s in table && Get(d, s).Some? then Put(Remove(d, s), table[s], Get(d, s).value) else d
  }

  function RenameAll<V>(d: Dict<V>, ks: seq<string>, table: map<string, string>): Dict<V>
    decreases |ks|
  {
    if ks == [] then d else RenameAll(RenameStep(d, ks[0], table), ks[1..], table)
  }

  /** The dictionary after the whole loop: the keys are visited in the order of the
      snapshot taken before the loop. */
  function Renamed<V>(d: Dict<V>, table: map<string, string>): Dict<V> {
    RenameAll(d, KeysOf(d), table)
  }

  /** No site name is itself a caller name the table renames. */
  ghost predicate NoChains(table: map<string, string>) {
    forall s :: s in table ==> table[s] !in table
  }

  /** No two caller names share a site name. */
  ghost predicate InjectiveTable(table: map<string, string>) {
    forall s, t :: s in table && t in table && s != t ==> table[s] != table[t]
  }

  /** The first key of `ks` that `table` renames to `x`. */
  function RenameSource(table: map<string, string>, ks: seq<string>, x: string): (r: Option<string>)
    ensures r.Some? ==> r.value in ks && r.value in table && table[r.value] == x
    decreases |ks|
  {
    if ks == [] then None
    else if ks[0] in table && table[ks[0]] == x then Some(ks[0])
    else RenameSource(table, ks[1..], x)
  }

  lemma {:induction false} RenameSourceNone(table: map<string, string>, ks: seq<string>, x: string)
    requires forall s :: s in ks && s in table ==> table[s] != x
    ensures RenameSource(table, ks, x) == None
    decreases |ks|
  {
    if ks != [] {
      RenameSourceNone(table, ks[1..], x);
    }
  }

  lemma {:induction false} RenameStepDistinct<V>(d: Dict<V>, s: string, table: map<string, string>)
    requires DistinctKeys(d)
    ensures DistinctKeys(RenameStep(d, s, table))
  {
    if s in table && Get(d, s).Some? {
      DistinctRemove(d, s);
      DistinctPut(Remove(d, s), table[s], Get(d, s).value);
    }
  }

  lemma {:induction false} RenameAllDistinct<V>(d: Dict<V>, ks: seq<string>, table: map<string, string>)
    requires DistinctKeys(d)
    ensures DistinctKeys(RenameAll(d, ks, table))
    decreases |ks|
  {
    if ks != [] {
      RenameStepDistinct(d, ks[0], table);
      RenameAllDistinct(RenameStep(d, ks[0], table), ks[1..], table);
    }
  }

  /** What the renaming does to a single key `x`, for a table without chains or
      collisions: a renamed caller name disappears, a site name receives the value of
      the caller name renamed to it, and every other key keeps its value. */
  lemma {:induction false} RenameAllGet<V>(d: Dict<V>, ks: seq<string>, table: map<string, string>, x: string)
    requires DistinctKeys(d) && Distinct(ks)
    requires NoChains(table) && InjectiveTable(table)
    ensures Get(RenameAll(d, ks, table), x) ==
      if x in table && x in ks then None
      else if RenameSource(table, ks, x).Some? && Get(d, RenameSource(table, ks, x).value).Some?
      then Get(d, RenameSource(table, ks, x).value)
      else Get(d, x)
    decreases |ks|
  {
    if ks != [] {
      var s0, rest := ks[0], ks[1..];
      var d1 := RenameStep(d, s0, table);
      RenameStepDistinct(d, s0, table);
      assert Distinct(rest);
      RenameAllGet(d1, rest, table, x);
      assert s0 !in rest;
      assert forall y :: y in ks <==> y == s0 || y in rest;
      if s0 in table && Get(d, s0).Some? {
        var t0 := table[s0];
        DistinctRemove(d, s0);
        forall y ensures Get(d1, y) == if y == t0 then Get(d, s0) else if y == s0 then None else Get(d, y) {
          GetPut(Remove(d, s0), t0, Get(d, s0).value, y);
          GetRemove(d, s0, y);
        }
        var src := RenameSource(table, rest, x);
        if src.Some? {
          assert src.value != s0 && src.value != t0;
          assert table[src.value] != table[s0];
        }
      } else {
        assert d1 == d;
        var src := RenameSource(table, rest, x);
        if s0 in table && src.Some? {
          assert src.value != s0;
          assert table[src.value] != table[s0];
        }
      }
    }
  }

  /** No value is invented or duplicated by the renaming: the values after it are a
      sub-multiset of the values before. */
  lemma {:induction false} RenameAllValues<V>(d: Dict<V>, ks: seq<string>, table: map<string, string>)
    requires DistinctKeys(d)
    ensures multiset(ValuesOf(RenameAll(d, ks, table))) <= multiset(ValuesOf(d))
    decreases |ks|
  {
    if ks != [] {
      var s0 := ks[0];
      var d1 := RenameStep(d, s0, table);
      if s0 in table && Get(d, s0).Some? {
        var v := Get(d, s0).value;
        var r := Remove(d, s0);
        ValuesOfRemove(d, s0);
        ValuesOfPut(r, table[s0], v);
        GetInValues(d, s0);
        assert multiset(ValuesOf(d1)) <= multiset(ValuesOf(d));
      }
      RenameStepDistinct(d, s0, table);
      RenameAllValues(d1, ks[1..], table);
    }
  }

  // ---------------------------------------------------------------------------
  // Mutable state shared by reference between a request and an adapter

  /** A `highschool_scores` dictionary object: an adapter that renames or consumes its
      keys changes the object the caller holds. */
  class ScoreSheet {
    var entries: Dict<Grade>

    ghost predicate Valid()
      reads this
    {
      DistinctKeys(entries)
    }

    constructor (init: Dict<Grade>)
      requires DistinctKeys(init)
      ensures Valid() && entries == init
    {
      entries := init;
    }

    /** `d.pop(k)` on a key that is present. */
    method Pop(k: string) returns (v: Grade)
      requires Valid() && Get(entries, k).Some?
      modifies this
      ensures Valid()
      ensures v == Get(old(entries), k).value && entries == Remove(old(entries), k)
    {
      v := Get(entries, k).value;
      DistinctRemove(entries, k);
      entries := Remove(entries, k);
    }

    /** `d[k] = v` */
    method Store(k: string, v: Grade)
      requires Valid()
      modifies this
      ensures Valid() && entries == Put(old(entries), k, v)
    {
      DistinctPut(entries, k, v);
      entries := Put(entries, k, v);
    }

    /** `for s in d.copy(): if s in table: d[table[s]] = d.pop(s)` */
    method RenameKeys(table: map<string, string>)
      requires Valid()
      modifies this
      ensures Valid() && entries == Renamed(old(entries), table)
    {
      var ks := KeysOf(entries);
      ghost var target := Renamed(entries, table);
      KeysPresent(entries);
      var i := 0;
      while i < |ks|
        invariant 0 <= i <= |ks| && Distinct(ks)
        invariant Valid()
        invariant forall j :: i <= j < |ks| ==> Get(entries, ks[j]).Some?
        invariant RenameAll(entries, ks[i..], table) == target
      {
        RenameLoopStep(entries, table, ks, i, target);
        RenameOne(ks[i], table);
        i := i + 1;
      }
    }

    /** `if s in table: d[table[s]] = d.pop(s)` for a key that is present. */
    method RenameOne(s: string, table: map<string, string>)
      requires Valid() && Get(entries, s).Some?
      modifies this
      ensures Valid() && entries == RenameStep(old(entries), s, table)
    {
      if s in table {
        var v := Pop(s);
        Store(table[s], v);
      }
    }
  }

  /** Every key of a dictionary with distinct keys is present, once. */
  lemma KeysPresent<V>(d: Dict<V>)
    requires DistinctKeys(d)
    ensures Distinct(KeysOf(d))
    ensures forall j :: 0 <= j < |KeysOf(d)| ==> Get(d, KeysOf(d)[j]).Some?
  {
    DistinctKeysOf(d);
    forall j | 0 <= j < |KeysOf(d)| ensures Get(d, KeysOf(d)[j]).Some? {
      GetSomeIffKey(d, KeysOf(d)[j]);
    }
  }

  /** One turn of the renaming loop over the snapshot `ks` of the keys. */
  lemma RenameLoopStep<V>(d: Dict<V>, table: map<string, string>, ks: seq<string>, i: nat, target: Dict<V>)
    requires i < |ks| && Distinct(ks) && DistinctKeys(d)
    requires forall j :: i <= j < |ks| ==> Get(d, ks[j]).Some?
    requires RenameAll(d, ks[i..], table) == target
    ensures forall j :: i + 1 <= j < |ks| ==> Get(RenameStep(d, ks[i], table), ks[j]).Some?
    ensures RenameAll(RenameStep(d, ks[i], table), ks[i + 1..], table) == target
  {
    var s := ks[i];
    assert ks[i..] == [s] + ks[i + 1..];
    if s in table {
      forall j | i + 1 <= j < |ks| ensures Get(RenameStep(d, s, table), ks[j]).Some? {
        GetRemove(d, s, ks[j]);
        GetPut(Remove(d, s), table[s], Get(d, s).value, ks[j]);
      }
    }
  }

  /** A decoded request body. `highschool_scores` is held as its own object (`null` when
      the key is absent) because adapters change it in place. */
  class RequestData {
    var fields: map<string, Json>
    var highschoolScores: ScoreSheet?

    constructor (fields: map<string, Json>, highschoolScores: ScoreSheet?)
      ensures this.fields == fields && this.highschoolScores == highschoolScores
    {
      this.fields := fields;
      this.highschoolScores := highschoolScores;
    }
  }
}
