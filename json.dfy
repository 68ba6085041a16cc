/**
 * The values `json.loads` hands back to main.py, with the three Python
 * behaviours the bot relies on: truthiness (`if not decision`), `dict.get`
 * and `str()` (every f-string that embeds the decision's query).
 */
module JsonValues {
  import opened Wrappers
  import opened Strings

  /** A decoded JSON document; objects keep their members in document order. */
  datatype Json =
    | JNull
    | JBool(b: bool)
    | JNumber(n: int)
    | JString(s: string)
    | JArray(elems: seq<Json>)
    | JObject(fields: seq<(string, Json)>)

  /** Python truthiness of the decoded value: `None`, `False`, `0`, `""`, `[]` and `{}` are false. */
  predicate Truthy(v: Json)
  {
    match v
    case JNull => false
    case JBool(b) => b
    case JNumber(n) => n != 0
    case JString(s) => s != ""
    case JArray(e) => e != []
    case JObject(f) => f != []
  }

  /**
   * `d.get(key)` on the dict `json.loads` builds from `fields`: a key bound
   * more than once keeps its last value.
   */
  function Get(fields: seq<(string, Json)>, key: string): (r: Option<Json>)
    ensures r == None <==> forall i :: 0 <= i < |fields| ==> fields[i].0 != key
  {
    if fields == [] then None
    else
      var last := fields[|fields| - 1];
      if last.0 == key then Some(last.1) else Get(fields[..|fields| - 1], key)
  }

  /** What `d.get(key)` finds is the value of the last member named `key`. */
  lemma {:induction false} GetFindsLastBinding(fields: seq<(string, Json)>, key: string)
    requires Get(fields, key).Some?
    ensures exists i :: 0 <= i < |fields| && fields[i] == (key, Get(fields, key).value)
                        && forall j :: i < j < |fields| ==> fields[j].0 != key
  {
    var n := |fields| - 1;
    if fields[n].0 != key {
      GetFindsLastBinding(fields[..n], key);
      var i :| 0 <= i < n && fields[..n][i] == (key, Get(fields, key).value)
                && forall j :: i < j < n ==> fields[..n][j].0 != key;
      assert fields[i] == fields[..n][i];
      assert forall j :: i < j < |fields| ==> fields[j].0 != key by {
        forall j | i < j < |fields| ensures fields[j].0 != key {
          if j < n { assert fields[j] == fields[..n][j]; }
        }
      }
    }
  }

  function DigitChar(d: nat): char
    requires d < 10
  {
    "0123456789"[d]
  }

  function Digits(n: nat): string
    decreases n
  {
    if n < 10 then [DigitChar(n)] else Digits(n / 10) + [DigitChar(n % 10)]
  }

  /** Python's `str(n)` for an integer. */
  function Decimal(n: int): string
  {
    if n < 0 then "-" + Digits(-n) else Digits(n)
  }

  /** Python's `repr()` of a decoded value (strings quoted with `'`, without escaping). */
  function Repr(v: Json): string
    decreases v, 1, 0
  {
    match v
    case JNull => "None"
    case JBool(b) => if b then "True" else "False"
    case JNumber(n) => Decimal(n)
    case JString(s) => "'" + s + "'"
    case JArray(e) => "[" + Items(e) + "]"
    case JObject(f) => "{" + Join(Members(v, 0), ", ") + "}"
  }

  /** The elements of a list, rendered and joined by `", "`. */
  function Items(e: seq<Json>): string
  {
    if e == [] then "" else if |e| == 1 then Repr(e[0]) else Repr(e[0]) + ", " + Items(e[1..])
  }

  /** Whether the `k`-th member's name was already bound by an earlier member. */
  predicate BoundBefore(fields: seq<(string, Json)>, k: nat)
    requires k < |fields|
  {
    exists j :: 0 <= j < k && fields[j].0 == fields[k].0
  }

  /** Where the last member named `key` sits, searching down from `n` to the member at `k`. */
  function LastFrom(fields: seq<(string, Json)>, key: string, k: nat, n: nat): (i: nat)
    requires k <= n < |fields| && fields[k].0 == key
    requires forall j :: n < j < |fields| ==> fields[j].0 != key
    ensures k <= i <= n && fields[i].0 == key
    ensures forall j :: i < j < |fields| ==> fields[j].0 != key
    decreases n - k
  {
    if fields[n].0 == key then n else LastFrom(fields, key, k, n - 1)
  }

  /**
   * The dict `json.loads` builds from an object, seen from the `k`-th member
   * on: a name is listed where it first appears, with the value of its last
   * member, each as `'key': value`.
   */
  function Members(obj: Json, k: nat): seq<string>
    requires obj.JObject? && k <= |obj.fields|
    decreases obj, 0, |obj.fields| - k
  {
    if k == |obj.fields| then [] else
      var key := obj.fields[k].0;
      var here := if BoundBefore(obj.fields, k) then [] else
        var i := LastFrom(obj.fields, key, k, |obj.fields| - 1);
        ["'" + key + "': " + Repr(obj.fields[i].1)];
      here + Members(obj, k + 1)
  }

  /** A name bound twice is printed once, with the value bound last. */
  lemma ReprKeepsLastBinding(key: string, first: Json, last: Json)
    ensures Repr(JObject([(key, first), (key, last)])) == "{'" + key + "': " + Repr(last) + "}"
  {
    var obj := JObject([(key, first), (key, last)]);
    assert obj.fields[0].0 == obj.fields[1].0;
    assert BoundBefore(obj.fields, 1);
    assert !BoundBefore(obj.fields, 0);
    assert Members(obj, 2) == [];
    assert Members(obj, 1) == [];
    assert LastFrom(obj.fields, key, 0, 1) == 1;
    assert Members(obj, 0) == ["'" + key + "': " + Repr(last)];
  }

  /** The last member bound to `key` holds the value `d.get(key)` finds. */
  lemma LastFromIsGet(fields: seq<(string, Json)>, key: string, k: nat)
    requires k < |fields| && fields[k].0 == key
    ensures Get(fields, key) == Some(fields[LastFrom(fields, key, k, |fields| - 1)].1)
  {
    var i := LastFrom(fields, key, k, |fields| - 1);
    GetFindsLastBinding(fields, key);
    var i' :| 0 <= i' < |fields| && fields[i'] == (key, Get(fields, key).value)
              && forall j :: i' < j < |fields| ==> fields[j].0 != key;
    assert i == i';
  }

  /** The names of the dict built from `fields`, from the `k`-th member on, where each first appears. */
  function Names(fields: seq<(string, Json)>, k: nat): seq<string>
    requires k <= |fields|
    decreases |fields| - k
  {
    if k == |fields| then []
    else (if BoundBefore(fields, k) then [] else [fields[k].0]) + Names(fields, k + 1)
  }

  /** A name bound by the `k`-th member is not listed again after it. */
  lemma {:induction false} NamesAfter(fields: seq<(string, Json)>, k: nat, n: nat)
    requires k < n <= |fields|
    ensures fields[k].0 !in Names(fields, n)
    decreases |fields| - n
  {
    if n < |fields| {
      assert fields[n].0 == fields[k].0 ==> BoundBefore(fields, n);
      NamesAfter(fields, k, n + 1);
    }
  }

  /** No name is listed twice. */
  lemma {:induction false} NamesDistinct(fields: seq<(string, Json)>, k: nat)
    requires k <= |fields|
    ensures var names := Names(fields, k);
            forall a, b :: 0 <= a < b < |names| ==> names[a] != names[b]
    decreases |fields| - k
  {
    if k < |fields| {
      NamesDistinct(fields, k + 1);
      NamesAfter(fields, k, k + 1);
    }
  }

  /** Every member's name is listed. */
  lemma {:induction false} NamesComplete(fields: seq<(string, Json)>, j: nat)
    requires j < |fields|
    ensures fields[j].0 in Names(fields, 0)
    decreases j
  {
    if BoundBefore(fields, j) {
      var i :| 0 <= i < j && fields[i].0 == fields[j].0;
      NamesComplete(fields, i);
    } else {
      NamesSuffix(fields, 0, j);
    }
  }

  lemma {:induction false} NamesSuffix(fields: seq<(string, Json)>, k: nat, n: nat)
    requires k <= n <= |fields|
    ensures forall x :: x in Names(fields, n) ==> x in Names(fields, k)
    decreases n - k
  {
    if k < n {
      NamesSuffix(fields, k + 1, n);
    }
  }

  /**
   * The dict's `repr` lists each of its names once, in order of first
   * appearance, each with the value `d.get` finds for it.
   */
  lemma {:induction false} MembersShowDict(obj: Json, k: nat)
    requires obj.JObject? && k <= |obj.fields|
    ensures var names := Names(obj.fields, k);
            && |Members(obj, k)| == |names|
            && forall m :: 0 <= m < |names| ==>
                 Get(obj.fields, names[m]).Some?
                 && Members(obj, k)[m] == "'" + names[m] + "': " + Repr(Get(obj.fields, names[m]).value)
    decreases |obj.fields| - k
  {
    if k < |obj.fields| {
      MembersShowDict(obj, k + 1);
      if !BoundBefore(obj.fields, k) {
        LastFromIsGet(obj.fields, obj.fields[k].0, k);
      }
    }
  }

  /** Python's `str()` of a decoded value, as an f-string embeds it. */
  function Str(v: Json): (r: string)
    ensures v.JString? ==> r == v.s
    ensures v == JNull ==> r == "None"
  {
    if v.JString? then v.s else Repr(v)
  }
}
