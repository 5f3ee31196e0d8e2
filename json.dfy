/**
 * JSON values as the backend handles them: what `JSON.parse` produces, how
 * JavaScript judges them (truthiness, property access), how `JSON.stringify`
 * writes them and how a template literal prints them.
 * Numbers are integers in this model.
 */
module Json {
  import opened Wrappers
  import opened Strings

  datatype Json =
    | JNull
    | JBool(b: bool)
    | JNum(n: int)
    | JStr(s: string)
    | JArr(items: seq<Json>)
    | JObj(members: seq<(string, Json)>)

  /**
   * How Node's argument-type `TypeError` describes a received value that is
   * not a string, after its `. Received `.
   */
  function Received(v: Json): (r: string)
    requires !v.JStr?
    ensures r != []
    ensures v.JNum? ==> r == "type number (" + IntToString(v.n) + ")"
  {
    if v.JNull? then "null"
    else if v.JBool? then "type boolean (" + (if v.b then "true" else "false") + ")"
    else if v.JNum? then "type number (" + IntToString(v.n) + ")"
    else if v.JArr? then "an instance of Array"
    else "an instance of Object"
  }

  /** A path -> content object (generated source files, generated test files), in key order. */
  type Files = seq<(string, string)>

  /** JavaScript truthiness: null, false, 0 and "" are falsy; every array and object is truthy. */
  predicate Truthy(v: Json) {
    match v
    case JNull => false
    case JBool(b) => b
    case JNum(n) => n != 0
    case JStr(s) => s != ""
    case _ => true
  }

  /** Truthiness of a property read, where None is `undefined`. */
  predicate Present(v: Option<Json>) {
    v.Some? && Truthy(v.value)
  }

  /** The value of `key` among an object's members; a later duplicate wins, as in `JSON.parse`. */
  function Lookup(ms: seq<(string, Json)>, key: string): (r: Option<Json>)
    ensures r.None? <==> forall i :: 0 <= i < |ms| ==> ms[i].0 != key
    ensures r.Some? ==> exists i :: 0 <= i < |ms| && ms[i] == (key, r.value)
  {
    if ms == [] then None
    else if ms[|ms| - 1].0 == key then Some(ms[|ms| - 1].1)
    else
      var r := Lookup(ms[..|ms| - 1], key);
      assert forall i :: 0 <= i < |ms| - 1 ==> ms[..|ms| - 1][i] == ms[i];
      r
  }

  /** The value read is that of the last member with the key. */
  lemma {:induction false} LookupLast(ms: seq<(string, Json)>, key: string)
    ensures forall i :: 0 <= i < |ms| && ms[i].0 == key && (forall j :: i < j < |ms| ==> ms[j].0 != key) ==>
      Lookup(ms, key) == Some(ms[i].1)
  {
    if ms != [] {
      var init := ms[..|ms| - 1];
      LookupLast(init, key);
      forall i | 0 <= i < |ms| && ms[i].0 == key && (forall j :: i < j < |ms| ==> ms[j].0 != key)
        ensures Lookup(ms, key) == Some(ms[i].1)
      {
        if i < |ms| - 1 {
          assert init[i] == ms[i];
          forall j | i < j < |init| ensures init[j].0 != key {
            assert init[j] == ms[j];
          }
        }
      }
    }
  }

  /** A key written twice reads as its second value. */
  lemma LookupLastWins()
    ensures Lookup([("a", JNum(1)), ("a", JNum(2))], "a") == Some(JNum(2))
  {
  }

  // ---------------------------------------------------------------------
  // Own properties in the order JavaScript lists them

  /** 2^32 - 1: a key is an array index when it is the canonical decimal text of a smaller number. */
  const MaxIndex: nat := 4294967295

  /** The array index a property key names, if it names one: canonical decimal text below 2^32 - 1. */
  function IndexValue(k: string): (r: Option<nat>)
    ensures r.Some? ==> r.value < MaxIndex
  {
    if k != [] && AllDigits(k) && (k[0] != '0' || |k| == 1) && DigitsValue(k) < MaxIndex
    then Some(DigitsValue(k)) else None
  }

  /** An array-index key is the decimal text of its index. */
  lemma IndexValueText(k: string)
    requires IndexValue(k).Some?
    ensures k == NatToString(IndexValue(k).value)
  {
    CanonicalDigitsText(k);
  }

  /** Every number below 2^32 - 1 printed in decimal is an array index. */
  lemma IndexValueOf(n: nat)
    requires n < MaxIndex
    ensures IndexValue(NatToString(n)) == Some(n)
  {
    NatToStringCanonical(n);
  }

  predicate IsIndexKey(k: string) {
    IndexValue(k).Some?
  }

  /** A property: its key and its value. */
  type Member = (string, Json)

  /** The keys of `es`, in order. */
  function KeysOf(es: seq<Member>): (ks: seq<string>)
    ensures |ks| == |es| && forall i :: 0 <= i < |es| ==> ks[i] == es[i].0
  {
    seq(|es|, i requires 0 <= i < |es| => es[i].0)
  }

  predicate Distinct(ks: seq<string>) {
    forall i, j :: 0 <= i < j < |ks| ==> ks[i] != ks[j]
  }

  predicate DistinctKeys(es: seq<Member>) {
    Distinct(KeysOf(es))
  }

  /** The order of an object's own keys: each once, the array indices first and ascending, then the others. */
  predicate PropertyOrder(ks: seq<string>) {
    && Distinct(ks)
    && forall i, j :: 0 <= i < j < |ks| && IsIndexKey(ks[j]) ==>
         IsIndexKey(ks[i]) && IndexValue(ks[i]).value < IndexValue(ks[j]).value
  }

  predicate JsOrdered(es: seq<Member>) {
    PropertyOrder(KeysOf(es))
  }

  /** Each key once, where it first occurs. */
  function FirstKeys(ks: seq<string>): (r: seq<string>)
    ensures Distinct(r)
    ensures forall k :: k in r <==> k in ks
    ensures Distinct(ks) ==> r == ks
  {
    if ks == [] then []
    else
      var init := ks[..|ks| - 1];
      var last := ks[|ks| - 1];
      var r := FirstKeys(init);
      assert ks == init + [last];
      if last in r then r else r + [last]
  }

  /** Every key of `r` occurs in `ks` before any occurrence of each later key of `r`. */
  predicate InFirstOrder(r: seq<string>, ks: seq<string>) {
    forall i, j, p :: 0 <= i < j < |r| && 0 <= p < |ks| && ks[p] == r[j] ==> r[i] in ks[..p]
  }

  /** The keys come in the order of their first occurrence. */
  lemma {:induction false} FirstKeysOrder(ks: seq<string>)
    ensures InFirstOrder(FirstKeys(ks), ks)
  {
    if ks != [] {
      var init := ks[..|ks| - 1];
      var last := ks[|ks| - 1];
      var r0 := FirstKeys(init);
      FirstKeysOrder(init);
      var r := FirstKeys(ks);
      forall i, j, p | 0 <= i < j < |r| && 0 <= p < |ks| && ks[p] == r[j]
        ensures r[i] in ks[..p]
      {
        assert r[i] == r0[i];
        if p < |ks| - 1 {
          assert init[p] == ks[p] && init[p] in r0;
          assert j < |r0|;
          assert r[j] == r0[j];
          assert r0[i] in init[..p];
          assert init[..p] == ks[..p];
        } else {
          assert r0[i] in init;
          assert init == ks[..p];
        }
      }
    }
  }

  /** The keys that are (`index`) or are not array indices, in order. */
  function KeepKeys(ks: seq<string>, index: bool): (r: seq<string>)
    ensures |r| <= |ks|
  {
    if ks == [] then []
    else
      var init := ks[..|ks| - 1];
      var last := ks[|ks| - 1];
      var r := KeepKeys(init, index);
      if IsIndexKey(last) == index then r + [last] else r
  }

  /** The kept keys are the keys of the kind asked for. */
  lemma {:induction false} KeepKeysMembers(ks: seq<string>, index: bool)
    ensures forall k :: k in KeepKeys(ks, index) <==> k in ks && IsIndexKey(k) == index
  {
    if ks != [] {
      var init := ks[..|ks| - 1];
      assert ks == init + [ks[|ks| - 1]];
      KeepKeysMembers(init, index);
    }
  }

  /** Keeping some of distinct keys leaves them distinct. */
  lemma {:induction false} KeepKeysDistinct(ks: seq<string>, index: bool)
    requires Distinct(ks)
    ensures Distinct(KeepKeys(ks, index))
  {
    if ks != [] {
      var init := ks[..|ks| - 1];
      var last := ks[|ks| - 1];
      assert ks == init + [last];
      assert Distinct(init) by {
        forall i, j | 0 <= i < j < |init| ensures init[i] != init[j] {
          assert init[i] == ks[i] && init[j] == ks[j];
        }
      }
      KeepKeysDistinct(init, index);
      KeepKeysMembers(init, index);
      assert last !in init;
    }
  }

  /** Keeping some keys keeps their order of first occurrence. */
  lemma {:induction false} KeepKeysOrder(r: seq<string>, index: bool, ks: seq<string>)
    requires InFirstOrder(r, ks)
    ensures InFirstOrder(KeepKeys(r, index), ks)
  {
    if r != [] {
      var init := r[..|r| - 1];
      var last := r[|r| - 1];
      var k0 := KeepKeys(init, index);
      assert InFirstOrder(init, ks) by {
        forall i, j, p | 0 <= i < j < |init| && 0 <= p < |ks| && ks[p] == init[j]
          ensures init[i] in ks[..p]
        {
          assert init[i] == r[i] && init[j] == r[j];
        }
      }
      KeepKeysOrder(init, index, ks);
      KeepKeysMembers(init, index);
      var k := KeepKeys(r, index);
      forall i, j, p | 0 <= i < j < |k| && 0 <= p < |ks| && ks[p] == k[j]
        ensures k[i] in ks[..p]
      {
        assert k[i] == k0[i];
        if j == |k0| {
          assert k0[i] in init;
          var a :| 0 <= a < |init| && init[a] == k0[i];
          assert r[a] == k0[i] && ks[p] == r[|r| - 1];
        } else {
          assert k[j] == k0[j];
        }
      }
    }
  }

  /** Keys all of the kind asked for are all kept. */
  lemma {:induction false} KeepAll(ks: seq<string>, index: bool)
    requires forall i :: 0 <= i < |ks| ==> IsIndexKey(ks[i]) == index
    ensures KeepKeys(ks, index) == ks
  {
    if ks != [] {
      var init := ks[..|ks| - 1];
      assert ks == init + [ks[|ks| - 1]];
      KeepAll(init, index);
    }
  }

  predicate AllIndex(ks: seq<string>) {
    forall i :: 0 <= i < |ks| ==> IsIndexKey(ks[i])
  }

  /** Array indices in strictly ascending order. */
  predicate Ascending(ks: seq<string>)
    requires AllIndex(ks)
  {
    forall i, j :: 0 <= i < j < |ks| ==> IndexValue(ks[i]).value < IndexValue(ks[j]).value
  }

  /** The smallest of some numbers. */
  function MinOf(ns: seq<nat>): (m: nat)
    requires ns != []
    ensures m in ns && forall i :: 0 <= i < |ns| ==> m <= ns[i]
  {
    if |ns| == 1 then ns[0]
    else
      var m := MinOf(ns[1..]);
      assert forall i :: 1 <= i < |ns| ==> ns[i] == ns[1..][i - 1];
      if ns[0] < m then ns[0] else m
  }

  /** The numbers other than `m`, in order. */
  function Drop(ns: seq<nat>, m: nat): (r: seq<nat>)
    ensures forall x :: x in r <==> x in ns && x != m
    ensures m in ns ==> |r| < |ns|
    ensures m !in ns ==> r == ns
  {
    if ns == [] then []
    else
      assert ns == [ns[0]] + ns[1..];
      var rest := Drop(ns[1..], m);
      if ns[0] == m then rest else [ns[0]] + rest
  }

  /** Some numbers, each once, in ascending order. */
  function SortedOf(ns: seq<nat>): (r: seq<nat>)
    ensures forall i, j :: 0 <= i < j < |r| ==> r[i] < r[j]
    ensures forall x :: x in r <==> x in ns
    decreases |ns|
  {
    if ns == [] then []
    else
      var m := MinOf(ns);
      var rest := SortedOf(Drop(ns, m));
      assert forall x :: x in rest ==> m < x;
      AscendingCons(m, rest);
      [m] + rest
  }

  /** A number below every element of an ascending sequence keeps it ascending when put in front. */
  lemma AscendingCons(m: nat, rest: seq<nat>)
    requires forall i, j :: 0 <= i < j < |rest| ==> rest[i] < rest[j]
    requires forall x :: x in rest ==> m < x
    ensures forall i, j :: 0 <= i < j < |[m] + rest| ==> ([m] + rest)[i] < ([m] + rest)[j]
    ensures forall x :: x in [m] + rest <==> x == m || x in rest
  {
    var r := [m] + rest;
    assert forall i :: 1 <= i < |r| ==> r[i] == rest[i - 1] && r[i] in rest;
  }

  /** An ascending sequence is its own sorted form. */
  lemma {:induction false} SortedOfAscending(ns: seq<nat>)
    requires forall i, j :: 0 <= i < j < |ns| ==> ns[i] < ns[j]
    ensures SortedOf(ns) == ns
    decreases |ns|
  {
    if ns != [] {
      AscendingHead(ns);
      SortedOfAscending(ns[1..]);
      SortedOfUnfold(ns);
      assert ns == [ns[0]] + ns[1..];
    }
  }

  /** Sorting a non-empty sequence puts its least element first. */
  lemma SortedOfUnfold(ns: seq<nat>)
    requires ns != []
    ensures SortedOf(ns) == [MinOf(ns)] + SortedOf(Drop(ns, MinOf(ns)))
  {
  }

  /** The least element of an ascending sequence is its head, and dropping it leaves the tail. */
  lemma AscendingHead(ns: seq<nat>)
    requires ns != [] && forall i, j :: 0 <= i < j < |ns| ==> ns[i] < ns[j]
    ensures MinOf(ns) == ns[0]
    ensures Drop(ns, ns[0]) == ns[1..]
    ensures forall i, j :: 0 <= i < j < |ns[1..]| ==> ns[1..][i] < ns[1..][j]
  {
    var m := MinOf(ns);
    var k :| 0 <= k < |ns| && ns[k] == m;
    assert ns[0] <= ns[k];
    var tail := ns[1..];
    forall i | 0 <= i < |tail| ensures tail[i] != ns[0] {
      assert tail[i] == ns[i + 1];
    }
    assert ns == [ns[0]] + tail;
    assert forall i, j :: 0 <= i < j < |tail| ==> tail[i] == ns[i + 1] && tail[j] == ns[j + 1];
  }

  /** The values of array-index keys. */
  function ValuesOf(ks: seq<string>): (ns: seq<nat>)
    requires AllIndex(ks)
    ensures |ns| == |ks| && forall i :: 0 <= i < |ks| ==> ns[i] == IndexValue(ks[i]).value
  {
    seq(|ks|, i requires 0 <= i < |ks| => IndexValue(ks[i]).value)
  }

  /** The array-index keys among `ks`, each once, ascending. */
  function IndexKeys(ks: seq<string>): (r: seq<string>)
    ensures AllIndex(r) && Ascending(r)
    ensures forall k :: k in r <==> k in ks && IsIndexKey(k)
  {
    var p := KeepKeys(ks, true);
    KeepKeysMembers(ks, true);
    var ns := SortedOf(ValuesOf(p));
    var r := seq(|ns|, i requires 0 <= i < |ns| => NatToString(ns[i]));
    IndexTexts(p, ns, r);
    r
  }

  /** The decimal texts of the sorted index values of `p` are index keys in that order, and exactly `p`'s keys. */
  lemma IndexTexts(p: seq<string>, ns: seq<nat>, r: seq<string>)
    requires AllIndex(p) && forall x :: x in ns <==> x in ValuesOf(p)
    requires |r| == |ns| && forall i :: 0 <= i < |ns| ==> r[i] == NatToString(ns[i])
    ensures AllIndex(r) && forall i :: 0 <= i < |r| ==> IndexValue(r[i]) == Some(ns[i])
    ensures forall k :: k in r <==> k in p
  {
    var vs := ValuesOf(p);
    forall i | 0 <= i < |ns| ensures IndexValue(r[i]) == Some(ns[i]) && r[i] in p {
      assert ns[i] in vs;
      var j :| 0 <= j < |vs| && vs[j] == ns[i];
      IndexValueText(p[j]);
      IndexValueOf(ns[i]);
    }
    forall k | k in p ensures k in r {
      var j :| 0 <= j < |p| && p[j] == k;
      assert vs[j] in ns;
      var i :| 0 <= i < |ns| && ns[i] == vs[j];
      IndexValueText(k);
    }
  }

  /** In property order the array-index keys come first, ascending. */
  lemma IndexKeysOrdered(ks: seq<string>)
    requires PropertyOrder(ks)
    ensures IndexKeys(ks) == KeepKeys(ks, true)
  {
    var p := KeepKeys(ks, true);
    KeepOrdered(ks);
    var vs := ValuesOf(p);
    SortedOfAscending(vs);
  }

  /** The position of the first key that is not an array index, or the length. */
  function FirstOther(ks: seq<string>): (n: nat)
    ensures n <= |ks| && (forall i :: 0 <= i < n ==> IsIndexKey(ks[i])) && (n < |ks| ==> !IsIndexKey(ks[n]))
  {
    if ks == [] || !IsIndexKey(ks[0]) then 0
    else
      var n := FirstOther(ks[1..]);
      assert forall i :: 1 <= i <= n ==> ks[i] == ks[1..][i - 1];
      n + 1
  }

  /** Keeping keys distributes over concatenation. */
  lemma {:induction false} KeepConcat(a: seq<string>, b: seq<string>, index: bool)
    ensures KeepKeys(a + b, index) == KeepKeys(a, index) + KeepKeys(b, index)
    decreases |b|
  {
    if b == [] {
      assert a + b == a;
    } else {
      var init := b[..|b| - 1];
      assert (a + b)[..|a + b| - 1] == a + init;
      KeepConcat(a, init, index);
    }
  }

  /** Keys all of one kind keep none of the other. */
  lemma {:induction false} KeepNone(ks: seq<string>, index: bool)
    requires forall i :: 0 <= i < |ks| ==> IsIndexKey(ks[i]) != index
    ensures KeepKeys(ks, index) == []
  {
    if ks != [] {
      KeepNone(ks[..|ks| - 1], index);
    }
  }

  /** In property order, every key from the first non-index one on is not an index. */
  lemma OthersAfter(ks: seq<string>)
    requires PropertyOrder(ks)
    ensures forall i :: FirstOther(ks) <= i < |ks| ==> !IsIndexKey(ks[i])
  {
    var n := FirstOther(ks);
    forall i | n < i < |ks| ensures !IsIndexKey(ks[i]) {
      assert !IsIndexKey(ks[n]);
    }
  }

  /** Keys already in property order split into their ascending indices and the rest. */
  lemma KeepOrdered(ks: seq<string>)
    requires PropertyOrder(ks)
    ensures AllIndex(KeepKeys(ks, true)) && Ascending(KeepKeys(ks, true))
    ensures KeepKeys(ks, true) + KeepKeys(ks, false) == ks
  {
    var n := FirstOther(ks);
    OthersAfter(ks);
    SplitAt(ks, n);
  }

  /** Indices up to `n` and none after split the keys at `n`. */
  lemma {:induction false} SplitAt(ks: seq<string>, n: nat)
    requires n <= |ks|
    requires forall i :: 0 <= i < n ==> IsIndexKey(ks[i])
    requires forall i :: n <= i < |ks| ==> !IsIndexKey(ks[i])
    ensures KeepKeys(ks, true) == ks[..n] && KeepKeys(ks, false) == ks[n..]
  {
    if n == |ks| {
      assert ks[..n] == ks;
      KeepAll(ks, true);
      KeepNone(ks, false);
    } else {
      var init := ks[..|ks| - 1];
      SplitAt(init, n);
      assert init[..n] == ks[..n];
      assert ks[n..] == init[n..] + [ks[|ks| - 1]];
    }
  }

  /** The keys `Object.keys` lists for an object parsed from `ms`. */
  function PropertyKeys(ms: seq<Member>): (r: seq<string>)
    ensures PropertyOrder(r)
    ensures forall k :: k in r <==> k in KeysOf(ms)
  {
    var ks := FirstKeys(KeysOf(ms));
    var indices := IndexKeys(ks);
    var others := KeepKeys(ks, false);
    KeepKeysMembers(ks, false);
    KeepKeysDistinct(ks, false);
    var r := indices + others;
    forall i, j | 0 <= i < j < |r| ensures r[i] != r[j] {
      if j < |indices| {
      } else if i >= |indices| {
        assert r[i] == others[i - |indices|] && r[j] == others[j - |indices|];
      } else {
        assert r[i] in indices && r[j] in others;
      }
    }
    forall j | |indices| <= j < |r| ensures !IsIndexKey(r[j]) {
      assert r[j] in others;
    }
    r
  }

  /** Index keys followed by keys in first-occurrence order: the non-index keys are in that order. */
  lemma {:induction false} AfterIndicesOrder(indices: seq<string>, others: seq<string>, keys: seq<string>)
    requires AllIndex(indices) && InFirstOrder(others, keys)
    ensures var r := indices + others;
      forall i, j, p :: 0 <= i < j < |r| && !IsIndexKey(r[i]) && 0 <= p < |keys| && keys[p] == r[j] ==>
        r[i] in keys[..p]
  {
    var r := indices + others;
    assert forall m :: 0 <= m < |indices| ==> r[m] == indices[m];
    forall i, j, p | 0 <= i < j < |r| && !IsIndexKey(r[i]) && 0 <= p < |keys| && keys[p] == r[j]
      ensures r[i] in keys[..p]
    {
      assert i >= |indices|;
      assert r[i] == others[i - |indices|] && r[j] == others[j - |indices|];
    }
  }

  /**
   * The keys that are not array indices come in the order in which each
   * first occurs among the members.
   */
  lemma PropertyKeysInsertionOrder(ms: seq<Member>)
    ensures var r := PropertyKeys(ms);
      forall i, j, p :: 0 <= i < j < |r| && !IsIndexKey(r[i]) && 0 <= p < |ms| && ms[p].0 == r[j] ==>
        r[i] in KeysOf(ms)[..p]
  {
    var keys := KeysOf(ms);
    var ks := FirstKeys(keys);
    FirstKeysOrder(keys);
    KeepKeysOrder(ks, false, keys);
    AfterIndicesOrder(IndexKeys(ks), KeepKeys(ks, false), keys);
  }

  /** Keys already in property order are listed as they are. */
  lemma PropertyKeysOrdered(ms: seq<Member>)
    requires JsOrdered(ms)
    ensures PropertyKeys(ms) == KeysOf(ms)
  {
    KeepOrdered(KeysOf(ms));
    IndexKeysOrdered(KeysOf(ms));
  }

  /**
   * `Object.entries` of an object parsed from `ms`: one entry per key in
   * property order, holding the key's last value.
   */
  function Enumerated(ms: seq<Member>): (r: seq<Member>)
    ensures KeysOf(r) == PropertyKeys(ms)
    ensures forall i :: 0 <= i < |r| ==> Lookup(ms, r[i].0) == Some(r[i].1)
  {
    var ks := PropertyKeys(ms);
    forall i | 0 <= i < |ks| ensures Lookup(ms, ks[i]).Some? {
      assert ks[i] in KeysOf(ms);
    }
    seq(|ks|, i requires 0 <= i < |ks| => (ks[i], Lookup(ms, ks[i]).value))
  }

  /** Among distinct keys, reading `key` finds exactly the entry for it. */
  lemma LookupDistinct(es: seq<Member>, key: string, v: Json)
    requires DistinctKeys(es)
    ensures Lookup(es, key) == Some(v) <==> (key, v) in es
  {
    if (key, v) in es {
      var i :| 0 <= i < |es| && es[i] == (key, v);
      var r := Lookup(es, key);
      var j :| 0 <= j < |es| && es[j] == (key, r.value);
      assert KeysOf(es)[i] == KeysOf(es)[j];
    }
  }

  /** The entries are in property order, and reading a key from them reads what the object holds. */
  lemma LookupEnumerated(ms: seq<Member>, key: string)
    ensures JsOrdered(Enumerated(ms))
    ensures Lookup(Enumerated(ms), key) == Lookup(ms, key)
  {
    var r := Enumerated(ms);
    if Lookup(ms, key).Some? {
      var j :| 0 <= j < |ms| && ms[j] == (key, Lookup(ms, key).value);
      assert key in KeysOf(ms) by { assert KeysOf(ms)[j] == key; }
      var i :| 0 <= i < |r| && KeysOf(r)[i] == key;
      LookupDistinct(r, key, Lookup(ms, key).value);
    } else {
      assert key !in KeysOf(ms);
      forall i | 0 <= i < |r| ensures r[i].0 != key {
        assert KeysOf(r)[i] == r[i].0;
      }
    }
  }

  /** Entries already in property order are listed as they are. */
  lemma EnumeratedOrdered(ms: seq<Member>)
    requires JsOrdered(ms)
    ensures Enumerated(ms) == ms
  {
    PropertyKeysOrdered(ms);
    var r := Enumerated(ms);
    forall i | 0 <= i < |ms| ensures r[i] == ms[i] {
      assert r[i].0 == ms[i].0;
      LookupDistinct(ms, ms[i].0, ms[i].1);
    }
  }

  /** The name `Object.entries` gives an array index or a string position. */
  function IndexKey(i: nat): string {
    NatToString(i)
  }

  /**
   * `Object.entries(v)` for a value that is not null: an object's
   * properties in property order, an array's items or a string's characters
   * under their index, and nothing for a number or a boolean.
   */
  function ObjectEntries(v: Json): (r: seq<Member>)
    ensures v.JObj? ==> r == Enumerated(v.members)
    ensures v.JArr? ==> |r| == |v.items| && forall i :: 0 <= i < |r| ==> r[i] == (IndexKey(i), v.items[i])
    ensures v.JStr? ==> |r| == |v.s| && forall i :: 0 <= i < |r| ==> r[i] == (IndexKey(i), JStr([v.s[i]]))
    ensures v.JNull? || v.JBool? || v.JNum? ==> r == []
  {
    match v
    case JObj(ms) => Enumerated(ms)
    case JArr(items) => seq(|items|, i requires 0 <= i < |items| => (IndexKey(i), items[i]))
    case JStr(s) => seq(|s|, i requires 0 <= i < |s| => (IndexKey(i), JStr([s[i]])))
    case _ => []
  }

  /** `v[key]` for a value that is not null: None stands for `undefined`. */
  function Get(v: Json, key: string): Option<Json> {
    if v.JObj? then Lookup(v.members, key) else None
  }

  /** The message of the TypeError thrown by reading a property of null. */
  function NullReadError(key: string): string {
    "Cannot read properties of null (reading '" + key + "')"
  }

  function HexDigit(d: nat): char
    requires d < 16
  {
    if d < 10 then DigitChar(d) else ('a' as int + (d - 10)) as char
  }

  /** How `JSON.stringify` writes one character inside a string literal. */
  function Escape(c: char): string {
    if c == '"' then "\\\""
    else if c == '\\' then "\\\\"
    else if c == '\U{0008}' then "\\b"
    else if c == '\U{000C}' then "\\f"
    else if c == '\n' then "\\n"
    else if c == '\r' then "\\r"
    else if c == '\t' then "\\t"
    else if c < ' ' then "\\u00" + [HexDigit(c as int / 16), HexDigit(c as int % 16)]
    else [c]
  }

  function EscapeAll(s: string): string {
    if s == [] then "" else Escape(s[0]) + EscapeAll(s[1..])
  }

  function Quote(s: string): string {
    "\"" + EscapeAll(s) + "\""
  }

  /** `JSON.stringify(v)` without indentation. */
  function Stringify(v: Json): string
    decreases v
  {
    match v
    case JNull => "null"
    case JBool(b) => if b then "true" else "false"
    case JNum(n) => IntToString(n)
    case JStr(s) => Quote(s)
    case JArr(_) => "[" + StringifyItems(v, 0) + "]"
    case JObj(_) => "{" + StringifyMembers(v, 0) + "}"
  }

  function StringifyItems(v: Json, i: nat): string
    requires v.JArr? && i <= |v.items|
    decreases v, |v.items| - i
  {
    if i == |v.items| then ""
    else (if i == 0 then "" else ",") + Stringify(v.items[i]) + StringifyItems(v, i + 1)
  }

  function StringifyMembers(v: Json, i: nat): string
    requires v.JObj? && i <= |v.members|
    decreases v, |v.members| - i
  {
    if i == |v.members| then ""
    else
      (if i == 0 then "" else ",") + Quote(v.members[i].0) + ":" + Stringify(v.members[i].1)
      + StringifyMembers(v, i + 1)
  }

  /** `${v}` in a template literal (String(v)). */
  function Text(v: Json): string
    decreases v
  {
    match v
    case JNull => "null"
    case JBool(b) => if b then "true" else "false"
    case JNum(n) => IntToString(n)
    case JStr(s) => s
    case JArr(_) => JoinText(v, 0)
    case JObj(_) => "[object Object]"
  }

  /** `Array.prototype.join(',')`, which prints null elements as empty. */
  function JoinText(v: Json, i: nat): string
    requires v.JArr? && i <= |v.items|
    decreases v, |v.items| - i
  {
    if i == |v.items| then ""
    else
      (if i == 0 then "" else ",") + (if v.items[i].JNull? then "" else Text(v.items[i]))
      + JoinText(v, i + 1)
  }

  /** The keys of a path -> content object, in order (`Object.keys`). */
  function Keys(files: Files): (r: seq<string>)
    ensures |r| == |files|
    ensures forall i :: 0 <= i < |files| ==> r[i] == files[i].0
  {
    if files == [] then [] else [files[0].0] + Keys(files[1..])
  }

  /** A path -> content object as a JSON value. */
  function FilesJson(files: Files): (r: Json)
    ensures r.JObj? && |r.members| == |files|
    ensures forall i :: 0 <= i < |files| ==> r.members[i] == (files[i].0, JStr(files[i].1))
  {
    JObj(seq(|files|, i requires 0 <= i < |files| => (files[i].0, JStr(files[i].1))))
  }

  /** Reading a path from a path -> content object finds a content written under it, and nothing for a path not written. */
  lemma FilesLookup(files: Files, path: string)
    ensures Lookup(FilesJson(files).members, path).Some? ==>
      exists i :: 0 <= i < |files| && files[i].0 == path && Lookup(FilesJson(files).members, path).value == JStr(files[i].1)
    ensures (forall i :: 0 <= i < |files| ==> files[i].0 != path) ==> Lookup(FilesJson(files).members, path).None?
  {
    var ms := FilesJson(files).members;
    var found := Lookup(ms, path);
    if found.Some? {
      var k :| 0 <= k < |ms| && ms[k] == (path, found.value);
      assert files[k].0 == path && JStr(files[k].1) == found.value;
    }
  }

  function StrArray(ss: seq<string>): (r: Json)
    ensures r.JArr? && |r.items| == |ss|
    ensures forall i :: 0 <= i < |ss| ==> r.items[i] == JStr(ss[i])
  {
    JArr(seq(|ss|, i requires 0 <= i < |ss| => JStr(ss[i])))
  }
}
