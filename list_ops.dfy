/** The array idioms the engine builds its updates from (`findIndex`, `find`,
    `filter`, index swap, insertion after an index), each with the facts the
    operations rely on: what is found, what is kept, and when a rearrangement
    is a permutation. */
module ListOps {
  import opened Common

  /** `s.findIndex(x => key(x) === id)`: the first position with that key, or -1. */
  function FindIndex<T>(s: seq<T>, key: T -> string, id: string): (r: int)
    ensures -1 <= r < |s|
    ensures r == -1 <==> forall i :: 0 <= i < |s| ==> key(s[i]) != id
    ensures r >= 0 ==> key(s[r]) == id && forall i :: 0 <= i < r ==> key(s[i]) != id
    decreases |s|
  {
    if s == [] then -1
    else if key(s[0]) == id then 0
    else
      var k := FindIndex(s[1..], key, id);
      if k == -1 then -1 else k + 1
  }

  /** `s.find(x => key(x) === id)` */
  function Find<T>(s: seq<T>, key: T -> string, id: string): (r: Option<T>)
    ensures r.None? <==> forall i :: 0 <= i < |s| ==> key(s[i]) != id
    ensures r.Some? ==> r.value == s[FindIndex(s, key, id)] && key(r.value) == id
  {
    var k := FindIndex(s, key, id);
    if k == -1 then None else Some(s[k])
  }

  /** An item appended after items that all lack its key is the one found. */
  lemma FindAppended<T>(s: seq<T>, key: T -> string, x: T)
    requires forall i :: 0 <= i < |s| ==> key(s[i]) != key(x)
    ensures FindIndex(s + [x], key, key(x)) == |s|
    ensures Find(s + [x], key, key(x)) == Some(x)
  {
    assert forall i :: 0 <= i < |s| ==> (s + [x])[i] == s[i];
    assert (s + [x])[|s|] == x;
  }

  /** `s.filter(p)` */
  function Filter<T>(s: seq<T>, p: T -> bool): (r: seq<T>)
    ensures |r| <= |s|
    ensures forall i :: 0 <= i < |r| ==> p(r[i])
    ensures multiset(r) <= multiset(s)
    decreases |s|
  {
    if s == [] then []
    else
      assert s == [s[0]] + s[1..];
      if p(s[0]) then [s[0]] + Filter(s[1..], p)
      else Filter(s[1..], p)
  }

  /** Filtering keeps every copy of an item that passes. */
  lemma {:induction false} FilterKeepsCopies<T>(s: seq<T>, p: T -> bool, x: T)
    requires p(x)
    ensures multiset(Filter(s, p))[x] == multiset(s)[x]
    decreases |s|
  {
    if s != [] {
      assert s == [s[0]] + s[1..];
      FilterKeepsCopies(s[1..], p, x);
    }
  }

  /** Filtering keeps the order: it distributes over concatenation. */
  lemma {:induction false} FilterAppend<T>(s: seq<T>, t: seq<T>, p: T -> bool)
    ensures Filter(s + t, p) == Filter(s, p) + Filter(t, p)
    decreases |s|
  {
    if s == [] {
      assert s + t == t;
    } else {
      var u := s + t;
      assert u[0] == s[0] && u[1..] == s[1..] + t;
      FilterAppend(s[1..], t, p);
      if p(s[0]) {
        assert Filter(u, p) == [s[0]] + Filter(u[1..], p);
        assert Filter(s, p) == [s[0]] + Filter(s[1..], p);
      } else {
        assert Filter(u, p) == Filter(u[1..], p);
        assert Filter(s, p) == Filter(s[1..], p);
      }
    }
  }

  function HasKey<T>(key: T -> string, id: string): T -> bool {
    x => key(x) == id
  }

  function LacksKey<T>(key: T -> string, id: string): T -> bool {
    x => key(x) != id
  }

  /** `s.filter(x => key(x) !== id)` */
  function RemoveKey<T>(s: seq<T>, key: T -> string, id: string): seq<T> {
    Filter(s, LacksKey(key, id))
  }

  /** How many entries carry the key. */
  function CountKey<T>(s: seq<T>, key: T -> string, id: string): nat {
    |Filter(s, HasKey(key, id))|
  }

  /** Filtering keeps exactly the entries that pass, and keeps them in order:
      an entry passes iff it survives. */
  lemma {:induction false} FilterMembership<T>(s: seq<T>, p: T -> bool, x: T)
    ensures x in Filter(s, p) <==> x in s && p(x)
    decreases |s|
  {
    if s != [] {
      FilterMembership(s[1..], p, x);
      assert s == [s[0]] + s[1..];
    }
  }

  /** Filtering by a test and by its negation splits the list: together the two
      results are a permutation of it. */
  lemma {:induction false} KeySplit<T>(s: seq<T>, key: T -> string, id: string)
    ensures multiset(RemoveKey(s, key, id)) + multiset(Filter(s, HasKey(key, id))) == multiset(s)
    decreases |s|
  {
    if s != [] {
      KeySplit(s[1..], key, id);
      assert s == [s[0]] + s[1..];
    }
  }

  /** With no entry carrying the key, removing it changes nothing. */
  lemma {:induction false} RemoveAbsentKey<T>(s: seq<T>, key: T -> string, id: string)
    requires forall i :: 0 <= i < |s| ==> key(s[i]) != id
    ensures RemoveKey(s, key, id) == s
    decreases |s|
  {
    if s != [] {
      RemoveAbsentKey(s[1..], key, id);
      assert s == [s[0]] + s[1..];
    }
  }

  lemma {:induction false} NoKeyNoCount<T>(s: seq<T>, key: T -> string, id: string)
    requires forall i :: 0 <= i < |s| ==> key(s[i]) != id
    ensures CountKey(s, key, id) == 0
    decreases |s|
  {
    if s != [] {
      NoKeyNoCount(s[1..], key, id);
    }
  }

  /** When the key occurs once, the entries carrying it are just the one found. */
  lemma {:induction false} SingleMatch<T>(s: seq<T>, key: T -> string, id: string)
    requires CountKey(s, key, id) == 1
    ensures FindIndex(s, key, id) >= 0
    ensures Filter(s, HasKey(key, id)) == [s[FindIndex(s, key, id)]]
    decreases |s|
  {
    assert s != [];
    if key(s[0]) == id {
      assert |Filter(s[1..], HasKey(key, id))| == 0;
    } else {
      SingleMatch(s[1..], key, id);
    }
  }

  /** Replace the first entry with the same key, or append when none has it
      (`findIndex` then index write, else `push`). */
  function Upsert<T>(s: seq<T>, key: T -> string, x: T): (r: seq<T>)
    ensures FindIndex(s, key, key(x)) >= 0 ==>
      |r| == |s| && r[FindIndex(s, key, key(x))] == x &&
      (forall i :: 0 <= i < |s| && i != FindIndex(s, key, key(x)) ==> r[i] == s[i])
    ensures FindIndex(s, key, key(x)) == -1 ==> r == s + [x]
    ensures Find(r, key, key(x)) == Some(x)
  {
    var k := FindIndex(s, key, key(x));
    if k >= 0 then s[k := x]
    else
      var r := s + [x];
      assert forall i :: 0 <= i < |s| ==> key(r[i]) == key(s[i]);
      assert key(r[|s|]) == key(x);
      r
  }

  /** `s[i] , s[j] = s[j], s[i]` on a copy. */
  function SwapAt<T>(s: seq<T>, i: nat, j: nat): (r: seq<T>)
    requires i < |s| && j < |s|
    ensures |r| == |s| && r[i] == s[j] && r[j] == s[i]
    ensures forall k :: 0 <= k < |s| && k != i && k != j ==> r[k] == s[k]
  {
    s[i := s[j]][j := s[i]]
  }

  /** A swap is a permutation. */
  lemma SwapAtPermutes<T>(s: seq<T>, i: nat, j: nat)
    requires i < |s| && j < |s|
    ensures multiset(SwapAt(s, i, j)) == multiset(s)
  {
  }

  /** `[...s.slice(0, i + 1), x, ...s.slice(i + 1)]` */
  function InsertAfter<T>(s: seq<T>, i: nat, x: T): (r: seq<T>)
    requires i < |s|
    ensures |r| == |s| + 1 && r[i + 1] == x
    ensures r[..i + 1] == s[..i + 1] && r[i + 2..] == s[i + 1..]
    ensures multiset(r) == multiset(s) + multiset{x}
  {
    assert s == s[..i + 1] + s[i + 1..];
    s[..i + 1] + [x] + s[i + 1..]
  }

  /** `s.filter((_, k) => k !== i)` */
  function RemoveAt<T>(s: seq<T>, i: nat): (r: seq<T>)
    requires i < |s|
    ensures |r| == |s| - 1
    ensures forall k :: 0 <= k < i ==> r[k] == s[k]
    ensures forall k :: i <= k < |r| ==> r[k] == s[k + 1]
    ensures multiset(r) + multiset{s[i]} == multiset(s)
  {
    assert s == s[..i] + [s[i]] + s[i + 1..];
    s[..i] + s[i + 1..]
  }

  function Without(x: string): string -> bool {
    y => y != x
  }

  /** `[...s, x]` when `x` is absent, `s.filter(y => y !== x)` when present. */
  function ToggleMember(s: seq<string>, x: string): (r: seq<string>)
    ensures x in s ==>
      x !in r && (forall i :: 0 <= i < |r| ==> r[i] in s) &&
      (forall i :: 0 <= i < |s| && s[i] != x ==> s[i] in r)
    ensures x !in s ==> r == s + [x]
  {
    if x in s then
      FilterWithout(s, x);
      Filter(s, Without(x))
    else s + [x]
  }

  lemma FilterWithout(s: seq<string>, x: string)
    ensures var r := Filter(s, Without(x));
      x !in r && (forall i :: 0 <= i < |r| ==> r[i] in s) &&
      forall i :: 0 <= i < |s| && s[i] != x ==> s[i] in r
  {
    var r := Filter(s, Without(x));
    FilterMembership(s, Without(x), x);
    forall i | 0 <= i < |s| && s[i] != x ensures s[i] in r {
      FilterMembership(s, Without(x), s[i]);
    }
    forall i | 0 <= i < |r| ensures r[i] in s {
      FilterMembership(s, Without(x), r[i]);
    }
  }

  /** Toggling twice restores membership: `x` is back in exactly when it was,
      and no other value changes. */
  lemma ToggleTwice(s: seq<string>, x: string, y: string)
    ensures y in ToggleMember(ToggleMember(s, x), x) <==> y in s
  {
    var t := ToggleMember(s, x);
    if x !in s {
      FilterMembership(t, Without(x), y);
    }
  }
}
