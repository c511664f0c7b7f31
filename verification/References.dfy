/** References into a table: luaL_ref and luaL_unref (src/c/lua/lauxlib.c) and the Java objects
    that live on them (src/java/org/jlua/LuaObject.java). */
module References {
  import opened NodeChains
  import opened ArraySizing
  import opened TableEntries
  import opened TableCounts
  import opened TableInvariant
  import opened TableResize
  import opened TableTraversal
  import opened Tables

  const REFNIL: int := -1

  /** The head of the list of free references is kept at this index. */
  const FREELIST := KInt(0)

  /** lua_tointeger on what the free list stores: no number means 0. */
  function ToInteger(v: Val): int {
    if v.VInt? then v.i else 0
  }

  /** What the entry before the rest of the free list holds. */
  function Link(chain: seq<int>): Val {
    if chain == [] then Nil else VInt(chain[0])
  }

  /** The indices 1..n are the live references and the free list, once each. */
  ghost predicate Split(live: map<int, Val>, chain: seq<int>, n: nat) {
    && (forall r :: r in live || r in chain <==> 1 <= r <= n)
    && (forall r :: r in live ==> r !in chain && live[r] != Nil)
    && (forall i, j :: 0 <= i < j < |chain| ==> chain[i] != chain[j])
  }

  /** The entries that make a table of references: at holds the live ones, the threaded free
      list, and nothing beyond n nor at the reference that stands for nil. */
  ghost predicate Refers(at: Key -> Val, live: map<int, Val>, chain: seq<int>, n: nat) {
    && (forall r :: r in live ==> at(KInt(r)) == live[r])
    && at(FREELIST) == Link(chain)
    && (forall i :: 0 <= i < |chain| ==> at(KInt(chain[i])) == Link(chain[i + 1..]))
    && (forall m :: m > n ==> at(KInt(m)) == Nil)
    && at(KInt(REFNIL)) == Nil
  }

  /** A border of a table with no free reference is the last reference handed out. */
  lemma BorderIsLast(at: Key -> Val, live: map<int, Val>, n: nat, border: nat)
    requires Split(live, [], n) && Refers(at, live, [], n)
    requires (border == 0 || at(KInt(border)) != Nil) && at(KInt(border + 1)) == Nil
    ensures border == n
  {
    assert border < n ==> border + 1 in live || border + 1 in [];
  }

  /** ... which it need not be while there are some: the search may stop at any hole. */
  lemma BorderAtHole(at: Key -> Val, live: map<int, Val>, chain: seq<int>, n: nat)
    requires Split(live, chain, n) && Refers(at, live, chain, n) && chain != []
    ensures at(KInt(chain[|chain| - 1])) == Nil && 1 <= chain[|chain| - 1] <= n
  {
    assert chain[|chain| - 1] in chain;
  }

  // --- The three changes -------------------------------------------------------------------

  function Assign(at: Key -> Val, k: Key, v: Val): Key -> Val {
    q => if q == k then v else at(q)
  }

  lemma ReusedSplit(live: map<int, Val>, chain: seq<int>, n: nat, v: Val)
    requires Split(live, chain, n) && chain != [] && v != Nil
    ensures chain[0] !in live && 1 <= chain[0] <= n && Split(live[chain[0] := v], chain[1..], n)
  {
    var ref, rest := chain[0], chain[1..];
    assert ref in chain;
    forall r ensures r in rest <==> r in chain && r != ref {
      if r in chain && r != ref {
        var i :| 0 <= i < |chain| && chain[i] == r;
        assert rest[i - 1] == r;
      }
      if r in rest {
        var i :| 0 <= i < |rest| && rest[i] == r;
        assert chain[i + 1] == r;
      }
    }
  }

  lemma Reused(at: Key -> Val, live: map<int, Val>, chain: seq<int>, n: nat, v: Val)
    requires Split(live, chain, n) && Refers(at, live, chain, n) && chain != [] && v != Nil
    ensures chain[0] !in live && 1 <= chain[0] <= n
    ensures Split(live[chain[0] := v], chain[1..], n)
    ensures Refers(Assign(Assign(at, FREELIST, at(KInt(chain[0]))), KInt(chain[0]), v), live[chain[0] := v], chain[1..],
          n)
  {
    ReusedSplit(live, chain, n, v);
    var ref, rest := chain[0], chain[1..];
    forall i | 0 <= i < |rest|
      ensures at(KInt(rest[i])) == Link(rest[i + 1..]) && rest[i] != ref && rest[i] != 0
    {
      assert rest[i] == chain[i + 1] && chain[i + 1] in chain;
      assert rest[i + 1..] == chain[i + 2..];
    }
  }

  lemma Added(at: Key -> Val, live: map<int, Val>, n: nat, v: Val)
    requires Split(live, [], n) && Refers(at, live, [], n) && v != Nil
    ensures n + 1 !in live
    ensures Split(live[n + 1 := v], [], n + 1)
    ensures Refers(Assign(at, KInt(n + 1), v), live[n + 1 := v], [], n + 1)
  {
  }

  lemma ReleasedSplit(live: map<int, Val>, chain: seq<int>, n: nat, ref: int)
    requires Split(live, chain, n) && ref in live
    ensures 1 <= ref <= n && ref !in chain && Split(live - {ref}, [ref] + chain, n)
  {
  }

  lemma Released(at: Key -> Val, live: map<int, Val>, chain: seq<int>, n: nat, ref: int)
    requires Split(live, chain, n) && Refers(at, live, chain, n) && ref in live
    ensures 1 <= ref <= n && at(KInt(ref)) != Nil && Split(live - {ref}, [ref] + chain, n)
    ensures Refers(Assign(Assign(at, KInt(ref), at(FREELIST)), FREELIST, VInt(ref)), live - {ref}, [ref] + chain, n)
  {
    ReleasedSplit(live, chain, n, ref);
    ReleasedEntries(at, live, chain, n, ref);
  }

  lemma ReleasedEntries(at: Key -> Val, live: map<int, Val>, chain: seq<int>, n: nat, ref: int)
    requires Split(live, chain, n) && Refers(at, live, chain, n) && 1 <= ref <= n && ref !in chain
    ensures Refers(Assign(Assign(at, KInt(ref), at(FREELIST)), FREELIST, VInt(ref)), live - {ref}, [ref] + chain, n)
  {
    var more := [ref] + chain;
    var to := Assign(Assign(at, KInt(ref), at(FREELIST)), FREELIST, VInt(ref));
    forall i | 0 <= i < |more| ensures to(KInt(more[i])) == Link(more[i + 1..]) {
      assert more[i + 1..] == chain[i..];
      if i > 0 {
        assert more[i] == chain[i - 1] && chain[i - 1] in chain;
      }
    }
    forall r | r in live - {ref} ensures to(KInt(r)) == live[r] {
      assert r in live;
    }
  }

  lemma SameEntries(at: Key -> Val, to: Key -> Val, live: map<int, Val>, chain: seq<int>, n: nat)
    requires Refers(at, live, chain, n) && forall q :: to(q) == at(q)
    ensures Refers(to, live, chain, n)
  {
  }

  /** The keys of a table are those with a value. */
  lemma KeysWithValue(hash: (Key, nat) -> nat, arr: seq<Val>, ns: seq<Node>, dummy: bool, lastfree: int, sp: seq<Spot>)
    requires Sound(hash, arr, ns, dummy, lastfree, sp)
    ensures forall k :: k in Keys(arr, ns) <==> ValueAt(arr, ns, k) != Nil
  {
    assert |arr| <= Pow2(MAXBITS);
    hide Sound, Keys, ValueAt;
    forall k ensures k in Keys(arr, ns) <==> ValueAt(arr, ns, k) != Nil {
      if k in Keys(arr, ns) { KeyValue(hash, arr, ns, dummy, lastfree, sp, k); }
      else if ValueAt(arr, ns, k) != Nil { ValueKey(arr, ns, 0, k); }
    }
  }

  lemma NoMoreKeys(at: Key -> Val, to: Key -> Val, before: set<Key>, after: set<Key>, i: int, v: Val)
    requires (forall k :: k in before <==> at(k) != Nil) && (forall k :: k in after <==> to(k) != Nil)
    requires (forall k :: to(k) == if k == KInt(i) then v else at(k)) && (KInt(i) in before || v == Nil)
    ensures |after| <= |before|
  {
    assert after <= before;
    Fewer(after, before);
  }

  // --- The table of references -------------------------------------------------------------

  class Registry {
    const t: Table
    /** What each reference in use stands for. */
    ghost var live: map<int, Val>
    /** The free references, next one first. */
    ghost var chain: seq<int>
    /** The references ever handed out are 1..n. */
    ghost var n: nat

    ghost function Contents(): (at: Key -> Val)
      reads t
      ensures forall q :: at(q) == t.At(q)
    {
      var arr, nodes := t.arr, t.nodes;
      (q: Key) => ValueAt(arr, nodes, q)
    }

    /** The number of entries of the table. */
    ghost function Size(): nat
      reads t
    {
      |Keys(t.arr, t.nodes)|
    }

    ghost predicate Valid()
      reads this, t
    {
      t.Valid() && Split(live, chain, n) && Refers(Contents(), live, chain, n)
    }

    constructor (t: Table)
      requires t.Valid() && t.At(FREELIST) == Nil && t.At(KInt(REFNIL)) == Nil && forall m :: m > 0 ==>
            t.At(KInt(m)) == Nil
      ensures Valid() && this.t == t && live == map[] && chain == [] && n == 0
    {
      this.t := t;
      live, chain, n := map[], [], 0;
    }

    /** One raw assignment; it can fail only in a table of at least Pow2(MAXBITS) entries, and
        changes nothing then. */
    method RawSetI(i: int, v: Val) returns (ok: bool)
      requires t.Valid()
      modifies t
      ensures old(Size()) < Pow2(MAXBITS) ==> ok
      ensures t.Valid() && forall q :: t.At(q) == if ok && q == KInt(i) then v else old(t.At(q))
      ensures ok && (old(t.At(KInt(i))) != Nil || v == Nil) ==> Size() <= old(Size())
    {
      hide TooMany, Sound, Keys, ValueAt;
      var r;
      ghost var before := Keys(t.arr, t.nodes);
      KeysWithValue(t.hash, t.arr, t.nodes, t.dummy, t.lastfree, t.spots);
      if |before| < Pow2(MAXBITS) { EnoughRoom(before, KInt(i)); }
      r := t.Put(KInt(i), v);
      ok := r == Ok;
      if ok {
        KeysWithValue(t.hash, t.arr, t.nodes, t.dummy, t.lastfree, t.spots);
        if KInt(i) in before
              || v == Nil { NoMoreKeys(old(Contents()), Contents(), before, Keys(t.arr, t.nodes), i, v); }
      }
    }

    /** luaL_ref on value v: ok is false when the table cannot grow. */
    method Ref(v: Val) returns (ok: bool, ref: int)
      requires Valid()
      modifies this, t
      ensures old(Size()) < Pow2(MAXBITS) ==> ok
      ensures v == Nil ==> ok && ref == REFNIL && unchanged(this) && unchanged(t)
      ensures ok && v != Nil ==> Valid() && ref >= 1 && ref !in old(live) && live == old(live)[ref := v]
      ensures ok && v != Nil ==> (chain, n) == if old(chain) == [] then ([], old(n) + 1) else (old(chain)[1..], old(n))
      ensures t.Valid() && forall q :: q != FREELIST && q != KInt(ref) ==> t.At(q) == old(t.At(q))
    {
      hide Refers, Split, ValueAt, Sound, Keys;
      if v == Nil {
        return true, REFNIL;
      }
      var first := t.Get(FREELIST);
      FirstFree(Contents(), live, chain, n);
      ref := ToInteger(first);
      if ref != 0 {
        ok := Reuse(ref, v);
      } else {
        ok, ref := Extend(v);
      }
    }

    /** Take the first free reference off the list. */
    method Reuse(ref: int, v: Val) returns (ok: bool)
      requires Valid() && chain != [] && ref == chain[0] && v != Nil
      modifies this, t
      ensures old(Size()) < Pow2(MAXBITS) ==> ok
      ensures ok ==> Valid() && ref >= 1 && ref !in old(live)
      ensures ok ==> live == old(live)[ref := v] && chain == old(chain)[1..] && n == old(n)
      ensures t.Valid() && forall q :: q != FREELIST && q != KInt(ref) ==> t.At(q) == old(t.At(q))
    {
      hide Refers, Split, ValueAt, Sound, Keys, Contents;
      ghost var at := Contents();
      FirstFree(at, live, chain, n);
      Reused(at, live, chain, n, v);
      var second := t.Get(KInt(ref));
      ok := RawSetI(0, second);
      if ok {
        ok := RawSetI(ref, v);
        if ok {
          live, chain := live[ref := v], chain[1..];
          SameEntries(Assign(Assign(at, FREELIST, second), KInt(ref), v), Contents(), live, chain, n);
        }
      }
    }

    /** Create a reference. */
    method Extend(v: Val) returns (ok: bool, ref: int)
      requires Valid() && chain == [] && v != Nil
      modifies this, t
      ensures old(Size()) < Pow2(MAXBITS) ==> ok
      ensures ok ==> Valid() && ref >= 1 && ref !in old(live)
      ensures ok ==> live == old(live)[ref := v] && chain == [] && n == old(n) + 1
      ensures t.Valid() && forall q :: q != KInt(ref) ==> t.At(q) == old(t.At(q))
    {
      hide Refers, Split, ValueAt, Sound, Keys, Contents;
      ghost var at := Contents();
      var border := t.GetN();
      assert chain == [] && (border == 0 || at(KInt(border)) != Nil) && at(KInt(border + 1)) == Nil;
      BorderIsLast(at, live, n, border);
      ref := border + 1;
      Added(at, live, n, v);
      ok := RawSetI(ref, v);
      if ok {
        live, n := live[ref := v], n + 1;
        SameEntries(Assign(at, KInt(ref), v), Contents(), live, [], n);
      }
    }

    /** luaL_unref. */
    method Unref(ref: int) returns (ok: bool)
      requires Valid() && (ref < 0 || ref in live)
      modifies this, t
      ensures old(Size()) < Pow2(MAXBITS) ==> ok
      ensures ref < 0 ==> ok && unchanged(this) && unchanged(t)
      ensures ok && ref >= 0 ==> Valid() && live == old(live) - {ref} && chain == [ref] + old(chain) && n == old(n)
      ensures t.Valid() && forall q :: q != FREELIST && q != KInt(ref) ==> t.At(q) == old(t.At(q))
    {
      hide Refers, Split, ValueAt, Sound, Keys, Contents;
      if ref < 0 {
        return true;
      }
      ghost var at := Contents();
      Released(at, live, chain, n, ref);
      var first := t.Get(FREELIST);
      ok := RawSetI(ref, first);
      if ok {
        ok := RawSetI(0, VInt(ref));
        if ok {
          live, chain := live - {ref}, [ref] + chain;
          SameEntries(Assign(Assign(at, KInt(ref), first), FREELIST, VInt(ref)), Contents(), live, chain, n);
        }
      }
    }

    /** Reading a reference back, with lua_rawgeti. */
    method RawGetI(ref: int) returns (v: Val)
      requires Valid()
      ensures ref in live ==> v == live[ref]
      ensures ref == REFNIL ==> v == Nil
    {
      v := t.Get(KInt(ref));
    }
  }

  lemma FirstFree(at: Key -> Val, live: map<int, Val>, chain: seq<int>, n: nat)
    requires Split(live, chain, n) && Refers(at, live, chain, n)
    ensures ToInteger(at(FREELIST)) == if chain == [] then 0 else chain[0]
    ensures chain != [] ==> chain[0] >= 1
  {
    if chain != [] { assert chain[0] in chain; }
  }

  // --- Java objects ------------------------------------------------------------------------

  /** A Java object that stands for the Lua value it was made with. */
  class LuaObject {
    const registry: Registry
    var ref: int
    ghost const value: Val

    ghost predicate Valid()
      reads this, registry, registry.t
    {
      registry.Valid() && if value == Nil then ref == REFNIL else ref in registry.live && registry.live[ref] == value
    }

    /** Not registered yet. */
    constructor (registry: Registry, ghost value: Val)
      ensures this.registry == registry && this.value == value
    {
      this.registry := registry;
      this.value := value;
    }

    /** registerValue: ok is false when the registry cannot grow. */
    method RegisterValue(v: Val) returns (ok: bool)
      requires registry.Valid() && v == value
      modifies this, registry, registry.t
      ensures old(registry.Size()) < Pow2(MAXBITS) ==> ok
      ensures ok ==> Valid() && (value != Nil ==> ref !in old(registry.live))
      ensures ok ==> registry.live == if value == Nil then old(registry.live) else old(registry.live)[ref := value]
    {
      hide Refers, Split, ValueAt, Sound, Keys;
      var key;
      ok, key := registry.Ref(v);
      if ok {
        ref := key;
      }
    }

    /** push gives the value back. */
    method Push() returns (v: Val)
      requires Valid()
      ensures v == value
    {
      v := registry.RawGetI(ref);
    }

    /** finalize: the reference is released, and no other object loses its value. */
    method Finalize() returns (ok: bool)
      requires Valid()
      modifies registry, registry.t
      ensures old(registry.Size()) < Pow2(MAXBITS) ==> ok
      ensures ok ==> registry.Valid() && registry.live == if value == Nil then old(registry.live)
            else old(registry.live) - {ref}
      ensures ok && value != Nil ==> ref in registry.chain
    {
      hide Refers, ValueAt, Sound, Keys;
      ok := registry.Unref(ref);
    }
  }
}
