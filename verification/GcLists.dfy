/** The lists every object is chained in, and what adding, removing and
    changing an object does to them. */
module GcLists {
  import opened GcHeap

  /** root ends with the main thread, and udata follows it in the same chain. */
  datatype Lists = Lists(root: seq<Ref>, udata: seq<Ref>, strt: seq<seq<Ref>>, tmu: seq<Ref>, upvals: seq<Ref>)

  predicate InRoot(b: Body) {
    Traversable(b) || b.ClosedUpval?
  }

  /** The part of a body that says how it is chained. */
  function Frame(b: Body): Body {
    match b
    case Str(c) => Str(c)
    case Udata(_, _) => Udata(Nil, Nil)
    case OpenUpval(t, l) => OpenUpval(t, l)
    case ClosedUpval(_) => ClosedUpval(Nil)
    case Closure(_) => Closure([])
    case Table(_, _, _) => Table(Nil, [], [])
    case Thread(_, _, open) => Thread(Nil, [], open)
    case Proto(_, _) => Proto([], [])
  }

  function Bucket(strHash: nat -> nat, size: nat, c: nat): nat
    requires 0 < size
  {
    strHash(c) % size
  }

  ghost predicate StringsOk(strHash: nat -> nat, h: Heap, strt: seq<seq<Ref>>) {
    && 0 < |strt|
    && (forall b :: 0 <= b < |strt| ==> NoDup(strt[b]))
    && (forall b, r :: 0 <= b < |strt| && r in strt[b] ==>
          r in h && h[r].body.Str? && b == Bucket(strHash, |strt|, h[r].body.content))
    && (forall r :: r in h && h[r].body.Str? ==> r in strt[Bucket(strHash, |strt|, h[r].body.content)])
  }

  /** Equal strings are the same object. */
  ghost predicate Interned(h: Heap) {
    forall r, s :: r in h && s in h && h[r].body.Str? && h[s].body == h[r].body ==> r == s
  }

  ghost predicate RootOk(h: Heap, root: seq<Ref>, main: Ref) {
    && NoDup(root) && (forall r :: r in root ==> r in h && InRoot(h[r].body))
    && (forall r :: r in h && InRoot(h[r].body) ==> r in root)
    && root != [] && root[|root| - 1] == main && h[main].body.Thread? && h[main].fixed
    && (forall r :: r in h && h[r].fixed ==> r == main || h[r].body.Str?)
  }

  ghost predicate UdataOk(h: Heap, udata: seq<Ref>, tmu: seq<Ref>) {
    && NoDup(udata + tmu)
    && (forall r :: r in udata || r in tmu ==> r in h && h[r].body.Udata?)
    && (forall r :: r in h && h[r].body.Udata? ==> r in udata || r in tmu)
    && (forall r :: r in tmu ==> h[r].bit3)
  }

  ghost predicate Descending(h: Heap, open: seq<Ref>) {
    forall i, j :: 0 <= i < j < |open| ==> Level(h, open[j]) < Level(h, open[i])
  }

  function Level(h: Heap, u: Ref): int {
    if u in h && h[u].body.OpenUpval? then h[u].body.level else -1
  }

  ghost predicate OpenListOk(h: Heap, t: Ref)
    requires t in h && h[t].body.Thread?
  {
    && Descending(h, h[t].body.open)
    && forall u :: u in h[t].body.open ==> u in h && h[u].body.OpenUpval? && h[u].body.thread == t
  }

  ghost predicate OpenedOk(h: Heap, u: Ref)
    requires u in h && h[u].body.OpenUpval?
  {
    var t := h[u].body.thread;
    t in h && h[t].body.Thread? && u in h[t].body.open
  }

  ghost predicate UpvalsOk(h: Heap, upvals: seq<Ref>) {
    && NoDup(upvals)
    && (forall r :: r in upvals <==> r in h && h[r].body.OpenUpval?)
    && (forall t :: t in h && h[t].body.Thread? ==> OpenListOk(h, t))
    && (forall u :: u in h && h[u].body.OpenUpval? ==> OpenedOk(h, u))
  }

  /** Open upvalues point into the part of the stack in use. */
  ghost predicate LevelsOk(h: Heap) {
    forall u :: u in h && h[u].body.OpenUpval? ==>
      var t := h[u].body.thread; t in h && h[t].body.Thread? && h[u].body.level < |h[t].body.stack|
  }

  ghost predicate Structure(strHash: nat -> nat, h: Heap, ls: Lists, main: Ref) {
    && StringsOk(strHash, h, ls.strt) && Interned(h)
    && RootOk(h, ls.root, main) && UdataOk(h, ls.udata, ls.tmu) && UpvalsOk(h, ls.upvals)
  }

  // ----- Two heaps that agree on what is chained in a list -----

  ghost predicate StrAgree(h: Heap, k: Heap) {
    forall r :: (r in h && h[r].body.Str? ==> r in k && k[r].body == h[r].body)
          && (r in k && k[r].body.Str? ==> r in h && h[r].body == k[r].body)
  }

  ghost predicate RootAgree(h: Heap, k: Heap, main: Ref) {
    && (forall r :: (r in h && InRoot(h[r].body)) <==> (r in k && InRoot(k[r].body)))
    && (main in k ==> k[main].body.Thread? && k[main].fixed)
    && (forall r :: r in k && k[r].fixed ==> r == main || k[r].body.Str?)
  }

  ghost predicate UdataAgree(h: Heap, k: Heap) {
    && (forall r :: (r in h && h[r].body.Udata?) <==> (r in k && k[r].body.Udata?))
    && (forall r :: r in h && h[r].body.Udata? && h[r].bit3 ==> k[r].bit3)
  }

  ghost predicate UpvalsAgree(h: Heap, k: Heap) {
    && (forall r :: (r in h && h[r].body.OpenUpval?) <==> (r in k && k[r].body.OpenUpval?))
    && (forall r :: r in h && h[r].body.OpenUpval? ==> k[r].body == h[r].body)
    && (forall t :: t in k && k[t].body.Thread? ==>
          if t in h then h[t].body.Thread? && k[t].body.open == h[t].body.open else k[t].body.open == [])
    && (forall t :: t in h && h[t].body.Thread? ==> (t in k && k[t].body.Thread?) || h[t].body.open == [])
  }

  lemma StrAgreed(strHash: nat -> nat, h: Heap, k: Heap, strt: seq<seq<Ref>>)
    requires StrAgree(h, k) && StringsOk(strHash, h, strt) && Interned(h)
    ensures StringsOk(strHash, k, strt) && Interned(k)
  {
  }

  lemma RootAgreed(h: Heap, k: Heap, root: seq<Ref>, main: Ref)
    requires RootAgree(h, k, main) && RootOk(h, root, main)
    ensures RootOk(k, root, main)
  {
    assert main in root && InRoot(h[main].body);
  }

  lemma UdataAgreed(h: Heap, k: Heap, udata: seq<Ref>, tmu: seq<Ref>)
    requires UdataAgree(h, k) && UdataOk(h, udata, tmu)
    ensures UdataOk(k, udata, tmu)
  {
  }

  lemma UpvalsAgreed(h: Heap, k: Heap, upvals: seq<Ref>)
    requires UpvalsAgree(h, k) && UpvalsOk(h, upvals)
    ensures UpvalsOk(k, upvals)
  {
    forall u | u in h && h[u].body.OpenUpval? ensures Level(k, u) == Level(h, u) { }
    hide Level;
    forall t | t in k && k[t].body.Thread? ensures OpenListOk(k, t) {
      if t in h { assert OpenListOk(h, t); }
    }
    forall u | u in k && k[u].body.OpenUpval? ensures OpenedOk(k, u) { assert OpenedOk(h, u); }
  }

  // ----- Changes that keep every object where it is chained -----

  ghost predicate SameFrames(h: Heap, k: Heap) {
    && k.Keys == h.Keys
    && forall r :: r in h ==> Frame(k[r].body) == Frame(h[r].body) && k[r].fixed == h[r].fixed
                              && (h[r].body.Udata? && h[r].bit3 ==> k[r].bit3)
  }

  lemma FrameKinds(a: Body, b: Body)
    requires Frame(a) == Frame(b)
    ensures a.Str? == b.Str? && a.Udata? == b.Udata? && a.OpenUpval? == b.OpenUpval? && a.ClosedUpval? == b.ClosedUpval?
    ensures a.Closure? == b.Closure? && a.Table? == b.Table? && a.Thread? == b.Thread? && a.Proto? == b.Proto?
    ensures InRoot(a) == InRoot(b) && Traversable(a) == Traversable(b)
    ensures (a.Str? || a.OpenUpval?) ==> a == b
    ensures a.Thread? ==> a.open == b.open
  {
  }

  lemma FramesAgree(h: Heap, k: Heap)
    requires SameFrames(h, k)
    ensures StrAgree(h, k) && UdataAgree(h, k) && UpvalsAgree(h, k)
  {
    hide Frame;
    forall r | r in h
      ensures h[r].body.Str? == k[r].body.Str? && h[r].body.Udata? == k[r].body.Udata?
            && h[r].body.Thread? == k[r].body.Thread?
      ensures h[r].body.OpenUpval? == k[r].body.OpenUpval?
            && (h[r].body.OpenUpval? || h[r].body.Str? ==> k[r].body == h[r].body)
      ensures h[r].body.Thread? ==> k[r].body.open == h[r].body.open
    {
      FrameKinds(h[r].body, k[r].body);
    }
  }

  lemma FramesRoot(h: Heap, k: Heap, root: seq<Ref>, main: Ref)
    requires SameFrames(h, k) && RootOk(h, root, main)
    ensures RootAgree(h, k, main)
  {
    hide Frame;
    forall r | r in h ensures InRoot(h[r].body) == InRoot(k[r].body) && h[r].body.Thread? == k[r].body.Thread?
          && h[r].body.Str? == k[r].body.Str? {
      FrameKinds(h[r].body, k[r].body);
    }
  }

  lemma FramesStructure(strHash: nat -> nat, h: Heap, k: Heap, ls: Lists, main: Ref)
    requires SameFrames(h, k) && Structure(strHash, h, ls, main)
    ensures Structure(strHash, k, ls, main)
  {
    hide SameFrames, StringsOk, Interned, RootOk, UdataOk, UpvalsOk, StrAgree, RootAgree, UdataAgree, UpvalsAgree;
    FramesAgree(h, k);
    FramesRoot(h, k, ls.root, main);
    StrAgreed(strHash, h, k, ls.strt);
    RootAgreed(h, k, ls.root, main);
    UdataAgreed(h, k, ls.udata, ls.tmu);
    UpvalsAgreed(h, k, ls.upvals);
  }

  /** Only colours differ. */
  ghost predicate Recolored(h: Heap, k: Heap) {
    && k.Keys == h.Keys
    && forall r :: r in h ==>
          k[r].body == h[r].body && k[r].fixed == h[r].fixed && k[r].bit3 == h[r].bit3 && k[r].bit4 == h[r].bit4
  }

  lemma RecoloredFrames(h: Heap, k: Heap)
    requires Recolored(h, k)
    ensures SameFrames(h, k) && (LevelsOk(h) ==> LevelsOk(k))
  {
    hide Frame;
  }

  lemma RecoloredRefers(h: Heap, k: Heap, b: Body, x: Ref)
    requires Recolored(h, k)
    ensures Refers(h, b, x) == Refers(k, b, x)
  {
  }

  // ----- New objects -----

  lemma MainThere(h: Heap, root: seq<Ref>, main: Ref)
    requires RootOk(h, root, main)
    ensures main in h && h[main].body.Thread? && h[main].fixed
  {
    assert main in root;
  }

  lemma NoDupFront(r: Ref, s: seq<Ref>)
    requires NoDup(s) && r !in s
    ensures NoDup([r] + s)
  {
    forall i, j | 0 <= i < j < |[r] + s| ensures ([r] + s)[i] != ([r] + s)[j] { assert ([r] + s)[j] in s; }
  }

  lemma AddedAgrees(h: Heap, root: seq<Ref>, main: Ref, r: Ref, o: GCObject)
    requires RootOk(h, root, main) && r !in h && !o.body.OpenUpval? && (o.body.Thread? ==> o.body.open == [])
    ensures var k := h[r := o];
      && (o.body.Str? || StrAgree(h, k)) && (o.body.Udata? || UdataAgree(h, k)) && UpvalsAgree(h, k)
      && (InRoot(o.body) || (o.fixed && !o.body.Str?) || RootAgree(h, k, main))
  {
    MainThere(h, root, main);
  }

  lemma AddRoot(strHash: nat -> nat, h: Heap, ls: Lists, main: Ref, r: Ref, o: GCObject)
    requires Structure(strHash, h, ls, main) && r !in h && InRoot(o.body) && !o.fixed
          && (o.body.Thread? ==> o.body.open == [])
    ensures Structure(strHash, h[r := o], ls.(root := [r] + ls.root), main)
  {
    var k := h[r := o];
    AddedAgrees(h, ls.root, main, r, o);
    hide StringsOk, Interned, RootOk, UdataOk, UpvalsOk, StrAgree, UdataAgree, RootAgree, UpvalsAgree;
    StrAgreed(strHash, h, k, ls.strt);
    AddRootList(h, ls.root, main, r, o);
    UdataAgreed(h, k, ls.udata, ls.tmu);
    UpvalsAgreed(h, k, ls.upvals);
  }

  lemma AddRootList(h: Heap, root: seq<Ref>, main: Ref, r: Ref, o: GCObject)
    requires RootOk(h, root, main) && r !in h && InRoot(o.body) && !o.fixed
    ensures RootOk(h[r := o], [r] + root, main)
  {
    NoDupFront(r, root);
    MainThere(h, root, main);
  }

  lemma AddUdata(strHash: nat -> nat, h: Heap, ls: Lists, main: Ref, r: Ref, o: GCObject)
    requires Structure(strHash, h, ls, main) && r !in h && o.body.Udata? && !o.fixed
    ensures Structure(strHash, h[r := o], ls.(udata := [r] + ls.udata), main)
  {
    var k := h[r := o];
    AddedAgrees(h, ls.root, main, r, o);
    hide StringsOk, Interned, RootOk, UdataOk, UpvalsOk, StrAgree, UdataAgree, RootAgree, UpvalsAgree;
    StrAgreed(strHash, h, k, ls.strt);
    RootAgreed(h, k, ls.root, main);
    AddUdataList(h, ls.udata, ls.tmu, r, o);
    UpvalsAgreed(h, k, ls.upvals);
  }

  lemma AddUdataList(h: Heap, udata: seq<Ref>, tmu: seq<Ref>, r: Ref, o: GCObject)
    requires UdataOk(h, udata, tmu) && r !in h && o.body.Udata?
    ensures UdataOk(h[r := o], [r] + udata, tmu)
  {
    assert ([r] + udata) + tmu == [r] + (udata + tmu);
    NoDupFront(r, udata + tmu);
  }

  lemma AddString(strHash: nat -> nat, h: Heap, ls: Lists, main: Ref, r: Ref, o: GCObject)
    requires Structure(strHash, h, ls, main) && r !in h && o.body.Str?
    requires forall s :: s in h ==> h[s].body != o.body
    ensures 0 < |ls.strt|
    ensures var b := Bucket(strHash, |ls.strt|, o.body.content);
            Structure(strHash, h[r := o], ls.(strt := ls.strt[b := [r] + ls.strt[b]]), main)
  {
    var k := h[r := o];
    assert 0 < |ls.strt|;
    AddedAgrees(h, ls.root, main, r, o);
    hide StringsOk, Interned, RootOk, UdataOk, UpvalsOk, StrAgree, UdataAgree, RootAgree, UpvalsAgree;
    AddStringList(strHash, h, ls.strt, r, o);
    RootAgreed(h, k, ls.root, main);
    UdataAgreed(h, k, ls.udata, ls.tmu);
    UpvalsAgreed(h, k, ls.upvals);
  }

  lemma AddStringList(strHash: nat -> nat, h: Heap, strt: seq<seq<Ref>>, r: Ref, o: GCObject)
    requires StringsOk(strHash, h, strt) && Interned(h) && r !in h && o.body.Str?
    requires forall s :: s in h ==> h[s].body != o.body
    ensures var b := Bucket(strHash, |strt|, o.body.content);
            StringsOk(strHash, h[r := o], strt[b := [r] + strt[b]]) && Interned(h[r := o])
  {
    var b := Bucket(strHash, |strt|, o.body.content);
    NoDupFront(r, strt[b]);
  }

  /** Where a new upvalue for level l goes in a thread's list. */
  ghost predicate OpenPlace(h: Heap, open: seq<Ref>, l: nat, i: nat) {
    && i <= |open|
    && (forall j :: 0 <= j < i ==> l < Level(h, open[j]))
    && (forall j :: i <= j < |open| ==> Level(h, open[j]) < l)
  }

  lemma PlaceIn(h: Heap, open: seq<Ref>, l: nat, i: nat)
    requires OpenPlace(h, open, l, i)
    ensures i <= |open|
  {
  }

  function WithOpen(o: GCObject, open: seq<Ref>): GCObject
    requires o.body.Thread?
  {
    o.(body := Thread(o.body.globals, o.body.stack, open))
  }

  /** A new upvalue for a slot that has none, at its place i in the thread's list. */
  lemma AddUpval(strHash: nat -> nat, h: Heap, ls: Lists, main: Ref, r: Ref, o: GCObject, i: nat)
    requires Structure(strHash, h, ls, main) && r !in h && o.body.OpenUpval? && !o.fixed
    requires o.body.thread in h && h[o.body.thread].body.Thread?
          && OpenPlace(h, h[o.body.thread].body.open, o.body.level, i)
    ensures var t := o.body.thread; var open := h[t].body.open;
            Structure(strHash, h[r := o][t := WithOpen(h[t], open[..i] + [r] + open[i..])],
                  ls.(upvals := [r] + ls.upvals), main)
  {
    var t := o.body.thread;
    var open := h[t].body.open[..i] + [r] + h[t].body.open[i..];
    var l := h[r := o][t := WithOpen(h[t], open)];
    AddUpvalAgrees(h, ls.root, main, r, o, open);
    hide StringsOk, Interned, RootOk, UdataOk, UpvalsOk, OpenPlace, StrAgree, UdataAgree, RootAgree, WithOpen;
    StrAgreed(strHash, h, l, ls.strt);
    RootAgreed(h, l, ls.root, main);
    UdataAgreed(h, l, ls.udata, ls.tmu);
    AddUpvalList(h, ls.upvals, r, o, i);
  }

  lemma AddUpvalAgrees(h: Heap, root: seq<Ref>, main: Ref, r: Ref, o: GCObject, open: seq<Ref>)
    requires RootOk(h, root, main) && r !in h && o.body.OpenUpval? && !o.fixed
    requires o.body.thread in h && h[o.body.thread].body.Thread?
    ensures var l := h[r := o][o.body.thread := WithOpen(h[o.body.thread], open)];
            StrAgree(h, l) && UdataAgree(h, l) && RootAgree(h, l, main)
  {
    MainThere(h, root, main);
  }

  lemma AddUpvalList(h: Heap, upvals: seq<Ref>, r: Ref, o: GCObject, i: nat)
    requires UpvalsOk(h, upvals) && r !in h && o.body.OpenUpval?
    requires o.body.thread in h && h[o.body.thread].body.Thread?
          && OpenPlace(h, h[o.body.thread].body.open, o.body.level, i)
    ensures var t := o.body.thread; var open := h[t].body.open;
            UpvalsOk(h[r := o][t := WithOpen(h[t], open[..i] + [r] + open[i..])], [r] + upvals)
  {
    var t := o.body.thread;
    var was := h[t].body.open;
    var open := was[..i] + [r] + was[i..];
    var l := h[r := o][t := WithOpen(h[t], open)];
    NoDupFront(r, upvals);
    assert OpenListOk(h, t);
    forall x | x in l && l[x].body.Thread? ensures OpenListOk(l, x) {
      if x == t {
        AddedDescending(h, l, was, r, o, i);
      } else {
        assert OpenListOk(h, x);
        assert forall u :: u in h[x].body.open ==> Level(l, u) == Level(h, u);
        hide Level;
      }
    }
    hide Level, OpenListOk, OpenPlace;
    forall u | u in l && l[u].body.OpenUpval? ensures OpenedOk(l, u) {
      assert r in open && forall x :: x in was ==> x in open by { assert was == was[..i] + was[i..]; }
      if u != r { assert OpenedOk(h, u); }
    }
  }

  lemma AddedDescending(h: Heap, l: Heap, was: seq<Ref>, r: Ref, o: GCObject, i: nat)
    requires r !in h && r in l && l[r] == o && o.body.OpenUpval? && OpenPlace(h, was, o.body.level, i)
          && Descending(h, was)
    requires forall u :: u in h && h[u].body.OpenUpval? ==> u in l && l[u] == h[u]
    requires forall u :: u in was ==> u in h && h[u].body.OpenUpval?
    ensures Descending(l, was[..i] + [r] + was[i..])
  {
    var open := was[..i] + [r] + was[i..];
    assert Level(l, r) == o.body.level;
    assert forall j :: 0 <= j < |was| ==> was[j] in was && Level(l, was[j]) == Level(h, was[j]);
    hide Level;
    forall a, b | 0 <= a < b < |open| ensures Level(l, open[b]) < Level(l, open[a]) {
      assert a < i ==> open[a] == was[a];
      assert i < a ==> open[a] == was[a - 1];
      assert b < i ==> open[b] == was[b];
      assert i < b ==> open[b] == was[b - 1];
    }
  }
}
