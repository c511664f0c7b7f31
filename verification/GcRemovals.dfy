/** Taking objects out of their lists: freeing, closing upvalues, and setting
    userdata apart for their finalizers. */
module GcRemovals {
  import opened GcHeap
  import opened GcLists

  function Without(s: seq<Ref>, i: nat): seq<Ref>
    requires i < |s|
  {
    s[..i] + s[i + 1..]
  }

  lemma WithoutElements(s: seq<Ref>, i: nat)
    requires i < |s| && NoDup(s)
    ensures NoDup(Without(s, i)) && forall x :: x in Without(s, i) <==> x in s && x != s[i]
  {
    var w := Without(s, i);
    assert forall j :: 0 <= j < |w| ==> w[j] == s[if j < i then j else j + 1];
    forall x | x in s && x != s[i] ensures x in w {
      var j :| 0 <= j < |s| && s[j] == x;
      assert w[if j < i then j else j - 1] == x;
    }
  }

  function Dropped(h: Heap, r: Ref): Heap {
    map x | x in h && x != r :: h[x]
  }

  lemma DroppedAgrees(h: Heap, root: seq<Ref>, main: Ref, r: Ref)
    requires RootOk(h, root, main) && r in h && r != main && !h[r].body.OpenUpval?
          && (h[r].body.Thread? ==> h[r].body.open == [])
    ensures var k := Dropped(h, r);
      && (h[r].body.Str? || StrAgree(h, k)) && (h[r].body.Udata? || UdataAgree(h, k)) && UpvalsAgree(h, k)
      && (InRoot(h[r].body) || RootAgree(h, k, main))
  {
    MainThere(h, root, main);
  }

  lemma RemoveRoot(strHash: nat -> nat, h: Heap, ls: Lists, main: Ref, i: nat)
    requires Structure(strHash, h, ls, main) && i < |ls.root| && ls.root[i] != main
    requires ls.root[i] in h && InRoot(h[ls.root[i]].body)
          && (h[ls.root[i]].body.Thread? ==> h[ls.root[i]].body.open == [])
    ensures Structure(strHash, Dropped(h, ls.root[i]), ls.(root := Without(ls.root, i)), main)
  {
    hide StringsOk, Interned, RootOk, UdataOk, UpvalsOk;
    var r := ls.root[i];
    var k := Dropped(h, r);
    DroppedAgrees(h, ls.root, main, r);
    hide StringsOk, Interned, RootOk, UdataOk, UpvalsOk, StrAgree, UdataAgree, RootAgree, UpvalsAgree;
    StrAgreed(strHash, h, k, ls.strt);
    RemoveRootList(h, ls.root, main, i);
    UdataAgreed(h, k, ls.udata, ls.tmu);
    UpvalsAgreed(h, k, ls.upvals);
  }

  lemma RemoveRootList(h: Heap, root: seq<Ref>, main: Ref, i: nat)
    requires RootOk(h, root, main) && i < |root| && root[i] != main
    ensures RootOk(Dropped(h, root[i]), Without(root, i), main)
  {
    WithoutElements(root, i);
    MainThere(h, root, main);
    assert i < |root| - 1;
    assert Without(root, i)[|root| - 2] == root[|root| - 1];
  }

  lemma RemoveUdata(strHash: nat -> nat, h: Heap, ls: Lists, main: Ref, i: nat)
    requires Structure(strHash, h, ls, main) && i < |ls.udata|
    requires ls.udata[i] in h && h[ls.udata[i]].body.Udata? && ls.udata[i] != main
    ensures Structure(strHash, Dropped(h, ls.udata[i]), ls.(udata := Without(ls.udata, i)), main)
  {
    var r := ls.udata[i];
    var k := Dropped(h, r);
    hide StringsOk, Interned, RootOk, UdataOk, UpvalsOk;
    DroppedAgrees(h, ls.root, main, r);
    hide StrAgree, UdataAgree, RootAgree, UpvalsAgree;
    StrAgreed(strHash, h, k, ls.strt);
    RootAgreed(h, k, ls.root, main);
    RemoveUdataList(h, ls.udata, ls.tmu, i);
    UpvalsAgreed(h, k, ls.upvals);
  }

  lemma RemoveUdataList(h: Heap, udata: seq<Ref>, tmu: seq<Ref>, i: nat)
    requires UdataOk(h, udata, tmu) && i < |udata|
    ensures UdataOk(Dropped(h, udata[i]), Without(udata, i), tmu)
  {
    assert NoDup(udata) by {
      forall a, b | 0 <= a < b < |udata| ensures udata[a] != udata[b] { assert (udata + tmu)[a] != (udata + tmu)[b]; }
    }
    WithoutElements(udata, i);
    assert Without(udata + tmu, i) == Without(udata, i) + tmu;
    WithoutElements(udata + tmu, i);
    assert (udata + tmu)[i] == udata[i];
    forall x | x in tmu ensures x != udata[i] { assert x in Without(udata, i) + tmu; }
  }

  lemma RemoveString(strHash: nat -> nat, h: Heap, ls: Lists, main: Ref, b: nat, i: nat)
    requires Structure(strHash, h, ls, main) && b < |ls.strt| && i < |ls.strt[b]|
    requires ls.strt[b][i] in h && h[ls.strt[b][i]].body.Str? && ls.strt[b][i] != main
    ensures Structure(strHash, Dropped(h, ls.strt[b][i]), ls.(strt := ls.strt[b := Without(ls.strt[b], i)]), main)
  {
    var r := ls.strt[b][i];
    var k := Dropped(h, r);
    hide StringsOk, Interned, RootOk, UdataOk, UpvalsOk;
    DroppedAgrees(h, ls.root, main, r);
    hide StrAgree, UdataAgree, RootAgree, UpvalsAgree;
    RemoveStringList(strHash, h, ls.strt, b, i);
    RootAgreed(h, k, ls.root, main);
    UdataAgreed(h, k, ls.udata, ls.tmu);
    UpvalsAgreed(h, k, ls.upvals);
  }

  lemma RemoveStringList(strHash: nat -> nat, h: Heap, strt: seq<seq<Ref>>, b: nat, i: nat)
    requires StringsOk(strHash, h, strt) && Interned(h) && b < |strt| && i < |strt[b]|
    ensures StringsOk(strHash, Dropped(h, strt[b][i]), strt[b := Without(strt[b], i)])
          && Interned(Dropped(h, strt[b][i]))
  {
    var r := strt[b][i];
    assert r in strt[b];
    WithoutElements(strt[b], i);
    assert b == Bucket(strHash, |strt|, h[r].body.content);
    forall c | 0 <= c < |strt| && r in strt[c] ensures c == b {
      assert c == Bucket(strHash, |strt|, h[r].body.content);
    }
  }

  // ----- Open upvalues -----

  lemma OpenNoDup(h: Heap, open: seq<Ref>)
    requires Descending(h, open)
    ensures NoDup(open)
  {
    forall i, j | 0 <= i < j < |open| ensures open[i] != open[j] { assert Level(h, open[j]) < Level(h, open[i]); }
  }

  /** Upvalue j of thread t's list is taken off it; o is what becomes of it. */
  function Unlinked(h: Heap, t: Ref, j: nat): Heap
    requires t in h && h[t].body.Thread? && j < |h[t].body.open|
  {
    h[t := WithOpen(h[t], Without(h[t].body.open, j))]
  }

  lemma UnlinkedUpvals(h: Heap, upvals: seq<Ref>, t: Ref, j: nat, i: nat, k: Heap)
    requires UpvalsOk(h, upvals) && t in h && h[t].body.Thread? && j < |h[t].body.open|
    requires i < |upvals| && upvals[i] == h[t].body.open[j]
    requires var u := upvals[i]; var l := Unlinked(h, t, j);
             (forall x :: x in l && x != u ==> x in k && k[x] == l[x]) && (forall x :: x in k && x != u ==> x in l)
             && (u in k ==> !k[u].body.OpenUpval? && !k[u].body.Thread?)
    requires SameBut(h, k, t, upvals[i])
    ensures UpvalsOk(k, Without(upvals, i))
  {
    var u, l := upvals[i], Unlinked(h, t, j);
    WithoutElements(upvals, i);
    assert OpenListOk(h, t) && u in h && h[u].body.OpenUpval?;
    OpenNoDup(h, h[t].body.open);
    WithoutElements(h[t].body.open, j);
    hide Level, OpenListOk, NoDup;
    forall x | x in k && k[x].body.Thread? ensures OpenListOk(k, x) {
      assert OpenListOk(h, x);
      if x == t {
        UnlinkedList(h, t, j, k);
      } else {
        OtherList(h, t, x, u, k);
      }
    }
    forall x | x in k && k[x].body.OpenUpval? ensures OpenedOk(k, x) { assert OpenedOk(h, x); }
  }

  ghost predicate SameBut(h: Heap, k: Heap, t: Ref, u: Ref) {
    forall x :: x in h && x != u && x != t ==> x in k && k[x] == h[x]
  }

  lemma UnlinkedList(h: Heap, t: Ref, j: nat, k: Heap)
    requires t in h && h[t].body.Thread? && j < |h[t].body.open| && OpenListOk(h, t)
          && SameBut(h, k, t, h[t].body.open[j])
    requires t in k && k[t].body.Thread? && k[t].body.open == Without(h[t].body.open, j)
    ensures OpenListOk(k, t)
  {
    var open := h[t].body.open;
    OpenNoDup(h, open);
    WithoutElements(open, j);
    WithoutDescending(h, open, j);
    hide Descending, Without;
    forall u | u in Without(open, j)
      ensures Level(k, u) == Level(h, u) && u in k && k[u].body.OpenUpval? && k[u].body.thread == t
    {
      assert u in open && u != open[j] && u != t;
    }
    SameDescending(h, k, Without(open, j));
  }

  lemma WithoutDescending(h: Heap, open: seq<Ref>, j: nat)
    requires Descending(h, open) && j < |open|
    ensures Descending(h, Without(open, j))
  {
    hide Level;
    var w := Without(open, j);
    assert forall a :: 0 <= a < |w| ==> w[a] == open[if a < j then a else a + 1];
  }

  lemma SameDescending(h: Heap, k: Heap, w: seq<Ref>)
    requires Descending(h, w) && forall u :: u in w ==> Level(k, u) == Level(h, u)
    ensures Descending(k, w)
  {
    hide Level;
    forall a, b | 0 <= a < b < |w| ensures Level(k, w[b]) < Level(k, w[a]) {
      assert w[a] in w && w[b] in w;
    }
  }

  lemma OtherList(h: Heap, t: Ref, x: Ref, u: Ref, k: Heap)
    requires x in h && h[x].body.Thread? && OpenListOk(h, x) && u in h && h[u].body.OpenUpval?
          && h[u].body.thread == t != x
    requires SameBut(h, k, t, u) && x in k && k[x] == h[x] && t in h && h[t].body.Thread?
    ensures OpenListOk(k, x)
  {
    assert forall y :: y in h[x].body.open ==> y != u && y != t && Level(k, y) == Level(h, y);
    hide Level;
  }

  /** A dead open upvalue is freed. */
  lemma RemoveUpval(strHash: nat -> nat, h: Heap, ls: Lists, main: Ref, t: Ref, j: nat, i: nat)
    requires Structure(strHash, h, ls, main) && t in h && h[t].body.Thread? && j < |h[t].body.open|
    requires i < |ls.upvals| && ls.upvals[i] == h[t].body.open[j]
    ensures Structure(strHash, Dropped(Unlinked(h, t, j), ls.upvals[i]), ls.(upvals := Without(ls.upvals, i)), main)
  {
    var u, k := ls.upvals[i], Dropped(Unlinked(h, t, j), ls.upvals[i]);
    assert u in h && h[u].body.OpenUpval?;
    UnlinkedUpvals(h, ls.upvals, t, j, i, k);
    UnlinkedAgrees(h, ls.root, main, t, j, u, k);
    hide StringsOk, Interned, RootOk, UdataOk, UpvalsOk, StrAgree, UdataAgree, RootAgree;
    StrAgreed(strHash, h, k, ls.strt);
    RootAgreed(h, k, ls.root, main);
    UdataAgreed(h, k, ls.udata, ls.tmu);
  }

  lemma UnlinkedAgrees(h: Heap, root: seq<Ref>, main: Ref, t: Ref, j: nat, u: Ref, k: Heap)
    requires RootOk(h, root, main) && t in h && h[t].body.Thread? && j < |h[t].body.open| && u in h
          && h[u].body.OpenUpval?
    requires k == Dropped(Unlinked(h, t, j), u)
    ensures StrAgree(h, k) && UdataAgree(h, k) && RootAgree(h, k, main)
  {
    MainThere(h, root, main);
  }

  /** An upvalue keeps the value of its slot when it is closed. */
  function Closed(h: Heap, t: Ref, u: Ref, c: Color): Heap
    requires t in h && h[t].body.Thread? && h[t].body.open != [] && u in h && h[u].body.OpenUpval? && u != t
  {
    Unlinked(h, t, 0)[u := h[u].(color := c, body := ClosedUpval(SlotValue(h, t, h[u].body.level)))]
  }

  lemma CloseUpval(strHash: nat -> nat, h: Heap, ls: Lists, main: Ref, t: Ref, u: Ref, i: nat, c: Color)
    requires Structure(strHash, h, ls, main) && t in h && h[t].body.Thread? && h[t].body.open != []
          && h[t].body.open[0] == u
    requires i < |ls.upvals| && ls.upvals[i] == u
    ensures u in h && h[u].body.OpenUpval? && u != t
    ensures Structure(strHash, Closed(h, t, u, c), ls.(root := [u] + ls.root, upvals := Without(ls.upvals, i)), main)
  {
    assert u in h && h[u].body.OpenUpval?;
    var k := Closed(h, t, u, c);
    UnlinkedUpvals(h, ls.upvals, t, 0, i, k);
    ClosedAgrees(h, ls.root, main, t, u, c);
    hide StringsOk, Interned, RootOk, UdataOk, UpvalsOk, StrAgree, UdataAgree;
    StrAgreed(strHash, h, k, ls.strt);
    UdataAgreed(h, k, ls.udata, ls.tmu);
  }

  lemma ClosedAgrees(h: Heap, root: seq<Ref>, main: Ref, t: Ref, u: Ref, c: Color)
    requires RootOk(h, root, main) && t in h && h[t].body.Thread? && h[t].body.open != [] && u in h
          && h[u].body.OpenUpval? && u != t
    ensures StrAgree(h, Closed(h, t, u, c)) && UdataAgree(h, Closed(h, t, u, c))
          && RootOk(Closed(h, t, u, c), [u] + root, main)
  {
    MainThere(h, root, main);
    NoDupFront(u, root);
  }

  // ----- Userdata with finalizers -----

  /** Userdata i moves to the end of the list of those to be finalized. */
  lemma SetApart(strHash: nat -> nat, h: Heap, ls: Lists, main: Ref, i: nat)
    requires Structure(strHash, h, ls, main) && i < |ls.udata|
    ensures ls.udata[i] in h
    ensures Structure(strHash, h[ls.udata[i] := h[ls.udata[i]].(bit3 := true)],
                      ls.(udata := Without(ls.udata, i), tmu := ls.tmu + [ls.udata[i]]), main)
  {
    var u := ls.udata[i];
    assert u in h && h[u].body.Udata?;
    var k := h[u := h[u].(bit3 := true)];
    FinalizedFrames(h, u);
    FramesStructure(strHash, h, k, ls, main);
    hide StringsOk, Interned, RootOk, UpvalsOk;
    SetApartList(k, ls.udata, ls.tmu, i);
  }

  lemma SetApartList(k: Heap, udata: seq<Ref>, tmu: seq<Ref>, i: nat)
    requires UdataOk(k, udata, tmu) && i < |udata| && k[udata[i]].bit3
    ensures UdataOk(k, Without(udata, i), tmu + [udata[i]])
  {
    var all, u := udata + tmu, udata[i];
    assert all[i] == u;
    WithoutElements(all, i);
    assert Without(all, i) == Without(udata, i) + tmu;
    assert Without(udata, i) + (tmu + [u]) == Without(all, i) + [u];
    assert forall x :: x in udata || x in tmu <==> x in all;
    assert forall x :: x in Without(udata, i) || x in tmu + [u] <==> x in Without(all, i) || x == u;
  }

  lemma FinalizedFrames(h: Heap, u: Ref)
    requires u in h && h[u].body.Udata?
    ensures SameFrames(h, h[u := h[u].(bit3 := true)])
  {
  }

  /** The first of them goes back to the list of userdata. */
  lemma TakeBack(strHash: nat -> nat, h: Heap, ls: Lists, main: Ref)
    requires Structure(strHash, h, ls, main) && ls.tmu != []
    ensures Structure(strHash, h, ls.(udata := [ls.tmu[0]] + ls.udata, tmu := ls.tmu[1..]), main)
  {
    hide StringsOk, Interned, RootOk, UpvalsOk;
    var u := ls.tmu[0];
    var all := ls.udata + ls.tmu;
    var i := |ls.udata|;
    WithoutElements(all, i);
    assert Without(all, i) == ls.udata + ls.tmu[1..];
    NoDupFront(u, Without(all, i));
    assert ([u] + ls.udata) + ls.tmu[1..] == [u] + Without(all, i);
    assert forall x :: x in ls.tmu <==> x == u || x in ls.tmu[1..] by { assert ls.tmu == [u] + ls.tmu[1..]; }
  }
}
