/** The heap of a garbage-collected Lua state: objects, their references, and
    what marking does to them. */
module GcHeap {

  type Ref = nat

  datatype Value = Nil | Plain(n: nat) | Ptr(r: Ref)

  /** Two whites, so that new objects can be told from dead ones. */
  datatype Color = White(bit: bool) | Gray | Black

  datatype Entry = Entry(key: Value, val: Value)

  datatype Body =
    | Str(content: nat)
    | Udata(umeta: Value, uenv: Value)
    | OpenUpval(thread: Ref, level: nat)
    | ClosedUpval(value: Value)
    | Closure(held: seq<Value>)
    | Table(meta: Value, arr: seq<Value>, nodes: seq<Entry>)
    | Thread(globals: Value, stack: seq<Value>, open: seq<Ref>)
    | Proto(names: seq<Value>, constants: seq<Value>)

  /** The mark bits of an object and its contents. Bit 3 says finalized for a
      userdata and weak keys for a table, bit 4 weak values. */
  datatype GCObject = GCObject(color: Color, fixed: bool, bit3: bool, bit4: bool, body: Body)

  type Heap = map<Ref, GCObject>

  predicate IsWhite(h: Heap, r: Ref) {
    r in h && h[r].color.White?
  }

  predicate Marked(h: Heap, r: Ref) {
    r in h && !h[r].color.White?
  }

  /** Objects that wait in a list to be traversed. */
  predicate Traversable(b: Body) {
    b.Closure? || b.Table? || b.Thread? || b.Proto?
  }

  function Painted(h: Heap, r: Ref, c: Color): Heap
    requires r in h
  {
    h[r := h[r].(color := c)]
  }

  // ----- References -----

  /** The stack slot of an open upvalue. */
  function SlotValue(h: Heap, t: Ref, l: nat): Value {
    if t in h && h[t].body.Thread? && l < |h[t].body.stack| then h[t].body.stack[l] else Nil
  }

  predicate EntryRefers(e: Entry, x: Ref) {
    e.val != Nil && (e.key == Ptr(x) || e.val == Ptr(x))
  }

  /** An object with body b refers to object x. Emptied entries hold nothing. */
  ghost predicate Refers(h: Heap, b: Body, x: Ref) {
    match b
    case Str(_) => false
    case Udata(m, e) => m == Ptr(x) || e == Ptr(x)
    case OpenUpval(t, l) => SlotValue(h, t, l) == Ptr(x)
    case ClosedUpval(v) => v == Ptr(x)
    case Closure(vs) => Ptr(x) in vs
    case Table(m, arr, nodes) => m == Ptr(x) || Ptr(x) in arr
          || exists i :: 0 <= i < |nodes| && EntryRefers(nodes[i], x)
    case Thread(g, stack, _) => g == Ptr(x) || Ptr(x) in stack
    case Proto(names, ks) => Ptr(x) in names || Ptr(x) in ks
  }

  /** A table refers to x in a part that is not weak. */
  ghost predicate StronglyRefers(b: Body, weakKey: bool, weakVal: bool, x: Ref)
    requires b.Table?
  {
    || b.meta == Ptr(x)
    || (!weakVal && Ptr(x) in b.arr)
    || exists i :: 0 <= i < |b.nodes| && b.nodes[i].val != Nil
         && ((!weakKey && b.nodes[i].key == Ptr(x)) || (!weakVal && b.nodes[i].val == Ptr(x)))
  }

  /** Everything r refers to is marked. */
  ghost predicate Clean(h: Heap, r: Ref)
    requires r in h
  {
    forall x :: Refers(h, h[r].body, x) ==> Marked(h, x)
  }

  ghost predicate StrongClean(h: Heap, r: Ref)
    requires r in h
  {
    h[r].body.Table? && forall x :: StronglyRefers(h[r].body, h[r].bit3, h[r].bit4, x) ==> Marked(h, x)
  }

  /** Each marked object waits in s, or refers to marked objects only, or, in w,
      does so where it is not weak. */
  ghost predicate Covered(h: Heap, s: set<Ref>, w: set<Ref>) {
    forall r :: Marked(h, r) ==> r in s || Clean(h, r) || (r in w && StrongClean(h, r))
  }

  /** All references lead to objects. */
  ghost predicate NoDangling(h: Heap) {
    forall r, x :: r in h && Refers(h, h[r].body, x) ==> x in h
  }

  // ----- Marking -----

  function ToSet(s: seq<Ref>): set<Ref> {
    set r | r in s
  }

  ghost predicate NoDup(s: seq<Ref>) {
    forall i, j :: 0 <= i < j < |s| ==> s[i] != s[j]
  }

  /** Only colours differ, and marked objects keep theirs. */
  ghost predicate Extends(h: Heap, k: Heap) {
    && k.Keys == h.Keys
    && forall r :: r in h ==>
         && k[r].body == h[r].body && k[r].fixed == h[r].fixed && k[r].bit3 == h[r].bit3 && k[r].bit4 == h[r].bit4
         && (k[r].color == h[r].color || (h[r].color.White? && !k[r].color.White?))
  }

  predicate NewlyMarked(h: Heap, k: Heap, r: Ref) {
    IsWhite(h, r) && Marked(k, r)
  }

  /** The colour of an object that has been marked and is not to be traversed. */
  function DoneColor(b: Body): Color {
    if b.Str? || b.OpenUpval? then Gray else Black
  }

  ghost predicate MarkedWell(h: Heap, gray: seq<Ref>, r: Ref)
    requires r in h
  {
    if Traversable(h[r].body) then h[r].color == Gray && r in gray
    else h[r].color == DoneColor(h[r].body) && Clean(h, r)
  }

  /** Marking has gone on from heap h and gray list g, except that the objects
      of xs still need something. */
  ghost predicate Advance(h: Heap, g: seq<Ref>, k: Heap, g': seq<Ref>, xs: set<Ref>) {
    && Extends(h, k)
    && |g| <= |g'| && g'[|g'| - |g|..] == g
    && NoDup(g'[..|g'| - |g|]) && (forall r :: r in g'[..|g'| - |g|] ==> NewlyMarked(h, k, r) && Traversable(k[r].body))
    && forall r :: NewlyMarked(h, k, r) ==> r in xs || MarkedWell(k, g', r)
  }

  lemma RefersSame(h: Heap, k: Heap, r: Ref, x: Ref)
    requires Extends(h, k) && r in h
    ensures Refers(h, h[r].body, x) == Refers(k, k[r].body, x)
  {
  }

  lemma CleanKept(h: Heap, k: Heap, r: Ref)
    requires Extends(h, k) && r in h && Clean(h, r)
    ensures Clean(k, r)
  {
    forall x | Refers(k, k[r].body, x) ensures Marked(k, x) { RefersSame(h, k, r, x); }
  }

  lemma StrongCleanKept(h: Heap, k: Heap, r: Ref)
    requires Extends(h, k) && r in h && StrongClean(h, r)
    ensures StrongClean(k, r)
  {
    hide StronglyRefers;
  }

  lemma NoDanglingKept(h: Heap, k: Heap)
    requires Extends(h, k) && NoDangling(h)
    ensures NoDangling(k)
  {
    forall r, x | r in k && Refers(k, k[r].body, x) ensures x in k { RefersSame(h, k, r, x); }
  }

  lemma AdvanceRefl(h: Heap, g: seq<Ref>)
    ensures Advance(h, g, h, g, {})
  {
    assert g[|g| - |g|..] == g && g[..|g| - |g|] == [];
  }

  lemma ExtendsTrans(h: Heap, k: Heap, l: Heap)
    requires Extends(h, k) && Extends(k, l)
    ensures Extends(h, l)
  {
  }

  lemma MarkedWellKept(h: Heap, g: seq<Ref>, k: Heap, g': seq<Ref>, r: Ref)
    requires Extends(h, k) && r in h && Marked(h, r) && MarkedWell(h, g, r) && forall x :: x in g ==> x in g'
    ensures MarkedWell(k, g', r)
  {
    hide Clean;
    if !Traversable(h[r].body) { CleanKept(h, k, r); }
  }

  lemma AdvanceTrans(h: Heap, g: seq<Ref>, k: Heap, g': seq<Ref>, l: Heap, g'': seq<Ref>, xs: set<Ref>, ys: set<Ref>)
    requires Advance(h, g, k, g', xs) && Advance(k, g', l, g'', ys)
    ensures Advance(h, g, l, g'', xs + ys)
  {
    hide MarkedWell;
    ExtendsTrans(h, k, l);
    AdvanceLists(h, g, k, g', l, g'', xs, ys);
    forall r | NewlyMarked(h, l, r) ensures r in xs + ys || MarkedWell(l, g'', r) {
      if NewlyMarked(h, k, r) && r !in xs {
        forall x | x in g' ensures x in g'' { assert x in g''[|g''| - |g'|..]; }
        MarkedWellKept(k, g', l, g'', r);
      }
    }
  }

  lemma AdvanceLists(h: Heap, g: seq<Ref>, k: Heap, g': seq<Ref>, l: Heap, g'': seq<Ref>, xs: set<Ref>, ys: set<Ref>)
    requires Advance(h, g, k, g', xs) && Advance(k, g', l, g'', ys) && Extends(h, l)
    ensures |g| <= |g''| && g''[|g''| - |g|..] == g
    ensures NoDup(g''[..|g''| - |g|]) && forall r :: r in g''[..|g''| - |g|] ==>
          NewlyMarked(h, l, r) && Traversable(l[r].body)
  {
    hide MarkedWell;
    var a, b := g'[..|g'| - |g|], g''[..|g''| - |g'|];
    assert g' == a + g && g'' == b + g';
    assert g'' == (b + a) + g;
    assert g''[..|g''| - |g|] == b + a;
    forall r | r in b ensures NewlyMarked(h, l, r) && Traversable(l[r].body) && r !in a {
      assert NewlyMarked(k, l, r) && r in h;
    }
    forall r | r in a ensures NewlyMarked(h, l, r) && Traversable(l[r].body) {
      assert NewlyMarked(h, k, r) && r in h;
    }
    forall i, j | 0 <= i < j < |b + a| ensures (b + a)[i] != (b + a)[j] {
      if i < |b| <= j { assert (b + a)[i] in b && (b + a)[j] in a; }
    }
  }

  /** The exceptions are done. */
  lemma AdvanceDone(h: Heap, g: seq<Ref>, k: Heap, g': seq<Ref>, xs: set<Ref>)
    requires Advance(h, g, k, g', xs)
    requires forall r :: r in xs && NewlyMarked(h, k, r) ==> MarkedWell(k, g', r)
    ensures Advance(h, g, k, g', {})
  {
    hide MarkedWell;
  }

  /** One object gets a colour. */
  lemma AdvancePaint(h: Heap, g: seq<Ref>, r: Ref, c: Color)
    requires IsWhite(h, r) && !c.White?
    ensures Advance(h, g, Painted(h, r, c), g, {r})
  {
    assert g[|g| - |g|..] == g && g[..|g| - |g|] == [];
  }

  /** One object goes to the gray list. */
  lemma AdvanceGray(h: Heap, g: seq<Ref>, r: Ref)
    requires IsWhite(h, r) && Traversable(h[r].body)
    ensures Advance(h, g, Painted(h, r, Gray), [r] + g, {})
  {
    var k, g' := Painted(h, r, Gray), [r] + g;
    assert g'[|g'| - |g|..] == g && g'[..|g'| - |g|] == [r];
  }

  function Whites(h: Heap): set<Ref> {
    set r | r in h && h[r].color.White?
  }

  lemma WhitesShrink(h: Heap, k: Heap)
    requires Extends(h, k)
    ensures Whites(k) <= Whites(h)
  {
  }
}
