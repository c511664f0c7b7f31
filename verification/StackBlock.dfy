/** The stack of a thread as a block of memory. A resize may move the block, and then every
    pointer into it moves along (src/c/lua/ldo.c, src/c/lua/lgc.c). */
module StackBlock {
  import opened Calls

  const BASIC_STACK_SIZE: nat := 2 * LUA_MINSTACK

  /** The pointers of a frame; an address stands for one slot. */
  datatype Frame = Frame(func: int, base: int, top: int)

  /** All frames have moved along by d. */
  ghost predicate Shifted(fs: seq<Frame>, gs: seq<Frame>, d: int) {
    |gs| == |fs| && forall i :: 0 <= i < |fs| ==> gs[i] == Frame(fs[i].func + d, fs[i].base + d, fs[i].top + d)
  }

  type Cells = map<int, Value>

  predicate InBlock(a: int, from: int, n: nat) {
    from <= a < from + n
  }

  function Block(from: int, n: nat): set<int> {
    set a: int | from <= a < from + n && InBlock(a, from, n)
  }

  ghost predicate HasBlock(cells: Cells, from: int, n: nat) {
    forall a :: InBlock(a, from, n) ==> a in cells
  }

  /** No block but the one given is where the new one would be. */
  ghost predicate CanPlace(cells: Cells, from: int, n: nat, to: int, m: nat) {
    forall a :: a in cells && InBlock(a, to, m) ==> InBlock(a, from, n)
  }

  /** A block has another size and place; its values came along, all others have stayed. */
  ghost predicate Resized(cells: Cells, from: int, n: nat, cells': Cells, to: int, m: nat) {
    && HasBlock(cells, from, n) && HasBlock(cells', to, m)
    && (forall a :: InBlock(a, to, m) && a - to < n ==> cells'[a] == cells[a - to + from])
    && (forall a :: a in cells && !InBlock(a, from, n) ==> a in cells' && cells'[a] == cells[a])
    && (forall a :: a in cells' && !InBlock(a, to, m) ==> a in cells && !InBlock(a, from, n))
  }

  /** The values in a block. */
  ghost function Slots(cells: Cells, from: int, n: nat): (s: seq<Value>)
    requires HasBlock(cells, from, n)
    ensures |s| == n
  {
    if n == 0 then []
    else
      assert InBlock(from + n - 1, from, n) && forall a :: InBlock(a, from, n - 1) ==> InBlock(a, from, n);
      Slots(cells, from, n - 1) + [cells[from + n - 1]]
  }

  lemma {:induction false} SlotsResized(cells: Cells, from: int, n: nat, cells': Cells, to: int, m: nat, k: nat)
    requires Resized(cells, from, n, cells', to, m) && k <= n && k <= m
    requires HasBlock(cells, from, k) && HasBlock(cells', to, k)
    ensures Slots(cells, from, k) == Slots(cells', to, k)
  {
    if k > 0 {
      assert InBlock(to + k - 1, to, m);
      assert InBlock(from + k - 1, from, n);
      SlotsResized(cells, from, n, cells', to, m, k - 1);
    }
  }

  /** A pointer into the block reads the same after it has moved along. */
  lemma SlotAt(cells: Cells, from: int, n: nat, cells': Cells, to: int, m: nat, a: int, b: int)
    requires Resized(cells, from, n, cells', to, m) && from <= a < from + n && to <= b < to + m && b - to == a - from
    ensures a in cells && b in cells' && cells'[b] == cells[a]
  {
    assert InBlock(a, from, n) && InBlock(b, to, m);
    assert b - to + from == a;
  }

  /** These frames point into the first n slots of the block. */
  ghost predicate FramesWithin(fs: seq<Frame>, stack: int, n: int) {
    forall f :: f in fs ==> stack <= f.func <= f.base <= f.top <= stack + n
  }

  lemma WithinShifted(fs: seq<Frame>, gs: seq<Frame>, stack: int, n: int, d: int)
    requires FramesWithin(fs, stack, n) && Shifted(fs, gs, d)
    ensures FramesWithin(gs, stack + d, n)
  {
    forall g | g in gs ensures stack + d <= g.func <= g.base <= g.top <= stack + d + n {
      var i :| 0 <= i < |gs| && gs[i] == g;
      assert fs[i] in fs;
    }
  }

  lemma {:induction false} SlotsPrefix(cells: Cells, from: int, n: nat, k: nat)
    requires HasBlock(cells, from, n) && k <= n && HasBlock(cells, from, k)
    ensures Slots(cells, from, n)[..k] == Slots(cells, from, k)
  {
    if k < n {
      assert forall a :: InBlock(a, from, n - 1) ==> InBlock(a, from, n);
      SlotsPrefix(cells, from, n - 1, k);
    }
  }

  /** A block that has grown begins with what it held. */
  lemma GrownSlots(cells: Cells, from: int, n: nat, cells': Cells, to: int, m: nat, k: nat, l: nat)
    requires Resized(cells, from, n, cells', to, m) && k <= n && k <= l <= m
    requires HasBlock(cells, from, k) && HasBlock(cells', to, l)
    ensures Slots(cells', to, l)[..k] == Slots(cells, from, k)
  {
    assert HasBlock(cells', to, k) by {
      assert forall a :: InBlock(a, to, k) ==> InBlock(a, to, l);
    }
    SlotsPrefix(cells', to, l, k);
    SlotsResized(cells, from, n, cells', to, m, k);
  }

  lemma FirstSlots(cells: Cells, from: int, n: nat, k: nat)
    requires HasBlock(cells, from, n) && k <= n
    ensures HasBlock(cells, from, k)
  {
    assert forall a :: InBlock(a, from, k) ==> InBlock(a, from, n);
  }

  lemma Unmoved(cells: Cells, from: int, n: nat)
    requires HasBlock(cells, from, n)
    ensures Resized(cells, from, n, cells, from, n)
  {
  }

  lemma NewBlock(cells: Cells, from: int, n: nat, cells': Cells, to: int, m: nat)
    requires Resized(cells, from, n, cells', to, m)
    ensures HasBlock(cells', to, m)
  {
  }

  lemma InCells(cells: Cells, from: int, n: nat, a: int)
    requires HasBlock(cells, from, n) && from <= a < from + n
    ensures a in cells
  {
    assert InBlock(a, from, n);
  }

  lemma MoreWithin(fs: seq<Frame>, stack: int, n: int, m: int)
    requires FramesWithin(fs, stack, n) && n <= m
    ensures FramesWithin(fs, stack, m)
  {
  }

  class Memory {
    var cells: Cells

    /** luaM_realloc, with the place the allocator finds; new slots have any values. */
    method Realloc(from: int, n: nat, to: int, m: nat, junk: int -> Value)
      requires HasBlock(cells, from, n) && CanPlace(cells, from, n, to, m)
      modifies this
      ensures Resized(old(cells), from, n, cells, to, m)
    {
      cells := map a | a in cells.Keys - Block(from, n) + Block(to, m) ::
        if !InBlock(a, to, m) then cells[a] else if a - to < n then cells[a - to + from] else junk(a);
    }
  }

  /** An open upvalue: v points into the stack. */
  class UpVal {
    var v: int
    var next: UpVal?
  }

  /** The upvalues linked from the first one on, when nexts are their links. */
  ghost predicate Links(first: UpVal?, us: seq<UpVal>, nexts: seq<UpVal?>) {
    && |nexts| == |us| && first == (if us == [] then null else us[0])
    && forall i :: 0 <= i < |us| ==> nexts[i] == if i + 1 < |us| then us[i + 1] else null
  }

  ghost function Nexts(us: seq<UpVal>): (ns: seq<UpVal?>)
    reads us
    ensures |ns| == |us| && forall i :: 0 <= i < |us| ==> ns[i] == us[i].next
  {
    if us == [] then [] else [us[0].next] + Nexts(us[1..])
  }

  ghost predicate Linked(first: UpVal?, us: seq<UpVal>)
    reads us
  {
    Links(first, us, Nexts(us))
  }

  lemma LinkedNexts(first: UpVal?, us: seq<UpVal>)
    requires Linked(first, us)
    ensures Links(first, us, Nexts(us)) && first == if us == [] then null else us[0]
  {
  }

  lemma LinkAt(first: UpVal?, us: seq<UpVal>, nexts: seq<UpVal?>, i: nat)
    requires Links(first, us, nexts) && i < |us|
    ensures nexts[i] == if i + 1 < |us| then us[i + 1] else null
  {
  }

  lemma StillLinked(first: UpVal?, us: seq<UpVal>, nexts: seq<UpVal?>)
    requires Links(first, us, nexts) && forall i :: 0 <= i < |us| ==> us[i].next == nexts[i]
    ensures Linked(first, us)
  {
    assert Nexts(us) == nexts;
  }

  ghost predicate Descending(us: seq<UpVal>)
    reads us
  {
    forall i, j :: 0 <= i < j < |us| ==> us[i].v > us[j].v
  }

  ghost predicate Distinct(us: seq<UpVal>) {
    forall i, j :: 0 <= i < j < |us| ==> us[i] != us[j]
  }

  ghost function Levels(us: seq<UpVal>): (vs: seq<int>)
    reads us
    ensures |vs| == |us| && forall i :: 0 <= i < |us| ==> vs[i] == us[i].v
  {
    if us == [] then [] else [us[0].v] + Levels(us[1..])
  }

  ghost predicate Ordered(vs: seq<int>) {
    forall i, j :: 0 <= i < j < |vs| ==> vs[i] > vs[j]
  }

  lemma StillDescending(us: seq<UpVal>, vs: seq<int>, d: int)
    requires |vs| == |us| && Ordered(vs) && forall i :: 0 <= i < |us| ==> us[i].v == vs[i] + d
    ensures Descending(us)
  {
  }

  lemma DescendingLevels(us: seq<UpVal>)
    requires Descending(us)
    ensures Distinct(us) && Ordered(Levels(us))
  {
  }

  lemma Apart(us: seq<UpVal>, i: nat)
    requires Distinct(us) && i < |us|
    ensures forall j :: 0 <= j < |us| && j != i ==> us[j] != us[i]
  {
  }

  class LuaThread {
    const mem: Memory
    var stack: int
    var stackSize: nat
    var stackLast: int
    var top: int
    var base: int
    /** The frames up to the current one. */
    var calls: seq<Frame>
    /** The open upvalues are linked from the highest slot to the lowest. */
    var openUpval: UpVal?
    ghost var ups: seq<UpVal>

    /** All pointers are into the first n slots; a top may be right after them. */
    ghost predicate Within(n: int)
      reads this, ups
    {
      && stack <= base <= top <= stack + n
      && FramesWithin(calls, stack, n)
      && forall u :: u in ups ==> stack <= u.v < stack + n
    }

    ghost predicate Valid()
      reads this, mem, ups
    {
      && EXTRA_STACK < stackSize && stackLast == stack + stackSize - EXTRA_STACK - 1
      && HasBlock(mem.cells, stack, stackSize) && Within(stackSize - 1)
      && Linked(openUpval, ups) && Descending(ups)
    }

    /** The slots up to stack_last. */
    ghost function Contents(): (s: seq<Value>)
      requires Valid()
      reads this, mem, ups
      ensures |s| == stackLast - stack
    {
      FirstSlots(mem.cells, stack, stackSize, stackSize - EXTRA_STACK - 1);
      Slots(mem.cells, stack, stackSize - EXTRA_STACK - 1)
    }

    /** stack_init: a new block with the first frame. */
    constructor (mem: Memory, to: int, junk: int -> Value)
      requires CanPlace(mem.cells, to, 0, to, BASIC_STACK_SIZE + EXTRA_STACK)
      modifies mem
      ensures Valid() && this.mem == mem && stack == to && stackSize == BASIC_STACK_SIZE + EXTRA_STACK && ups == []
      ensures calls == [Frame(to, to + 1, to + 1 + LUA_MINSTACK)] && base == to + 1 == top && mem.cells[to] == Nil
    {
      this.mem, stack, stackSize := mem, to, BASIC_STACK_SIZE + EXTRA_STACK;
      stackLast, top, base := to + BASIC_STACK_SIZE - 1, to + 1, to + 1;
      calls := [Frame(to, to + 1, to + 1 + LUA_MINSTACK)];
      openUpval, ups := null, [];
      new;
      mem.Realloc(to, 0, to, stackSize, junk);
      assert InBlock(to, to, stackSize);
      mem.cells := mem.cells[to := Nil];
    }

    /** Sets every pointer into the old block to the same slot of the new one. */
    method CorrectStack(oldStack: int)
      requires Linked(openUpval, ups) && Descending(ups)
      modifies this`top, this`base, this`calls, ups
      ensures Linked(openUpval, ups) && Descending(ups)
      ensures top == old(top) + (stack - oldStack) && base == old(base) + (stack - oldStack)
      ensures Shifted(old(calls), calls, stack - oldStack)
      ensures forall u :: u in ups ==> u.v == old(u.v) + (stack - oldStack)
    {
      hide Linked, Descending, Shifted;
      top := (top - oldStack) + stack;
      CorrectUpvals(oldStack);
      CorrectFrames(oldStack);
      base := (base - oldStack) + stack;
    }

    method CorrectUpvals(oldStack: int)
      requires Linked(openUpval, ups) && Descending(ups)
      modifies ups
      ensures Linked(openUpval, ups) && Descending(ups)
      ensures forall u :: u in ups ==> u.v == old(u.v) + (stack - oldStack)
    {
      hide Descending, Linked, Links, Ordered, Distinct, Levels, Nexts;
      ghost var vs, nexts := Levels(ups), Nexts(ups);
      DescendingLevels(ups);
      LinkedNexts(openUpval, ups);
      var up := openUpval;
      ghost var i := 0;
      while up != null
        invariant i <= |ups| && up == if i < |ups| then ups[i] else null
        invariant forall j :: 0 <= j < |ups| ==> ups[j].next == nexts[j]
        invariant forall j :: 0 <= j < |ups| ==> ups[j].v == if j < i then vs[j] + (stack - oldStack) else vs[j]
        decreases |ups| - i
      {
        LinkAt(openUpval, ups, nexts, i);
        Apart(ups, i);
        up.v := (up.v - oldStack) + stack;
        up := up.next;
        i := i + 1;
      }
      StillLinked(openUpval, ups, nexts);
      StillDescending(ups, vs, stack - oldStack);
    }

    method CorrectFrames(oldStack: int)
      modifies this`calls
      ensures Shifted(old(calls), calls, stack - oldStack)
    {
      var c := 0;
      while c < |calls|
        invariant c <= |calls| == |old(calls)| && Shifted(old(calls)[..c], calls[..c], stack - oldStack)
        invariant calls[c..] == old(calls)[c..]
      {
        var f := calls[c];
        calls := calls[c := Frame((f.func - oldStack) + stack, (f.base - oldStack) + stack,
              (f.top - oldStack) + stack)];
        c := c + 1;
      }
    }

    /** What moving the block leaves as it was: all pointers are at their slots, all slots keep
        their values, and so does the rest of the memory. */
    twostate predicate Moved()
      reads this, mem, ups
    {
      var d := stack - old(stack);
      && ups == old(ups) && openUpval == old(openUpval)
      && top == old(top) + d && base == old(base) + d && Shifted(old(calls), calls, d)
      && (forall u :: u in ups ==> u.v == old(u.v) + d)
      && Resized(old(mem.cells), old(stack), old(stackSize), mem.cells, stack, stackSize)
    }

    /** luaD_reallocstack: the allocator may move the block. Each upvalue, open or closed, reads
        the same afterwards. */
    method ReallocStack(newSize: nat, to: int, junk: int -> Value)
      requires Valid() && Within(newSize)
      requires CanPlace(mem.cells, stack, stackSize, to, newSize + 1 + EXTRA_STACK)
      modifies this, mem, ups
      ensures Valid() && stack == to && stackLast == stack + newSize && Moved()
      ensures forall u :: u in ups ==> u.v in mem.cells && mem.cells[u.v] == old(mem.cells)[old(u.v)]
    {
      hide Linked, Descending, Shifted, HasBlock, CanPlace, Resized, FramesWithin;
      var oldStack := stack;
      forall u | u in ups ensures u.v in mem.cells { InCells(mem.cells, stack, stackSize, u.v); }
      var realSize := newSize + 1 + EXTRA_STACK;
      mem.Realloc(stack, stackSize, to, realSize, junk);
      stack := to;
      stackSize := realSize;
      stackLast := stack + newSize;
      CorrectStack(oldStack);
      NewBlock(old(mem.cells), oldStack, old(stackSize), mem.cells, stack, stackSize);
      WithinShifted(old(calls), calls, old(stack), newSize, stack - oldStack);
      MoreWithin(calls, stack, newSize, stackSize - 1);
      forall u | u in ups ensures u.v in mem.cells && mem.cells[u.v] == old(mem.cells)[old(u.v)] {
        SlotAt(old(mem.cells), oldStack, old(stackSize), mem.cells, stack, realSize, old(u.v), u.v);
      }
    }

    /** luaD_growstack: twice the size, or more where that would not do. */
    method GrowStack(n: nat, to: int, junk: int -> Value)
      requires Valid()
      requires CanPlace(mem.cells, stack, stackSize, to,
            (if n <= stackSize then 2 * stackSize else stackSize + n) + 1 + EXTRA_STACK)
      modifies this, mem, ups
      ensures Valid() && stackLast - stack == (if n <= old(stackSize) then 2 * old(stackSize) else old(stackSize) + n)
            && Moved()
      ensures forall u :: u in ups ==> u.v in mem.cells && mem.cells[u.v] == old(mem.cells)[old(u.v)]
    {
      hide Linked, Descending, HasBlock, Resized, CanPlace;
      MoreWithin(calls, stack, stackSize - 1, if n <= stackSize then 2 * stackSize else stackSize + n);
      if n <= stackSize {
        ReallocStack(2 * stackSize, to, junk);
      } else {
        ReallocStack(stackSize + n, to, junk);
      }
    }

    /** luaD_checkstack: room for n more values. On the values up to stack_last and the distance
        of top it does just what it does on the sequences of Calls. */
    method CheckStack(n: nat, to: int, junk: int -> Value)
      requires Valid()
      requires CanPlace(mem.cells, stack, stackSize, to, Grown(stackLast - stack, top - stack, n) + 1 + EXTRA_STACK)
      modifies this, mem, ups
      ensures Valid() && Moved() && stackLast - top >= n
      ensures |Contents()| == Grown(|old(Contents())|, old(top - stack), n) >= |old(Contents())|
      ensures Contents()[..|old(Contents())|] == old(Contents())
      ensures forall u :: u in ups ==> u.v in mem.cells && mem.cells[u.v] == old(mem.cells)[old(u.v)]
    {
      hide Linked, Descending, HasBlock, CanPlace, Resized, Slots;
      ghost var cells0, stack0, size0 := mem.cells, stack, stackSize;
      ghost var k := size0 - EXTRA_STACK - 1;
      FirstSlots(cells0, stack0, size0, k);
      Unmoved(cells0, stack0, size0);
      forall u | u in ups ensures u.v in mem.cells { InCells(mem.cells, stack, stackSize, u.v); }
      if stackLast - top <= n { GrowStack(n, to, junk); }
      FirstSlots(mem.cells, stack, stackSize, stackSize - EXTRA_STACK - 1);
      GrownSlots(cells0, stack0, size0, mem.cells, stack, stackSize, k, stackSize - EXTRA_STACK - 1);
    }

    /** luaD_precall keeps its function pointer as a distance while the stack may move: the
        pointer it gets back reads the same. */
    method CheckKeeping(func: int, n: nat, to: int, junk: int -> Value) returns (f: int)
      requires Valid() && stack <= func < stackLast
      requires CanPlace(mem.cells, stack, stackSize, to, Grown(stackLast - stack, top - stack, n) + 1 + EXTRA_STACK)
      modifies this, mem, ups
      ensures Valid() && Moved() && stackLast - top >= n
      ensures f - stack == old(func - stack) && f in mem.cells && mem.cells[f] == old(mem.cells)[func]
      ensures forall u :: u in ups ==> u.v in mem.cells && mem.cells[u.v] == old(mem.cells)[old(u.v)]
    {
      hide Linked, Descending, HasBlock, CanPlace, Resized, Slots;
      var funcr := func - stack;
      CheckStack(n, to, junk);
      f := stack + funcr;
      SlotAt(old(mem.cells), old(stack), old(stackSize), mem.cells, stack, stackSize, func, f);
    }

    /** checkstacksizes: the collector halves a stack of which less than a quarter is in use. */
    method CheckStackSizes(max: int, to: int, junk: int -> Value)
      requires Valid() && Within(max - stack)
      requires CanPlace(mem.cells, stack, stackSize, to, stackSize / 2 + 1 + EXTRA_STACK)
      modifies this, mem, ups
      ensures Valid() && Moved() && Within(max - old(stack))
      ensures stackLast - stack == if 4 * (max - old(stack)) < old(stackSize)
            && 2 * (BASIC_STACK_SIZE + EXTRA_STACK) < old(stackSize)
                                   then old(stackSize) / 2 else old(stackLast - stack)
      ensures forall u :: u in ups ==> u.v in mem.cells && mem.cells[u.v] == old(mem.cells)[old(u.v)]
    {
      hide Linked, Descending, HasBlock, CanPlace, Resized;
      var used := max - stack;
      Unmoved(mem.cells, stack, stackSize);
      forall u | u in ups ensures u.v in mem.cells { InCells(mem.cells, stack, stackSize, u.v); }
      if 4 * used < stackSize && 2 * (BASIC_STACK_SIZE + EXTRA_STACK) < stackSize {
        MoreWithin(calls, stack, used, stackSize / 2);
        ReallocStack(stackSize / 2, to, junk);
        WithinShifted(old(calls), calls, old(stack), used, stack - old(stack));
      }
    }
  }
}
