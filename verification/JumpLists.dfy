/** Jump lists threaded through the operands of the jumps themselves. */
module JumpLists {
  import opened LuaMachine
  import opened CodeGen

  const NO_JUMP: int := -1

  /** Code as it is stored: a jump's operand is relative to the next instruction. */
  type RawCode = seq<Instr<int>>

  /** The list starts at head; each jump leads to the next, and an operand of
      NO_JUMP (a jump to itself) ends the list. */
  ghost predicate IsChain(c: RawCode, head: int, list: seq<int>)
    decreases |list|
  {
    if list == [] then head == NO_JUMP
    else
      && head == list[0] && 0 <= head < |c| && c[head].Jmp?
      && (c[head].to == NO_JUMP <==> |list| == 1)
      && IsChain(c, if c[head].to == NO_JUMP then NO_JUMP else head + 1 + c[head].to, list[1..])
  }

  function Next(c: RawCode, pc: int): int
    requires 0 <= pc < |c| && c[pc].Jmp?
  {
    if c[pc].to == NO_JUMP then NO_JUMP else pc + 1 + c[pc].to
  }

  lemma {:induction false} ChainJumps(c: RawCode, head: int, list: seq<int>)
    requires IsChain(c, head, list)
    ensures forall j :: j in list ==> 0 <= j < |c| && c[j].Jmp?
    decreases |list|
  {
    if list != [] {
      assert list == [list[0]] + list[1..];
      ChainJumps(c, Next(c, head), list[1..]);
    }
  }

  /** A list depends only on its own jumps. */
  lemma {:induction false} ChainKept(c: RawCode, d: RawCode, head: int, list: seq<int>)
    requires IsChain(c, head, list) && forall j :: j in list && 0 <= j < |c| ==> j < |d| && d[j] == c[j]
    ensures IsChain(d, head, list)
    decreases |list|
  {
    if list != [] {
      assert list[0] in list && forall j :: j in list[1..] ==> j in list;
      ChainKept(c, d, Next(c, head), list[1..]);
    }
  }

  /** From one place only one list starts. */
  lemma {:induction false} ChainUnique(c: RawCode, head: int, a: seq<int>, b: seq<int>)
    requires IsChain(c, head, a) && IsChain(c, head, b)
    ensures a == b
    decreases |a|
  {
    if a != [] && b != [] {
      ChainUnique(c, Next(c, head), a[1..], b[1..]);
      assert a == [a[0]] + a[1..] && b == [b[0]] + b[1..];
    }
  }

  lemma {:induction false} ChainSuffix(c: RawCode, head: int, list: seq<int>, i: nat)
    requires IsChain(c, head, list) && i < |list|
    ensures IsChain(c, list[i], list[i..])
    decreases i
  {
    if 0 < i {
      ChainSuffix(c, Next(c, head), list[1..], i - 1);
      assert list[1..][i - 1..] == list[i..];
    }
  }

  ghost predicate Distinct(list: seq<int>) {
    forall i, j :: 0 <= i < j < |list| ==> list[i] != list[j]
  }

  /** No jump is twice in its list, so following the list ends. */
  lemma ChainDistinct(c: RawCode, head: int, list: seq<int>)
    requires IsChain(c, head, list)
    ensures Distinct(list)
  {
    forall i, j | 0 <= i < j < |list| ensures list[i] != list[j] {
      ChainSuffix(c, head, list, i);
      ChainSuffix(c, head, list, j);
      if list[i] == list[j] {
        assert |list[i..]| == |list| - i && |list[j..]| == |list| - j;
        ChainUnique(c, list[i], list[i..], list[j..]);
      }
    }
  }

  /** The jump at pc redirected to dest. */
  function Fix(pc: int, dest: int): Instr<int> {
    Jmp(dest - (pc + 1))
  }

  /** Redirecting the end of a list to the start of another joins them. */
  lemma {:induction false} ChainAppend(c: RawCode, head: int, a: seq<int>, b: seq<int>, other: int)
    requires IsChain(c, head, a) && a != [] && IsChain(c, other, b) && b != []
    requires forall j :: j in a ==> j !in b
    requires 0 <= a[|a| - 1] < |c|
    ensures IsChain(c[a[|a| - 1] := Fix(a[|a| - 1], other)], head, a + b)
    decreases |a|
  {
    var z := a[|a| - 1];
    var d := c[z := Fix(z, other)];
    assert (a + b)[0] == head && (a + b)[1..] == a[1..] + b;
    if |a| == 1 {
      assert a[0] in a && b[0] in b;
      ChainKept(c, d, other, b);
      assert a[1..] + b == b;
    } else {
      ChainDistinct(c, head, a);
      assert a[1..][|a[1..]| - 1] == z;
      forall j | j in a[1..] ensures j !in b { assert j in a; }
      ChainAppend(c, Next(c, head), a[1..], b, other);
    }
  }

  // ----- Patching a threaded list -----

  function RawPatchAt(c: RawCode, list: seq<int>, vtarget: int, reg: int, dtarget: int, i: int): Instr<int>
    requires 0 <= i < |c|
  {
    if i in list then Fix(i, if HasValue(c, i) then vtarget else dtarget)
    else if c[i].TestSet? && i + 1 in list then Settle(c[i], reg)
    else c[i]
  }

  /** d is c with every jump of the list sent to its target. */
  ghost predicate Patched(c: RawCode, d: RawCode, list: seq<int>, vtarget: int, reg: int, dtarget: int) {
    |d| == |c| && forall i :: 0 <= i < |c| ==> d[i] == RawPatchAt(c, list, vtarget, reg, dtarget, i)
  }

  /** What one turn of the patching loop does to the jump at p. */
  ghost function PatchOne(c: RawCode, p: int, vtarget: int, reg: int, dtarget: int): RawCode
    requires 0 <= p < |c|
  {
    if HasValue(c, p) then c[p - 1 := Settle(c[p - 1], reg)][p := Fix(p, vtarget)] else c[p := Fix(p, dtarget)]
  }

  lemma PatchStep(c: RawCode, b: RawCode, d: RawCode, l: seq<int>, n: nat, vtarget: int, reg: int, dtarget: int)
    requires n < |l| && Distinct(l) && (forall j :: j in l ==> 0 <= j < |c| && c[j].Jmp?)
    requires Patched(c, b, l[..n], vtarget, reg, dtarget) && 0 <= l[n] < |c|
    requires d == PatchOne(b, l[n], vtarget, reg, dtarget)
    ensures Patched(c, d, l[..n + 1], vtarget, reg, dtarget)
  {
    var p := l[n];
    assert p in l && l[..n + 1] == l[..n] + [p] && p !in l[..n];
    assert 1 <= p ==> b[p - 1] == RawPatchAt(c, l[..n], vtarget, reg, dtarget, p - 1);
    forall i | 0 <= i < |c| ensures d[i] == RawPatchAt(c, l[..n + 1], vtarget, reg, dtarget, i) {
      assert b[i] == RawPatchAt(c, l[..n], vtarget, reg, dtarget, i);
      assert i in l[..n] ==> i in l;
      assert i + 1 in l[..n + 1] <==> i + 1 in l[..n] || i + 1 == p;
    }
  }

  lemma RestOfChain(b: RawCode, d: RawCode, p: int, next: int, l: seq<int>, n: nat)
    requires n < |l| && Distinct(l) && IsChain(b, p, l[n..]) && next == Next(b, p) && |d| == |b|
    requires forall i :: 0 <= i < |b| && b[i].Jmp? && i != p ==> d[i] == b[i]
    ensures IsChain(d, next, l[n + 1..])
  {
    assert l[n..][1..] == l[n + 1..];
    ChainJumps(b, next, l[n + 1..]);
    ChainKept(b, d, next, l[n + 1..]);
  }
}
