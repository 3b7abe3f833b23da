/** The growable array of include/tinyxml2.h: a plain sequence with geometric growth, whose total
    copying cost stays below two elements per element pushed. */
module DynArray {

  const INT_MAX := 0x7FFF_FFFF

  /** What decides when elements are copied: the two sizes, and running totals of elements pushed and
      of elements copied by EnsureCapacity. */
  datatype Cost = Cost(size: nat, capacity: nat, pushed: nat, copied: nat)

  datatype Op = Push(count: nat) | Pop(count: nat) | Clear

  predicate Allowed(c: Cost, op: Op) {
    op.Pop? ==> op.count <= c.size
  }

  /** EnsureCapacity doubles the capacity that is asked for and copies what is in use. */
  function Ensured(c: Cost, cap: nat): Cost {
    if cap > c.capacity then c.(capacity := cap * 2, copied := c.copied + c.size) else c
  }

  function Apply(c: Cost, op: Op): Cost
    requires Allowed(c, op)
  {
    match op
    case Push(n) =>
      var e := Ensured(c, c.size + n);
      e.(size := e.size + n, pushed := e.pushed + n)
    case Pop(n) => c.(size := c.size - n)
    case Clear => c.(size := 0)
  }

  /** Elements are copied, and the capacity becomes twice the size asked for, exactly when a push does not fit. */
  lemma CopiesExactlyWhen(c: Cost, op: Op)
    requires Allowed(c, op)
    ensures var r, grows := Apply(c, op), op.Push? && c.size + op.count > c.capacity;
            && r.copied == (if grows then c.copied + c.size else c.copied)
            && r.capacity == (if grows then 2 * (c.size + op.count) else c.capacity)
            && r.pushed == (if op.Push? then c.pushed + op.count else c.pushed)
            && r.size == (if op.Push? then c.size + op.count else if op.Pop? then c.size - op.count else 0)
  {
  }

  ghost predicate RunsFrom(c: Cost, ops: seq<Op>)
    decreases |ops|
  {
    ops == [] || (Allowed(c, ops[0]) && RunsFrom(Apply(c, ops[0]), ops[1..]))
  }

  function After(c: Cost, ops: seq<Op>): Cost
    requires RunsFrom(c, ops)
    decreases |ops|
  {
    if ops == [] then c else After(Apply(c, ops[0]), ops[1..])
  }

  /** `cap` is the capacity last asked for (0 before the first growth) and `then` the number pushed by
      the end of that operation.  The elements in use beyond `cap` have been pushed since. */
  ghost predicate Paid(c: Cost, initial: nat, cap: nat, since: nat) {
    && c.capacity == (if cap == 0 then initial else 2 * cap)
    && since <= c.pushed && cap <= since
    && c.size <= cap + (c.pushed - since)
    && (if cap == 0 then c.copied == 0 && since == 0 else c.copied < 2 * since)
  }

  lemma ApplyStaysPaid(c: Cost, op: Op, initial: nat, cap: nat, since: nat) returns (cap': nat, since': nat)
    requires Allowed(c, op) && Paid(c, initial, cap, since)
    ensures Paid(Apply(c, op), initial, cap', since')
  {
    cap', since' := cap, since;
    if op.Push? && c.size + op.count > c.capacity {
      cap', since' := c.size + op.count, c.pushed + op.count;
    }
  }

  lemma {:induction false} RunStaysPaid(c: Cost, ops: seq<Op>, initial: nat, cap: nat, since: nat)
    returns (cap': nat, since': nat)
    requires RunsFrom(c, ops) && Paid(c, initial, cap, since)
    ensures Paid(After(c, ops), initial, cap', since')
    decreases |ops|
  {
    cap', since' := cap, since;
    if ops != [] {
      cap', since' := ApplyStaysPaid(c, ops[0], initial, cap, since);
      cap', since' := RunStaysPaid(Apply(c, ops[0]), ops[1..], initial, cap', since');
    }
  }

  /** Over any run of pushes (of any number of elements), pops and clears, fewer than two elements
      are copied per element ever pushed. */
  lemma AmortisedGrowth(initial: nat, ops: seq<Op>)
    requires RunsFrom(Cost(0, initial, 0, 0), ops)
    ensures var c := After(Cost(0, initial, 0, 0), ops);
            c.size <= c.capacity && (if c.pushed == 0 then c.copied == 0 else c.copied < 2 * c.pushed)
  {
    var cap, since := RunStaysPaid(Cost(0, initial, 0, 0), ops, initial, 0, 0);
    SizeFits(Cost(0, initial, 0, 0), ops);
  }

  lemma {:induction false} SizeFits(c: Cost, ops: seq<Op>)
    requires RunsFrom(c, ops) && c.size <= c.capacity
    ensures After(c, ops).size <= After(c, ops).capacity
    decreases |ops|
  {
    if ops != [] { SizeFits(Apply(c, ops[0]), ops[1..]); }
  }

  class DynArray<T(0)> {
    const initialSize: nat
    var mem: array<T>
    var size: int
    ghost var cost: Cost

    ghost predicate Valid()
      reads this
    {
      0 <= size <= mem.Length && cost.size == size && cost.capacity == mem.Length
    }

    /** The array as a plain sequence. */
    ghost function Contents(): seq<T>
      requires Valid()
      reads this, mem
    {
      mem[..size]
    }

    constructor (initialSize: nat)
      ensures Valid() && fresh(mem) && Contents() == []
      ensures cost == Cost(0, initialSize, 0, 0)
    {
      this.initialSize := initialSize;
      mem := new T[initialSize];
      size := 0;
      cost := Cost(0, initialSize, 0, 0);
    }

    method Clear()
      requires Valid()
      modifies this
      ensures Valid() && mem == old(mem) && Contents() == [] && cost == Apply(old(cost), Op.Clear)
    {
      size := 0;
      cost := cost.(size := 0);
    }

    /** memcpy. */
    static method CopyElements(dst: array<T>, src: array<T>, n: int) returns (ghost copied: nat)
      requires 0 <= n <= dst.Length && n <= src.Length && dst != src
      modifies dst
      ensures dst[..n] == src[..n] && copied == n
    {
      var i := 0;
      copied := 0;
      while i < n
        invariant 0 <= i <= n && dst[..i] == src[..i] && copied == i
      {
        dst[i] := src[i];
        copied := copied + 1;
        i := i + 1;
      }
    }

    method EnsureCapacity(cap: int)
      requires Valid() && cap > 0 && (cap > mem.Length ==> cap <= INT_MAX / 2)
      modifies this
      ensures Valid() && cap <= mem.Length && size == old(size) && (mem == old(mem) || fresh(mem))
      ensures Contents() == old(Contents()) && cost == Ensured(old(cost), cap)
    {
      if cap > mem.Length {
        var newMem := new T[cap * 2];
        ghost var copied := CopyElements(newMem, mem, size);
        mem := newMem;
        cost := cost.(capacity := newMem.Length, copied := cost.copied + copied);
      }
    }

    method Push(t: T)
      requires Valid() && (size < mem.Length || size + 1 <= INT_MAX / 2)
      modifies this, mem
      ensures Valid() && (mem == old(mem) || fresh(mem))
      ensures Contents() == old(Contents()) + [t] && cost == Apply(old(cost), Op.Push(1))
    {
      EnsureCapacity(size + 1);
      mem[size] := t;
      size := size + 1;
      cost := cost.(size := cost.size + 1, pushed := cost.pushed + 1);
    }

    /** Room for `count` more elements, whose values are whatever the memory holds; the index of the
        first of them. */
    method PushArr(count: int) returns (at: int)
      requires Valid() && count >= 0 && size + count > 0
      requires size + count <= mem.Length || size + count <= INT_MAX / 2
      modifies this
      ensures Valid() && (mem == old(mem) || fresh(mem))
      ensures at == |old(Contents())| && |Contents()| == at + count && Contents()[..at] == old(Contents())
      ensures cost == Apply(old(cost), Op.Push(count))
    {
      EnsureCapacity(size + count);
      at := size;
      size := size + count;
      cost := cost.(size := cost.size + count, pushed := cost.pushed + count);
    }

    method Pop() returns (t: T)
      requires Valid() && size > 0
      modifies this
      ensures Valid() && mem == old(mem)
      ensures old(Contents()) == Contents() + [t] && cost == Apply(old(cost), Op.Pop(1))
    {
      size := size - 1;
      t := mem[size];
      cost := cost.(size := cost.size - 1);
    }

    method PopArr(count: nat)
      requires Valid() && size >= count
      modifies this
      ensures Valid() && mem == old(mem)
      ensures Contents() == old(Contents())[..old(size) - count] && cost == Apply(old(cost), Op.Pop(count))
    {
      size := size - count;
      cost := cost.(size := cost.size - count);
    }

    /** The last element takes the place of the one removed. */
    method SwapRemove(i: int)
      requires Valid() && 0 <= i < size
      modifies this, mem
      ensures Valid() && mem == old(mem)
      ensures Contents() == old(Contents())[i := old(Contents())[|old(Contents())| - 1]][..|old(Contents())| - 1]
      ensures multiset(Contents()) == multiset(old(Contents())) - multiset{old(Contents())[i]}
      ensures cost == Apply(old(cost), Op.Pop(1))
    {
      ghost var s := Contents();
      MoveLast(i);
      ghost var t := Contents();
      size := size - 1;
      cost := cost.(size := cost.size - 1);
      assert Contents() == t[..|t| - 1];
      SwapRemoved(s, i);
    }

    method MoveLast(i: int)
      requires Valid() && 0 <= i < size
      modifies mem
      ensures Contents() == old(Contents())[i := old(Contents())[|old(Contents())| - 1]]
    {
      mem[i] := mem[size - 1];
    }
  }

  lemma SwapRemoved<T>(s: seq<T>, i: nat)
    requires i < |s|
    ensures multiset(s[i := s[|s| - 1]][..|s| - 1]) == multiset(s) - multiset{s[i]}
  {
    var n := |s| - 1;
    assert s == s[..n] + [s[n]];
    if i == n {
      assert s[i := s[n]][..n] == s[..n];
    } else {
      assert s[i := s[n]][..n] == s[..i] + [s[n]] + s[i + 1..n];
      assert s[..n] == s[..i] + [s[i]] + s[i + 1..n];
    }
  }
}
