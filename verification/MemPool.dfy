/** The fixed-size item pool of include/tinyxml2.h: a free list threaded through blocks of items. */
module MemPool {
  import opened Collections

  /** A pool item.  While it is free its first word is the link of the free list; while it is live
      the same memory belongs to the client. */
  class Item {
    var next: Item?
    constructor ()
      ensures next == null
    {
      next := null;
    }
  }

  /** The largest entry of a history of counts. */
  function HighWater(history: seq<nat>): nat {
    if history == [] then 0
    else
      var rest := HighWater(history[..|history| - 1]);
      var last := history[|history| - 1];
      if last > rest then last else rest
  }

  lemma {:induction false} HighWaterIs(history: seq<nat>)
    ensures forall i :: 0 <= i < |history| ==> history[i] <= HighWater(history)
    ensures history != [] ==> HighWater(history) in history
  {
    if history != [] {
      var init, last := history[..|history| - 1], history[|history| - 1];
      HighWaterIs(init);
      forall i | 0 <= i < |history| ensures history[i] <= HighWater(history) {
        if i < |init| { assert history[i] == init[i]; }
      }
      if init == [] {
        assert HighWater(init) == 0;
      } else if HighWater(history) != last {
        assert HighWater(init) in init;
      }
    }
  }

  /** All items of all blocks. */
  function Union<T>(blocks: seq<seq<T>>): set<T> {
    if blocks == [] then {} else Union(blocks[..|blocks| - 1]) + Elements(blocks[|blocks| - 1])
  }

  lemma UnionGrows<T>(blocks: seq<seq<T>>, block: seq<T>)
    ensures Union(blocks + [block]) == Union(blocks) + Elements(block)
  {
    assert (blocks + [block])[..|blocks|] == blocks;
  }

  lemma PopFront<T>(s: seq<T>)
    requires s != [] && Distinct(s)
    ensures Distinct(s[1..]) && Elements(s) == Elements(s[1..]) + {s[0]} && s[0] !in Elements(s[1..])
  {
    var rest := s[1..];
    assert forall i :: 0 <= i < |rest| ==> rest[i] == s[i + 1];
    assert s == [s[0]] + rest;
  }

  lemma PushFront<T>(s: seq<T>, x: T)
    requires Distinct(s) && x !in Elements(s)
    ensures Distinct([x] + s) && Elements([x] + s) == Elements(s) + {x}
  {
    var longer := [x] + s;
    assert forall i :: 1 <= i < |longer| ==> longer[i] == s[i - 1] && longer[i] in s;
  }

  lemma HighWaterGrows(history: seq<nat>, n: nat)
    ensures HighWater(history + [n]) == if n > HighWater(history) then n else HighWater(history)
  {
    assert (history + [n])[..|history|] == history;
  }

  lemma InElements<T>(s: seq<T>)
    ensures forall x :: x in s <==> x in Elements(s)
  {
  }

  /** The free list in order, the live items, and the live counts after every Alloc and Free since
      the pool was last cleared. */
  datatype Book<T(==)> = Book(free: seq<T>, live: set<T>, history: seq<nat>)

  /** The first free item becomes live. */
  function TakeFirst<T>(b: Book<T>): Book<T>
    requires b.free != []
  {
    Book(b.free[1..], b.live + {b.free[0]}, b.history + [|b.live + {b.free[0]}|])
  }

  /** A live item becomes the first free one. */
  function GiveBack<T>(b: Book<T>, x: T): Book<T> {
    Book([x] + b.free, b.live - {x}, b.history + [|b.live - {x}|])
  }

  /** The free list repeats nothing, free and live items partition the blocks, and the counters tell
      the live count and its high-water mark. */
  ghost predicate Accounts<T>(b: Book<T>, blocks: seq<seq<T>>, perBlock: nat, current: int, max: int) {
    && perBlock > 0
    && Distinct(b.free)
    && Elements(b.free) !! b.live
    && Elements(b.free) + b.live == Union(blocks)
    && |Union(blocks)| == |blocks| * perBlock
    && current == |b.live|
    && max == HighWater(b.history)
    && current <= max
  }

  lemma NothingAllocated<T>(perBlock: nat)
    requires perBlock > 0
    ensures Accounts<T>(Book([], {}, []), [], perBlock, 0, 0)
  {
    assert Elements<T>([]) == {};
  }

  lemma BlockAdded<T>(b: Book<T>, blocks: seq<seq<T>>, perBlock: nat, current: int, max: int, block: seq<T>)
    requires Accounts(b, blocks, perBlock, current, max) && b.free == []
    requires Distinct(block) && |block| == perBlock && Elements(block) !! Union(blocks)
    ensures Accounts(b.(free := block), blocks + [block], perBlock, current, max)
  {
    hide HighWater;
    UnionGrows(blocks, block);
    DistinctSize(block);
    assert Elements<T>([]) == {};
    assert (|blocks| + 1) * perBlock == |blocks| * perBlock + perBlock;
  }

  lemma FirstTaken<T>(b: Book<T>, blocks: seq<seq<T>>, perBlock: nat, current: int, max: int)
    requires Accounts(b, blocks, perBlock, current, max) && b.free != []
    ensures b.free[0] !in b.live && TakeFirst(b) == Book(b.free[1..], b.live + {b.free[0]}, b.history + [current + 1])
    ensures Accounts(TakeFirst(b), blocks, perBlock, current + 1, if current + 1 > max then current + 1 else max)
  {
    hide Elements, Union, HighWater, Distinct;
    PopFront(b.free);
    HighWaterGrows(b.history, |b.live + {b.free[0]}|);
  }

  lemma FirstReturned<T>(b: Book<T>, blocks: seq<seq<T>>, perBlock: nat, current: int, max: int, x: T)
    requires Accounts(b, blocks, perBlock, current, max) && x in b.live
    ensures x !in b.free && GiveBack(b, x) == Book([x] + b.free, b.live - {x}, b.history + [current - 1])
    ensures Accounts(GiveBack(b, x), blocks, perBlock, current - 1, max)
  {
    InElements(b.free);
    hide Elements, Union, HighWater, Distinct;
    PushFront(b.free, x);
    HighWaterGrows(b.history, |b.live - {x}|);
  }

  class MemPoolT {
    const itemsPerBlock: nat
    var blocks: seq<seq<Item>>
    var root: Item?
    var currentAllocs: int
    var nAllocs: int
    var maxAllocs: int
    var nUntracked: int
    ghost var book: Book<Item>

    /** Following `next` from `root` visits the free list and then stops. */
    ghost predicate Threaded()
      reads this, book.free
    {
      && root == (if book.free == [] then null else book.free[0])
      && forall i {:trigger book.free[i].next} :: 0 <= i < |book.free| ==>
           book.free[i].next == if i + 1 < |book.free| then book.free[i + 1] else null
    }

    ghost predicate Valid()
      reads this, book.free
    {
      Threaded() && Accounts(book, blocks, itemsPerBlock, currentAllocs, maxAllocs)
    }

    constructor (itemsPerBlock: nat)
      requires itemsPerBlock > 0
      ensures Valid() && this.itemsPerBlock == itemsPerBlock && book == Book([], {}, []) && blocks == []
    {
      this.itemsPerBlock := itemsPerBlock;
      blocks := [];
      root := null;
      currentAllocs, nAllocs, maxAllocs, nUntracked := 0, 0, 0, 0;
      book := Book([], {}, []);
      NothingAllocated<Item>(itemsPerBlock);
    }

    method Clear()
      requires Valid()
      modifies this
      ensures Valid() && book == Book([], {}, []) && blocks == []
      ensures currentAllocs == nAllocs == maxAllocs == nUntracked == 0
    {
      assert itemsPerBlock > 0;
      hide Accounts, Union, HighWater, Elements, Distinct;
      blocks := [];
      root := null;
      currentAllocs, nAllocs, maxAllocs, nUntracked := 0, 0, 0, 0;
      book := Book([], {}, []);
      assert Threaded();
      NothingAllocated<Item>(itemsPerBlock);
    }

    /** A new block, its items linked in order. */
    static method NewBlock(n: nat) returns (items: seq<Item>)
      requires n > 0
      ensures |items| == n && Distinct(items) && forall i :: 0 <= i < n ==> fresh(items[i])
      ensures forall i {:trigger items[i].next} :: 0 <= i < n ==>
                items[i].next == if i + 1 < n then items[i + 1] else null
    {
      items := [];
      while |items| < n
        invariant |items| <= n && Distinct(items) && forall i :: 0 <= i < |items| ==> fresh(items[i])
        invariant forall i :: 0 <= i < |items| ==> items[i].next == null
      {
        var item := new Item();
        items := items + [item];
      }
      var i := 0;
      while i < n - 1
        invariant 0 <= i <= n - 1
        invariant forall k {:trigger items[k].next} :: 0 <= k < n ==>
                    items[k].next == if k < i then items[k + 1] else null
        modifies items
      {
        items[i].next := items[i + 1];
        i := i + 1;
      }
    }

    /** Make sure the free list is not empty. */
    method Refill()
      requires Valid()
      modifies this
      ensures Valid() && book.free != [] && book == old(book).(free := book.free)
      ensures old(book.free) != [] ==> book.free == old(book.free) && blocks == old(blocks)
      ensures old(book.free) == [] ==>
                && |book.free| == itemsPerBlock && blocks == old(blocks) + [book.free]
                && forall i :: 0 <= i < |book.free| ==> fresh(book.free[i])
      ensures currentAllocs == old(currentAllocs) && maxAllocs == old(maxAllocs)
      ensures nAllocs == old(nAllocs) && nUntracked == old(nUntracked)
    {
      if root == null {
        ghost var owned := Union(blocks);
        var block := NewBlock(itemsPerBlock);
        InElements(block);
        assert Elements(block) !! owned;
        BlockAdded(book, blocks, itemsPerBlock, currentAllocs, maxAllocs, block);
        hide Accounts;
        blocks := blocks + [block];
        root := block[0];
        book := book.(free := block);
      }
    }

    /** Take the first item off the free list. */
    method Unlink(ghost after: Book<Item>) returns (item: Item)
      requires Threaded() && book.free != [] && after.free == book.free[1..]
      modifies this`root, this`book
      ensures Threaded() && item == old(book.free)[0] && book == after
    {
      item := root;
      root := root.next;
      book := after;
    }

    /** Put an item in front of the free list, whatever its memory held. */
    method Link(item: Item, ghost after: Book<Item>)
      requires Threaded() && item !in book.free && after.free == [item] + book.free
      modifies this`root, this`book, item
      ensures Threaded() && book == after
    {
      item.next := root;
      root := item;
      book := after;
    }

    /** The item was not live; it is the first free one, or the first of a new block. */
    method Alloc() returns (item: Item)
      requires Valid()
      modifies this
      ensures Valid() && item !in old(book.live)
      ensures old(book.free) != [] ==>
                item == old(book.free)[0] && book == TakeFirst(old(book)) && blocks == old(blocks)
      ensures old(book.free) == [] ==>
                && fresh(item) && |blocks| == old(|blocks|) + 1
                && blocks[|blocks| - 1] == [item] + book.free
                && book == TakeFirst(old(book).(free := [item] + book.free))
      ensures nAllocs == old(nAllocs) + 1 && nUntracked == old(nUntracked) + 1
    {
      hide Accounts, TakeFirst;
      Refill();
      FirstTaken(book, blocks, itemsPerBlock, currentAllocs, maxAllocs);
      assert book.free == [book.free[0]] + book.free[1..];
      item := Unlink(TakeFirst(book));
      currentAllocs := currentAllocs + 1;
      if currentAllocs > maxAllocs {
        maxAllocs := currentAllocs;
      }
      nAllocs := nAllocs + 1;
      nUntracked := nUntracked + 1;
    }

    /** Freeing null does nothing; otherwise the item must be live. */
    method Free(mem: Item?)
      requires Valid() && (mem != null ==> mem in book.live)
      modifies this, mem
      ensures Valid() && blocks == old(blocks)
      ensures book == if mem == null then old(book) else GiveBack<Item>(old(book), mem)
      ensures nAllocs == old(nAllocs) && nUntracked == old(nUntracked)
    {
      if mem != null {
        FreeItem(mem);
      }
    }

    method FreeItem(item: Item)
      requires Valid() && item in book.live
      modifies this, item
      ensures Valid() && blocks == old(blocks) && book == GiveBack(old(book), item)
      ensures nAllocs == old(nAllocs) && nUntracked == old(nUntracked)
    {
      hide Accounts, GiveBack;
      FirstReturned(book, blocks, itemsPerBlock, currentAllocs, maxAllocs, item);
      currentAllocs := currentAllocs - 1;
      Link(item, GiveBack(book, item));
    }

    method SetTracked()
      requires Valid()
      modifies this`nUntracked
      ensures Valid() && nUntracked == old(nUntracked) - 1
    {
      nUntracked := nUntracked - 1;
    }

    /** The client may write anything into an item it holds, also where the link would be. */
    method ClientWrites(item: Item, value: Item?)
      requires Valid() && item in book.live
      modifies item
      ensures Valid() && item.next == value
    {
      InElements(book.free);
      item.next := value;
    }

    /** The pool's structure, spelled out: following the links never runs in a circle, free and live
        items are exactly the items of the blocks, and the counters tell the live count and its
        high-water mark since the last Clear. */
    lemma Structure()
      requires Valid()
      ensures forall i, j :: 0 <= i < j < |book.free| ==> book.free[i] != book.free[j]
      ensures forall x :: x in Union(blocks) <==> (x in book.free || x in book.live)
      ensures forall x :: x in book.free ==> x !in book.live
      ensures currentAllocs == |book.live| && currentAllocs + |book.free| == |blocks| * itemsPerBlock
      ensures forall i :: 0 <= i < |book.history| ==> book.history[i] <= maxAllocs
      ensures book.history != [] ==> maxAllocs in book.history
    {
      DistinctSize(book.free);
      HighWaterIs(book.history);
      assert |Elements(book.free) + book.live| == |Elements(book.free)| + |book.live|;
      InElements(book.free);
    }
  }
}
