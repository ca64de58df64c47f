/** Fixed-sized memory pools: blocks of one size in a row, a list of the blocks given back, linked by indices,
    and the blocks not used yet. */
module FixedPool {
  import opened Waiters

  /** The end of the list of free blocks, and the mark of a block that is allocated. */
  const INDEX_NULL: nat := 0xFFFF_FFFF
  const INDEX_ALLOC: nat := 0xFFFF_FFFE

  datatype ER = Ok | EPar | Blocked | Tmout

  /** The list of free blocks from index `first` on. */
  ghost predicate Chain(next: seq<nat>, first: nat, free: seq<nat>)
    decreases |free|
  {
    if free == [] then first == INDEX_NULL
    else first == free[0] && first < |next| && Chain(next, next[first], free[1..])
  }

  predicate Distinct(q: seq<nat>) { forall i, j :: 0 <= i < j < |q| ==> q[i] != q[j] }

  lemma {:induction false} ChainFrame(next: seq<nat>, first: nat, free: seq<nat>, i: nat, x: nat)
    requires Chain(next, first, free) && i < |next| && i !in free
    ensures Chain(next[i := x], first, free)
    decreases |free|
  {
    if free != [] { ChainFrame(next, next[first], free[1..], i, x); }
  }

  // ---------- addresses ----------

  function Address(mpf: nat, blksz: nat, idx: nat): nat { mpf + blksz * idx }

  /** Different blocks share no byte, and all lie in the pool. */
  lemma BlocksAreDisjoint(mpf: nat, blksz: nat, blkcnt: nat, i: nat, j: nat)
    requires i < j < blkcnt
    ensures Address(mpf, blksz, i) + blksz <= Address(mpf, blksz, j)
    ensures mpf <= Address(mpf, blksz, i) && Address(mpf, blksz, j) + blksz <= mpf + blksz * blkcnt
  {
    Spread(blksz, i + 1, j);
    Spread(blksz, j + 1, blkcnt);
  }

  lemma Spread(b: nat, i: nat, j: nat)
    requires i <= j
    ensures b * i <= b * j
  {
    assert b * j == b * i + b * (j - i);
  }

  /** Dividing the offset finds the block, and only the address of a block leaves no remainder. */
  lemma BlockOfAddress(mpf: nat, blksz: nat, blk: nat)
    requires blksz > 0 && mpf <= blk
    ensures var off := blk - mpf;
      off % blksz == 0 ==> blk == Address(mpf, blksz, off / blksz)
    ensures var off := blk - mpf;
      forall i: nat :: blk == Address(mpf, blksz, i) ==> off % blksz == 0 && off / blksz == i
  {
    var off := blk - mpf;
    Divided(off, blksz);
    forall i: nat | blk == Address(mpf, blksz, i) ensures off % blksz == 0 && off / blksz == i {
      Quotient(off, blksz, i);
    }
  }

  lemma Divided(x: nat, d: nat)
    requires d > 0
    ensures x == d * (x / d) + x % d
  {}

  lemma Quotient(x: nat, d: nat, i: nat)
    requires d > 0 && x == d * i
    ensures x / d == i && x % d == 0
  {
    Divided(x, d);
    var e := x / d - i;
    assert d * e == -(x % d);
    Small(d, e);
  }

  lemma Small(d: nat, e: int)
    ensures e > 0 ==> d * e >= d
    ensures e < 0 ==> d * e + d <= 0
  {}

  class FixedPool {
    const blkcnt: nat
    const blksz: nat
    const mpf: nat
    const mpfmb: array<nat>
    var fblkcnt: nat
    var unused: nat
    var freelist: nat
    var waitQueue: seq<Waiter<()>>
    var answers: seq<Answer<nat>>

    /** The blocks given back, the first to be used again first, and the blocks that are allocated. */
    ghost var free: seq<nat>
    ghost var owned: set<nat>

    /** Below `unused` every block is either allocated or in the list of free blocks; tasks wait only when no
        block is free. */
    ghost predicate Valid()
      reads this, mpfmb
    {
      && mpfmb.Length == blkcnt <= INDEX_ALLOC && blksz > 0 && unused <= blkcnt
      && Chain(mpfmb[..], freelist, free) && Distinct(free)
      && (forall i: nat :: i in free ==> i < unused && mpfmb[i] != INDEX_ALLOC)
      && (forall i: nat :: i in owned <==> i < unused && i !in free)
      && (forall i: nat :: i in owned ==> mpfmb[i] == INDEX_ALLOC)
      && |owned| + |free| == unused
      && fblkcnt == (blkcnt - unused) + |free|
      && (waitQueue != [] ==> fblkcnt == 0)
    }

    constructor (cnt: nat, size: nat, base: nat)
      requires cnt <= INDEX_ALLOC && size > 0
      ensures Valid() && blkcnt == cnt && blksz == size && mpf == base && owned == {} && waitQueue == [] && answers == []
      ensures fresh(mpfmb)
    {
      blkcnt, blksz, mpf := cnt, size, base;
      mpfmb := new nat[cnt](_ => 0);
      fblkcnt, unused, freelist := cnt, 0, INDEX_NULL;
      waitQueue, answers, free, owned := [], [], [], {};
    }

    /** A block that was not allocated is. */
    method GetMpfBlock() returns (blk: nat, ghost idx: nat)
      requires Valid() && fblkcnt > 0
      modifies `freelist, `unused, `fblkcnt, `free, `owned, mpfmb
      ensures Valid() && idx < blkcnt && idx !in old(owned) && owned == old(owned) + {idx} && blk == Address(mpf, blksz, idx)
      ensures fblkcnt == old(fblkcnt) - 1
    {
      var blkidx;
      if freelist != INDEX_NULL {
        blkidx := freelist;
        assert free == [blkidx] + free[1..];
        freelist := mpfmb[blkidx];
        free := free[1..];
      } else {
        blkidx := unused;
        unused := unused + 1;
      }
      blk := mpf + blksz * blkidx;
      fblkcnt := fblkcnt - 1;
      ghost var next := mpfmb[..];
      ChainFrame(next, freelist, free, blkidx, INDEX_ALLOC);
      mpfmb[blkidx] := INDEX_ALLOC;
      assert mpfmb[..] == next[blkidx := INDEX_ALLOC];
      owned := owned + {blkidx};
      idx := blkidx;
    }

    /** `get_mpf`, or with `poll` `pget_mpf`. */
    method GetMpf(w: Waiter<()>, tpri: bool, poll: bool) returns (er: ER, blk: nat)
      requires Valid()
      modifies this, mpfmb
      ensures Valid() && (er == Ok <==> old(fblkcnt) > 0) && answers == old(answers)
      ensures er == Ok ==> waitQueue == old(waitQueue)
      ensures er == Ok ==> exists idx: nat :: idx < blkcnt && idx !in old(owned) && owned == old(owned) + {idx} && blk == Address(mpf, blksz, idx)
      ensures er != Ok ==> owned == old(owned) && er == (if poll then Tmout else Blocked)
      ensures er != Ok ==> waitQueue == (if poll then old(waitQueue) else Enroll(old(waitQueue), w, tpri))
    {
      blk := 0;
      if fblkcnt > 0 {
        ghost var idx;
        blk, idx := GetMpfBlock();
        er := Ok;
      } else if poll {
        er := Tmout;
      } else {
        waitQueue := Enroll(waitQueue, w, tpri);
        er := Blocked;
      }
    }

    /** A block is given back: to the first task waiting, which owns it then, or to the list of free blocks.
        Anything but the address of an allocated block is refused. */
    method RelMpf(blk: nat) returns (er: ER)
      requires Valid()
      modifies this, mpfmb
      ensures Valid()
      ensures er == Ok || er == EPar
      ensures er == Ok <==> exists idx: nat :: idx in old(owned) && blk == Address(mpf, blksz, idx)
      ensures er != Ok ==> owned == old(owned) && waitQueue == old(waitQueue) && answers == old(answers)
      ensures er == Ok && old(waitQueue) != [] ==>
        owned == old(owned) && waitQueue == old(waitQueue)[1..] && answers == old(answers) + [Served(old(waitQueue)[0].task, blk)]
      ensures er == Ok && old(waitQueue) == [] ==> waitQueue == [] && answers == old(answers) && fblkcnt == old(fblkcnt) + 1
      ensures er == Ok && old(waitQueue) == [] ==>
        exists idx: nat :: idx in old(owned) && owned == old(owned) - {idx} && blk == Address(mpf, blksz, idx)
    {
      if mpf > blk {
        NotBelow(blk);
        return EPar;
      }
      var blkoffset := blk - mpf;
      var blkidx := blkoffset / blksz;
      BlockOfAddress(mpf, blksz, blk);
      if !(blkoffset % blksz == 0) || !(blkidx < unused) || !(mpfmb[blkidx] == INDEX_ALLOC) {
        er := EPar;
      } else if waitQueue != [] {
        var w := waitQueue[0];
        waitQueue := waitQueue[1..];
        answers := answers + [Served(w.task, blk)];
        assert blkidx in old(owned);
        er := Ok;
      } else {
        assert blkidx in old(owned);
        GiveBack(blkidx);
        er := Ok;
      }
    }

    lemma NotBelow(blk: nat)
      requires blk < mpf
      ensures forall idx: nat :: blk != Address(mpf, blksz, idx)
    {}

    method GiveBack(blkidx: nat)
      requires Valid() && blkidx in owned && waitQueue == []
      modifies `fblkcnt, `freelist, `free, `owned, mpfmb
      ensures Valid() && owned == old(owned) - {blkidx} && fblkcnt == old(fblkcnt) + 1
    {
      ListBelow();
      fblkcnt := fblkcnt + 1;
      ghost var next := mpfmb[..];
      ChainFrame(next, freelist, free, blkidx, freelist);
      mpfmb[blkidx] := freelist;
      assert mpfmb[..] == next[blkidx := freelist];
      freelist := blkidx;
      assert ([blkidx] + free)[1..] == free;
      free := [blkidx] + free;
      owned := owned - {blkidx};
    }

    lemma ListBelow()
      requires Valid()
      ensures freelist != INDEX_ALLOC
    {
      if free != [] { assert free[0] in free; }
    }

    /** A task stops waiting without a block. */
    method GiveUp(t: nat, er: Refusal)
      requires Valid()
      modifies `waitQueue, `answers
      ensures Valid() && waitQueue == Withdraw(old(waitQueue), t)
      ensures answers == if t in Tasks(old(waitQueue)) then old(answers) + [Refused(t, er)] else old(answers)
    {
      WithdrawSubset(waitQueue, t);
      if t in Tasks(waitQueue) {
        answers := answers + [Refused(t, er)];
      }
      waitQueue := Withdraw(waitQueue, t);
    }

    method IniMpf()
      requires Valid()
      modifies this
      ensures Valid() && owned == {} && waitQueue == [] && answers == old(answers) + Refuse(old(waitQueue), Deleted)
    {
      while waitQueue != []
        invariant blkcnt == mpfmb.Length
        invariant answers + Refuse(waitQueue, Deleted) == old(answers) + Refuse(old(waitQueue), Deleted)
        decreases |waitQueue|
      {
        ghost var rest := Refuse(waitQueue[1..], Deleted);
        assert answers + ([Refused(waitQueue[0].task, Deleted)] + rest) == answers + [Refused(waitQueue[0].task, Deleted)] + rest;
        answers := answers + [Refused(waitQueue[0].task, Deleted)];
        waitQueue := waitQueue[1..];
      }
      fblkcnt, unused, freelist := blkcnt, 0, INDEX_NULL;
      free, owned := [], {};
    }
  }
}
