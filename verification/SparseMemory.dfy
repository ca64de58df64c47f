/** The memory image read from an S-record file: blocks of bytes at scattered addresses, merged so that no two
    of them touch.
  */
module SparseMemory {

  datatype Option<+T> = None | Some(value: T)

  type Byte = x: int | 0 <= x < 256

  datatype Block = Block(addr: nat, data: seq<Byte>) {
    function End(): nat { addr + |data| }

    predicate Contains(a: nat) { addr <= a < End() }

    /** The blocks overlap or are next to each other. */
    predicate Touches(b: Block) { addr <= b.End() && b.addr <= End() }
  }

  ghost predicate Scattered(blocks: seq<Block>) {
    forall i, j :: 0 <= i < j < |blocks| ==> Separate(blocks, i, j)
  }

  predicate Separate(blocks: seq<Block>, i: int, j: int)
    requires 0 <= i < |blocks| && 0 <= j < |blocks|
  {
    !blocks[i].Touches(blocks[j])
  }

  /** The byte stored for address `a`. */
  function ByteAt(blocks: seq<Block>, a: nat): Option<Byte> {
    if blocks == [] then None
    else if blocks[0].Contains(a) then Some(blocks[0].data[a - blocks[0].addr])
    else ByteAt(blocks[1..], a)
  }

  /** The memory `blocks` with `data` written over it. */
  function Overlaid(blocks: seq<Block>, address: nat, data: seq<Byte>, a: nat): Option<Byte> {
    if address <= a < address + |data| then Some(data[a - address]) else ByteAt(blocks, a)
  }

  /** A stored block lies strictly inside the new data: it starts later and ends earlier. */
  ghost predicate Swallowed(b: Block, address: nat, data: seq<Byte>) {
    address < b.addr && b.End() < address + |data|
  }

  // ---------- looking up ----------

  lemma {:induction false} ByteOf(blocks: seq<Block>, k: nat, a: nat)
    requires Scattered(blocks) && k < |blocks| && blocks[k].Contains(a)
    ensures ByteAt(blocks, a) == Some(blocks[k].data[a - blocks[k].addr])
  {
    if k > 0 {
      assert Separate(blocks, 0, k);
      RestScattered(blocks);
      ByteOf(blocks[1..], k - 1, a);
    }
  }

  lemma RestScattered(blocks: seq<Block>)
    requires Scattered(blocks) && blocks != []
    ensures Scattered(blocks[1..])
  {
    var rest := blocks[1..];
    forall i, j | 0 <= i < j < |rest| ensures Separate(rest, i, j) { assert Separate(blocks, i + 1, j + 1); }
  }

  lemma {:induction false} ByteFrom(blocks: seq<Block>, a: nat) returns (k: nat)
    requires ByteAt(blocks, a) != None
    ensures k < |blocks| && blocks[k].Contains(a)
  {
    if blocks[0].Contains(a) {
      k := 0;
    } else {
      k := ByteFrom(blocks[1..], a);
      k := k + 1;
    }
  }

  ghost predicate AllStored(blocks: seq<Block>, address: nat, size: nat) {
    forall a: nat :: address <= a < address + size ==> ByteAt(blocks, a) != None
  }

  lemma SameBlock(blocks: seq<Block>, j: nat, k: nat)
    requires Scattered(blocks) && j < |blocks| && k < |blocks| && blocks[j].Touches(blocks[k])
    ensures j == k
  {
    assert j < k ==> Separate(blocks, j, k);
    assert k < j ==> Separate(blocks, k, j);
  }

  /** All bytes of a run are stored only if one block has them all. */
  lemma {:induction false} OneBlock(blocks: seq<Block>, address: nat, size: nat) returns (k: nat)
    requires Scattered(blocks) && AllStored(blocks, address, size) && size >= 1
    ensures k < |blocks| && blocks[k].addr <= address && address + size <= blocks[k].End()
    decreases size
  {
    k := ByteFrom(blocks, address + size - 1);
    if size > 1 {
      var j := OneBlock(blocks, address, size - 1);
      SameBlock(blocks, j, k);
    }
  }

  // ---------- taking a block out ----------

  function Without(blocks: seq<Block>, i: nat): seq<Block>
    requires i < |blocks|
  {
    blocks[..i] + blocks[i+1..]
  }

  lemma WithoutScattered(blocks: seq<Block>, i: nat)
    requires Scattered(blocks) && i < |blocks|
    ensures Scattered(Without(blocks, i))
    ensures forall k :: 0 <= k < |blocks| - 1 ==> !Without(blocks, i)[k].Touches(blocks[i])
  {
    var r := Without(blocks, i);
    forall k, l | 0 <= k < l < |r| ensures Separate(r, k, l) {
      assert Separate(blocks, if k < i then k else k + 1, if l < i then l else l + 1);
    }
    forall k | 0 <= k < |r| ensures !r[k].Touches(blocks[i]) {
      assert if k < i then Separate(blocks, k, i) else Separate(blocks, i, k + 1);
    }
  }

  /** The byte of an address, with one block looked at first. */
  lemma ByteWithout(blocks: seq<Block>, i: nat, a: nat)
    requires Scattered(blocks) && i < |blocks|
    ensures ByteAt(blocks, a) == if blocks[i].Contains(a) then Some(blocks[i].data[a - blocks[i].addr]) else ByteAt(Without(blocks, i), a)
  {
    var r := Without(blocks, i);
    WithoutScattered(blocks, i);
    if blocks[i].Contains(a) {
      ByteOf(blocks, i, a);
    } else if ByteAt(r, a) != None {
      var k := ByteFrom(r, a);
      ByteOf(r, k, a);
      ByteOf(blocks, if k < i then k else k + 1, a);
    } else if ByteAt(blocks, a) != None {
      var k := ByteFrom(blocks, a);
      ByteOf(r, if k < i then k else k - 1, a);
    }
  }

  // ---------- writing ----------

  /** `old[offset, new.size] = new` */
  function Overwrite(old_: seq<Byte>, offset: nat, new_: seq<Byte>): seq<Byte>
    requires offset <= |old_|
  {
    old_[..offset] + new_ + (if offset + |new_| <= |old_| then old_[offset + |new_|..] else [])
  }

  /** Blocks already looked at are kept apart from the data; so is the block behind its end once that has
      moved, and the one before its beginning once that has. */
  ghost predicate Merging(blocks: seq<Block>, i: nat, cur: Block, address0: nat, end: nat) {
    && i <= |blocks| && cur.addr <= address0 <= end <= cur.End()
    && (forall k :: 0 <= k < i ==> !cur.Touches(blocks[k]))
    && (forall k :: 0 <= k < |blocks| ==> MergingAt(blocks[k], cur, address0, end))
  }

  ghost predicate MergingAt(b: Block, cur: Block, address0: nat, end: nat) {
    && (cur.addr < address0 ==> b.End() < cur.addr || address0 < b.addr)
    && (end < cur.End() ==> b.End() < end || cur.End() < b.addr)
  }

  /** The data with the rest of a block that it runs into. */
  function Extended(cur: Block, b: Block, end: nat): Block
    requires b.addr <= end <= b.End()
  {
    Block(cur.addr, cur.data + b.data[end - b.addr..])
  }

  /** A block that the data begins in, with the data written over it. */
  function Rewritten(cur: Block, b: Block): Block
    requires b.addr <= cur.addr <= b.End()
  {
    Block(b.addr, Overwrite(b.data, cur.addr - b.addr, cur.data))
  }

  lemma OverwriteAt(old_: seq<Byte>, offset: nat, new_: seq<Byte>, k: nat)
    requires offset <= |old_|
    ensures var r := Overwrite(old_, offset, new_);
      && |r| == (if offset + |new_| <= |old_| then |old_| else offset + |new_|)
      && (k < |r| ==> r[k] == if offset <= k < offset + |new_| then new_[k - offset] else old_[k])
  {}

  lemma ExtendedMerging(blocks: seq<Block>, i: nat, cur: Block, address0: nat, end: nat)
    requires Scattered(blocks) && i < |blocks| && Merging(blocks, i, cur, address0, end)
    requires var b := blocks[i]; cur.addr < b.addr <= end <= b.End()
    ensures cur.End() == end
    ensures Merging(Without(blocks, i), i, Extended(cur, blocks[i], end), address0, end)
  {
    var b := blocks[i];
    assert MergingAt(b, cur, address0, end);
    WithoutScattered(blocks, i);
    var r, cur1 := Without(blocks, i), Extended(cur, b, end);
    forall k | 0 <= k < |r| ensures MergingAt(r[k], cur1, address0, end) && (k < i ==> !cur1.Touches(r[k])) {
      assert r[k] == blocks[if k < i then k else k + 1];
      assert MergingAt(r[k], cur, address0, end);
    }
  }

  lemma RewrittenSpan(cur: Block, b: Block)
    requires b.addr <= cur.addr <= b.End()
    ensures Rewritten(cur, b).addr == b.addr
    ensures Rewritten(cur, b).End() == if cur.End() <= b.End() then b.End() else cur.End()
  {
    OverwriteAt(b.data, cur.addr - b.addr, cur.data, 0);
  }

  /** What has been kept apart from the data and does not touch block `b` is kept apart from both together. */
  lemma ApartFromBoth(x: Block, b: Block, cur: Block, cur1: Block, address0: nat, end: nat)
    requires !x.Touches(b) && b.Touches(cur) && cur.addr <= address0 <= end <= cur.End()
    requires MergingAt(x, cur, address0, end) && MergingAt(b, cur, address0, end)
    requires cur1.addr == b.addr <= cur.addr && cur1.End() == if cur.End() <= b.End() then b.End() else cur.End()
    ensures MergingAt(x, cur1, address0, end) && (!cur.Touches(x) ==> !cur1.Touches(x))
  {}

  lemma RewrittenMerging(blocks: seq<Block>, i: nat, cur: Block, address0: nat, end: nat)
    requires Scattered(blocks) && i < |blocks| && Merging(blocks, i, cur, address0, end)
    requires var b := blocks[i]; b.addr <= cur.addr <= b.End()
    ensures Merging(Without(blocks, i), i, Rewritten(cur, blocks[i]), address0, end)
  {
    var b := blocks[i];
    RewrittenSpan(cur, b);
    WithoutScattered(blocks, i);
    var r, cur1 := Without(blocks, i), Rewritten(cur, b);
    forall k | 0 <= k < |r| ensures MergingAt(r[k], cur1, address0, end) && (k < i ==> !cur1.Touches(r[k])) {
      assert r[k] == blocks[if k < i then k else k + 1];
      ApartFromBoth(r[k], b, cur, cur1, address0, end);
    }
  }

  /** The two ways of merging leave the memory seen through the data as it is. */
  lemma ExtendedView(blocks: seq<Block>, i: nat, cur: Block, end: nat, a: nat)
    requires Scattered(blocks) && i < |blocks| && cur.End() == end && cur.addr < blocks[i].addr <= end <= blocks[i].End()
    ensures var cur1 := Extended(cur, blocks[i], end);
      Overlaid(Without(blocks, i), cur1.addr, cur1.data, a) == Overlaid(blocks, cur.addr, cur.data, a)
  {
    ByteWithout(blocks, i, a);
  }

  lemma RewrittenView(blocks: seq<Block>, i: nat, cur: Block, a: nat)
    requires Scattered(blocks) && i < |blocks| && blocks[i].addr <= cur.addr <= blocks[i].End()
    ensures var cur1 := Rewritten(cur, blocks[i]);
      Overlaid(Without(blocks, i), cur1.addr, cur1.data, a) == Overlaid(blocks, cur.addr, cur.data, a)
  {
    var b := blocks[i];
    ByteWithout(blocks, i, a);
    OverwriteAt(b.data, cur.addr - b.addr, cur.data, if b.addr <= a then a - b.addr else 0);
  }

  lemma Finished(blocks: seq<Block>, cur: Block, a: nat)
    requires Scattered(blocks) && forall k :: 0 <= k < |blocks| ==> !cur.Touches(blocks[k])
    ensures Scattered(blocks + [cur]) && ByteAt(blocks + [cur], a) == Overlaid(blocks, cur.addr, cur.data, a)
  {
    var all := blocks + [cur];
    forall i, j | 0 <= i < j < |all| ensures Separate(all, i, j) {
      if j < |blocks| { assert Separate(blocks, i, j); }
    }
    ByteWithout(all, |blocks|, a);
    assert Without(all, |blocks|) == blocks;
  }

  /** The data, with the blocks behind it, is the memory written over. */
  ghost predicate ViewAt(blocks: seq<Block>, cur: Block, blocks0: seq<Block>, address0: nat, data0: seq<Byte>, a: nat) {
    Overlaid(blocks, cur.addr, cur.data, a) == Overlaid(blocks0, address0, data0, a)
  }

  /** A stored block is still to be looked at, or is not strictly inside the new data. */
  ghost predicate Passed(b: Block, blocks: seq<Block>, i: nat, address0: nat, data0: seq<Byte>) {
    (exists k :: i <= k < |blocks| && blocks[k] == b) || !Swallowed(b, address0, data0)
  }

  class SparseMemory {
    var blocks: seq<Block>

    constructor ()
      ensures blocks == []
    {
      blocks := [];
    }

    /** The bytes of a run of addresses, if all of them are stored. */
    method GetData(address: nat, size: nat) returns (r: Option<seq<Byte>>)
      requires Scattered(blocks)
      ensures size >= 1 ==> (r.Some? <==> AllStored(blocks, address, size))
      ensures r.Some? ==> |r.value| == size && forall k :: 0 <= k < size ==> ByteAt(blocks, address + k) == Some(r.value[k])
    {
      var endAddress := address + size;
      var i := 0;
      while i < |blocks|
        invariant 0 <= i <= |blocks|
        invariant forall k :: 0 <= k < i ==> !(blocks[k].addr <= address && endAddress <= blocks[k].End())
      {
        var b := blocks[i];
        if b.addr <= address && endAddress <= b.End() {
          var offset := address - b.addr;
          var run := b.data[offset..offset + size];
          forall k | 0 <= k < size ensures ByteAt(blocks, address + k) == Some(run[k]) { ByteOf(blocks, i, address + k); }
          forall a: nat | address <= a < address + size ensures ByteAt(blocks, a) != None { ByteOf(blocks, i, a); }
          return Some(run);
        }
        i := i + 1;
      }
      if size >= 1 && AllStored(blocks, address, size) {
        ghost var k := OneBlock(blocks, address, size);
        assert false;
      }
      return None;
    }

    /** Writes a run of bytes, merged with what it touches; raises when a stored block is strictly inside it. */
    method SetData(address0: nat, data0: seq<Byte>) returns (ok: bool)
      requires Scattered(blocks)
      modifies this
      ensures ok <==> forall k :: 0 <= k < |old(blocks)| ==> !Swallowed(old(blocks)[k], address0, data0)
      ensures ok ==> Scattered(blocks) && forall a: nat :: ByteAt(blocks, a) == Overlaid(old(blocks), address0, data0, a)
      ensures ok && data0 != [] && NoneEmpty(old(blocks)) ==> NoneEmpty(blocks)
    {
      ghost var blocks0 := blocks;
      var address: nat, data := address0, data0;
      var endAddress := address0 + |data0|;
      var i := 0;
      while i < |blocks|
        invariant 0 <= i <= |blocks| && Scattered(blocks) && Merging(blocks, i, Block(address, data), address0, endAddress)
        invariant forall a: nat :: ViewAt(blocks, Block(address, data), blocks0, address0, data0, a)
        invariant forall k :: 0 <= k < |blocks0| ==> Passed(blocks0[k], blocks, i, address0, data0)
        invariant forall k :: 0 <= k < |blocks| ==> blocks[k] in blocks0
        decreases |blocks| - i
      {
        var b := blocks[i];
        ghost var cur, was := Block(address, data), blocks;
        assert MergingAt(b, cur, address0, endAddress);
        if b.End() < address || endAddress < b.addr {
          i := i + 1;
        } else {
          WithoutScattered(was, i);
          if address < b.addr {
            var offset := endAddress - b.addr;
            if offset > |b.data| {
              return false;
            }
            ExtendedMerging(was, i, cur, address0, endAddress);
            data := data + b.data[offset..];
            assert Block(address, data) == Extended(cur, b, endAddress);
          } else {
            RewrittenMerging(was, i, cur, address0, endAddress);
            var offset := address - b.addr;
            address := b.addr;
            data := Overwrite(b.data, offset, data);
            assert Block(address, data) == Rewritten(cur, b);
          }
          blocks := Without(blocks, i);
          forall a: nat ensures ViewAt(blocks, Block(address, data), blocks0, address0, data0, a) {
            assert ViewAt(was, cur, blocks0, address0, data0, a);
            if cur.addr < b.addr { ExtendedView(was, i, cur, endAddress, a); } else { RewrittenView(was, i, cur, a); }
          }
          StillPassed(blocks0, was, i, address0, data0);
        }
      }
      ghost var cur, was := Block(address, data), blocks;
      blocks := blocks + [Block(address, data)];
      Finished(was, cur, 0);
      forall a: nat ensures ByteAt(blocks, a) == Overlaid(blocks0, address0, data0, a) {
        Finished(was, cur, a);
        assert ViewAt(was, cur, blocks0, address0, data0, a);
      }
      return true;
    }

    /** Reads the data records of a file, those that follow on each other as one. */
    method Load(records: seq<Block>) returns (ok: bool)
      requires blocks == []
      modifies this
      ensures ok <==> AllJoin(Runs(records), |Runs(records)|)
      ensures ok ==> Scattered(blocks) && forall a: nat :: ByteAt(blocks, a) == Latest(records, a)
    {
      var prevAddress: nat, prevData := 0, [];
      ghost var runs := Runs([]);
      for i := 0 to |records|
        invariant Scattered(blocks) && NoneEmpty(blocks) && runs == Runs(records[..i]) && runs[|runs| - 1] == Block(prevAddress, prevData)
        invariant Holds(blocks, runs[..|runs| - 1]) && AllJoin(runs, |runs| - 1)
      {
        ok, prevAddress, prevData := NextRecord(prevAddress, prevData, records[i], records, i);
        if !ok {
          return false;
        }
        runs := Runs(records[..i + 1]);
      }
      assert records[..|records|] == records;
      OneMoreJoins(runs, |runs| - 1);
      ok := Flush(prevAddress, prevData, runs);
      forall a: nat | ok ensures ByteAt(blocks, a) == Latest(records, a) {
        assert HoldsAt(blocks, runs, a);
        LatestOfRuns(records, a);
      }
    }

    /** The record goes on with the last run, or that is complete and the record begins another. */
    method NextRecord(prevAddress: nat, prevData: seq<Byte>, r: Block, ghost records: seq<Block>, ghost i: nat)
      returns (ok: bool, address: nat, data: seq<Byte>)
      requires Scattered(blocks) && NoneEmpty(blocks) && i < |records| && r == records[i]
      requires var runs := Runs(records[..i]);
        runs[|runs| - 1] == Block(prevAddress, prevData) && Holds(blocks, runs[..|runs| - 1]) && AllJoin(runs, |runs| - 1)
      modifies this
      ensures !ok ==> !AllJoin(Runs(records), |Runs(records)|)
      ensures ok ==>
        var runs := Runs(records[..i + 1]);
        && Scattered(blocks) && NoneEmpty(blocks) && runs[|runs| - 1] == Block(address, data)
        && Holds(blocks, runs[..|runs| - 1]) && AllJoin(runs, |runs| - 1)
    {
      ghost var runs := Runs(records[..i]);
      NextRuns(records, i);
      if r.addr == prevAddress + |prevData| {
        return true, prevAddress, prevData + r.data;
      }
      ok := Flush(prevAddress, prevData, runs);
      if ok {
        OneMoreJoins(runs, |runs| - 1);
      } else {
        EndedRun(records, i);
      }
      return ok, r.addr, r.data;
    }

    /** Writes a run that is complete, unless it is empty. */
    method Flush(address: nat, data: seq<Byte>, ghost runs: seq<Block>) returns (ok: bool)
      requires Scattered(blocks) && NoneEmpty(blocks) && runs != [] && runs[|runs| - 1] == Block(address, data)
      requires Holds(blocks, runs[..|runs| - 1])
      modifies this
      ensures ok <==> Joins(runs, |runs| - 1)
      ensures ok ==> Scattered(blocks) && NoneEmpty(blocks) && Holds(blocks, runs)
    {
      ghost var blocks0, mem := blocks, runs[..|runs| - 1];
      SwallowedIsIsland(blocks, mem, Block(address, data));
      ok := true;
      if |data| > 0 {
        ok := SetData(address, data);
      } else {
        NoRoomForIsland(mem, Block(address, data));
      }
      forall a: nat | ok ensures HoldsAt(blocks, runs, a) { NextRunOver(blocks0, runs, a); }
    }
  }

  /** The byte that the last record to cover address `a` gives it. */
  function Latest(records: seq<Block>, a: nat): Option<Byte> {
    if records == [] then None
    else
      var r := records[|records| - 1];
      if r.Contains(a) then Some(r.data[a - r.addr]) else Latest(records[..|records| - 1], a)
  }

  /** The records that follow on each other taken together; the first run starts, perhaps empty, at 0. */
  function Runs(records: seq<Block>): (runs: seq<Block>)
    ensures runs != []
  {
    if records == [] then [Block(0, [])]
    else
      var n := |records| - 1;
      var runs, r := Runs(records[..n]), records[n];
      var last := runs[|runs| - 1];
      if r.addr == last.End() then runs[..|runs| - 1] + [Block(last.addr, last.data + r.data)] else runs + [r]
  }

  /** Among the addresses of `b` there is a hole, a stored byte and a hole again. */
  ghost predicate Island(mem: seq<Block>, b: Block) {
    exists p: nat, q: nat, r: nat :: p < q < r && IslandAt(mem, b, p, q, r)
  }

  predicate IslandAt(mem: seq<Block>, b: Block, p: nat, q: nat, r: nat) {
    b.Contains(p) && b.Contains(r) && Latest(mem, p) == None && Latest(mem, q) != None && Latest(mem, r) == None
  }

  /** Run `j` goes round no island of what the runs before it have left in memory. */
  ghost predicate Joins(runs: seq<Block>, j: int)
    requires 0 <= j < |runs|
  {
    !Island(runs[..j], runs[j])
  }

  ghost predicate AllJoin(runs: seq<Block>, n: nat)
    requires n <= |runs|
  {
    forall j :: 0 <= j < n ==> Joins(runs, j)
  }

  lemma OneMoreJoins(runs: seq<Block>, n: nat)
    requires n < |runs|
    ensures AllJoin(runs, n + 1) <==> AllJoin(runs, n) && Joins(runs, n)
  {}

  predicate NoneEmpty(blocks: seq<Block>) {
    forall k :: 0 <= k < |blocks| ==> blocks[k].data != []
  }

  /** A stored block strictly inside the new data is an island in it, and the other way round. */
  lemma SwallowedIsIsland(blocks: seq<Block>, mem: seq<Block>, b: Block)
    requires Scattered(blocks) && NoneEmpty(blocks) && Holds(blocks, mem)
    ensures Island(mem, b) <==> exists k :: 0 <= k < |blocks| && Swallowed(blocks[k], b.addr, b.data)
  {
    if k :| 0 <= k < |blocks| && Swallowed(blocks[k], b.addr, b.data) {
      var p, q, r := blocks[k].addr - 1, blocks[k].addr, blocks[k].End();
      ByteOf(blocks, k, q);
      assert HoldsAt(blocks, mem, p) && HoldsAt(blocks, mem, q) && HoldsAt(blocks, mem, r);
      if ByteAt(blocks, p) != None { var j := ByteFrom(blocks, p); SameBlock(blocks, j, k); }
      if ByteAt(blocks, r) != None { var j := ByteFrom(blocks, r); SameBlock(blocks, j, k); }
      assert IslandAt(mem, b, p, q, r);
    }
    if p: nat, q: nat, r: nat :| p < q < r && IslandAt(mem, b, p, q, r) {
      assert HoldsAt(blocks, mem, p) && HoldsAt(blocks, mem, q) && HoldsAt(blocks, mem, r);
      var k := ByteFrom(blocks, q);
      if blocks[k].Contains(p) { ByteOf(blocks, k, p); }
      if blocks[k].Contains(r) { ByteOf(blocks, k, r); }
      assert Swallowed(blocks[k], b.addr, b.data);
    }
  }

  /** The block memory holds what the runs have written. */
  ghost predicate Holds(blocks: seq<Block>, mem: seq<Block>) {
    forall a: nat :: HoldsAt(blocks, mem, a)
  }

  predicate HoldsAt(blocks: seq<Block>, mem: seq<Block>, a: nat) { ByteAt(blocks, a) == Latest(mem, a) }

  /** Writing the run that comes next. */
  lemma NextRunOver(blocks: seq<Block>, runs: seq<Block>, a: nat)
    requires runs != [] && Holds(blocks, runs[..|runs| - 1])
    ensures var b := runs[|runs| - 1]; Overlaid(blocks, b.addr, b.data, a) == Latest(runs, a)
  {
    assert HoldsAt(blocks, runs[..|runs| - 1], a);
  }

  lemma NoRoomForIsland(mem: seq<Block>, b: Block)
    requires b.data == []
    ensures !Island(mem, b)
  {
    forall p: nat, q: nat, r: nat ensures !IslandAt(mem, b, p, q, r) {}
  }

  /** Runs with the same beginnings join the same memory. */
  lemma SameJoins(runs: seq<Block>, runs1: seq<Block>, n: nat)
    requires n <= |runs| && n <= |runs1| && runs1[..n] == runs[..n]
    ensures AllJoin(runs1, n) == AllJoin(runs, n)
  {
    forall j | 0 <= j < n ensures Joins(runs1, j) == Joins(runs, j) {
      assert runs1[j] == runs1[..n][j] == runs[j];
      assert runs1[..j] == runs1[..n][..j] == runs[..j];
    }
  }

  /** One more record. */
  lemma NextRuns(records: seq<Block>, i: nat)
    requires i < |records|
    ensures var runs, runs1, r := Runs(records[..i]), Runs(records[..i + 1]), records[i];
      var n, last := |runs|, runs[|runs| - 1];
      if r.addr == last.End() then
        && |runs1| == n && runs1[n - 1] == Block(last.addr, last.data + r.data) && runs1[..n - 1] == runs[..n - 1]
        && AllJoin(runs1, n - 1) == AllJoin(runs, n - 1)
      else
        && |runs1| == n + 1 && runs1[n] == r && runs1[..n] == runs
        && AllJoin(runs1, n) == AllJoin(runs, n)
  {
    assert records[..i + 1][..i] == records[..i];
    var runs, runs1, r := Runs(records[..i]), Runs(records[..i + 1]), records[i];
    if r.addr == runs[|runs| - 1].End() {
      SameJoins(runs, runs1, |runs| - 1);
    } else {
      SameJoins(runs, runs1, |runs|);
    }
  }

  /** Taking records together changes nothing in memory. */
  lemma {:induction false} LatestOfRuns(records: seq<Block>, a: nat)
    ensures Latest(Runs(records), a) == Latest(records, a)
  {
    if records == [] {
      NothingAt([Block(0, [])], a);
    } else {
      var n := |records| - 1;
      LatestOfRuns(records[..n], a);
      var runs := Runs(records[..n]);
      var m := |runs| - 1;
      assert Runs(records)[..|Runs(records)| - 1] == if records[n].addr == runs[m].End() then runs[..m] else runs;
    }
  }

  /** Later records change no run but the last. */
  lemma {:induction false} RunsStay(records: seq<Block>, i: nat)
    requires i <= |records|
    ensures var runs := Runs(records[..i]);
      |runs| <= |Runs(records)| && runs[..|runs| - 1] == Runs(records)[..|runs| - 1]
    decreases |records|
  {
    if i == |records| {
      assert records[..i] == records;
    } else {
      var before := records[..|records| - 1];
      assert before[..i] == records[..i];
      RunsStay(before, i);
    }
  }

  /** A run that record `i` does not go on with is a run of the file. */
  lemma EndedRun(records: seq<Block>, i: nat)
    requires i < |records|
    requires var runs := Runs(records[..i]); records[i].addr != runs[|runs| - 1].End()
    ensures var n := |Runs(records[..i])|;
      n <= |Runs(records)| && (Joins(Runs(records), n - 1) <==> Joins(Runs(records[..i]), n - 1))
  {
    var runs, all := Runs(records[..i]), Runs(records);
    assert all[..|runs|] == runs by {
      RunsStay(records, i + 1);
      assert records[..i + 1][..i] == records[..i];
    }
    SamePrefix(all, runs);
  }

  lemma SamePrefix(all: seq<Block>, runs: seq<Block>)
    requires runs != [] && |runs| <= |all| && all[..|runs|] == runs
    ensures all[..|runs| - 1] == runs[..|runs| - 1] && all[|runs| - 1] == runs[|runs| - 1]
  {
    assert all[|runs| - 1] == all[..|runs|][|runs| - 1];
  }

  /** Every record starts where the one before it ends, or later. */
  ghost predicate Ascending(records: seq<Block>) {
    forall i :: 0 < i < |records| ==> AscendingAt(records, i)
  }

  predicate AscendingAt(records: seq<Block>, i: int)
    requires 0 < i < |records|
  {
    records[i - 1].End() <= records[i].addr
  }

  /** A file in ascending order can always be read. */
  lemma AscendingJoins(records: seq<Block>, j: nat)
    requires Ascending(records) && j < |Runs(records)|
    ensures Joins(Runs(records), j)
  {
    var runs := Runs(records);
    AscendingRuns(records);
    forall q: nat | runs[j].Contains(q) ensures Latest(runs[..j], q) == None { NothingAt(runs[..j], q); }
  }

  lemma {:induction false} AscendingRuns(records: seq<Block>)
    requires Ascending(records)
    ensures var runs := Runs(records);
      && (forall i, j :: 0 <= i < j < |runs| ==> runs[i].End() <= runs[j].addr)
      && (records != [] ==> runs[|runs| - 1].End() == records[|records| - 1].End())
  {
    if records != [] {
      var n := |records| - 1;
      var before, r := records[..n], records[n];
      forall i | 0 < i < n ensures AscendingAt(before, i) { assert AscendingAt(records, i); }
      AscendingRuns(before);
      if n > 0 { assert AscendingAt(records, n); }
      NextRun(Runs(before), r, Runs(records));
    }
  }

  lemma NextRun(runs: seq<Block>, r: Block, runs1: seq<Block>)
    requires runs != [] && (forall i, j :: 0 <= i < j < |runs| ==> runs[i].End() <= runs[j].addr)
    requires runs[|runs| - 1].End() <= r.addr
    requires var last := runs[|runs| - 1];
      runs1 == if r.addr == last.End() then runs[..|runs| - 1] + [Block(last.addr, last.data + r.data)] else runs + [r]
    ensures forall i, j :: 0 <= i < j < |runs1| ==> runs1[i].End() <= runs1[j].addr
    ensures runs1 != [] && runs1[|runs1| - 1].End() == r.End()
  {
    forall i, j | 0 <= i < j < |runs1| ensures runs1[i].End() <= runs1[j].addr {
      assert i < |runs| && (j < |runs| ==> runs[i].End() <= runs[j].addr) && runs[i].End() <= runs[|runs| - 1].End();
    }
  }

  lemma {:induction false} NothingAt(mem: seq<Block>, a: nat)
    requires forall k :: 0 <= k < |mem| ==> !mem[k].Contains(a)
    ensures Latest(mem, a) == None
  {
    if mem != [] { NothingAt(mem[..|mem| - 1], a); }
  }

  /** Reading fails for a file whose third record goes round the first one. */
  lemma SurroundedRecord()
    returns (records: seq<Block>)
    ensures records == [Block(4, [7]), Block(9, [8]), Block(2, [1, 2, 3, 4])]
    ensures exists j :: 0 <= j < |Runs(records)| && !Joins(Runs(records), j)
  {
    var a, b, c := Block(4, [7]), Block(9, [8]), Block(2, [1, 2, 3, 4]);
    var runs := [Block(0, []), a, b, c];
    records := [a, b, c];
    assert records[..2] == [a, b] && [a, b][..1] == [a] && [a][..0] == [];
    assert Runs([]) == [Block(0, [])];
    assert Runs([a]) == [Block(0, []), a];
    assert Runs([a, b]) == [Block(0, []), a, b];
    assert Runs(records) == runs;
    var mem := runs[..3];
    assert mem[..2][..1] == [Block(0, [])] && mem[..2] == [Block(0, []), a];
    NothingAt(mem, 3);
    NothingAt(mem, 5);
    assert Latest(mem[..2], 4) == Some(7);
    assert IslandAt(mem, c, 3, 4, 5);
    assert !Joins(Runs(records), 3);
  }

  lemma StillPassed(blocks0: seq<Block>, blocks: seq<Block>, i: nat, address0: nat, data0: seq<Byte>)
    requires i < |blocks| && !Swallowed(blocks[i], address0, data0)
    requires forall k :: 0 <= k < |blocks0| ==> Passed(blocks0[k], blocks, i, address0, data0)
    ensures forall k :: 0 <= k < |blocks0| ==> Passed(blocks0[k], Without(blocks, i), i, address0, data0)
  {
    var r := Without(blocks, i);
    forall k | 0 <= k < |blocks0| ensures Passed(blocks0[k], r, i, address0, data0) {
      assert Passed(blocks0[k], blocks, i, address0, data0);
      if !Swallowed(blocks0[k], address0, data0) {
      } else {
        var j :| i <= j < |blocks| && blocks[j] == blocks0[k];
        assert r[j - 1] == blocks[j];
      }
    }
  }
}
