/** A buffer of fixed size used in a circle: `count` entries from position `head` on, wrapping at the end. */
module Ring {

  ghost predicate InRing<T>(buf: seq<T>, head: nat, tail: nat, count: nat) {
    && head < |buf| && tail < |buf| && count <= |buf|
    && tail == (if head + count < |buf| then head + count else head + count - |buf|)
  }

  /** The entries, the oldest first. */
  function Entries<T>(buf: seq<T>, head: nat, count: nat): (q: seq<T>)
    requires head < |buf| && count <= |buf|
    ensures |q| == count
  {
    if head + count <= |buf| then buf[head..head + count] else buf[head..] + buf[..head + count - |buf|]
  }

  function Inc(ptr: nat, size: nat): nat { if ptr + 1 == size then 0 else ptr + 1 }

  lemma Pushed<T>(buf: seq<T>, head: nat, tail: nat, count: nat, x: T)
    requires InRing(buf, head, tail, count) && count < |buf|
    ensures InRing(buf[tail := x], head, Inc(tail, |buf|), count + 1)
    ensures Entries(buf[tail := x], head, count + 1) == Entries(buf, head, count) + [x]
  {}

  lemma Popped<T>(buf: seq<T>, head: nat, tail: nat, count: nat)
    requires InRing(buf, head, tail, count) && count > 0
    ensures InRing(buf, Inc(head, |buf|), tail, count - 1)
    ensures Entries(buf, head, count)[0] == buf[head]
    ensures Entries(buf, Inc(head, |buf|), count - 1) == Entries(buf, head, count)[1..]
  {}
}
