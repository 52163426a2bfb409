/** The doubly linked queues of an object's operations: pushing, unlinking, and the
    three walks that cancel, reap or execute what is queued.

    The outcome of a backend's execute or cancel hook for each operation, and the
    status another thread may have set just before the walk reaches an operation, or
    while or after its execute hook ran, and whether the object is being deleted by
    then, are parameters, one per position.  Released operations
    go to the global queue in the order the walk returns them. */
module OperationQueue {
  datatype Status = Pending | Success | Timeout | Disconnected | Canceled | UnknownError

  datatype Running = Waiting | Started | Cancelling

  datatype ReapAction = Keep | Cancel | Release

  /** What a reap does with an operation. */
  function SelectReap(running: Running, status: Status): ReapAction {
    if status.Pending? then Keep
    else match running
         case Started => Cancel
         case Waiting => Release
         case Cancelling => Keep
  }

  // ------------------------------------------------------------------ keep and drop

  /** The marked members, in order. */
  function Kept<T>(s: seq<T>, keep: seq<bool>): seq<T>
    requires |s| == |keep|
  {
    if s == [] then [] else Kept(s[..|s| - 1], keep[..|s| - 1]) + if keep[|s| - 1] then [s[|s| - 1]] else []
  }

  function Dropped<T>(s: seq<T>, keep: seq<bool>): seq<T>
    requires |s| == |keep|
  {
    if s == [] then [] else Dropped(s[..|s| - 1], keep[..|s| - 1]) + if keep[|s| - 1] then [] else [s[|s| - 1]]
  }

  /** Every member is kept or dropped, and as often as it was there. */
  lemma {:induction false} Parted<T>(s: seq<T>, keep: seq<bool>)
    requires |s| == |keep|
    ensures multiset(Kept(s, keep)) + multiset(Dropped(s, keep)) == multiset(s)
  {
    if s != [] {
      Parted(s[..|s| - 1], keep[..|s| - 1]);
      assert s == s[..|s| - 1] + [s[|s| - 1]];
    }
  }

  lemma KeptStep<T>(s: seq<T>, keep: seq<bool>, i: nat)
    requires |s| == |keep| && i < |s|
    ensures Kept(s[..i + 1], keep[..i + 1]) == Kept(s[..i], keep[..i]) + if keep[i] then [s[i]] else []
    ensures Dropped(s[..i + 1], keep[..i + 1]) == Dropped(s[..i], keep[..i]) + if keep[i] then [] else [s[i]]
  {
    assert s[..i + 1][..i] == s[..i] && keep[..i + 1][..i] == keep[..i];
  }

  /** Survivors keep their order: they are a subsequence. */
  lemma {:induction false} KeptInOrder<T>(s: seq<T>, keep: seq<bool>, a: nat, b: nat) returns (i: nat, j: nat)
    requires |s| == |keep| && a < b < |Kept(s, keep)|
    ensures i < j < |s| && s[i] == Kept(s, keep)[a] && s[j] == Kept(s, keep)[b] && keep[i] && keep[j]
  {
    var n := |s| - 1;
    var before := Kept(s[..n], keep[..n]);
    if b < |before| {
      i, j := KeptInOrder(s[..n], keep[..n], a, b);
    } else {
      i := KeptAt(s[..n], keep[..n], a);
      j := n;
    }
  }

  lemma {:induction false} KeptAt<T>(s: seq<T>, keep: seq<bool>, a: nat) returns (i: nat)
    requires |s| == |keep| && a < |Kept(s, keep)|
    ensures i < |s| && s[i] == Kept(s, keep)[a] && keep[i]
  {
    var n := |s| - 1;
    if a < |Kept(s[..n], keep[..n])| {
      i := KeptAt(s[..n], keep[..n], a);
    } else {
      i := n;
    }
  }

  lemma {:induction false} Among<T>(s: seq<T>, keep: seq<bool>, x: T)
    requires |s| == |keep|
    ensures x in Kept(s, keep) <==> exists i :: 0 <= i < |s| && s[i] == x && keep[i]
  {
    if s != [] {
      var n := |s| - 1;
      Among(s[..n], keep[..n], x);
      assert forall i :: 0 <= i < n ==> s[..n][i] == s[i] && keep[..n][i] == keep[i];
    }
  }

  // ---------------------------------------------------------------------- the lists

  class Operation {
    var prev: Operation?
    var next: Operation?
    var running: Running
    var status: Status
  }

  ghost predicate Distinct(ops: seq<Operation>) {
    forall i, j :: 0 <= i < j < |ops| ==> ops[i] != ops[j]
  }

  function Nth(ops: seq<Operation>, i: int): Operation? {
    if 0 <= i < |ops| then ops[i] else null
  }

  ghost predicate LinkedAt(ops: seq<Operation>, i: nat)
    requires i < |ops|
    reads ops`prev, ops`next
  {
    ops[i].prev == Nth(ops, i - 1) && ops[i].next == Nth(ops, i + 1)
  }

  /** Head, tail and links spell out the sequence. */
  ghost predicate Linked(head: Operation?, tail: Operation?, ops: seq<Operation>)
    reads ops`prev, ops`next
  {
    && Distinct(ops) && head == Nth(ops, 0) && tail == Nth(ops, |ops| - 1)
    && forall i: nat {:trigger LinkedAt(ops, i)} :: i < |ops| ==> LinkedAt(ops, i)
  }

  class Queue {
    var head: Operation?
    var tail: Operation?
    ghost var ops: seq<Operation>

    ghost predicate Valid()
      reads this, ops`prev, ops`next
    {
      Linked(head, tail, ops)
    }

    method PushBack(op: Operation)
      requires Valid() && op !in ops
      modifies this, op, tail
      ensures Valid() && ops == old(ops) + [op]
    {
      assert ops != [] ==> tail == ops[|ops| - 1];
      op.prev := tail;
      op.next := null;
      if tail != null {
        tail.next := op;
        tail := op;
      } else {
        head, tail := op, op;
      }
      ops := ops + [op];
      forall i: nat | i < |ops| ensures LinkedAt(ops, i) {
        if i < |ops| - 1 { assert old(LinkedAt(ops, i)); }
      }
    }

    /** Unlink an operation; one that is in no queue, with its links clear, is left
        alone. */
    method Remove(op: Operation)
      requires Valid()
      requires op !in ops ==> op.prev == null && op.next == null
      modifies this, op, op.prev, op.next
      ensures Valid()
      ensures op !in old(ops) ==> ops == old(ops)
      ensures forall i :: 0 <= i < |old(ops)| && old(ops)[i] == op ==> ops == old(ops)[..i] + old(ops)[i + 1..]
      ensures op.prev == null && op.next == null
    {
      if op.prev == null && op.next == null && head != op {
        forall i: nat | i < |ops| ensures ops[i] != op { assert LinkedAt(ops, i); }
        return;
      }
      ghost var at :| 0 <= at < |ops| && ops[at] == op;
      assert LinkedAt(ops, at);
      assert at > 0 ==> LinkedAt(ops, at - 1);
      assert at + 1 < |ops| ==> LinkedAt(ops, at + 1);
      if op.prev != null {
        op.prev.next := op.next;
      } else {
        head := op.next;
        if head == null {
          tail := null;
        }
      }
      if op.next != null {
        op.next.prev := op.prev;
      } else {
        tail := op.prev;
        if tail == null {
          head := null;
        }
      }
      op.prev := null;
      op.next := null;
      ops := ops[..at] + ops[at + 1..];
      forall i: nat | i < |ops| ensures LinkedAt(ops, i) {
        assert old(LinkedAt(ops, if i < at then i else i + 1));
      }
    }

    // ------------------------------------------------------------------------ walks

    /** The walk's position: `op` is the next to visit, what is ahead is still linked
        forward, the survivors so far form a list of their own, and the rest of what was
        visited has clear links. */
    static ghost predicate Walking(all: seq<Operation>, i: nat, op: Operation?, first: Operation?, last: Operation?, kept: seq<Operation>)
      reads all`prev, all`next, kept`prev, kept`next
    {
      && Distinct(all) && i <= |all| && op == Nth(all, i)
      && (forall j: nat {:trigger all[j]} :: i <= j < |all| ==> all[j].next == Nth(all, j + 1))
      && Linked(first, last, kept)
      && (forall k :: k in kept ==> k in all[..i])
      && (forall j: nat {:trigger all[j]} :: j < i && all[j] !in kept ==> all[j].prev == null && all[j].next == null)
    }

    /** Append a survivor whose links were cleared. */
    static method AppendSurvivor(first: Operation?, last: Operation?, op: Operation, ghost kept: seq<Operation>)
      returns (first': Operation?, last': Operation?)
      requires Linked(first, last, kept) && op !in kept && op.next == null
      modifies op`prev, (if last == null then {} else {last})`next
      ensures Linked(first', last', kept + [op])
    {
      assert kept != [] ==> last == kept[|kept| - 1];
      op.prev := last;
      first' := first;
      if last != null {
        last.next := op;
      } else {
        first' := op;
      }
      last' := op;
      forall i: nat | i < |kept + [op]| ensures LinkedAt(kept + [op], i) {
        if i < |kept| { assert old(LinkedAt(kept, i)); }
      }
    }

    /** The bulk cancel's treatment of one operation: whoever sets the terminal status
        first wins.  A winner over running I/O keeps the operation if the backend will
        still report it. */
    static method CancelOne(op: Operation, status: Status, other: Status, cancelled: bool) returns (keep: bool)
      requires !status.Pending?
      modifies op`status, op`running
      ensures keep == CancelKeeps(Fields(old(op.running), old(op.status)), other, cancelled)
      ensures Fields(op.running, op.status) == CancelFields(Fields(old(op.running), old(op.status)), other, status)
    {
      if op.status.Pending? && !other.Pending? {
        op.status := other;
      }
      if !op.status.Pending? {
        return true;
      }
      op.status := status;
      if op.running.Started? {
        op.running := Cancelling;
        keep := !cancelled;
      } else {
        keep := false;
      }
    }

    /** A reap's treatment of one operation. */
    static method ReapOne(op: Operation, other: Status, cancelled: bool) returns (keep: bool)
      modifies op`status, op`running
      ensures keep == ReapKeeps(Fields(old(op.running), old(op.status)), other, cancelled)
      ensures Fields(op.running, op.status) == ReapFields(Fields(old(op.running), old(op.status)), other)
    {
      if op.status.Pending? && !other.Pending? {
        op.status := other;
      }
      var action := SelectReap(op.running, op.status);
      if action.Cancel? {
        op.running := Cancelling;
        return !cancelled;
      }
      keep := action.Keep?;
    }

    /** A visited operation leaves the old list with its links clear. */
    static method Detach(op: Operation, first: Operation?, last: Operation?, ghost all: seq<Operation>, ghost i: nat, ghost kept: seq<Operation>)
      requires Walking(all, i, op, first, last, kept) && i < |all|
      modifies op`prev, op`next
      ensures Walking(all, i + 1, old(op.next), first, last, kept)
      ensures op !in kept && op == all[i]
    {
      assert all[i] == op && all[..i + 1] == all[..i] + [op];
      op.prev, op.next := null, null;
      assert op !in kept && forall j :: i < j < |all| ==> all[j] != op;
      forall j: nat | j < |kept| ensures LinkedAt(kept, j) { assert old(LinkedAt(kept, j)); }
    }

    /** It joins the survivors. */
    static method Survive(op: Operation, first: Operation?, last: Operation?,
                          ghost all: seq<Operation>, ghost i: nat, ghost next: Operation?, ghost kept: seq<Operation>)
      returns (first': Operation?, last': Operation?)
      requires i < |all| && op == all[i] && op !in kept && Walking(all, i + 1, next, first, last, kept)
      modifies op`prev, (if last == null then {} else {last})`next
      ensures Walking(all, i + 1, next, first', last', kept + [op])
    {
      assert op.next == null;
      assert last != null ==> last in kept;
      assert forall j: nat :: i < j < |all| ==> all[j] != op && all[j] !in all[..i + 1];
      assert op in all[..i + 1];
      first', last' := AppendSurvivor(first, last, op, kept);
    }

    /** Move a visited operation out of the way: among the survivors or released. */
    static method Settle(op: Operation, keep: bool, first: Operation?, last: Operation?,
                         ghost all: seq<Operation>, ghost i: nat, ghost kept: seq<Operation>)
      returns (first': Operation?, last': Operation?, released: seq<Operation>, ghost kept': seq<Operation>)
      requires Walking(all, i, op, first, last, kept) && i < |all|
      modifies all`prev, all`next
      ensures Walking(all, i + 1, old(op.next), first', last', kept')
      ensures kept' == kept + (if keep then [op] else []) && released == if keep then [] else [op]
    {
      assert all[i] == op;
      ghost var next := op.next;
      Detach(op, first, last, all, i, kept);
      first', last', released, kept' := first, last, [op], kept;
      if keep {
        assert last != null ==> last == kept[|kept| - 1] && last in all[..i + 1] && last in all;
        first', last' := Survive(op, first, last, all, i, next, kept);
        released, kept' := [], kept + [op];
      }
    }

    /** What is ahead of the walk has the fields it had when the walk began. */
    static ghost predicate Ahead(all: seq<Operation>, i: nat, was: seq<Fields>)
      reads all`running, all`status
    {
      |was| == |all| && forall j: nat {:trigger all[j]} :: i <= j < |all| ==> Fields(all[j].running, all[j].status) == was[j]
    }

    /** What the walk has passed has the fields it was given. */
    static ghost predicate Behind(all: seq<Operation>, i: nat, now: seq<Fields>)
      reads all`running, all`status
    {
      i <= |all| == |now| && forall j: nat {:trigger all[j]} :: j < i ==> Fields(all[j].running, all[j].status) == now[j]
    }

    static method CancelField(op: Operation, status: Status, other: Status, cancelled: bool,
                              ghost all: seq<Operation>, ghost i: nat, ghost was: seq<Fields>, ghost now: seq<Fields>) returns (stays: bool)
      requires !status.Pending? && i < |all| && op == all[i] && Distinct(all) && Ahead(all, i, was)
      requires Behind(all, i, now) && now[i] == CancelFields(was[i], other, status)
      modifies op`status, op`running
      ensures stays == CancelKeeps(was[i], other, cancelled)
      ensures Ahead(all, i + 1, was) && Behind(all, i + 1, now)
    {
      stays := CancelOne(op, status, other, cancelled);
    }

    static method CancelVisit(op: Operation, status: Status, other: Status, cancelled: bool, first: Operation?, last: Operation?,
                              ghost all: seq<Operation>, ghost i: nat, ghost kept: seq<Operation>, ghost was: seq<Fields>, ghost now: seq<Fields>)
      returns (next: Operation?, first': Operation?, last': Operation?, released: seq<Operation>, ghost kept': seq<Operation>)
      requires Walking(all, i, op, first, last, kept) && i < |all| && !status.Pending? && Ahead(all, i, was)
      requires Behind(all, i, now) && now[i] == CancelFields(was[i], other, status)
      modifies all
      ensures Walking(all, i + 1, next, first', last', kept') && Ahead(all, i + 1, was)
      ensures Behind(all, i + 1, now)
      ensures var stays := CancelKeeps(was[i], other, cancelled);
        kept' == kept + (if stays then [op] else []) && released == if stays then [] else [op]
    {
      assert op == all[i] && op in all;
      next := op.next;
      var stays := CancelField(op, status, other, cancelled, all, i, was, now);
      first', last', released, kept' := Settle(op, stays, first, last, all, i, kept);
    }

    static method ReapField(op: Operation, other: Status, cancelled: bool,
                              ghost all: seq<Operation>, ghost i: nat, ghost was: seq<Fields>, ghost now: seq<Fields>) returns (stays: bool)
      requires i < |all| && op == all[i] && Distinct(all) && Ahead(all, i, was)
      requires Behind(all, i, now) && now[i] == ReapFields(was[i], other)
      modifies op`status, op`running
      ensures stays == ReapKeeps(was[i], other, cancelled)
      ensures Ahead(all, i + 1, was) && Behind(all, i + 1, now)
    {
      stays := ReapOne(op, other, cancelled);
    }

    static method ReapVisit(op: Operation, other: Status, cancelled: bool, first: Operation?, last: Operation?,
                            ghost all: seq<Operation>, ghost i: nat, ghost kept: seq<Operation>, ghost was: seq<Fields>, ghost now: seq<Fields>)
      returns (next: Operation?, first': Operation?, last': Operation?, released: seq<Operation>, ghost kept': seq<Operation>)
      requires Walking(all, i, op, first, last, kept) && i < |all| && Ahead(all, i, was)
      requires Behind(all, i, now) && now[i] == ReapFields(was[i], other)
      modifies all
      ensures Walking(all, i + 1, next, first', last', kept') && Ahead(all, i + 1, was)
      ensures Behind(all, i + 1, now)
      ensures var stays := ReapKeeps(was[i], other, cancelled);
        kept' == kept + (if stays then [op] else []) && released == if stays then [] else [op]
    {
      assert op == all[i] && op in all;
      next := op.next;
      var stays := ReapField(op, other, cancelled, all, i, was, now);
      first', last', released, kept' := Settle(op, stays, first, last, all, i, kept);
    }

    lemma WalkBegins()
      requires Valid()
      ensures Walking(ops, 0, head, null, null, [])
    {
      forall j: nat | j < |ops| ensures ops[j].next == Nth(ops, j + 1) { assert LinkedAt(ops, j); }
    }

    /** The survivors become the queue. */
    method Commit(first: Operation?, last: Operation?, ghost all: seq<Operation>, ghost kept: seq<Operation>)
      requires Walking(all, |all|, null, first, last, kept)
      modifies this
      ensures Valid() && ops == kept
      ensures forall o :: o in all && o !in ops ==> o.prev == null && o.next == null
    {
      head, tail := first, last;
      ops := kept;
    }

    ghost function Snapshot(): (r: seq<Fields>)
      reads this, ops
      ensures |r| == |ops| && forall i :: 0 <= i < |ops| ==> r[i] == Fields(ops[i].running, ops[i].status)
    {
      seq(|ops|, i requires 0 <= i < |ops| reads this, ops => Fields(ops[i].running, ops[i].status))
    }

    /** How a cancel leaves the operations: what stays was ended by another thread first or
        is in flight, with its backend to report it; what goes carries the status of the
        cancel, and nothing runs for it. */
    static ghost predicate Cancelled(all: seq<Operation>, left: seq<Operation>, was: seq<Fields>, other: seq<Status>, done: seq<bool>, status: Status)
      requires |all| == |was| == |other| == |done|
      reads all`running, all`status
    {
      forall i {:trigger all[i]} :: 0 <= i < |all| ==>
        var now := Fields(all[i].running, all[i].status);
        if all[i] in left then EndedBefore(was[i], now, other[i]) || (InFlight(was[i], now, status) && !done[i])
        else Ended(was[i], now, done[i]) && was[i].status.Pending? && now.status == status
    }

    /** How a reap leaves them: what stays is pending or in flight, what goes is terminal and
        nothing runs for it. */
    static ghost predicate Reaped(all: seq<Operation>, left: seq<Operation>, was: seq<Fields>, done: seq<bool>)
      requires |all| == |was| == |done|
      reads all`running, all`status
    {
      forall i {:trigger all[i]} :: 0 <= i < |all| ==>
        var now := Fields(all[i].running, all[i].status);
        if all[i] in left then now.status.Pending? || (now.running.Cancelling? && (was[i].running.Cancelling? || !done[i]))
        else Ended(was[i], now, done[i]) && !was[i].running.Cancelling?
    }

    static lemma Stays(all: seq<Operation>, keep: seq<bool>, i: nat)
      requires Distinct(all) && |all| == |keep| && i < |all|
      ensures all[i] in Kept(all, keep) <==> keep[i]
    {
      Among(all, keep, all[i]);
    }

    static lemma CancelLeaves(all: seq<Operation>, was: seq<Fields>, other: seq<Status>, cancelled: seq<bool>, status: Status)
      requires Distinct(all) && |all| == |was| == |other| == |cancelled| && !status.Pending?
      requires Behind(all, |all|, CancelNow(was, other, status))
      ensures Cancelled(all, Kept(all, CancelAll(was, other, cancelled)), was, other, cancelled, status)
    {
      var keep := CancelAll(was, other, cancelled);
      forall i: nat | i < |all| ensures all[i] in Kept(all, keep) <==> keep[i] { Stays(all, keep, i); }
    }

    static lemma ReapLeaves(all: seq<Operation>, was: seq<Fields>, other: seq<Status>, cancelled: seq<bool>)
      requires Distinct(all) && |all| == |was| == |other| == |cancelled|
      requires Behind(all, |all|, ReapNow(was, other))
      ensures Reaped(all, Kept(all, ReapAll(was, other, cancelled)), was, cancelled)
    {
      var keep := ReapAll(was, other, cancelled);
      forall i: nat | i < |all| ensures all[i] in Kept(all, keep) <==> keep[i] { Stays(all, keep, i); }
    }

    /** Bulk cancel: every operation is kept, in order, or released, once. */
    method CancelOperationList(status: Status, other: seq<Status>, cancelled: seq<bool>) returns (released: seq<Operation>)
      requires Valid() && !status.Pending? && |other| == |cancelled| == |ops|
      modifies this, ops
      ensures Valid()
      ensures var keep := CancelAll(old(Snapshot()), other, cancelled);
        ops == Kept(old(ops), keep) && released == Dropped(old(ops), keep)
      ensures Behind(old(ops), |old(ops)|, CancelNow(old(Snapshot()), other, status))
      ensures Cancelled(old(ops), ops, old(Snapshot()), other, cancelled, status)
      ensures forall o :: o in old(ops) && o !in ops ==> o.prev == null && o.next == null
    {
      released := CancelWalk(status, other, cancelled);
      CancelLeaves(old(ops), old(Snapshot()), other, cancelled, status);
    }

    method CancelWalk(status: Status, other: seq<Status>, cancelled: seq<bool>) returns (released: seq<Operation>)
      requires Valid() && !status.Pending? && |other| == |cancelled| == |ops|
      modifies this, ops
      ensures Valid()
      ensures var keep := CancelAll(old(Snapshot()), other, cancelled);
        ops == Kept(old(ops), keep) && released == Dropped(old(ops), keep)
      ensures Behind(old(ops), |old(ops)|, CancelNow(old(Snapshot()), other, status))
      ensures forall o :: o in old(ops) && o !in ops ==> o.prev == null && o.next == null
    {
      ghost var all, was := ops, Snapshot();
      ghost var keep, now := CancelAll(was, other, cancelled), CancelNow(was, other, status);
      var op, first, last, i := head, null, null, 0;
      ghost var kept: seq<Operation> := [];
      released := [];
      WalkBegins();
      while op != null
        invariant 0 <= i <= |all| == |other| && all == old(ops)
        invariant Walking(all, i, op, first, last, kept) && Ahead(all, i, was) && Behind(all, i, now)
        invariant kept == Kept(all[..i], keep[..i]) && released == Dropped(all[..i], keep[..i])
        decreases |all| - i
      {
        var gone;
        op, first, last, gone, kept := CancelVisit(op, status, other[i], cancelled[i], first, last, all, i, kept, was, now);
        KeptStep(all, keep, i);
        released := released + gone;
        i := i + 1;
      }
      assert all[..i] == all && keep[..i] == keep;
      Commit(first, last, all, kept);
    }

    /** Reap what has become terminal; ask for a start if an operation that waits is
        now first. */
    method Reap(other: seq<Status>, cancelled: seq<bool>) returns (released: seq<Operation>, needStart: bool)
      requires Valid() && |other| == |cancelled| == |ops|
      modifies this, ops
      ensures Valid()
      ensures var keep := ReapAll(old(Snapshot()), other, cancelled);
        ops == Kept(old(ops), keep) && released == Dropped(old(ops), keep)
      ensures Behind(old(ops), |old(ops)|, ReapNow(old(Snapshot()), other)) && Reaped(old(ops), ops, old(Snapshot()), cancelled)
      ensures forall o :: o in old(ops) && o !in ops ==> o.prev == null && o.next == null
      ensures needStart <==> ops != [] && ops[0].running.Waiting?
    {
      released := ReapWalk(other, cancelled);
      ReapLeaves(old(ops), old(Snapshot()), other, cancelled);
      needStart := head != null && head.running.Waiting?;
    }

    method ReapWalk(other: seq<Status>, cancelled: seq<bool>) returns (released: seq<Operation>)
      requires Valid() && |other| == |cancelled| == |ops|
      modifies this, ops
      ensures Valid()
      ensures var keep := ReapAll(old(Snapshot()), other, cancelled);
        ops == Kept(old(ops), keep) && released == Dropped(old(ops), keep)
      ensures Behind(old(ops), |old(ops)|, ReapNow(old(Snapshot()), other))
      ensures forall o :: o in old(ops) && o !in ops ==> o.prev == null && o.next == null
    {
      ghost var all, was := ops, Snapshot();
      ghost var keep, now := ReapAll(was, other, cancelled), ReapNow(was, other);
      var op, first, last, i := head, null, null, 0;
      ghost var kept: seq<Operation> := [];
      released := [];
      WalkBegins();
      while op != null
        invariant 0 <= i <= |all| == |other| && all == old(ops)
        invariant Walking(all, i, op, first, last, kept) && Ahead(all, i, was) && Behind(all, i, now)
        invariant kept == Kept(all[..i], keep[..i]) && released == Dropped(all[..i], keep[..i])
        decreases |all| - i
      {
        var gone;
        op, first, last, gone, kept := ReapVisit(op, other[i], cancelled[i], first, last, all, i, kept, was, now);
        KeptStep(all, keep, i);
        released := released + gone;
        i := i + 1;
      }
      assert all[..i] == all && keep[..i] == keep;
      Commit(first, last, all, kept);
    }

    // ---------------------------------------------------------------------- execute

    /** Run the front of the queue: terminal and completed operations leave, the first
        one that starts and stays pending, or that a dying object does not let start,
        ends the walk.  While transport initialization is in flight nothing runs. */
    method Execute(other: seq<Status>, outcomes: seq<Status>, late: seq<Status>, dying: seq<bool>, initializing: bool) returns (released: seq<Operation>)
      requires Valid() && |other| == |outcomes| == |late| == |dying| == |ops|
      modifies this, ops
      ensures Valid()
      ensures var n := if initializing then 0 else Runs(old(Snapshot()), other, outcomes, dying, 0);
        && n <= |old(ops)| && released == old(ops)[..n] && ops == old(ops)[n..]
        && (!initializing && n < |old(ops)| ==>
              Fields(ops[0].running, ops[0].status) == StopFields(old(Snapshot())[n], late[n], dying[n]))
        && (forall i {:trigger old(ops)[i]} :: (if initializing then 0 else n + 1) <= i < |old(ops)| ==>
              Fields(old(ops)[i].running, old(ops)[i].status) == old(Snapshot())[i])
      ensures forall i :: 0 <= i < |released| ==>
                released[i].status == FirstSet([old(Snapshot())[i].status, other[i], late[i], outcomes[i]]) && !released[i].status.Pending?
      ensures !initializing && ops != [] ==>
        var n := |released|; old(Snapshot())[n].status.Pending? && other[n].Pending? && (dying[n] || outcomes[n].Pending?)
    {
      if initializing {
        return [];
      }
      var op;
      ghost var n;
      op, released, n := ExecuteWalk(other, outcomes, late, dying);
      ghost var was := old(Snapshot());
      forall i | 0 <= i < n ensures Final(was[i], other[i], outcomes[i], late[i]) == FirstSet([was[i].status, other[i], late[i], outcomes[i]]) {
        FinalIsFirst(was[i], other[i], outcomes[i], late[i]);
      }
      CutFront(ops, n, op);
    }

    /** The walk itself touches no link. */
    method ExecuteWalk(other: seq<Status>, outcomes: seq<Status>, late: seq<Status>, dying: seq<bool>)
      returns (op: Operation?, released: seq<Operation>, ghost n: nat)
      requires Valid() && |other| == |outcomes| == |late| == |dying| == |ops|
      modifies ops`status, ops`running
      ensures n == Runs(old(Snapshot()), other, outcomes, dying, 0) && op == Nth(ops, n) && released == ops[..n]
      ensures forall j :: 0 <= j < n ==> ops[j].status == Final(old(Snapshot())[j], other[j], outcomes[j], late[j]) && !ops[j].status.Pending?
      ensures n < |ops| ==> Fields(ops[n].running, ops[n].status) == StopFields(old(Snapshot())[n], late[n], dying[n])
      ensures Ahead(ops, n + 1, old(Snapshot()))
    {
      ghost var was := Snapshot();
      op := head;
      var i: nat := 0;
      released := [];
      while op != null
        invariant i <= |ops| && op == Nth(ops, i) && released == ops[..i] && Ahead(ops, i, was)
        invariant forall j :: 0 <= j < i ==> ops[j].status == Final(was[j], other[j], outcomes[j], late[j]) && !ops[j].status.Pending?
        invariant Runs(was, other, outcomes, dying, 0) == Runs(was, other, outcomes, dying, i)
        decreases |ops| - i
      {
        assert LinkedAt(ops, i);
        var leaves := ExecuteOne(op, other[i], outcomes[i], late[i], dying[i]);
        if !leaves {
          n := i;
          return;
        }
        released := released + [op];
        op := op.next;
        i := i + 1;
      }
      n := i;
    }

    static method ExecuteOne(op: Operation, other: Status, outcome: Status, late: Status, dying: bool) returns (leaves: bool)
      modifies op`status, op`running
      ensures leaves == Leaves(Fields(old(op.running), old(op.status)), other, outcome, dying)
      ensures leaves ==> op.status == Final(Fields(old(op.running), old(op.status)), other, outcome, late)
      ensures leaves ==> !op.status.Pending?
      ensures !leaves ==> Fields(op.running, op.status) == StopFields(Fields(old(op.running), old(op.status)), late, dying)
    {
      if op.status.Pending? && !other.Pending? {
        op.status := other;
      }
      if !op.status.Pending? {
        return true;
      }
      if dying {
        return false;
      }
      if outcome.Pending? {
        op.running := Started;
        op.status := late;
        return false;
      }
      op.status := if late.Pending? then outcome else late;
      leaves := true;
    }

    /** Drop the released front; the new first operation forgets its predecessor. */
    method CutFront(ghost all: seq<Operation>, ghost n: nat, op: Operation?)
      requires Distinct(all) && n <= |all| && op == Nth(all, n) && all == ops
      requires tail == Nth(all, |all| - 1)
      requires forall j: nat {:trigger LinkedAt(all, j)} :: j < |all| ==> LinkedAt(all, j)
      modifies this, all`prev
      ensures Valid() && ops == all[n..]
    {
      head := op;
      if op != null {
        assert op == all[n] && op in all;
        op.prev := null;
      } else {
        tail := null;
      }
      ops := all[n..];
      forall j: nat | j < |ops| ensures LinkedAt(ops, j) { assert old(LinkedAt(all, n + j)); }
    }
  }

  /** The status an operation has when the walk reaches it. */
  function AtVisit(status: Status, other: Status): Status {
    if status.Pending? then other else status
  }

  datatype Fields = Fields(running: Running, status: Status)

  /** Another thread had ended the operation, and it is as that thread left it. */
  predicate EndedBefore(was: Fields, now: Fields, other: Status) {
    !now.status.Pending? && now == Fields(was.running, if was.status.Pending? then other else was.status)
  }

  /** Its I/O runs and was asked to stop. */
  predicate InFlight(was: Fields, now: Fields, status: Status) {
    was.status.Pending? && was.running.Started? && now == Fields(Cancelling, status)
  }

  /** It has its status, and I/O that ran for it was stopped. */
  predicate Ended(was: Fields, now: Fields, done: bool) {
    !now.status.Pending? && (if was.running.Started? then now.running.Cancelling? && done else now.running == was.running)
  }

  /** Whoever sets the terminal status first wins: a loser leaves the operation where it
      is, a winner keeps it only while its I/O is in flight. */
  predicate CancelKeeps(was: Fields, other: Status, cancelled: bool) {
    !AtVisit(was.status, other).Pending? || (was.running.Started? && !cancelled)
  }

  predicate ReapKeeps(was: Fields, other: Status, cancelled: bool) {
    match SelectReap(was.running, AtVisit(was.status, other))
    case Keep => true
    case Cancel => !cancelled
    case Release => false
  }

  /** A winner's status is set, and started I/O turns to cancelling. */
  function CancelFields(was: Fields, other: Status, status: Status): Fields {
    if !AtVisit(was.status, other).Pending? then Fields(was.running, AtVisit(was.status, other))
    else Fields(if was.running.Started? then Cancelling else was.running, status)
  }

  /** A reap sets no status; started I/O of a terminal operation turns to cancelling. */
  function ReapFields(was: Fields, other: Status): Fields {
    var status := AtVisit(was.status, other);
    Fields(if !status.Pending? && was.running.Started? then Cancelling else was.running, status)
  }

  function CancelNow(was: seq<Fields>, other: seq<Status>, status: Status): (r: seq<Fields>)
    requires |was| == |other|
    ensures |r| == |was| && forall i :: 0 <= i < |was| ==> r[i] == CancelFields(was[i], other[i], status)
  {
    seq(|was|, i requires 0 <= i < |was| => CancelFields(was[i], other[i], status))
  }

  function ReapNow(was: seq<Fields>, other: seq<Status>): (r: seq<Fields>)
    requires |was| == |other|
    ensures |r| == |was| && forall i :: 0 <= i < |was| ==> r[i] == ReapFields(was[i], other[i])
  {
    seq(|was|, i requires 0 <= i < |was| => ReapFields(was[i], other[i]))
  }

  function CancelAll(was: seq<Fields>, other: seq<Status>, cancelled: seq<bool>): (r: seq<bool>)
    requires |was| == |other| == |cancelled|
    ensures |r| == |was| && forall i :: 0 <= i < |was| ==> r[i] == CancelKeeps(was[i], other[i], cancelled[i])
  {
    seq(|was|, i requires 0 <= i < |was| => CancelKeeps(was[i], other[i], cancelled[i]))
  }

  function ReapAll(was: seq<Fields>, other: seq<Status>, cancelled: seq<bool>): (r: seq<bool>)
    requires |was| == |other| == |cancelled|
    ensures |r| == |was| && forall i :: 0 <= i < |was| ==> r[i] == ReapKeeps(was[i], other[i], cancelled[i])
  {
    seq(|was|, i requires 0 <= i < |was| => ReapKeeps(was[i], other[i], cancelled[i]))
  }

  /** An operation at the front leaves the queue: it is terminal, or it runs to its end. */
  predicate Leaves(was: Fields, other: Status, outcome: Status, dying: bool) {
    !AtVisit(was.status, other).Pending? || (!dying && !outcome.Pending?)
  }

  /** The status it leaves with: the first that was set. */
  function Final(was: Fields, other: Status, outcome: Status, late: Status): Status {
    if !AtVisit(was.status, other).Pending? then AtVisit(was.status, other) else if late.Pending? then outcome else late
  }

  /** The first status that is set, if one is. */
  function FirstSet(statuses: seq<Status>): Status {
    if statuses == [] then Pending else if statuses[0].Pending? then FirstSet(statuses[1..]) else statuses[0]
  }

  lemma FinalIsFirst(was: Fields, other: Status, outcome: Status, late: Status)
    ensures Final(was, other, outcome, late) == FirstSet([was.status, other, late, outcome])
  {
    assert [was.status, other, late, outcome][1..] == [other, late, outcome];
    assert [other, late, outcome][1..] == [late, outcome] && [late, outcome][1..] == [outcome] && [outcome][1..] == [];
    assert FirstSet([outcome]) == outcome;
    assert FirstSet([late, outcome]) == if late.Pending? then outcome else late;
  }

  /** What the walk makes of the operation it stops at: started, with the status another
      thread may have set by then, or left alone. */
  function StopFields(was: Fields, late: Status, dying: bool): Fields {
    if dying then was else Fields(Started, late)
  }

  /** The first operation at or after `i` that does not leave. */
  function Runs(was: seq<Fields>, other: seq<Status>, outcomes: seq<Status>, dying: seq<bool>, i: nat): (n: nat)
    requires |was| == |other| == |outcomes| == |dying| && i <= |was|
    ensures i <= n <= |was| && (n < |was| ==> !Leaves(was[n], other[n], outcomes[n], dying[n]))
    decreases |was| - i
  {
    if i == |was| || !Leaves(was[i], other[i], outcomes[i], dying[i]) then i else Runs(was, other, outcomes, dying, i + 1)
  }
}
