/** What every reachable state of the combiner satisfies. */
module CombinerInvariant {
  import opened Wrappers
  import opened CombinerMachine

  // -------------------------------------------------------------------- the word

  /** Link `i` of the waiting chain. */
  ghost predicate LinkOk(s: State, i: nat) {
    && 0 < i < |s.pile| && s.pile[i].node.At?
    && var a := s.pile[i].node.op;
    && a in s.next && s.next[a] == s.pile[i - 1]
    && a in s.place && s.place[a] == Waiting(i)
  }

  /** The word and the pointers behind it spell out the pile; it is zero exactly
      when nobody owns the object. */
  ghost predicate PileOk(s: State) {
    && s.pile != [] && s.head == s.pile[|s.pile| - 1] && !s.pile[0].node.At?
    && (forall i: nat {:trigger LinkOk(s, i)} :: 0 < i < |s.pile| ==> LinkOk(s, i))
    && (s.pile[0] == ZERO <==> s.owner.None?)
    && (s.owner.None? ==> s.pile == [ZERO] && s.queued == [])
  }

  /** Everything pushed is dispatched, captured or waiting, in that order. */
  ghost predicate LogOk(s: State) {
    && s.ran <= s.log
    && (!s.stage.Dead? ==> s.pile != [] && s.log == s.ran + s.queued + EntriesOf(s.pile))
  }

  // ------------------------------------------------------------------- references

  ghost predicate RefsOk(s: State) {
    && s.refs == |s.owned|
    && (forall a :: OfOp(a) in s.owned <==> a in s.place)
    && (s.stage.Alive? <==> s.owned != {})
    && (forall t :: InHand(t) in s.owned ==> t in s.acts && (s.acts[t].Unref? || s.acts[t].OwnDrop? || s.acts[t].OwnTurn?))
    && (s.stage.Dying? ==> s.stage.t in s.acts && s.acts[s.stage.t].PushDelete?)
  }

  /** The delete signal: at most one entry carries it, it is no operation's entry,
      and it is dispatched last. */
  ghost predicate DeleteOk(s: State) {
    && (forall i :: 0 <= i < |s.log| && Delete in s.log[i].tags ==>
          (s.stage.Condemned? && s.stage.at == i) || (s.stage.Dead? && |s.ran| == i + 1))
    && (s.stage.Condemned? ==>
          && |s.ran| <= s.stage.at < |s.log|
          && Delete in s.log[s.stage.at].tags && s.log[s.stage.at].op == None)
    && (s.stage.Dead? ==> s.ran != [] && Delete in s.ran[|s.ran| - 1].tags && s.owner == None)
  }

  // --------------------------------------------------------------------- threads

  function Above(held: seq<Word>, i: nat): Word {
    if i + 1 < |held| then held[i + 1] else ZERO
  }

  /** A captured operation that is still to be dispatched. */
  ghost predicate HeldOk(s: State, i: nat) {
    && 0 < i < |s.held| && s.held[i].node.At?
    && s.held[i].node.op in s.next
    && s.held[i].node.op in s.place && s.place[s.held[i].node.op] == Captured(i)
  }

  /** Links point down up to the mark and up above it. */
  ghost predicate HeldLink(s: State, i: nat) {
    HeldOk(s, i) && s.next[s.held[i].node.op] == if i <= s.mark then s.held[i - 1] else Above(s.held, i)
  }

  /** The captured chain while it is being reversed. */
  ghost predicate ChainOk(s: State) {
    && s.held != [] && !s.held[0].node.At? && s.held[0] != ZERO
    && (forall i: nat {:trigger HeldLink(s, i)} :: 0 < i < |s.held| ==> HeldLink(s, i))
  }

  ghost predicate HeldUp(s: State, i: nat) {
    HeldOk(s, i) && s.next[s.held[i].node.op] == Above(s.held, i)
  }

  /** What is left of it while it is being dispatched. */
  ghost predicate ListOk(s: State) {
    && s.held != [] && 0 < s.mark <= |s.held|
    && (forall i: nat {:trigger HeldUp(s, i)} :: s.mark <= i < |s.held| ==> HeldUp(s, i))
  }

  ghost predicate PusherOk(s: State, t: Tid, a: Op) {
    a in s.place && s.place[a] == With(t)
  }

  ghost predicate CheckedOk(s: State, g: nat, tags: set<Tag>) {
    tags != {} && Delete !in tags && (g < s.generation || (g == s.generation && !s.stage.Dead?))
  }

  ghost predicate ActOk(s: State, t: Tid) {
    && t in s.acts
    && (Owns(s.acts[t]) <==> s.owner == Some(t))
    && match s.acts[t]
       case Idle => true
       case PushLoad(a) => PusherOk(s, t, a)
       case PushSwap(a, seen) => PusherOk(s, t, a) && (seen != ZERO ==> a in s.next && s.next[a] == seen)
       case CheckedLoad(g, tags) => CheckedOk(s, g, tags)
       case CheckedSwap(g, tags, seen) => CheckedOk(s, g, tags)
       case Unref => InHand(t) in s.owned
       case PushDelete => s.stage == Dying(t)
       case OwnDrop(a) => InHand(t) in s.owned && PusherOk(s, t, a) && s.queued == [Entry(None, {})]
       case OwnTurn => InHand(t) in s.owned && s.queued == [Entry(None, {})]
       case OwnRun(a) => PusherOk(s, t, a) && s.queued == [Entry(Some(a), {})]
       case OwnLoad => s.queued == []
       case OwnRelease => s.queued == []
       case OwnCapture(seen) => s.queued == []
       case OwnWalk(current, reversed) =>
         && s.mark < |s.held| && ChainOk(s) && current == s.held[s.mark] && reversed == Above(s.held, s.mark)
         && s.queued == EntriesOf(s.held)
       case OwnTail(tail, reversed) =>
         && s.mark == 0 && ChainOk(s) && reversed == Above(s.held, 0)
         && tail == (if s.held[0].tags == {} then ZERO else s.held[0]) && s.queued == EntriesOf(s.held)
       case OwnList(reversed) =>
         && ListOk(s) && reversed == (if s.mark < |s.held| then s.held[s.mark] else ZERO) && s.queued == Tops(s.held, s.mark)
  }

  ghost predicate ActsOk(s: State) {
    && (forall t {:trigger ActOk(s, t)} :: t in s.acts ==> ActOk(s, t))
    && (s.owner.Some? ==> s.owner.value in s.acts)
  }

  ghost predicate Inv(s: State) {
    && (!s.stage.Dead? ==> PileOk(s))
    && s.pile != []
    && LogOk(s) && RefsOk(s) && DeleteOk(s) && ActsOk(s)
  }

  // ------------------------------------------------------------------- stability

  /** What the other threads may count on when `t` moves. */
  ghost predicate Rely(s: State, s': State, t: Tid) {
    && (forall u :: u in s'.acts <==> u in s.acts)
    && (forall u :: u in s.acts && u != t ==> s'.acts[u] == s.acts[u])
    && (forall a, u :: u != t && a in s.place && s.place[a] == With(u) ==>
          && a in s'.place && s'.place[a] == With(u)
          && (a in s.next ==> a in s'.next && s'.next[a] == s.next[a]))
    && (forall u :: u != t ==> (InHand(u) in s.owned ==> InHand(u) in s'.owned))
    && (s.generation < s'.generation || (s.generation == s'.generation && (s'.stage.Dead? ==> s.stage.Dead?)))
    && (s.stage.Dying? && s.stage.t != t ==> s'.stage == s.stage)
    && (s.owner.Some? && s.owner.value != t ==>
          && s'.owner == s.owner && s'.held == s.held && s'.mark == s.mark && s'.queued == s.queued
          && (forall a, i :: a in s.place && s.place[a] == Captured(i) ==>
                && a in s'.place && s'.place[a] == Captured(i)
                && (a in s.next ==> a in s'.next && s'.next[a] == s.next[a])))
    && (s'.owner == s.owner || ((s.owner == None || s.owner == Some(t)) && (s'.owner == None || s'.owner == Some(t))))
  }

  lemma ChainKept(s: State, s': State, t: Tid)
    requires Rely(s, s', t) && s.owner.Some? && s.owner.value != t && ChainOk(s)
    ensures ChainOk(s')
  {
    forall i: nat | 0 < i < |s'.held| ensures HeldLink(s', i) { assert HeldLink(s, i); }
  }

  lemma ListKept(s: State, s': State, t: Tid)
    requires Rely(s, s', t) && s.owner.Some? && s.owner.value != t && ListOk(s)
    ensures ListOk(s')
  {
    forall i: nat | s'.mark <= i < |s'.held| ensures HeldUp(s', i) { assert HeldUp(s, i); }
  }

  lemma OtherActKept(s: State, s': State, t: Tid, u: Tid)
    requires ActOk(s, u) && Rely(s, s', t) && u != t
    ensures ActOk(s', u)
  {
    if s.acts[u].OwnWalk? || s.acts[u].OwnTail? {
      ChainKept(s, s', t);
    } else if s.acts[u].OwnList? {
      ListKept(s, s', t);
    }
  }

  lemma ActsKept(s: State, s': State, t: Tid)
    requires ActsOk(s) && Rely(s, s', t) && t in s'.acts && ActOk(s', t)
    ensures ActsOk(s')
  {
    forall u | u in s'.acts ensures ActOk(s', u) {
      if u != t {
        assert ActOk(s, u);
        OtherActKept(s, s', t, u);
      }
    }
  }
}
