/** Reply objects and scheduling-context donation (MCS): a call pushes a reply object on the
    call stack of the caller's scheduling context and lends the context to the callee; the
    reply pops it and brings the context back. */
module CallStack {

  /** `call_stack`: at the head of a stack it points at the context, elsewhere at a reply. */
  datatype Up = Up(isHead: bool, ptr: nat)

  const NOWHERE := Up(false, 0)

  datatype Reply = Reply(tcb: nat, prev: nat, next: Up)

  /** A thread; `onReply` is the state `ThreadStateBlockedOnReply`. */
  datatype Tcb = Tcb(sc: nat, reply: nat, onReply: bool)

  datatype Context = Context(tcb: nat, reply: nat)

  /** The objects by address; 0 is the null pointer. */
  datatype State = State(replies: map<nat, Reply>, tcbs: map<nat, Tcb>, scs: map<nat, Context>)

  // ----- integrity -----

  predicate ReplyOk(s: State, r: nat)
    requires r in s.replies
  {
    var reply := s.replies[r];
    && (reply.tcb != 0 ==> reply.tcb in s.tcbs && s.tcbs[reply.tcb].reply == r)
    && (reply.prev != 0 ==> reply.prev != r && reply.prev in s.replies && s.replies[reply.prev].next == Up(false, r))
    && (reply.next.isHead ==> reply.next.ptr in s.scs && s.scs[reply.next.ptr].reply == r)
    && (!reply.next.isHead && reply.next.ptr != 0 ==> reply.next.ptr in s.replies && s.replies[reply.next.ptr].prev == r)
    && (reply.prev != 0 || reply.next.ptr != 0 ==> reply.tcb in s.tcbs && s.tcbs[reply.tcb].onReply)
  }

  predicate TcbOk(s: State, t: nat)
    requires t in s.tcbs
  {
    var tcb := s.tcbs[t];
    && (tcb.reply != 0 ==> tcb.reply in s.replies && s.replies[tcb.reply].tcb == t)
    && (tcb.onReply ==> tcb.reply != 0)
    && (tcb.sc != 0 ==> tcb.sc in s.scs && s.scs[tcb.sc].tcb == t)
  }

  predicate ContextOk(s: State, c: nat)
    requires c in s.scs
  {
    var sc := s.scs[c];
    && (sc.tcb != 0 ==> sc.tcb in s.tcbs && s.tcbs[sc.tcb].sc == c)
    && (sc.reply != 0 ==> sc.reply in s.replies && s.replies[sc.reply].next == Up(true, c))
  }

  /** Contexts and threads are paired one to one, so are replies and the threads waiting for
      them, and every stack is linked both ways with its context at the head. */
  ghost predicate Integrity(s: State) {
    && 0 !in s.replies && 0 !in s.tcbs && 0 !in s.scs
    && (forall r {:trigger ReplyOk(s, r)} :: r in s.replies ==> ReplyOk(s, r))
    && (forall t {:trigger TcbOk(s, t)} :: t in s.tcbs ==> TcbOk(s, t))
    && (forall c {:trigger ContextOk(s, c)} :: c in s.scs ==> ContextOk(s, c))
  }

  /** Objects as they are created: no thread has a context or a reply. */
  ghost predicate Fresh(s: State)
    ensures Fresh(s) ==> Integrity(s)
  {
    && 0 !in s.replies && 0 !in s.tcbs && 0 !in s.scs
    && (forall r :: r in s.replies ==> s.replies[r] == Reply(0, 0, NOWHERE))
    && (forall t :: t in s.tcbs ==> s.tcbs[t] == Tcb(0, 0, false))
    && (forall c :: c in s.scs ==> s.scs[c] == Context(0, 0))
  }

  // ----- the operations -----

  /** `sched_context_donate`, without its effect on the thread queues. */
  function Donated(s: State, c: nat, to: nat): State
    requires c in s.scs && to in s.tcbs
  {
    var from := s.scs[c].tcb;
    var tcbs := if from in s.tcbs then s.tcbs[from := s.tcbs[from].(sc := 0)] else s.tcbs;
    s.(tcbs := tcbs[to := tcbs[to].(sc := c)], scs := s.scs[c := s.scs[c].(tcb := to)])
  }

  /** `reply.unlink`. */
  function Unlinked(s: State, r: nat, t: nat): State
    requires r in s.replies && t in s.tcbs
  {
    s.(tcbs := s.tcbs[t := s.tcbs[t].(reply := 0, onReply := false)], replies := s.replies[r := s.replies[r].(tcb := 0)])
  }

  predicate Donates(s: State, caller: nat, callee: nat, canDonate: bool)
    requires caller in s.tcbs && callee in s.tcbs
  {
    s.tcbs[caller].sc != 0 && s.tcbs[callee].sc == 0 && canDonate
  }

  /** Linking the caller and its reply. */
  function Linked(s: State, r: nat, t: nat, onReply: bool): State
    requires r in s.replies && t in s.tcbs
  {
    s.(tcbs := s.tcbs[t := s.tcbs[t].(reply := r, onReply := onReply)], replies := s.replies[r := s.replies[r].(tcb := t)])
  }

  /** Putting a reply on top of the stack of context `c`. */
  function Stacked(s: State, r: nat, c: nat): State
    requires r in s.replies && c in s.scs
  {
    var head := s.scs[c].reply;
    var replies := s.replies[r := s.replies[r].(prev := head)];
    var replies' := if head in replies then replies[head := replies[head].(next := Up(false, r))] else replies;
    s.(replies := replies'[r := replies'[r].(next := Up(true, c))], scs := s.scs[c := s.scs[c].(reply := r)])
  }

  /** `reply.push`. */
  function Pushed(s: State, r: nat, caller: nat, callee: nat, canDonate: bool): State
    requires r in s.replies && caller in s.tcbs && callee in s.tcbs
    requires s.tcbs[caller].sc == 0 || s.tcbs[caller].sc in s.scs
  {
    var s1 := s.(tcbs := s.tcbs[callee := s.tcbs[callee].(reply := 0)]);
    var s2 := Linked(s1, r, caller, true);
    if Donates(s, caller, callee, canDonate)
    then Donated(Stacked(s2, r, s.tcbs[caller].sc), s.tcbs[caller].sc, callee)
    else s2
  }

  /** Taking the head `r` off its stack, whatever becomes of the context. */
  function Unstacked(s: State, r: nat): State
    requires r in s.replies && s.replies[r].next.ptr in s.scs
  {
    var reply := s.replies[r];
    var replies := if reply.prev in s.replies then s.replies[reply.prev := s.replies[reply.prev].(next := reply.next)] else s.replies;
    s.(replies := replies, scs := s.scs[reply.next.ptr := s.scs[reply.next.ptr].(reply := reply.prev)])
  }

  /** `reply.pop`. */
  function Popped(s: State, r: nat, t: nat): State
    requires r in s.replies && t in s.tcbs && (s.replies[r].next.ptr == 0 || s.replies[r].next.ptr in s.scs)
  {
    var c := s.replies[r].next.ptr;
    var s1 := if c != 0 then Unstacked(s, r) else s;
    var s2 := if c != 0 && s.tcbs[t].sc == 0 then Donated(s1, c, t) else s1;
    Cleared(s2, r, t)
  }

  function Cleared(s: State, r: nat, t: nat): State
    requires r in s.replies && t in s.tcbs
  {
    Unlinked(s.(replies := s.replies[r := s.replies[r].(prev := 0, next := NOWHERE)]), r, t)
  }

  /** Taking `r` out of the middle of a stack breaks the stack in two. */
  function Severed(s: State, r: nat): State
    requires r in s.replies
  {
    var reply := s.replies[r];
    var replies := if reply.next.ptr in s.replies && !reply.next.isHead
                   then s.replies[reply.next.ptr := s.replies[reply.next.ptr].(prev := 0)] else s.replies;
    s.(replies := if reply.prev in replies then replies[reply.prev := replies[reply.prev].(next := NOWHERE)] else replies)
  }

  /** `reply.remove`. */
  function Removed(s: State, r: nat, t: nat): State
    requires r in s.replies && t in s.tcbs && (s.replies[r].next.isHead ==> s.replies[r].next.ptr in s.scs)
  {
    if s.replies[r].next.isHead && s.replies[r].next.ptr != 0 then Popped(s, r, t)
    else Cleared(Severed(s, r), r, t)
  }

  /** `reply_remove_tcb`: the context is not given back. */
  function RemovedTcb(s: State, t: nat): State
    requires t in s.tcbs && s.tcbs[t].reply in s.replies
    requires var next := s.replies[s.tcbs[t].reply].next; next.isHead ==> next.ptr in s.scs
  {
    var r := s.tcbs[t].reply;
    var next := s.replies[r].next;
    var s1 := if next.isHead then s.(scs := s.scs[next.ptr := s.scs[next.ptr].(reply := 0)]) else s;
    Cleared(Severed(s1, r), r, t)
  }

  // ----- each operation keeps integrity -----

  lemma DonatedKeeps(s: State, c: nat, to: nat)
    requires Integrity(s) && c in s.scs && to in s.tcbs && s.tcbs[to].sc == 0
    ensures Integrity(Donated(s, c, to))
  {
    var s' := Donated(s, c, to);
    assert ContextOk(s, c) && TcbOk(s, to);
    forall r | r in s'.replies ensures ReplyOk(s', r) { assert ReplyOk(s, r); }
    forall t | t in s'.tcbs ensures TcbOk(s', t) { assert TcbOk(s, t); }
    forall d | d in s'.scs ensures ContextOk(s', d) { assert ContextOk(s, d); }
  }

  lemma LinkedKeeps(s: State, r: nat, t: nat, onReply: bool)
    requires Integrity(s) && r in s.replies && t in s.tcbs && s.replies[r].tcb == 0 && s.tcbs[t].reply == 0
    ensures Integrity(Linked(s, r, t, onReply))
  {
    var s' := Linked(s, r, t, onReply);
    assert ReplyOk(s, r) && TcbOk(s, t);
    forall q | q in s'.replies ensures ReplyOk(s', q) { assert ReplyOk(s, q); }
    forall u | u in s'.tcbs ensures TcbOk(s', u) { assert TcbOk(s, u); }
    forall d | d in s'.scs ensures ContextOk(s', d) { assert ContextOk(s, d); }
  }

  predicate Waiting(s: State, r: nat) {
    r in s.replies && s.replies[r].tcb in s.tcbs && s.tcbs[s.replies[r].tcb].onReply
  }

  lemma StackedKeeps(s: State, r: nat, c: nat)
    requires Integrity(s) && Waiting(s, r) && c in s.scs && s.replies[r].prev == 0 && s.replies[r].next == NOWHERE
    ensures Integrity(Stacked(s, r, c))
  {
    var s' := Stacked(s, r, c);
    assert ContextOk(s, c) && ReplyOk(s, r);
    forall q | q in s'.replies ensures ReplyOk(s', q) { assert ReplyOk(s, q); }
    forall u | u in s'.tcbs ensures TcbOk(s', u) { assert TcbOk(s, u); }
    forall d | d in s'.scs ensures ContextOk(s', d) { assert ContextOk(s, d); }
  }

  predicate CanPush(s: State, r: nat, caller: nat, callee: nat) {
    && r in s.replies && caller in s.tcbs && callee in s.tcbs && caller != callee
    && s.replies[r].tcb == 0 && s.tcbs[caller].reply == 0 && s.tcbs[callee].reply == 0
  }

  lemma PushedKeeps(s: State, r: nat, caller: nat, callee: nat, canDonate: bool)
    requires Integrity(s) && CanPush(s, r, caller, callee)
    ensures TcbOk(s, caller) && Integrity(Pushed(s, r, caller, callee, canDonate))
    ensures s.replies[r].prev == 0 && s.replies[r].next == NOWHERE
  {
    assert TcbOk(s, caller) && ReplyOk(s, r);
    assert s.tcbs[callee := s.tcbs[callee].(reply := 0)] == s.tcbs;
    LinkedKeeps(s, r, caller, true);
    if Donates(s, caller, callee, canDonate) {
      var s2 := Linked(s, r, caller, true);
      StackedKeeps(s2, r, s.tcbs[caller].sc);
      DonatedKeeps(Stacked(s2, r, s.tcbs[caller].sc), s.tcbs[caller].sc, callee);
    }
  }

  /** The assertions of `push` do not say that the callee has no reply object of its own, whose
      link it clears on one side only; every caller of `push` has to see to that. */
  lemma PushNeedsFreeCallee(s: State, r: nat, caller: nat, callee: nat, canDonate: bool)
    requires Integrity(s) && r in s.replies && caller in s.tcbs && callee in s.tcbs && caller != callee
    requires s.replies[r].tcb == 0 && s.tcbs[caller].reply == 0
    ensures TcbOk(s, caller) && (Integrity(Pushed(s, r, caller, callee, canDonate)) <==> s.tcbs[callee].reply == 0)
  {
    assert TcbOk(s, caller) && TcbOk(s, callee);
    if s.tcbs[callee].reply == 0 {
      PushedKeeps(s, r, caller, callee, canDonate);
    } else {
      var q := s.tcbs[callee].reply;
      var s' := Pushed(s, r, caller, callee, canDonate);
      assert q in s'.replies && s'.replies[q].tcb == callee && s'.tcbs[callee].reply == 0;
      assert !ReplyOk(s', q);
    }
  }

  /** A callee that waits with a reply object of its own. */
  lemma PushExample()
    ensures var none := Reply(0, 0, NOWHERE); var idle := Tcb(0, 0, false);
      var s := State(map[1 := none, 2 := none], map[3 := idle, 4 := idle], map[]);
      && Fresh(s)
      && var s' := Linked(s, 2, 4, false); Integrity(s') && !Integrity(Pushed(s', 1, 3, 4, true))
  {
    var none, idle := Reply(0, 0, NOWHERE), Tcb(0, 0, false);
    var s := State(map[1 := none, 2 := none], map[3 := idle, 4 := idle], map[]);
    LinkedKeeps(s, 2, 4, false);
    PushNeedsFreeCallee(Linked(s, 2, 4, false), 1, 3, 4, true);
  }

  lemma UnstackedKeeps(s: State, r: nat)
    requires Integrity(s) && Waiting(s, r) && s.replies[r].next.isHead
    ensures s.replies[r].next.ptr in s.scs && Integrity(Cleared(Unstacked(s, r), r, s.replies[r].tcb))
  {
    assert ReplyOk(s, r) && TcbOk(s, s.replies[r].tcb);
    var s' := Cleared(Unstacked(s, r), r, s.replies[r].tcb);
    forall q | q in s'.replies ensures ReplyOk(s', q) { assert ReplyOk(s, q); }
    forall u | u in s'.tcbs ensures TcbOk(s', u) { assert TcbOk(s, u); }
    forall d | d in s'.scs ensures ContextOk(s', d) { assert ContextOk(s, d); }
  }

  lemma SeveredKeeps(s: State, r: nat)
    requires Integrity(s) && Waiting(s, r) && !s.replies[r].next.isHead
    ensures Integrity(Cleared(Severed(s, r), r, s.replies[r].tcb))
  {
    assert ReplyOk(s, r) && TcbOk(s, s.replies[r].tcb);
    var s' := Cleared(Severed(s, r), r, s.replies[r].tcb);
    forall q | q in s'.replies ensures ReplyOk(s', q) { assert ReplyOk(s, q); }
    forall u | u in s'.tcbs ensures TcbOk(s', u) { assert TcbOk(s, u); }
    forall d | d in s'.scs ensures ContextOk(s', d) { assert ContextOk(s, d); }
  }

  lemma RemovedKeeps(s: State, r: nat)
    requires Integrity(s) && Waiting(s, r)
    ensures ReplyOk(s, r) && Integrity(Removed(s, r, s.replies[r].tcb))
  {
    assert ReplyOk(s, r);
    var t := s.replies[r].tcb;
    if s.replies[r].next.isHead {
      UnstackedKeeps(s, r);
      var c := s.replies[r].next.ptr;
      var s1 := Cleared(Unstacked(s, r), r, t);
      if s.tcbs[t].sc == 0 {
        DonatedKeeps(s1, c, t);
        DonateLast(s, r, c, t);
      }
    } else {
      SeveredKeeps(s, r);
    }
  }

  /** Giving the context back and clearing the reply commute. */
  lemma DonateLast(s: State, r: nat, c: nat, t: nat)
    requires r in s.replies && c in s.scs && t in s.tcbs && s.replies[r].next.ptr == c
    ensures Cleared(Donated(Unstacked(s, r), c, t), r, t) == Donated(Cleared(Unstacked(s, r), r, t), c, t)
  {
    var u := Unstacked(s, r);
    assert Cleared(Donated(u, c, t), r, t).tcbs == Donated(Cleared(u, r, t), c, t).tcbs;
  }

  lemma RemovedTcbKeeps(s: State, t: nat)
    requires Integrity(s) && t in s.tcbs && s.tcbs[t].onReply
    ensures TcbOk(s, t) && ReplyOk(s, s.tcbs[t].reply) && Integrity(RemovedTcb(s, t))
  {
    assert TcbOk(s, t);
    var r := s.tcbs[t].reply;
    assert ReplyOk(s, r);
    if s.replies[r].next.isHead {
      var s' := RemovedTcb(s, t);
      forall q | q in s'.replies ensures ReplyOk(s', q) { assert ReplyOk(s, q); }
      forall u | u in s'.tcbs ensures TcbOk(s', u) { assert TcbOk(s, u); }
      forall d | d in s'.scs ensures ContextOk(s', d) { assert ContextOk(s, d); }
    } else {
      SeveredKeeps(s, r);
    }
  }
}
