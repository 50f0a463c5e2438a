/** What each operation on replies and contexts does to every binding, every waiting thread and
    every stack. */
module CallStackEffects {
  import opened CallStack
  import opened CallStackRuns

  ghost predicate SameObjects(s: State, s': State) {
    s'.replies.Keys == s.replies.Keys && s'.tcbs.Keys == s.tcbs.Keys && s'.scs.Keys == s.scs.Keys
  }

  // ----- who holds which context -----

  datatype Handover = Nothing | Handover(c: nat, to: nat)

  /** A call lends the caller's context if it may, the caller has one and the callee has none.
      The answer brings the context of the stack back to a caller without one, from the top of
      the stack only.  Cancelling brings nothing back. */
  ghost function Handed(s: State, step: Step): Handover
    requires Integrity(s) && Enabled(s, step)
  {
    match step
    case Push(_, caller, callee, canDonate) =>
      if canDonate && s.tcbs[caller].sc != 0 && s.tcbs[callee].sc == 0 then Handover(s.tcbs[caller].sc, callee) else Nothing
    case Remove(r) =>
      if s.replies[r].next.isHead && s.tcbs[s.replies[r].tcb].sc == 0 then Handover(s.replies[r].next.ptr, s.replies[r].tcb) else Nothing
    case Bind(c, t) => Handover(c, t)
    case Donate(c, t) => Handover(c, t)
    case Unbind(c) => Handover(c, 0)
    case _ => Nothing
  }

  /** The context goes from whoever had it to `to`, if anybody; nobody else gains or loses one. */
  ghost predicate HandedOver(s: State, s': State, h: Handover) {
    && SameObjects(s, s') && (h.Handover? ==> h.c in s.scs)
    && (forall t :: t in s.tcbs ==>
          s'.tcbs[t].sc == if h.Nothing? then s.tcbs[t].sc else if t == h.to then h.c else if t == s.scs[h.c].tcb then 0 else s.tcbs[t].sc)
    && (forall d :: d in s.scs ==> s'.scs[d].tcb == if h.Handover? && d == h.c then h.to else s.scs[d].tcb)
  }

  lemma BindingsExactly(s: State, step: Step)
    requires Integrity(s) && Enabled(s, step)
    ensures HandedOver(s, Next(s, step), Handed(s, step))
  {
    if step.Push? {
      CallBindings(s, step);
    } else if step.Remove? {
      AnswerBindings(s, step);
    } else if step.RemoveTcb? {
      CancelBindings(s, step);
    }
  }

  lemma CallBindings(s: State, step: Step)
    requires Integrity(s) && Enabled(s, step) && step.Push?
    ensures HandedOver(s, Next(s, step), Handed(s, step))
  {
    assert TcbOk(s, step.caller) && TcbOk(s, step.callee) && ReplyOk(s, step.r);
    if s.tcbs[step.caller].sc != 0 { assert ContextOk(s, s.tcbs[step.caller].sc); }
    hide Integrity;
  }

  lemma AnswerBindings(s: State, step: Step)
    requires Integrity(s) && Enabled(s, step) && step.Remove?
    ensures HandedOver(s, Next(s, step), Handed(s, step))
  {
    assert ReplyOk(s, step.r);
    var next := s.replies[step.r].next;
    if next.isHead { assert ContextOk(s, next.ptr); }
    hide Integrity;
  }

  lemma CancelBindings(s: State, step: Step)
    requires Integrity(s) && Enabled(s, step) && step.RemoveTcb?
    ensures HandedOver(s, Next(s, step), Handed(s, step))
  {
    assert TcbOk(s, step.t) && ReplyOk(s, s.tcbs[step.t].reply);
    hide Integrity;
  }

  // ----- who waits for which reply -----

  datatype Wait = Same | Begins(t: nat, r: nat, onReply: bool) | Ends(t: nat, r: nat)

  ghost function Waits(s: State, step: Step): Wait
    requires Integrity(s) && Enabled(s, step)
  {
    match step
    case Push(r, caller, _, _) => Begins(caller, r, true)
    case Await(r, t) => Begins(t, r, false)
    case Remove(r) => Ends(s.replies[r].tcb, r)
    case RemoveTcb(t) => Ends(t, s.tcbs[t].reply)
    case Unlink(r) => Ends(s.replies[r].tcb, r)
    case _ => Same
  }

  ghost predicate Waited(s: State, s': State, w: Wait) {
    && SameObjects(s, s')
    && (forall t :: t in s.tcbs ==>
          && s'.tcbs[t].reply == (if w.Same? || t != w.t then s.tcbs[t].reply else if w.Begins? then w.r else 0)
          && s'.tcbs[t].onReply == if w.Same? || t != w.t then s.tcbs[t].onReply else w.Begins? && w.onReply)
    && (forall r :: r in s.replies ==>
          s'.replies[r].tcb == if w.Same? || r != w.r then s.replies[r].tcb else if w.Begins? then w.t else 0)
  }

  lemma WaitsExactly(s: State, step: Step)
    requires Integrity(s) && Enabled(s, step)
    ensures Waited(s, Next(s, step), Waits(s, step))
  {
    if step.Push? {
      CallWaits(s, step);
    } else if step.Remove? {
      AnswerWaits(s, step);
    } else if step.RemoveTcb? {
      CancelWaits(s, step);
    }
  }

  lemma CallWaits(s: State, step: Step)
    requires Integrity(s) && Enabled(s, step) && step.Push?
    ensures Waited(s, Next(s, step), Waits(s, step))
  {
    assert TcbOk(s, step.caller) && TcbOk(s, step.callee) && ReplyOk(s, step.r);
    if s.tcbs[step.caller].sc != 0 { assert ContextOk(s, s.tcbs[step.caller].sc); }
    hide Integrity;
  }

  lemma AnswerWaits(s: State, step: Step)
    requires Integrity(s) && Enabled(s, step) && step.Remove?
    ensures Waited(s, Next(s, step), Waits(s, step))
  {
    assert ReplyOk(s, step.r);
    var next := s.replies[step.r].next;
    if next.isHead { assert ContextOk(s, next.ptr); }
    hide Integrity;
  }

  lemma CancelWaits(s: State, step: Step)
    requires Integrity(s) && Enabled(s, step) && step.RemoveTcb?
    ensures Waited(s, Next(s, step), Waits(s, step))
  {
    assert TcbOk(s, step.t) && ReplyOk(s, s.tcbs[step.t].reply);
    hide Integrity;
  }

  // ----- which replies are stacked -----

  ghost predicate SameStacks(s: State, s': State) {
    && SameObjects(s, s')
    && (forall r :: r in s.replies ==> s'.replies[r].prev == s.replies[r].prev && s'.replies[r].next == s.replies[r].next)
    && (forall c :: c in s.scs ==> s'.scs[c].reply == s.scs[c].reply)
  }

  /** Only calls that lend a context, answers and cancellations change stacks; a call that lends
      nothing leaves its reply on no stack. */
  lemma StacksStay(s: State, step: Step)
    requires Integrity(s) && Enabled(s, step) && !step.Remove? && !step.RemoveTcb?
    requires step.Push? ==> Handed(s, step).Nothing?
    ensures SameStacks(s, Next(s, step))
    ensures step.Push? ==> s.replies[step.r].prev == 0 && s.replies[step.r].next == NOWHERE
  {
    match step {
      case Push(r, caller, _, _) => assert TcbOk(s, caller) && ReplyOk(s, r);
      case _ =>
    }
  }

  /** An answer or a cancellation leaves the stacks alone that its reply is not on. */
  lemma OtherStacksStay(s: State, step: Step, c: nat, stack: seq<nat>)
    requires Integrity(s) && Enabled(s, step) && (step.Remove? || step.RemoveTcb?) && IsStack(s, c, stack)
    requires (if step.Remove? then step.r else s.tcbs[step.t].reply) !in stack
    ensures IsStack(Next(s, step), c, stack)
  {
    var r := if step.Remove? then step.r else s.tcbs[step.t].reply;
    var t := if step.Remove? then s.replies[r].tcb else step.t;
    assert TcbOk(s, t) && ReplyOk(s, r) && ContextOk(s, c);
    var s' := Next(s, step);
    forall i: nat | i < |stack| ensures OnTop(s', stack, i) {
      StackLinks(s, c, stack, i);
      if i + 1 < |stack| { StackLinks(s, c, stack, i + 1); }
    }
  }

  /** After a cancellation the caller's reply is free again, and so are the contexts: the holder
      keeps what was lent. */
  lemma CancelKeepsContext(s: State, r: nat, caller: nat, callee: nat)
    requires Integrity(s) && Enabled(s, Push(r, caller, callee, true)) && s.tcbs[caller].sc != 0 && s.tcbs[callee].sc == 0
    ensures var s1 := Next(s, Push(r, caller, callee, true));
      && Integrity(s1) && Enabled(s1, RemoveTcb(caller))
      && var s2 := Next(s1, RemoveTcb(caller));
         && s2.tcbs[callee].sc == s.tcbs[caller].sc && s2.tcbs[caller] == Tcb(0, 0, false)
         && s2.replies[r] == Reply(0, 0, NOWHERE) && s2.scs[s.tcbs[caller].sc] == Context(callee, 0)
  {
    StepKeeps(s, Push(r, caller, callee, true));
    assert TcbOk(s, caller) && ReplyOk(s, r);
    assert ContextOk(s, s.tcbs[caller].sc);
  }
}
