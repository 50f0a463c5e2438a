/** Runs of calls, replies, cancellations and context bindings; well-bracketed runs of calls
    and replies give every context back. */
module CallStackRuns {
  import opened CallStack

  datatype Step =
    | Push(r: nat, caller: nat, callee: nat, canDonate: bool)
    | Remove(r: nat)
    | RemoveTcb(t: nat)
    | Await(r: nat, t: nat)
    | Unlink(r: nat)
    | Bind(c: nat, t: nat)
    | Unbind(c: nat)
    | Donate(c: nat, t: nat)

  /** The assertions of the operations, and what their callers check first. */
  ghost predicate Enabled(s: State, step: Step) {
    match step
    case Push(r, caller, callee, _) => CanPush(s, r, caller, callee)
    case Remove(r) => Waiting(s, r)
    case RemoveTcb(t) => t in s.tcbs && s.tcbs[t].onReply
    case Await(r, t) => r in s.replies && t in s.tcbs && s.replies[r].tcb == 0 && s.tcbs[t].reply == 0
    case Unlink(r) => r in s.replies && s.replies[r].tcb in s.tcbs && !Waiting(s, r)
    case Bind(c, t) => c in s.scs && t in s.tcbs && s.scs[c].tcb == 0 && s.tcbs[t].sc == 0
    case Unbind(c) => c in s.scs && s.scs[c].tcb in s.tcbs
    case Donate(c, t) => c in s.scs && t in s.tcbs && s.tcbs[t].sc == 0
  }

  /** `sched_context_bind_tcb`. */
  function Bound(s: State, c: nat, t: nat): State
    requires c in s.scs && t in s.tcbs
  {
    s.(tcbs := s.tcbs[t := s.tcbs[t].(sc := c)], scs := s.scs[c := s.scs[c].(tcb := t)])
  }

  /** `sched_context_unbind_tcb`. */
  function Unbound(s: State, c: nat): State
    requires c in s.scs && s.scs[c].tcb in s.tcbs
  {
    var t := s.scs[c].tcb;
    s.(tcbs := s.tcbs[t := s.tcbs[t].(sc := 0)], scs := s.scs[c := s.scs[c].(tcb := 0)])
  }

  ghost function Next(s: State, step: Step): State
    requires Integrity(s) && Enabled(s, step)
  {
    match step
    case Push(r, caller, callee, canDonate) =>
      assert TcbOk(s, caller); Pushed(s, r, caller, callee, canDonate)
    case Remove(r) =>
      assert ReplyOk(s, r); Removed(s, r, s.replies[r].tcb)
    case RemoveTcb(t) =>
      assert TcbOk(s, t) && ReplyOk(s, s.tcbs[t].reply); RemovedTcb(s, t)
    case Await(r, t) => Linked(s, r, t, false)
    case Unlink(r) => Unlinked(s, r, s.replies[r].tcb)
    case Bind(c, t) => Bound(s, c, t)
    case Unbind(c) => Unbound(s, c)
    case Donate(c, t) => Donated(s, c, t)
  }

  lemma UnlinkedKeeps(s: State, r: nat)
    requires Integrity(s) && Enabled(s, Unlink(r))
    ensures Integrity(Unlinked(s, r, s.replies[r].tcb))
  {
    assert ReplyOk(s, r) && TcbOk(s, s.replies[r].tcb);
    var s' := Unlinked(s, r, s.replies[r].tcb);
    forall q | q in s'.replies ensures ReplyOk(s', q) { assert ReplyOk(s, q); }
    forall u | u in s'.tcbs ensures TcbOk(s', u) { assert TcbOk(s, u); }
    forall d | d in s'.scs ensures ContextOk(s', d) { assert ContextOk(s, d); }
  }

  lemma BindingKeeps(s: State, step: Step)
    requires Integrity(s) && (step.Bind? || step.Unbind?) && Enabled(s, step)
    ensures Integrity(Next(s, step))
  {
    var s' := Next(s, step);
    assert ContextOk(s, step.c);
    forall q | q in s'.replies ensures ReplyOk(s', q) { assert ReplyOk(s, q); }
    forall u | u in s'.tcbs ensures TcbOk(s', u) { assert TcbOk(s, u); }
    forall d | d in s'.scs ensures ContextOk(s', d) { assert ContextOk(s, d); }
  }

  lemma StepKeeps(s: State, step: Step)
    requires Integrity(s) && Enabled(s, step)
    ensures Integrity(Next(s, step))
  {
    hide Pushed, Removed, RemovedTcb, Linked, Unlinked, Bound, Unbound, Donated;
    match step {
      case Push(r, caller, callee, canDonate) => PushedKeeps(s, r, caller, callee, canDonate);
      case Remove(r) => RemovedKeeps(s, r);
      case RemoveTcb(t) => RemovedTcbKeeps(s, t);
      case Await(r, t) => LinkedKeeps(s, r, t, false);
      case Unlink(r) => UnlinkedKeeps(s, r);
      case Bind(_, _) => BindingKeeps(s, step);
      case Unbind(_) => BindingKeeps(s, step);
      case Donate(c, t) => DonatedKeeps(s, c, t);
    }
  }

  // ----- runs -----

  ghost predicate Legal(s: State, steps: seq<Step>)
    requires Integrity(s)
    decreases |steps|
  {
    steps == [] || (Enabled(s, steps[0]) && (StepKeeps(s, steps[0]); Legal(Next(s, steps[0]), steps[1..])))
  }

  ghost function Run(s: State, steps: seq<Step>): State
    requires Integrity(s) && Legal(s, steps)
    decreases |steps|
  {
    if steps == [] then s else StepKeeps(s, steps[0]); Run(Next(s, steps[0]), steps[1..])
  }

  /** Stacks, bindings and waiting threads stay consistent in every run. */
  lemma {:induction false} RunKeeps(s: State, steps: seq<Step>)
    requires Integrity(s) && Legal(s, steps)
    ensures Integrity(Run(s, steps))
    decreases |steps|
  {
    if steps != [] {
      StepKeeps(s, steps[0]);
      RunKeeps(Next(s, steps[0]), steps[1..]);
    }
  }

  lemma {:induction false} RunSplits(s: State, first: seq<Step>, second: seq<Step>)
    requires Integrity(s) && Legal(s, first + second)
    ensures Legal(s, first) && Integrity(Run(s, first)) && Legal(Run(s, first), second)
    ensures Run(s, first + second) == Run(Run(s, first), second)
    decreases |first|
  {
    hide Next, Enabled, Integrity;
    if first == [] {
      assert first + second == second;
    } else {
      assert (first + second)[0] == first[0] && (first + second)[1..] == first[1..] + second;
      StepKeeps(s, first[0]);
      RunSplits(Next(s, first[0]), first[1..], second);
    }
  }

  // ----- calls and replies -----

  /** A reply undoes its call exactly, whether or not the call lent a context. */
  lemma ReplyUndoesCall(s: State, r: nat, caller: nat, callee: nat, canDonate: bool)
    requires Integrity(s) && Enabled(s, Push(r, caller, callee, canDonate))
    ensures var s' := Next(s, Push(r, caller, callee, canDonate));
      Integrity(s') && Enabled(s', Remove(r)) && Next(s', Remove(r)) == s
  {
    PushedKeeps(s, r, caller, callee, canDonate);
    assert TcbOk(s, caller) && TcbOk(s, callee) && ReplyOk(s, r);
    var s' := Pushed(s, r, caller, callee, canDonate);
    assert s.tcbs[callee := s.tcbs[callee].(reply := 0)] == s.tcbs;
    if Donates(s, caller, callee, canDonate) {
      DonatedCall(s, r, caller, callee);
    } else {
      assert Cleared(Severed(s', r), r, caller).tcbs == s.tcbs;
      assert Cleared(Severed(s', r), r, caller).replies == s.replies;
    }
  }

  lemma DonatedCall(s: State, r: nat, caller: nat, callee: nat)
    requires Integrity(s) && CanPush(s, r, caller, callee) && Donates(s, caller, callee, true)
    requires TcbOk(s, caller) && TcbOk(s, callee) && ReplyOk(s, r)
    ensures var c := s.tcbs[caller].sc;
      Popped(Donated(Stacked(Linked(s, r, caller, true), r, c), c, callee), r, caller) == s
  {
    var c := s.tcbs[caller].sc;
    assert ContextOk(s, c);
    var head := s.scs[c].reply;
    if head != 0 { assert ReplyOk(s, head); }
    var s' := Donated(Stacked(Linked(s, r, caller, true), r, c), c, callee);
    assert s'.replies[r] == Reply(caller, head, Up(true, c));
    assert s'.scs == s.scs[c := Context(callee, r)];
    var s2 := Popped(s', r, caller);
    assert s2.scs == s.scs;
    assert s2.tcbs == s.tcbs;
    assert s2.replies == s.replies;
  }

  /** Calls made one after the other, each with the calls made while it is being served. */
  datatype Activity =
    | Done
    | Call(r: nat, caller: nat, callee: nat, canDonate: bool, inside: Activity, after: Activity)

  function Steps(a: Activity): seq<Step> {
    match a
    case Done => []
    case Call(r, caller, callee, canDonate, inside, after) =>
      [Push(r, caller, callee, canDonate)] + Steps(inside) + [Remove(r)] + Steps(after)
  }

  /** Whatever calls are made, nested to any depth and of any kind, once all are answered
      every context, stack and thread is as it was. */
  lemma {:induction false} AnsweredCallsReturn(s: State, a: Activity)
    requires Integrity(s) && Legal(s, Steps(a))
    ensures Run(s, Steps(a)) == s
    decreases a
  {
    hide Next, Enabled, Integrity;
    match a
    case Done =>
    case Call(r, caller, callee, canDonate, inside, after) =>
      var push, rest := Push(r, caller, callee, canDonate), Steps(inside) + ([Remove(r)] + Steps(after));
      assert Steps(a) == [push] + rest;
      assert ([push] + rest)[1..] == rest;
      StepKeeps(s, push);
      var s' := Next(s, push);
      RunSplits(s', Steps(inside), [Remove(r)] + Steps(after));
      AnsweredCallsReturn(s', inside);
      ReplyUndoesCall(s, r, caller, callee, canDonate);
      assert ([Remove(r)] + Steps(after))[1..] == Steps(after);
      AnsweredCallsReturn(s, after);
  }

  /** From new objects on: whatever happened before, calls that are all answered change nothing. */
  lemma {:induction false} FreshRun(s: State, steps: seq<Step>, a: Activity)
    requires Fresh(s) && Legal(s, steps + Steps(a))
    ensures Legal(s, steps) && Integrity(Run(s, steps)) && Run(s, steps + Steps(a)) == Run(s, steps)
  {
    RunSplits(s, steps, Steps(a));
    AnsweredCallsReturn(Run(s, steps), a);
  }

  // ----- the stack of a context -----

  predicate OnTop(s: State, stack: seq<nat>, i: nat)
    requires i < |stack|
  {
    stack[i] in s.replies && s.replies[stack[i]].prev == if i + 1 < |stack| then stack[i + 1] else 0
  }

  /** The replies of the context `c` from the top down. */
  ghost predicate IsStack(s: State, c: nat, stack: seq<nat>) {
    && c in s.scs && s.scs[c].reply == (if stack == [] then 0 else stack[0])
    && (forall i: nat {:trigger OnTop(s, stack, i)} :: i < |stack| ==> OnTop(s, stack, i))
  }

  lemma StackLinks(s: State, c: nat, stack: seq<nat>, i: nat)
    requires Integrity(s) && IsStack(s, c, stack) && i < |stack|
    ensures OnTop(s, stack, i) && s.replies[stack[i]].next == if i == 0 then Up(true, c) else Up(false, stack[i - 1])
    ensures s.replies[stack[i]].next != NOWHERE
  {
    assert OnTop(s, stack, i);
    if i == 0 {
      assert ContextOk(s, c);
    } else {
      assert OnTop(s, stack, i - 1) && ReplyOk(s, stack[i - 1]);
    }
  }

  /** No reply is twice on a stack. */
  lemma {:induction false} StackDistinct(s: State, c: nat, stack: seq<nat>, i: nat, j: nat)
    requires Integrity(s) && IsStack(s, c, stack) && i < j < |stack|
    ensures stack[i] != stack[j]
    decreases i
  {
    StackLinks(s, c, stack, i);
    StackLinks(s, c, stack, j);
    if i > 0 { StackDistinct(s, c, stack, i - 1, j - 1); }
  }

  /** A call that lends a context pushes its reply on the stack of that context only. */
  lemma CallPushes(s: State, r: nat, caller: nat, callee: nat, c: nat, stack: seq<nat>)
    requires Integrity(s) && CanPush(s, r, caller, callee) && Donates(s, caller, callee, true) && IsStack(s, c, stack)
    ensures var s' := Next(s, Push(r, caller, callee, true));
      IsStack(s', c, if c == s.tcbs[caller].sc then [r] + stack else stack) && s'.tcbs[callee].sc == s.tcbs[caller].sc
  {
    PushedKeeps(s, r, caller, callee, true);
    assert TcbOk(s, caller) && TcbOk(s, callee);
    var s' := Next(s, Push(r, caller, callee, true));
    var stack' := if c == s.tcbs[caller].sc then [r] + stack else stack;
    forall i: nat | i < |stack'| ensures OnTop(s', stack', i) {
      if stack' == stack {
        StackLinks(s, c, stack, i);
      } else if i > 0 {
        StackLinks(s, c, stack, i - 1);
      }
    }
  }

  /** Answering the top reply pops it; answering one further down cuts it off with everything
      below, which then no longer belongs to the context. */
  lemma ReplyPops(s: State, c: nat, stack: seq<nat>, k: nat)
    requires Integrity(s) && IsStack(s, c, stack) && k < |stack| && Waiting(s, stack[k])
    ensures IsStack(Next(s, Remove(stack[k])), c, if k == 0 then stack[1..] else stack[..k])
  {
    var r := stack[k];
    var s' := Next(s, Remove(r));
    assert ReplyOk(s, r);
    StackLinks(s, c, stack, k);
    if k == 0 {
      forall i: nat | i < |stack| - 1 ensures OnTop(s', stack[1..], i) {
        StackLinks(s, c, stack, i + 1);
        StackDistinct(s, c, stack, 0, i + 1);
      }
    } else {
      forall i: nat | i < k ensures OnTop(s', stack[..k], i) {
        StackLinks(s, c, stack, i);
        StackDistinct(s, c, stack, i, k);
        if i < k - 1 { StackDistinct(s, c, stack, i, k - 1); }
      }
    }
  }

  /** Cancelling a waiting caller cuts the stack there, the top included. */
  lemma CancelCuts(s: State, c: nat, stack: seq<nat>, k: nat)
    requires Integrity(s) && IsStack(s, c, stack) && k < |stack| && Waiting(s, stack[k])
    ensures var t := s.replies[stack[k]].tcb; Enabled(s, RemoveTcb(t)) && IsStack(Next(s, RemoveTcb(t)), c, stack[..k])
  {
    var r := stack[k];
    assert ReplyOk(s, r) && TcbOk(s, s.replies[r].tcb);
    var s' := Next(s, RemoveTcb(s.replies[r].tcb));
    StackLinks(s, c, stack, k);
    forall i: nat | i < k ensures OnTop(s', stack[..k], i) {
      StackLinks(s, c, stack, i);
      StackDistinct(s, c, stack, i, k);
      if i < k - 1 { StackDistinct(s, c, stack, i, k - 1); }
    }
  }

  // ----- in place -----

  class Objects {
    var replies: map<nat, Reply>
    var tcbs: map<nat, Tcb>
    var scs: map<nat, Context>

    ghost function Value(): State
      reads this
    {
      State(replies, tcbs, scs)
    }

    /** New objects. */
    constructor (replies: map<nat, Reply>, tcbs: map<nat, Tcb>, scs: map<nat, Context>)
      requires Fresh(State(replies, tcbs, scs))
      ensures Integrity(Value()) && Value() == State(replies, tcbs, scs)
    {
      this.replies, this.tcbs, this.scs := replies, tcbs, scs;
    }

    method SchedContextDonate(c: nat, to: nat)
      requires Enabled(Value(), Donate(c, to)) && (scs[c].tcb == 0 || scs[c].tcb in tcbs) && 0 !in tcbs
      modifies this`tcbs, this`scs
      ensures Value() == Donated(old(Value()), c, to)
    {
      if scs[c].tcb != 0 {
        tcbs := tcbs[scs[c].tcb := tcbs[scs[c].tcb].(sc := 0)];
      }
      scs := scs[c := scs[c].(tcb := to)];
      tcbs := tcbs[to := tcbs[to].(sc := c)];
    }

    method ReplyUnlink(r: nat, t: nat)
      requires r in replies && t in tcbs && replies[r].tcb == t && tcbs[t].reply == r
      modifies this`tcbs, this`replies
      ensures Value() == Unlinked(old(Value()), r, t)
    {
      tcbs := tcbs[t := tcbs[t].(reply := 0)];
      replies := replies[r := replies[r].(tcb := 0)];
      tcbs := tcbs[t := tcbs[t].(onReply := false)];
    }

    method ReplyPush(r: nat, caller: nat, callee: nat, canDonate: bool)
      requires Integrity(Value()) && Enabled(Value(), Push(r, caller, callee, canDonate))
      modifies this
      ensures Value() == Next(old(Value()), Push(r, caller, callee, canDonate)) && Integrity(Value())
    {
      PushedKeeps(Value(), r, caller, callee, canDonate);
      assert replies[r].prev == 0 && replies[r].next.ptr == 0;
      tcbs := tcbs[callee := tcbs[callee].(reply := 0)];
      assert Value() == old(Value());
      replies := replies[r := replies[r].(tcb := caller)];
      tcbs := tcbs[caller := tcbs[caller].(reply := r)];
      tcbs := tcbs[caller := tcbs[caller].(onReply := true)];
      assert Value() == Linked(old(Value()), r, caller, true);
      LinkedKeeps(old(Value()), r, caller, true);
      if tcbs[caller].sc != 0 && tcbs[callee].sc == 0 && canDonate {
        var c := tcbs[caller].sc;
        StackReply(r, c);
        assert ContextOk(Value(), c);
        SchedContextDonate(c, callee);
      }
    }

    method StackReply(r: nat, c: nat)
      requires Integrity(Value()) && Waiting(Value(), r) && c in scs && replies[r].prev == 0 && replies[r].next == NOWHERE
      modifies this`replies, this`scs
      ensures Value() == Stacked(old(Value()), r, c) && Integrity(Value())
    {
      StackedKeeps(Value(), r, c);
      assert ContextOk(Value(), c);
      var head := scs[c].reply;
      assert head == 0 || replies[head].next.ptr == c;
      replies := replies[r := replies[r].(prev := head)];
      if head != 0 {
        replies := replies[head := replies[head].(next := Up(false, r))];
      }
      replies := replies[r := replies[r].(next := Up(true, c))];
      scs := scs[c := scs[c].(reply := r)];
    }

    method ReplyPop(r: nat, t: nat)
      requires Integrity(Value()) && Waiting(Value(), r) && replies[r].tcb == t && replies[r].next.isHead
      modifies this
      ensures Value() == Next(old(Value()), Remove(r)) && Integrity(Value())
    {
      RemovedKeeps(Value(), r);
      assert ReplyOk(Value(), r) && TcbOk(Value(), t);
      var next, prev := replies[r].next.ptr, replies[r].prev;
      scs := scs[next := scs[next].(reply := prev)];
      if prev != 0 {
        replies := replies[prev := replies[prev].(next := replies[r].next)];
        assert replies[prev].next.isHead;
      }
      assert Value() == Unstacked(old(Value()), r);
      if tcbs[t].sc == 0 {
        assert ContextOk(old(Value()), next);
        SchedContextDonate(next, t);
      }
      replies := replies[r := replies[r].(prev := 0)];
      replies := replies[r := replies[r].(next := NOWHERE)];
      ReplyUnlink(r, t);
    }

    method ReplyRemove(r: nat, t: nat)
      requires Integrity(Value()) && Waiting(Value(), r) && replies[r].tcb == t
      modifies this
      ensures Value() == Next(old(Value()), Remove(r)) && Integrity(Value())
    {
      RemovedKeeps(Value(), r);
      assert ReplyOk(Value(), r) && TcbOk(Value(), t);
      var next, prev := replies[r].next, replies[r].prev;
      if next.ptr != 0 && next.isHead {
        ReplyPop(r, t);
      } else {
        if next.ptr != 0 {
          replies := replies[next.ptr := replies[next.ptr].(prev := 0)];
        }
        if prev != 0 {
          replies := replies[prev := replies[prev].(next := NOWHERE)];
        }
        assert Value() == Severed(old(Value()), r);
        replies := replies[r := replies[r].(prev := 0)];
        replies := replies[r := replies[r].(next := NOWHERE)];
        ReplyUnlink(r, t);
      }
    }

    method ReplyRemoveTcb(t: nat)
      requires Integrity(Value()) && Enabled(Value(), RemoveTcb(t))
      modifies this
      ensures Value() == Next(old(Value()), RemoveTcb(t)) && Integrity(Value())
    {
      RemovedTcbKeeps(Value(), t);
      var r := tcbs[t].reply;
      var next, prev := replies[r].next, replies[r].prev;
      if next.ptr != 0 {
        if next.isHead {
          scs := scs[next.ptr := scs[next.ptr].(reply := 0)];
        } else {
          replies := replies[next.ptr := replies[next.ptr].(prev := 0)];
        }
      }
      if prev != 0 {
        replies := replies[prev := replies[prev].(next := NOWHERE)];
      }
      replies := replies[r := replies[r].(prev := 0)];
      replies := replies[r := replies[r].(next := NOWHERE)];
      ReplyUnlink(r, t);
    }
  }
}
