/** The big kernel lock: a CLH queue lock whose queue nodes are recycled.  Every CPU runs
    acquire and release over and over, one atomic step at a time; a run is any
    interleaving.  Loads of a CPU's own `node` and `next`, which no other CPU writes, are
    taken together with the access that uses them. */
module ClhLock {

  datatype NodeState = Granted | Pending

  /** Where a CPU stands in acquire and release. */
  datatype Pc =
    | Idle      // does not want the lock
    | Marked    // own node is Pending
    | Swapped   // own node is the queue head, the previous head is in a local
    | Waiting   // the previous head is in `next`; spinning on it
    | Critical  // past acquire
    | Released  // own node is Granted; its recycling is still to come

  /** Nodes are 1..n+1 and 0 is null; CPUs are 0..n-1.  `swaps` and `entries` record the
      order in which CPUs swapped the head and got past acquire, `ticket` a CPU's place in
      `swaps`, and `releases` counts the CPUs that have granted their node. */
  datatype Lock = Lock(
    n: nat,
    states: map<nat, NodeState>,
    node: seq<nat>, next: seq<nat>, head: nat,
    pc: seq<Pc>, prev: seq<nat>,
    swaps: seq<nat>, ticket: seq<nat>, entries: seq<nat>, releases: nat)

  function NodeIds(n: nat): (ids: set<nat>)
    ensures forall i: nat :: i in ids <==> 1 <= i <= n + 1
    ensures |ids| == n + 1
  {
    if n == 0 then {1} else NodeIds(n - 1) + {n + 1}
  }

  function Init(n: nat): Lock {
    Lock(n, map i | i in NodeIds(n) :: Granted, seq(n, i => i + 1), seq(n, i => 0), n + 1,
         seq(n, i => Idle), seq(n, i => 0), [], seq(n, i => 0), [], 0)
  }

  ghost predicate Typed(s: Lock) {
    && |s.node| == |s.next| == |s.pc| == |s.prev| == |s.ticket| == s.n
    && s.states.Keys == NodeIds(s.n)
    && (forall c :: 0 <= c < s.n ==> s.node[c] in s.states)
    && (forall c :: 0 <= c < s.n && s.pc[c] in {Waiting, Critical, Released} ==> s.next[c] in s.states)
    && (forall c :: 0 <= c < s.n && s.pc[c] == Swapped ==> s.prev[c] in s.states)
  }

  /** The next atomic step of CPU `c`. */
  function Next(s: Lock, c: nat): Lock
    requires Typed(s) && c < s.n
  {
    match s.pc[c]
    case Idle => s.(states := s.states[s.node[c] := Pending], pc := s.pc[c := Marked])
    case Marked => s.(prev := s.prev[c := s.head], head := s.node[c], pc := s.pc[c := Swapped],
                      swaps := s.swaps + [c], ticket := s.ticket[c := |s.swaps|])
    case Swapped => s.(next := s.next[c := s.prev[c]], pc := s.pc[c := Waiting])
    case Waiting =>
      if s.states[s.next[c]] == Granted then s.(pc := s.pc[c := Critical], entries := s.entries + [c]) else s
    case Critical => s.(states := s.states[s.node[c] := Granted], pc := s.pc[c := Released], releases := s.releases + 1)
    case Released => s.(node := s.node[c := s.next[c]], pc := s.pc[c := Idle])
  }

  // ----- the invariant -----

  /** The node CPU `c` spins on, or is about to. */
  function Before(s: Lock, c: nat): nat
    requires Typed(s) && c < s.n
  {
    if s.pc[c] == Swapped then s.prev[c] else s.next[c]
  }

  /** The node CPU `c` owns; once it has granted its node it owns the one it waited on. */
  function Own(s: Lock, c: nat): nat
    requires Typed(s) && c < s.n
  {
    if s.pc[c] == Released then s.next[c] else s.node[c]
  }

  predicate Queued(pc: Pc) { pc in {Swapped, Waiting, Critical} }

  /** The CPUs that swapped and did not release yet form a queue: place `i` is held by
      the CPU with that ticket, */
  ghost predicate Place(s: Lock, i: nat)
    requires Typed(s) && i < |s.swaps|
  {
    s.swaps[i] < s.n && Queued(s.pc[s.swaps[i]]) && s.ticket[s.swaps[i]] == i
  }

  /** every CPU in it has a ticket, */
  ghost predicate Ticket(s: Lock, c: nat)
    requires Typed(s) && c < s.n
  {
    Queued(s.pc[c]) ==> s.releases <= s.ticket[c] < |s.swaps| && s.swaps[s.ticket[c]] == c
  }

  /** and each waits on the node of the one ahead. */
  ghost predicate Link(s: Lock, i: nat)
    requires Typed(s) && 0 < i < |s.swaps| && Place(s, i) && Place(s, i - 1)
  {
    Before(s, s.swaps[i]) == s.node[s.swaps[i - 1]]
  }

  ghost predicate QueueOk(s: Lock)
    requires Typed(s)
  {
    && s.releases <= |s.swaps|
    && (forall i: nat {:trigger Place(s, i)} :: s.releases <= i < |s.swaps| ==> Place(s, i))
    && (forall c: nat {:trigger Ticket(s, c)} :: c < s.n ==> Ticket(s, c))
    && (forall i: nat {:trigger Link(s, i)} :: s.releases < i < |s.swaps| ==> Place(s, i) && Place(s, i - 1) && Link(s, i))
    && (s.releases < |s.swaps| ==> Place(s, |s.swaps| - 1) && s.head == s.node[s.swaps[|s.swaps| - 1]])
  }

  /** The state of an owned node says whether its owner wants the lock. */
  ghost predicate NodeOk(s: Lock, c: nat, spare: nat)
    requires Typed(s) && c < s.n
  {
    && Own(s, c) != spare
    && s.states[Own(s, c)] == if s.pc[c] in {Idle, Released} then Granted else Pending
  }

  /** Every node is owned by one CPU or is the spare one. */
  ghost predicate NodesOk(s: Lock, spare: nat)
    requires Typed(s)
  {
    && spare in s.states && s.states[spare] == Granted
    && (forall c: nat {:trigger NodeOk(s, c, spare)} :: c < s.n ==> NodeOk(s, c, spare))
    && (forall c: nat, d: nat {:trigger Own(s, c), Own(s, d)} :: c < d < s.n ==> Own(s, c) != Own(s, d))
  }

  /** CPUs got past acquire in swap order, and at most the front one has not released. */
  ghost predicate EntriesOk(s: Lock)
    requires Typed(s)
  {
    && s.releases <= |s.entries| <= s.releases + 1 && s.entries <= s.swaps
    && (forall c :: 0 <= c < s.n && s.pc[c] == Critical ==> s.ticket[c] == s.releases < |s.entries|)
  }

  /** The one node that no CPU owns. */
  function Spare(s: Lock): nat
    requires Typed(s) && (s.releases < |s.swaps| ==> s.swaps[s.releases] < s.n)
  {
    if s.releases < |s.swaps| then Before(s, s.swaps[s.releases]) else s.head
  }

  ghost predicate Inv(s: Lock) {
    && Typed(s) && QueueOk(s) && EntriesOk(s)
    && (s.releases < |s.swaps| ==> Place(s, s.releases))
    && NodesOk(s, Spare(s))
    && (s.releases < |s.entries| ==> s.pc[s.swaps[s.releases]] == Critical)
  }

  lemma InitInv(n: nat)
    ensures Inv(Init(n))
  {
  }

  // ----- every step keeps it -----

  /** A step that leaves the queue alone keeps it, and the spare node. */
  lemma QueueFrame(s: Lock, t: Lock)
    requires Inv(s) && Typed(t) && (t.n, t.swaps, t.ticket, t.releases, t.head) == (s.n, s.swaps, s.ticket, s.releases, s.head)
    requires forall c :: 0 <= c < s.n ==> Queued(t.pc[c]) == Queued(s.pc[c])
    requires forall c: nat {:trigger Before(t, c)} :: c < s.n && Queued(s.pc[c]) ==> Before(t, c) == Before(s, c)
    requires forall c: nat {:trigger t.node[c]} :: c < s.n && Queued(s.pc[c]) ==> t.node[c] == s.node[c]
    ensures QueueOk(t) && (t.releases < |t.swaps| ==> Place(t, t.releases)) && Spare(t) == Spare(s)
  {
    forall i: nat | t.releases <= i < |t.swaps| ensures Place(t, i) { assert Place(s, i); }
    forall c: nat | c < t.n ensures Ticket(t, c) { assert Ticket(s, c); }
    forall i: nat | t.releases < i < |t.swaps| ensures Link(t, i) { assert Link(s, i); }
  }

  /** A step of `c` that leaves the nodes of the other CPUs alone keeps them. */
  lemma NodesFrame(s: Lock, t: Lock, c: nat, spare: nat)
    requires Typed(s) && Typed(t) && t.n == s.n && c < s.n && NodesOk(s, spare)
    requires spare in t.states && t.states[spare] == Granted && Own(t, c) == Own(s, c) && NodeOk(t, c, spare)
    requires forall d: nat :: d < s.n && d != c ==> t.node[d] == s.node[d] && t.next[d] == s.next[d] && t.pc[d] == s.pc[d]
    requires forall m :: m in s.states && m != Own(s, c) ==> m in t.states && t.states[m] == s.states[m]
    ensures NodesOk(t, spare)
  {
    forall d: nat | d < t.n ensures NodeOk(t, d, spare) {
      assert NodeOk(s, d, spare);
      if d < c { assert Own(s, d) != Own(s, c); }
      if c < d { assert Own(s, c) != Own(s, d); }
    }
    forall d: nat, e: nat | d < e < t.n ensures Own(t, d) != Own(t, e) { assert Own(s, d) != Own(s, e); }
  }

  lemma MarkKeeps(s: Lock, c: nat)
    requires Inv(s) && c < s.n && s.pc[c] == Idle
    ensures Inv(Next(s, c))
  {
    var t := Next(s, c);
    assert NodeOk(s, c, Spare(s));
    QueueFrame(s, t);
    NodesFrame(s, t, c, Spare(s));
  }

  lemma StoreKeeps(s: Lock, c: nat)
    requires Inv(s) && c < s.n && s.pc[c] == Swapped
    ensures Inv(Next(s, c))
  {
    var t := Next(s, c);
    assert NodeOk(s, c, Spare(s));
    QueueFrame(s, t);
    NodesFrame(s, t, c, Spare(s));
  }

  /** Whoever is not at the front waits on a Pending node. */
  lemma AheadIsPending(s: Lock, i: nat)
    requires Inv(s) && s.releases < i < |s.swaps| && Place(s, i)
    ensures Before(s, s.swaps[i]) in s.states && s.states[Before(s, s.swaps[i])] == Pending
  {
    assert Link(s, i);
    assert NodeOk(s, s.swaps[i - 1], Spare(s));
  }

  /** A spinning CPU that reads Granted is at the front of the queue. */
  lemma GrantedIsFront(s: Lock, c: nat)
    requires Inv(s) && c < s.n && s.pc[c] == Waiting && s.states[s.next[c]] == Granted
    ensures s.ticket[c] == s.releases == |s.entries|
  {
    assert Ticket(s, c);
    if s.releases < s.ticket[c] { AheadIsPending(s, s.ticket[c]); }
  }

  lemma EnterKeeps(s: Lock, c: nat)
    requires Inv(s) && c < s.n && s.pc[c] == Waiting
    ensures Inv(Next(s, c))
  {
    if s.states[s.next[c]] == Granted {
      GrantedIsFront(s, c);
      assert NodeOk(s, c, Spare(s));
      assert Ticket(s, c);
      var t := Next(s, c);
      QueueFrame(s, t);
      NodesFrame(s, t, c, Spare(s));
    }
  }

  lemma RecycleKeeps(s: Lock, c: nat)
    requires Inv(s) && c < s.n && s.pc[c] == Released
    ensures Inv(Next(s, c))
  {
    var t := Next(s, c);
    assert NodeOk(s, c, Spare(s));
    QueueFrame(s, t);
    NodesFrame(s, t, c, Spare(s));
  }

  lemma SwapKeepsPlaces(s: Lock, c: nat)
    requires Inv(s) && c < s.n && s.pc[c] == Marked
    ensures var t := Next(s, c);
            && Typed(t)
            && (forall i: nat {:trigger Place(t, i)} :: t.releases <= i < |t.swaps| ==> Place(t, i))
            && (forall d: nat {:trigger Ticket(t, d)} :: d < t.n ==> Ticket(t, d))
  {
    var t := Next(s, c);
    if s.releases < |s.swaps| { assert Place(s, |s.swaps| - 1); }
    forall i: nat | t.releases <= i < |t.swaps| ensures Place(t, i) { if i < |s.swaps| { assert Place(s, i); } }
    forall d: nat | d < t.n ensures Ticket(t, d) { assert Ticket(s, d); }
  }

  lemma SwapKeepsQueue(s: Lock, c: nat)
    requires Inv(s) && c < s.n && s.pc[c] == Marked
    ensures var t := Next(s, c); Typed(t) && QueueOk(t) && Place(t, t.releases) && Spare(t) == Spare(s)
  {
    SwapKeepsPlaces(s, c);
    var t, k := Next(s, c), |s.swaps|;
    forall i: nat | t.releases < i < |t.swaps| ensures Link(t, i) {
      if i < k { assert Link(s, i); } else { assert Place(s, k - 1); }
    }
    assert Place(t, |t.swaps| - 1);
    if s.releases < k { assert Place(s, s.releases); }
  }

  lemma SwapKeeps(s: Lock, c: nat)
    requires Inv(s) && c < s.n && s.pc[c] == Marked
    ensures Inv(Next(s, c))
  {
    SwapKeepsQueue(s, c);
    assert NodeOk(s, c, Spare(s));
    NodesFrame(s, Next(s, c), c, Spare(s));
  }

  lemma CriticalIsFront(s: Lock, c: nat)
    requires Inv(s) && c < s.n && s.pc[c] == Critical
    ensures s.releases < |s.swaps| && s.swaps[s.releases] == c && |s.entries| == s.releases + 1
  {
    assert Ticket(s, c);
  }

  lemma ReleaseKeepsPlaces(s: Lock, c: nat)
    requires Inv(s) && c < s.n && s.pc[c] == Critical
    ensures var t := Next(s, c);
            && Typed(t)
            && (forall i: nat {:trigger Place(t, i)} :: t.releases <= i < |t.swaps| ==> Place(t, i))
            && (forall d: nat {:trigger Ticket(t, d)} :: d < t.n ==> Ticket(t, d))
  {
    CriticalIsFront(s, c);
    assert Place(s, s.releases);
    hide NodesOk, EntriesOk;
    var t := Next(s, c);
    forall i: nat | t.releases <= i < |t.swaps| ensures Place(t, i) { assert Place(s, i); }
    forall d: nat | d < t.n ensures Ticket(t, d) { assert Ticket(s, d); }
  }

  lemma ReleaseKeepsQueue(s: Lock, c: nat)
    requires Inv(s) && c < s.n && s.pc[c] == Critical
    ensures Spare(s) == s.next[c]
    ensures var t := Next(s, c);
            Typed(t) && QueueOk(t) && (t.releases < |t.swaps| ==> Place(t, t.releases)) && Spare(t) == s.node[c]
  {
    CriticalIsFront(s, c);
    ReleaseKeepsPlaces(s, c);
    var t := Next(s, c);
    forall i: nat | t.releases < i < |t.swaps| ensures Link(t, i) {
      assert Link(s, i);
    }
    if t.releases < |t.swaps| {
      assert Place(t, t.releases) && Place(t, |t.swaps| - 1);
      assert Link(s, t.releases);
    }
  }

  lemma ReleaseKeepsNodes(s: Lock, c: nat)
    requires Inv(s) && c < s.n && s.pc[c] == Critical && Spare(s) == s.next[c] && Typed(Next(s, c))
    ensures NodesOk(Next(s, c), s.node[c])
  {
    var t := Next(s, c);
    assert NodeOk(s, c, s.next[c]);
    forall d: nat | d < t.n ensures NodeOk(t, d, s.node[c]) {
      assert NodeOk(s, d, s.next[c]);
      if d < c { assert Own(s, d) != Own(s, c); }
      if c < d { assert Own(s, c) != Own(s, d); }
    }
    forall d: nat, e: nat | d < e < t.n ensures Own(t, d) != Own(t, e) {
      assert NodeOk(s, d, s.next[c]) && NodeOk(s, e, s.next[c]);
      assert Own(s, d) != Own(s, e);
    }
  }

  lemma ReleaseKeeps(s: Lock, c: nat)
    requires Inv(s) && c < s.n && s.pc[c] == Critical
    ensures Inv(Next(s, c))
  {
    ReleaseKeepsQueue(s, c);
    ReleaseKeepsNodes(s, c);
    CriticalIsFront(s, c);
    forall d: nat | d < s.n && s.pc[d] == Critical ensures d == c { CriticalIsFront(s, d); }
  }

  lemma StepKeeps(s: Lock, c: nat)
    requires Inv(s) && c < s.n
    ensures Inv(Next(s, c))
  {
    match s.pc[c]
    case Idle => MarkKeeps(s, c);
    case Marked => SwapKeeps(s, c);
    case Swapped => StoreKeeps(s, c);
    case Waiting => EnterKeeps(s, c);
    case Critical => ReleaseKeeps(s, c);
    case Released => RecycleKeeps(s, c);
  }

  // ----- whole runs -----

  predicate OfCpus(n: nat, run: seq<nat>) { forall i :: 0 <= i < |run| ==> run[i] < n }

  /** The lock after the CPUs in `run` have taken one atomic step each, in that order. */
  ghost function Run(n: nat, run: seq<nat>): (s: Lock)
    requires OfCpus(n, run)
    ensures Inv(s) && s.n == n && |s.pc| == |s.ticket| == n
  {
    if run == [] then (InitInv(n); Init(n))
    else
      var s := Run(n, run[..|run| - 1]);
      (StepKeeps(s, run[|run| - 1]); Next(s, run[|run| - 1]))
  }

  /** Mutual exclusion and fairness, under every interleaving: at most one CPU is past
      acquire, and CPUs get past it in the order in which they swapped the head. */
  lemma {:induction false} MutualExclusion(n: nat, run: seq<nat>)
    requires OfCpus(n, run)
    ensures var s := Run(n, run);
            && (forall c, d :: 0 <= c < n && 0 <= d < n && s.pc[c] == Critical && s.pc[d] == Critical ==> c == d)
            && s.entries <= s.swaps
  {
    var s := Run(n, run);
    forall c: nat, d: nat | c < n && d < n && s.pc[c] == Critical && s.pc[d] == Critical ensures c == d {
      CriticalIsFront(s, c);
      CriticalIsFront(s, d);
    }
  }

  /** The swap in acquire never returns null, so its loop runs once; and what a CPU then
      spins on is a node. */
  lemma {:induction false} HeadNeverNull(n: nat, run: seq<nat>)
    requires OfCpus(n, run)
    ensures Run(n, run).head in NodeIds(n) && Run(n, run).head != 0
  {
    var s := Run(n, run);
    if s.releases < |s.swaps| { assert Place(s, |s.swaps| - 1); }
  }

  function ToSet(xs: seq<nat>): set<nat> { set x | x in xs }

  lemma {:induction false} DistinctCount(xs: seq<nat>)
    requires forall i, j :: 0 <= i < j < |xs| ==> xs[i] != xs[j]
    ensures |ToSet(xs)| == |xs|
  {
    if xs != [] {
      var k := |xs| - 1;
      DistinctCount(xs[..k]);
      assert ToSet(xs) == ToSet(xs[..k]) + {xs[k]};
    }
  }

  /** Distinct members of a set, as many as it has, are all of it. */
  lemma DistinctCover(xs: seq<nat>, all: set<nat>)
    requires forall i, j :: 0 <= i < j < |xs| ==> xs[i] != xs[j]
    requires |xs| == |all| && forall i :: 0 <= i < |xs| ==> xs[i] in all
    ensures ToSet(xs) == all
  {
    DistinctCount(xs);
    assert |all - ToSet(xs)| == |all| - |ToSet(xs)|;
  }

  /** Nodes are recycled without loss: when no CPU is in the middle of a release, the
      nodes of the CPUs and the one spare node are exactly the n+1 nodes. */
  lemma {:induction false} NodesConserved(n: nat, run: seq<nat>)
    requires OfCpus(n, run)
    requires forall c :: 0 <= c < n ==> Run(n, run).pc[c] != Released
    ensures var s := Run(n, run);
            && (forall c, d :: 0 <= c < d < n ==> s.node[c] != s.node[d])
            && Spare(s) !in s.node
            && ToSet(s.node + [Spare(s)]) == NodeIds(n)
  {
    var s := Run(n, run);
    forall c: nat, d: nat | c < d < n ensures s.node[c] != s.node[d] { assert Own(s, c) != Own(s, d); }
    forall c: nat | c < n ensures s.node[c] != Spare(s) { assert NodeOk(s, c, Spare(s)); }
    DistinctCover(s.node + [Spare(s)], NodeIds(n));
  }

  /** The lock is never stuck: whoever is at the front of the queue can always take its
      next step, so a spin ends once everyone ahead has released. */
  lemma {:induction false} FrontCanMove(n: nat, run: seq<nat>)
    requires OfCpus(n, run)
    requires Run(n, run).releases < |Run(n, run).swaps|
    ensures var s := Run(n, run); var c := s.swaps[s.releases]; c < n && Next(s, c) != s
  {
    var s := Run(n, run);
    assert Place(s, s.releases);
    var c := s.swaps[s.releases];
    assert Next(s, c).pc[c] != s.pc[c];
  }

  lemma {:induction false} OneMore(n: nat, run: seq<nat>, c: nat)
    requires OfCpus(n, run) && c < n
    ensures var s := Run(n, run); Typed(s) && |s.pc| == |s.node| == |s.next| == |s.prev| == n
    ensures Run(n, run + [c]) == Next(Run(n, run), c) && Typed(Run(n, run + [c]))
  {
    assert (run + [c])[..|run|] == run;
  }

  // ----- progress -----

  predicate Waits(pc: Pc) { pc == Swapped || pc == Waiting }

  /** The node the front CPU waits on is granted. */
  lemma FrontIsGranted(s: Lock)
    requires Inv(s) && s.releases < |s.swaps|
    ensures var f := s.swaps[s.releases];
      f < s.n && Queued(s.pc[f]) && (s.pc[f] == Waiting ==> s.next[f] in s.states && s.states[s.next[f]] == Granted)
  {
    assert Place(s, s.releases);
  }

  /** What the progress of one CPU leaves alone. */
  predicate SameQueue(s: Lock, t: Lock) { t.ticket == s.ticket && t.swaps == s.swaps && t.releases == s.releases }

  lemma {:induction false} StoreMore(n: nat, run: seq<nat>, c: nat)
    requires OfCpus(n, run) && c < n && Run(n, run).pc[c] == Swapped
    ensures var s, t := Run(n, run), Run(n, run + [c]); t.pc == s.pc[c := Waiting] && SameQueue(s, t)
  {
    hide Inv, Run, Typed;
    OneMore(n, run, c);
  }

  lemma {:induction false} EnterMore(n: nat, run: seq<nat>, c: nat)
    requires OfCpus(n, run) && c < n && var s := Run(n, run); s.pc[c] == Waiting && s.releases < |s.swaps| && s.swaps[s.releases] == c
    ensures var s, t := Run(n, run), Run(n, run + [c]); t.pc == s.pc[c := Critical] && SameQueue(s, t)
  {
    FrontIsGranted(Run(n, run));
    hide Inv, Run, Typed;
    OneMore(n, run, c);
  }

  lemma {:induction false} LeaveMore(n: nat, run: seq<nat>, c: nat)
    requires OfCpus(n, run) && c < n && Run(n, run).pc[c] == Critical
    ensures var s, t := Run(n, run), Run(n, run + [c]);
      t.pc == s.pc[c := Released] && t.ticket == s.ticket && t.swaps == s.swaps && t.releases == s.releases + 1
  {
    hide Inv, Run, Typed;
    OneMore(n, run, c);
  }

  /** Left to itself, the front CPU gets past acquire. */
  lemma FrontEnters(n: nat, run: seq<nat>) returns (more: seq<nat>)
    requires OfCpus(n, run) && Run(n, run).releases < |Run(n, run).swaps|
    ensures OfCpus(n, run + more)
    ensures var s, t := Run(n, run), Run(n, run + more); var f := s.swaps[s.releases];
      f < n && t.pc == s.pc[f := Critical] && SameQueue(s, t)
  {
    hide Inv, Run, Typed, Next;
    var s := Run(n, run);
    FrontIsGranted(s);
    var f := s.swaps[s.releases];
    if s.pc[f] == Critical {
      more := [];
      assert run + more == run && s.pc[f := Critical] == s.pc;
    } else if s.pc[f] == Waiting {
      more := [f];
      EnterMore(n, run, f);
    } else {
      more := [f] + [f];
      StoreMore(n, run, f);
      EnterMore(n, run + [f], f);
      assert run + more == run + [f] + [f];
    }
  }

  lemma WaiterHasTicket(s: Lock, c: nat)
    requires Inv(s) && c < s.n && Queued(s.pc[c])
    ensures s.releases <= s.ticket[c] < |s.swaps| && s.swaps[s.ticket[c]] == c && s.swaps[s.releases] < s.n
    ensures s.swaps[s.releases] == c <==> s.ticket[c] == s.releases
  {
    assert Ticket(s, c) && Place(s, s.releases);
  }

  /** Once a CPU is past acquire, those that got in are the ones that swapped up to it. */
  lemma EntriesUpTo(s: Lock, c: nat)
    requires Inv(s) && c < s.n && s.pc[c] == Critical
    ensures s.ticket[c] < |s.swaps| && s.entries == s.swaps[..s.ticket[c] + 1]
  {
    CriticalIsFront(s, c);
    assert Ticket(s, c);
  }

  /** Nobody is locked out: from every state any run reaches, every CPU that has swapped the head
      gets past acquire in some continuation, after just those that swapped earlier. */
  lemma {:induction false} EveryoneGetsIn(n: nat, run: seq<nat>, c: nat) returns (more: seq<nat>)
    requires OfCpus(n, run) && c < n && Waits(Run(n, run).pc[c])
    ensures OfCpus(n, run + more)
    ensures var s, t := Run(n, run), Run(n, run + more);
      t.pc[c] == Critical && s.ticket[c] < |s.swaps| && t.entries == s.swaps[..s.ticket[c] + 1]
    decreases Run(n, run).ticket[c] - Run(n, run).releases
  {
    hide Inv, Run, Typed, Next;
    var s := Run(n, run);
    WaiterHasTicket(s, c);
    more := FrontEnters(n, run);
    var f := s.swaps[s.releases];
    if f == c {
      EntriesUpTo(Run(n, run + more), c);
    } else {
      LeaveMore(n, run + more, f);
      var rest := EveryoneGetsIn(n, run + more + [f], c);
      assert run + more + [f] + rest == run + (more + [f] + rest);
      more := more + [f] + rest;
    }
  }

  lemma WaiterNotIn(s: Lock, c: nat)
    requires Inv(s) && c < s.n && Waits(s.pc[c])
    ensures s.releases <= |s.entries| <= s.ticket[c]
  {
    assert Ticket(s, c);
  }

  /** Nobody overtakes: while a CPU waits, however the run goes on, no more CPUs get past acquire
      than had swapped before it and not released. */
  lemma {:induction false} NoOvertaking(n: nat, run: seq<nat>, more: seq<nat>, c: nat)
    requires OfCpus(n, run) && OfCpus(n, more) && c < n
    requires forall k :: 0 <= k <= |more| ==> Waits(Run(n, run + more[..k]).pc[c])
    ensures var s, t := Run(n, run), Run(n, run + more);
      t.ticket[c] == s.ticket[c] && |t.entries| - |s.entries| <= s.ticket[c] - s.releases
    decreases |more|
  {
    hide Inv, Run;
    assert run + more[..0] == run && more[..|more|] == more;
    if more == [] {
      assert run + more == run;
    } else {
      var k := |more| - 1;
      forall j | 0 <= j <= k ensures Waits(Run(n, run + more[..k][..j]).pc[c]) { assert more[..k][..j] == more[..j]; }
      NoOvertaking(n, run, more[..k], c);
      OneMore(n, run + more[..k], more[k]);
      assert run + more[..k] + [more[k]] == run + more;
    }
    WaiterNotIn(Run(n, run + more), c);
    WaiterNotIn(Run(n, run), c);
  }

  // ----- is_self_in_queue -----

  predicate IsSelfInQueue(s: Lock, c: nat)
    requires Typed(s) && c < s.n
  {
    s.states[s.node[c]] == Pending
  }

  ghost function Owned(s: Lock): (owned: seq<nat>)
    requires Typed(s)
    ensures |owned| == s.n
  {
    seq(s.n, d requires 0 <= d < s.n => Own(s, d))
  }

  lemma OwnedAt(s: Lock, d: nat)
    requires Typed(s)
    ensures d < s.n ==> Owned(s)[d] == Own(s, d)
  {
  }

  lemma OwnedDistinct(s: Lock)
    requires Inv(s)
    ensures var all := Owned(s) + [Spare(s)];
      (forall i, j :: 0 <= i < j < |all| ==> all[i] != all[j]) && forall i :: 0 <= i < |all| ==> all[i] in NodeIds(s.n)
  {
    forall c: nat | c < s.n ensures Own(s, c) != Spare(s) { assert NodeOk(s, c, Spare(s)); }
  }

  /** Every node is the spare one or is owned by a CPU. */
  lemma EveryNodeHasOwner(s: Lock, m: nat)
    requires Inv(s) && m in s.states
    ensures m == Spare(s) || exists d: nat :: d < s.n && Own(s, d) == m
  {
    var owned := Owned(s);
    OwnedDistinct(s);
    hide Inv, Owned, Spare;
    DistinctCover(owned + [Spare(s)], NodeIds(s.n));
    assert m in owned + [Spare(s)];
    var d :| 0 <= d < |owned + [Spare(s)]| && (owned + [Spare(s)])[d] == m;
    OwnedAt(s, d);
  }

  predicate Wants(s: Lock, c: nat)
    requires Typed(s) && c < s.n
  {
    s.pc[c] !in {Idle, Released}
  }

  /** CPU `c` has granted its node but not recycled it yet, and whoever owns it now wants the lock. */
  ghost predicate TakenOver(s: Lock, c: nat)
    requires Typed(s) && c < s.n
  {
    s.pc[c] == Released && exists d: nat :: d < s.n && Own(s, d) == s.node[c] && Wants(s, d)
  }

  /** `is_self_in_queue`, which reads only the CPU's own node, is right exactly if the node has
      not been taken over, for every CPU under every interleaving. */
  lemma {:induction false} SelfInQueueIff(n: nat, run: seq<nat>, c: nat)
    requires OfCpus(n, run) && c < n
    ensures var s := Run(n, run); (IsSelfInQueue(s, c) <==> Wants(s, c)) <==> !TakenOver(s, c)
  {
    var s := Run(n, run);
    assert NodeOk(s, c, Spare(s));
    if s.pc[c] == Released {
      EveryNodeHasOwner(s, s.node[c]);
      forall d: nat | d < n && Own(s, d) == s.node[c] ensures IsSelfInQueue(s, c) <==> Wants(s, d) {
        assert NodeOk(s, d, Spare(s));
      }
    }
  }

  /** Two CPUs: CPU 0 has left the queue but has not recycled its node, which CPU 1 owns by now
      and has marked again, so CPU 0 would read Pending. */
  lemma SelfInQueueMidRelease()
    ensures var s := Run(2, [0, 0, 0, 0, 0, 1, 1, 1, 1, 1, 1, 1]); TakenOver(s, 0) && IsSelfInQueue(s, 0) && !Wants(s, 0)
  {
    hide Init, Inv, Next, NodeIds, Run, Typed, Own, IsSelfInQueue, TakenOver, Wants;
    Start();
    var run := Overtake([0, 0, 0, 0, 0]);
    assert run == [0, 0, 0, 0, 0, 1, 1, 1, 1, 1, 1, 1];
  }

  lemma Start()
    ensures var s := Run(2, [0, 0, 0, 0, 0]); s.pc == [Released, Idle] && s.node == [1, 2] && s.head == 1 && s.states[1] == Granted
  {
    InitialRun();
    hide Init, Inv, Next, NodeIds, Run, Typed;
    var s := Run(2, []);
    assert s.pc == [Idle, Idle] && s.node == [1, 2] && s.next == [0, 0] && s.head == 3 && s.states[3] == Granted;
    hide Init, Inv, NodeIds, Run, Typed;
    var run := WaitRun(2, [], 0);
    run := LeaveRun(2, run, 0);
    assert run == [0, 0, 0, 0, 0];
  }

  lemma InitialRun()
    ensures var s := Run(2, []); s.pc == [Idle, Idle] && s.node == [1, 2] && s.next == [0, 0] && s.head == 3 && 3 in s.states && s.states[3] == Granted
  {
  }

  lemma Overtake(run: seq<nat>) returns (more: seq<nat>)
    requires OfCpus(2, run)
    requires var s := Run(2, run); s.pc == [Released, Idle] && s.node == [1, 2] && s.head == 1 && s.states[1] == Granted
    ensures more == run + [1, 1, 1, 1, 1, 1, 1]
    ensures var s := Run(2, more); TakenOver(s, 0) && IsSelfInQueue(s, 0) && !Wants(s, 0)
  {
    hide Inv, Next, NodeIds, Run, Typed;
    OneMore(2, run, 1);
    more := WaitRun(2, run, 1);
    more := LeaveRun(2, more, 1);
    more := AgainRun(2, more, 1);
    var t := Run(2, more);
    assert t.node == [1, 1] && t.pc == [Released, Marked] && t.states[1] == Pending;
    assert Own(t, 1) == 1 && Wants(t, 1);
  }

  /** An idle CPU is spinning after three steps. */
  lemma WaitRun(n: nat, run: seq<nat>, c: nat) returns (more: seq<nat>)
    requires OfCpus(n, run) && c < n && Run(n, run).pc[c] == Idle
    ensures more == run + [c, c, c]
    ensures var s, t := Run(n, run), Run(n, more);
      && t.pc == s.pc[c := Waiting] && t.node == s.node && t.next == s.next[c := s.head] && t.head == s.node[c]
      && t.states == s.states[s.node[c] := Pending]
  {
    hide Inv, Run, Typed;
    OneMore(n, run, c);
    OneMore(n, run + [c], c);
    OneMore(n, run + [c] + [c], c);
    more := run + [c, c, c];
    assert more == run + [c] + [c] + [c];
  }

  /** One that reads Granted has granted its own node after two more. */
  lemma LeaveRun(n: nat, run: seq<nat>, c: nat) returns (more: seq<nat>)
    requires OfCpus(n, run) && c < n
    requires var s := Run(n, run); s.pc[c] == Waiting && s.states[s.next[c]] == Granted
    ensures more == run + [c, c]
    ensures var s, t := Run(n, run), Run(n, more);
      && t.pc == s.pc[c := Released] && t.node == s.node && t.next == s.next && t.head == s.head
      && t.states == s.states[s.node[c] := Granted]
  {
    hide Inv, Run, Typed;
    OneMore(n, run, c);
    OneMore(n, run + [c], c);
    more := run + [c, c];
    assert more == run + [c] + [c];
  }

  /** It then recycles its node and marks the one it waited on. */
  lemma AgainRun(n: nat, run: seq<nat>, c: nat) returns (more: seq<nat>)
    requires OfCpus(n, run) && c < n && Run(n, run).pc[c] == Released
    ensures more == run + [c, c]
    ensures var s, t := Run(n, run), Run(n, more);
      && Typed(t) && t.pc == s.pc[c := Marked] && t.node == s.node[c := s.next[c]] && t.states == s.states[s.next[c] := Pending]
  {
    hide Inv, Run, Typed;
    OneMore(n, run, c);
    OneMore(n, run + [c], c);
    more := run + [c, c];
    assert more == run + [c] + [c];
  }

  // ----- the lock object -----

  /** The state of node `i` is at index `i`. */
  ghost predicate StatesAre(s: Lock, states: seq<NodeState>) {
    |states| == s.n + 2 && forall i :: 1 <= i <= s.n + 1 ==> i in s.states && s.states[i] == states[i]
  }

  /** The two steps that write a state write that of the CPU's own node. */
  lemma StateWritten(s: Lock, c: nat, states: seq<NodeState>, written: NodeState)
    requires Inv(s) && c < s.n && StatesAre(s, states)
    requires (s.pc[c] == Idle && written == Pending) || (s.pc[c] == Critical && written == Granted)
    ensures Typed(s) && Inv(Next(s, c)) && 1 <= s.node[c] < |states| && |s.node| == s.n
    ensures var t := Next(s, c);
      StatesAre(t, states[s.node[c] := written]) && (t.n, t.node, t.next, t.head) == (s.n, s.node, s.next, s.head)
  {
    hide Inv, StatesAre;
    InvTyped(s);
    StepKeeps(s, c);
    WriteState(s, Next(s, c), s.node[c], states, written);
  }

  lemma InvTyped(s: Lock)
    requires Inv(s)
    ensures Typed(s)
  {
  }

  lemma WriteState(s: Lock, t: Lock, m: nat, states: seq<NodeState>, written: NodeState)
    requires StatesAre(s, states) && t.n == s.n && 1 <= m <= s.n + 1 && t.states == s.states[m := written]
    ensures |states| == s.n + 2 && StatesAre(t, states[m := written])
  {
  }

  /** `clh_lock`.  Each method is one atomic step of a CPU and takes the protocol state
      `lock` to its next state; what the other CPUs did in between is in `Valid`. */
  class KernelLock {
    const n: nat
    const states: array<NodeState>  // of node i at index i; index 0 is null
    const node: array<nat>          // node_owners[cpu].node
    const next: array<nat>          // node_owners[cpu].next
    var head: nat
    ghost var lock: Lock

    ghost predicate Valid()
      reads this, states, node, next
    {
      && Inv(lock) && lock.n == n && node != next
      && states.Length == n + 2 && StatesAre(lock, states[..])
      && node.Length == next.Length == n && node[..] == lock.node && next[..] == lock.next
      && head == lock.head
    }

    constructor (n: nat)
      ensures Valid() && this.n == n && lock == Init(n) && fresh(states) && fresh(node) && fresh(next)
    {
      this.n := n;
      states := new NodeState[n + 2](_ => Granted);
      node := new nat[n](_ => 0);
      next := new nat[n](_ => 0);
      lock := Init(n);
      new;
      for i := 0 to n
        invariant forall c :: 0 <= c < i ==> node[c] == c + 1
        invariant next[..] == lock.next && lock == Init(n)
        invariant forall j :: 0 <= j < n + 2 ==> states[j] == Granted
      {
        node[i] := i + 1;
      }
      states[n + 1] := Granted;
      head := n + 1;
      InitInv(n);
      assert node[..] == lock.node;
    }

    method MarkPending(cpu: nat)
      requires Valid() && cpu < n && lock.pc[cpu] == Idle
      modifies this`lock, states
      ensures Valid() && lock == Next(old(lock), cpu)
    {
      hide Inv, Next, Typed, StatesAre;
      StateWritten(lock, cpu, states[..], Pending);
      assert node[cpu] == lock.node[cpu];
      states[node[cpu]] := Pending;
      assert states[..] == old(states[..])[node[cpu] := Pending];
      lock := Next(lock, cpu);
    }

    /** The swap returns the previous head, never null. */
    method SwapHead(cpu: nat) returns (raw: nat)
      requires Valid() && cpu < n && lock.pc[cpu] == Marked
      modifies this
      ensures Valid() && lock == Next(old(lock), cpu) && raw == lock.prev[cpu] != 0
    {
      StepKeeps(lock, cpu);
      assert node[cpu] == lock.node[cpu];
      raw := head;
      head := node[cpu];
      lock := Next(lock, cpu);
      assert raw in lock.states;
    }

    method StoreNext(cpu: nat, raw: nat)
      requires Valid() && cpu < n && lock.pc[cpu] == Swapped && raw == lock.prev[cpu]
      modifies this`lock, next
      ensures Valid() && lock == Next(old(lock), cpu)
    {
      StepKeeps(lock, cpu);
      next[cpu] := raw;
      lock := Next(lock, cpu);
      assert next[..] == lock.next;
    }

    /** One turn of the spin loop; acquire returns once `granted` is true. */
    method Poll(cpu: nat) returns (granted: bool)
      requires Valid() && cpu < n && lock.pc[cpu] == Waiting
      modifies this`lock
      ensures Valid() && lock == Next(old(lock), cpu) && granted == (lock.pc[cpu] == Critical)
    {
      StepKeeps(lock, cpu);
      assert next[cpu] == lock.next[cpu];
      granted := states[next[cpu]] == Granted;
      lock := Next(lock, cpu);
    }

    method Grant(cpu: nat)
      requires Valid() && cpu < n && lock.pc[cpu] == Critical
      modifies this`lock, states
      ensures Valid() && lock == Next(old(lock), cpu)
    {
      hide Inv, Next, Typed, StatesAre;
      StateWritten(lock, cpu, states[..], Granted);
      assert node[cpu] == lock.node[cpu];
      states[node[cpu]] := Granted;
      assert states[..] == old(states[..])[node[cpu] := Granted];
      lock := Next(lock, cpu);
    }

    method Recycle(cpu: nat)
      requires Valid() && cpu < n && lock.pc[cpu] == Released
      modifies this`lock, node
      ensures Valid() && lock == Next(old(lock), cpu)
    {
      StepKeeps(lock, cpu);
      assert next[cpu] == lock.next[cpu];
      node[cpu] := next[cpu];
      lock := Next(lock, cpu);
      assert node[..] == lock.node;
    }
  }
}
