/**
 All the guards of a program at once, as values: every `defer_stmt` object
 ever constructed (a slot, whose lifetime may have ended) and the closures
 run so far. A program step is one of the three operations the class
 exposes: construction from a closure, move construction from an existing
 guard, destruction. Nothing else can touch a guard, because copying and
 assigning are deleted.

 The main results: as long as every move is taken from the guard that is
 currently engaged, each closure is run at most once while guards are alive
 and exactly once when they have all been destroyed; a chain of such moves
 keeps exactly one holder; the moves of a non-elided factory call are
 invisible. Moving twice from the same guard runs the body twice.
 */
module GuardWorld {
  import opened Guards

  /** One guard object: its fields, and whether its lifetime is still running. */
  datatype Slot = Slot(guard: Guard, live: bool)

  /** Every guard constructed so far, in construction order, and the bodies run so far. */
  datatype World = World(slots: seq<Slot>, log: seq<Closure>)

  /** The operations on guards: `defer_stmt(F&&)`, `defer_stmt(defer_stmt&&)` from
      the guard at `index`, and `~defer_stmt()` on the guard at `index`. */
  datatype Op = New(closure: Closure) | MoveConstruct(index: nat) | Destruct(index: nat)

  /** Uses of a guard that the language does not allow: naming an object that
      was never constructed, or one whose lifetime has ended. */
  datatype Misuse = NoSuchGuard(index: nat) | LifetimeEnded(index: nat)

  datatype Result<T> = Ok(value: T) | Err(misuse: Misuse)

  /** A program before any guard is constructed. */
  const Empty: World := World([], [])

  /** The guard at `i` exists and has not been destroyed. */
  predicate Usable(w: World, i: nat)
  {
    i < |w.slots| && w.slots[i].live
  }

  /** A live, engaged guard: one whose destruction would run its body. */
  predicate Owns(s: Slot)
  {
    s.live && s.guard.engaged
  }

  /** The bodies of all guards ever constructed. */
  function Bodies(slots: seq<Slot>): set<Closure>
  {
    set k | 0 <= k < |slots| :: slots[k].guard.body
  }

  /** Whether the slot's destructor would run `c`: 1 if so, 0 if not. */
  function Holds(s: Slot, c: Closure): nat
  {
    if Owns(s) && s.guard.body == c then 1 else 0
  }

  /** A slot holds `c` exactly as often as its destructor would run it. */
  lemma HoldsIsRuns(s: Slot, c: Closure)
    ensures Holds(s, c) == if s.live then multiset(Runs(s.guard))[c] else 0
  {
  }

  /** How many live guards would still run `c`. */
  function Holders(slots: seq<Slot>, c: Closure): nat
  {
    if slots == [] then 0 else Holders(slots[..|slots| - 1], c) + Holds(slots[|slots| - 1], c)
  }

  /** `w2` can follow `w1`: no slot disappears, no slot's body is replaced
      (there is no assignment), a destroyed slot is never touched again, and
      the log is only appended to. */
  ghost predicate Later(w1: World, w2: World)
  {
    && |w1.slots| <= |w2.slots|
    && (forall k :: 0 <= k < |w1.slots| ==> w2.slots[k].guard.body == w1.slots[k].guard.body)
    && (forall k :: 0 <= k < |w1.slots| && !w1.slots[k].live ==> w2.slots[k] == w1.slots[k])
    && w1.log <= w2.log
  }

  /** `defer_stmt(F&& closure)`: a new live guard, engaged, holding the
      closure, after all the others, which stay as they were. */
  function Construct(w: World, c: Closure): (r: World)
    ensures r.log == w.log
    ensures |r.slots| == |w.slots| + 1 && r.slots[|w.slots|] == Slot(Create(c), true)
    ensures r.slots[..|w.slots|] == w.slots
  {
    World(w.slots + [Slot(Create(c), true)], w.log)
  }

  /** `defer_stmt(defer_stmt&& other)` with `other` the live guard at `i`:
      the source is disengaged in place, the new guard is appended, every
      other guard stays as it was and nothing runs. */
  function MoveConstructFrom(w: World, i: nat): (r: World)
    requires Usable(w, i)
    ensures r.log == w.log
    ensures |r.slots| == |w.slots| + 1 && r.slots[|w.slots|] == Slot(Move(w.slots[i].guard).target, true)
    ensures r.slots[i] == Slot(Move(w.slots[i].guard).source, true)
    ensures forall k :: 0 <= k < |w.slots| && k != i ==> r.slots[k] == w.slots[k]
  {
    var m := Move(w.slots[i].guard);
    World(w.slots[i := Slot(m.source, true)] + [Slot(m.target, true)], w.log)
  }

  /** `~defer_stmt()` on the live guard at `i`: its lifetime ends with its
      fields as they were, every other guard stays as it was, and what its
      destructor runs is appended to the log. */
  function DestructAt(w: World, i: nat): (r: World)
    requires Usable(w, i)
    ensures |r.slots| == |w.slots|
    ensures r.slots[i] == w.slots[i].(live := false)
    ensures forall k :: 0 <= k < |w.slots| && k != i ==> r.slots[k] == w.slots[k]
    ensures r.log == w.log + Runs(w.slots[i].guard)
  {
    var g := w.slots[i].guard;
    World(w.slots[i := Slot(g, false)], w.log + Runs(g))
  }

  /** One operation. */
  function Step(w: World, op: Op): (r: Result<World>)
    ensures r.Err? <==> !op.New? && !Usable(w, op.index)
    ensures r.Err? ==> r.misuse == if op.index < |w.slots| then LifetimeEnded(op.index) else NoSuchGuard(op.index)
    ensures r.Ok? ==> |r.value.slots| == |w.slots| + (if op.Destruct? then 0 else 1)
    ensures r.Ok? ==> forall k :: 0 <= k < |w.slots| && (op.New? || k != op.index) ==> r.value.slots[k] == w.slots[k]
    ensures r.Ok? && !op.Destruct? ==> r.value.log == w.log && Owns(r.value.slots[|w.slots|])
    ensures r.Ok? && op.New? ==> r.value.slots[|w.slots|] == Slot(Create(op.closure), true)
    ensures r.Ok? && op.MoveConstruct? ==>
      r.value.slots[|w.slots|] == Slot(Move(w.slots[op.index].guard).target, true)
    ensures r.Ok? && op.MoveConstruct? ==>
      r.value.slots[op.index] == Slot(w.slots[op.index].guard.(engaged := false), true)
    ensures r.Ok? && op.Destruct? ==>
      && r.value.slots[op.index] == w.slots[op.index].(live := false)
      && r.value.log == w.log + Runs(w.slots[op.index].guard)
  {
    match op
    case New(c) => Ok(Construct(w, c))
    case MoveConstruct(i) =>
      if i >= |w.slots| then Err(NoSuchGuard(i))
      else if !w.slots[i].live then Err(LifetimeEnded(i))
      else Ok(MoveConstructFrom(w, i))
    case Destruct(i) =>
      if i >= |w.slots| then Err(NoSuchGuard(i))
      else if !w.slots[i].live then Err(LifetimeEnded(i))
      else Ok(DestructAt(w, i))
  }

  /** A step only moves the world forward. */
  lemma StepLater(w: World, op: Op)
    requires Step(w, op).Ok?
    ensures Later(w, Step(w, op).value)
  {
  }

  /** A sequence of operations, stopping at the first misuse. */
  function Run(w: World, ops: seq<Op>): Result<World>
    decreases |ops|
  {
    if ops == [] then Ok(w)
    else
      match Step(w, ops[0])
      case Err(m) => Err(m)
      case Ok(w1) => Run(w1, ops[1..])
  }

  /** The way the factory and the macro use the operations: every `defer`
      creates a closure of its own, and every move is taken from a guard that
      is still engaged. (The move constructor does not check this.) */
  predicate Disciplined(w: World, op: Op)
  {
    match op
    case New(c) => c !in Bodies(w.slots)
    case MoveConstruct(i) => Usable(w, i) ==> w.slots[i].guard.engaged
    case Destruct(_) => true
  }

  /** Every step of `ops`, from `w`, is disciplined. */
  predicate DisciplinedRun(w: World, ops: seq<Op>)
    decreases |ops|
  {
    ops == [] ||
    (Disciplined(w, ops[0]) && (Step(w, ops[0]).Ok? ==> DisciplinedRun(Step(w, ops[0]).value, ops[1..])))
  }

  /** The exactly-once balance: each closure ever given to a guard has either
      run once or is held by exactly one live engaged guard, and nothing else
      has run or is held. */
  ghost predicate Balanced(w: World)
  {
    forall c :: multiset(w.log)[c] + Holders(w.slots, c) == if c in Bodies(w.slots) then 1 else 0
  }

  lemma HoldersAppend(s: seq<Slot>, x: Slot, c: Closure)
    ensures Holders(s + [x], c) == Holders(s, c) + Holds(x, c)
  {
    assert (s + [x])[..|s|] == s;
  }

  lemma {:induction false} HoldersUpdate(s: seq<Slot>, i: nat, x: Slot, c: Closure)
    requires i < |s|
    ensures Holders(s[i := x], c) + Holds(s[i], c) == Holders(s, c) + Holds(x, c)
  {
    var n := |s| - 1;
    var t := s[i := x];
    if i == n {
      assert t[..n] == s[..n];
    } else {
      assert t[..n] == s[..n][i := x];
      HoldersUpdate(s[..n], i, x, c);
    }
  }

  lemma BodiesAppend(s: seq<Slot>, x: Slot)
    ensures Bodies(s + [x]) == Bodies(s) + {x.guard.body}
  {
    assert (s + [x])[|s|].guard.body == x.guard.body;
    forall c | c in Bodies(s) ensures c in Bodies(s + [x]) {
      var k :| 0 <= k < |s| && s[k].guard.body == c;
      assert (s + [x])[k] == s[k];
    }
  }

  lemma BodiesUpdate(s: seq<Slot>, i: nat, x: Slot)
    requires i < |s| && x.guard.body == s[i].guard.body
    ensures Bodies(s[i := x]) == Bodies(s)
  {
    forall c | c in Bodies(s) ensures c in Bodies(s[i := x]) {
      var k :| 0 <= k < |s| && s[k].guard.body == c;
      assert s[i := x][k].guard.body == c;
    }
  }

  lemma NewBalanced(w: World, c: Closure)
    requires Balanced(w) && c !in Bodies(w.slots)
    ensures Balanced(World(w.slots + [Slot(Create(c), true)], w.log))
  {
    var x := Slot(Create(c), true);
    var s1 := w.slots + [x];
    BodiesAppend(w.slots, x);
    forall d ensures multiset(w.log)[d] + Holders(s1, d) == if d in Bodies(s1) then 1 else 0 {
      HoldersAppend(w.slots, x, d);
    }
  }

  lemma MoveBalanced(w: World, i: nat)
    requires Balanced(w) && i < |w.slots| && Owns(w.slots[i])
    ensures var m := Move(w.slots[i].guard);
      Balanced(World(w.slots[i := Slot(m.source, true)] + [Slot(m.target, true)], w.log))
  {
    var m := Move(w.slots[i].guard);
    var mid := w.slots[i := Slot(m.source, true)];
    var s1 := mid + [Slot(m.target, true)];
    BodiesUpdate(w.slots, i, Slot(m.source, true));
    BodiesAppend(mid, Slot(m.target, true));
    assert w.slots[i].guard.body in Bodies(w.slots);
    assert Bodies(s1) == Bodies(w.slots);
    forall d ensures Holders(s1, d) == Holders(w.slots, d) {
      HoldersUpdate(w.slots, i, Slot(m.source, true), d);
      HoldersAppend(mid, Slot(m.target, true), d);
    }
  }

  lemma DestructBalanced(w: World, i: nat)
    requires Balanced(w) && i < |w.slots| && w.slots[i].live
    ensures var g := w.slots[i].guard;
      Balanced(World(w.slots[i := Slot(g, false)], w.log + Runs(g)))
  {
    var g := w.slots[i].guard;
    var s1 := w.slots[i := Slot(g, false)];
    BodiesUpdate(w.slots, i, Slot(g, false));
    forall d ensures multiset(w.log + Runs(g))[d] + Holders(s1, d) == multiset(w.log)[d] + Holders(w.slots, d) {
      HoldersUpdate(w.slots, i, Slot(g, false), d);
      HoldsIsRuns(w.slots[i], d);
    }
  }

  /** A disciplined step keeps the balance. */
  lemma StepBalanced(w: World, op: Op)
    requires Balanced(w) && Disciplined(w, op) && Step(w, op).Ok?
    ensures Balanced(Step(w, op).value)
  {
    match op
    case New(c) => NewBalanced(w, c);
    case MoveConstruct(i) => MoveBalanced(w, i);
    case Destruct(i) => DestructBalanced(w, i);
  }

  /** A disciplined program keeps the balance. */
  lemma {:induction false} RunBalanced(w: World, ops: seq<Op>)
    requires Balanced(w) && DisciplinedRun(w, ops) && Run(w, ops).Ok?
    ensures Balanced(Run(w, ops).value)
    decreases |ops|
  {
    if ops != [] {
      StepBalanced(w, ops[0]);
      RunBalanced(Step(w, ops[0]).value, ops[1..]);
    }
  }

  /** Whatever runs, the world only moves forward: no slot lost, no body
      replaced, no destroyed guard touched, nothing taken out of the log. */
  lemma {:induction false} RunLater(w: World, ops: seq<Op>)
    requires Run(w, ops).Ok?
    ensures Later(w, Run(w, ops).value)
    decreases |ops|
  {
    if ops != [] {
      var w1 := Step(w, ops[0]).value;
      StepLater(w, ops[0]);
      RunLater(w1, ops[1..]);
    }
  }

  lemma {:induction false} HeldBy(s: seq<Slot>, j: nat)
    requires j < |s| && Owns(s[j])
    ensures Holders(s, s[j].guard.body) >= 1
    decreases |s|
  {
    if j < |s| - 1 {
      HeldBy(s[..|s| - 1], j);
    }
  }

  lemma {:induction false} HeldByTwo(s: seq<Slot>, j: nat, k: nat)
    requires j < k < |s| && Owns(s[j]) && Owns(s[k]) && s[j].guard.body == s[k].guard.body
    ensures Holders(s, s[j].guard.body) >= 2
    decreases |s|
  {
    var n := |s| - 1;
    if k == n {
      HeldBy(s[..n], j);
    } else {
      HeldByTwo(s[..n], j, k);
    }
  }

  lemma {:induction false} NoHolders(s: seq<Slot>, c: Closure)
    requires forall k :: 0 <= k < |s| ==> !Owns(s[k])
    ensures Holders(s, c) == 0
    decreases |s|
  {
    if s != [] {
      NoHolders(s[..|s| - 1], c);
    }
  }

  /** The empty program is balanced. */
  lemma EmptyBalanced()
    ensures Balanced(Empty)
  {
  }

  /** While the balance holds, no closure has run twice and no two live
      guards would both run the same closure: ownership is unique. */
  lemma AtMostOnce(w: World)
    requires Balanced(w)
    ensures forall c :: multiset(w.log)[c] <= 1
    ensures forall j, k :: 0 <= j < k < |w.slots| && Owns(w.slots[j]) && Owns(w.slots[k]) ==>
      w.slots[j].guard.body != w.slots[k].guard.body
  {
    forall j, k | 0 <= j < k < |w.slots| && Owns(w.slots[j]) && Owns(w.slots[k])
      ensures w.slots[j].guard.body != w.slots[k].guard.body
    {
      var b := w.slots[j].guard.body;
      assert multiset(w.log)[b] + Holders(w.slots, b) <= 1;
      if b == w.slots[k].guard.body {
        HeldByTwo(w.slots, j, k);
      }
    }
  }

  /** Once every guard has been destroyed, each closure ever given to a
      guard has run exactly once, and nothing else has run. */
  lemma ExactlyOnce(w: World)
    requires Balanced(w)
    requires forall k :: 0 <= k < |w.slots| ==> !w.slots[k].live
    ensures forall c :: multiset(w.log)[c] == if c in Bodies(w.slots) then 1 else 0
  {
    forall c ensures multiset(w.log)[c] == if c in Bodies(w.slots) then 1 else 0 {
      NoHolders(w.slots, c);
    }
  }

  /** The world after the guard created by `defer` has been moved `k` times,
      each time from the newest guard: every moved-from guard is still alive
      and disengaged, and the newest one holds the body. */
  function ChainWorld(c: Closure, k: nat): World
  {
    World(seq(k, _ => Slot(Guard(c, false), true)) + [Slot(Create(c), true)], [])
  }

  /** Move construction from the guards `from`, `from + 1`, ..., `to - 1`, in order. */
  function Moves(from: nat, to: nat): seq<Op>
    decreases to - from
  {
    if from >= to then [] else [MoveConstruct(from)] + Moves(from + 1, to)
  }

  /** Destruction of the guards `k - 1`, ..., `0`: the reverse of construction order. */
  function DestructAll(k: nat): seq<Op>
  {
    if k == 0 then [] else [Destruct(k - 1)] + DestructAll(k - 1)
  }

  lemma ChainStep(c: Closure, k: nat)
    ensures Disciplined(ChainWorld(c, k), MoveConstruct(k))
    ensures Step(ChainWorld(c, k), MoveConstruct(k)) == Ok(ChainWorld(c, k + 1))
  {
    var s := ChainWorld(c, k).slots;
    var s' := ChainWorld(c, k + 1).slots;
    assert s[k := Slot(Guard(c, false), true)] + [Slot(Create(c), true)] == s';
  }

  lemma {:induction false} ChainMoves(c: Closure, k: nat, n: nat)
    requires k <= n
    ensures DisciplinedRun(ChainWorld(c, k), Moves(k, n))
    ensures Run(ChainWorld(c, k), Moves(k, n)) == Ok(ChainWorld(c, n))
    decreases n - k
  {
    if k < n {
      ChainStep(c, k);
      assert Moves(k, n)[1..] == Moves(k + 1, n);
      ChainMoves(c, k + 1, n);
    }
  }

  /** In the chain, exactly one guard (the newest) is engaged, and the only
      body is the closure. */
  lemma ChainHasOneHolder(c: Closure, k: nat)
    ensures forall j :: 0 <= j < |ChainWorld(c, k).slots| ==> (Owns(ChainWorld(c, k).slots[j]) <==> j == k)
    ensures Holders(ChainWorld(c, k).slots, c) == 1
    ensures Bodies(ChainWorld(c, k).slots) == {c}
  {
    var s := ChainWorld(c, k).slots;
    NoHolders(s[..k], c);
    HoldersAppend(s[..k], Slot(Create(c), true), c);
    assert s == s[..k] + [Slot(Create(c), true)];
    assert s[k].guard.body == c;
  }

  /** Destruction of those of the guards `k - 1`, ..., `0` of `s` that are still
      alive: leaving the remaining scopes, newest first. */
  function DestructLive(s: seq<Slot>, k: nat): seq<Op>
    requires k <= |s|
  {
    if k == 0 then [] else (if s[k - 1].live then [Destruct(k - 1)] else []) + DestructLive(s, k - 1)
  }

  /** When the first `k` guards are all alive, destroying the live ones is
      destroying all of them. */
  lemma {:induction false} DestructLiveAll(s: seq<Slot>, k: nat)
    requires k <= |s|
    requires forall j :: 0 <= j < k ==> s[j].live
    ensures DestructLive(s, k) == DestructAll(k)
    decreases k
  {
    if k > 0 {
      DestructLiveAll(s, k - 1);
    }
  }

  /** Destruction is never against the discipline. */
  lemma {:induction false} DestructsDisciplined(w: World, ops: seq<Op>)
    requires forall n :: 0 <= n < |ops| ==> ops[n].Destruct?
    ensures DisciplinedRun(w, ops)
    decreases |ops|
  {
    if ops != [] && Step(w, ops[0]).Ok? {
      DestructsDisciplined(Step(w, ops[0]).value, ops[1..]);
    }
  }

  /** `DestructLive` only destroys. */
  lemma {:induction false} DestructLiveDestructs(s: seq<Slot>, k: nat)
    requires k <= |s|
    ensures forall n :: 0 <= n < |DestructLive(s, k)| ==> DestructLive(s, k)[n].Destruct?
    decreases k
  {
    if k > 0 {
      DestructLiveDestructs(s, k - 1);
    }
  }

  /** `r` is `w` with the first `k` guards destroyed and the later ones as they were. */
  predicate EndsFirst(w: World, r: Result<World>, k: nat)
  {
    && r.Ok?
    && |r.value.slots| == |w.slots|
    && (forall j :: 0 <= j < k && j < |r.value.slots| ==> !r.value.slots[j].live)
    && (forall j :: k <= j < |w.slots| ==> r.value.slots[j] == w.slots[j])
  }

  /** Destroying the live guards among the first `k`, newest first, is never
      a misuse, leaves all of the first `k` destroyed and the later ones as
      they were. The operations are chosen from `s`, which agrees with `w` on
      which of them are alive. */
  lemma {:induction false} DestructLiveEnds(w: World, s: seq<Slot>, k: nat)
    requires k <= |w.slots| && k <= |s|
    requires forall j :: 0 <= j < k ==> w.slots[j].live == s[j].live
    ensures EndsFirst(w, Run(w, DestructLive(s, k)), k)
    decreases k
  {
    if k > 0 {
      if s[k - 1].live {
        var w1 := DestructAt(w, k - 1);
        DestructLiveEnds(w1, s, k - 1);
        DestructLiveTake(w, s, k);
      } else {
        DestructLiveEnds(w, s, k - 1);
        DestructLiveSkip(w, s, k);
      }
    }
  }

  /** The newest of the first `k` guards is alive: it is destroyed first. */
  lemma DestructLiveTake(w: World, s: seq<Slot>, k: nat)
    requires 0 < k <= |w.slots| && k <= |s| && s[k - 1].live && w.slots[k - 1].live
    requires EndsFirst(DestructAt(w, k - 1), Run(DestructAt(w, k - 1), DestructLive(s, k - 1)), k - 1)
    ensures EndsFirst(w, Run(w, DestructLive(s, k)), k)
  {
    var ops, rest, w1 := DestructLive(s, k), DestructLive(s, k - 1), DestructAt(w, k - 1);
    assert Run(w, ops) == Run(w1, rest) by {
      assert ops == [Destruct(k - 1)] + rest && ops[1..] == rest;
      assert Step(w, ops[0]) == Ok(w1);
    }
  }

  /** The newest of the first `k` guards is already destroyed: it is skipped. */
  lemma DestructLiveSkip(w: World, s: seq<Slot>, k: nat)
    requires 0 < k <= |w.slots| && k <= |s| && !s[k - 1].live && !w.slots[k - 1].live
    requires EndsFirst(w, Run(w, DestructLive(s, k - 1)), k - 1)
    ensures EndsFirst(w, Run(w, DestructLive(s, k)), k)
  {
    var rest := DestructLive(s, k - 1);
    assert DestructLive(s, k) == rest by {
      assert [] + rest == rest;
    }
  }

  lemma ChainBalanced(c: Closure, k: nat)
    ensures Balanced(ChainWorld(c, k))
  {
    var s := ChainWorld(c, k).slots;
    ChainHasOneHolder(c, k);
    assert s == s[..k] + [Slot(Create(c), true)];
    forall d | d != c ensures Holders(s, d) == 0 {
      NoHolders(s[..k], d);
      HoldersAppend(s[..k], Slot(Create(c), true), d);
    }
  }

  /** Leaving the scope of every guard of a balanced world that is still
      alive, newest first: no misuse, and afterwards every closure ever given
      to a guard has run exactly once and nothing else has run. */
  lemma DestroyLiveRunsEachOnce(w: World)
    requires Balanced(w)
    ensures Run(w, DestructLive(w.slots, |w.slots|)).Ok?
    ensures forall c :: multiset(Run(w, DestructLive(w.slots, |w.slots|)).value.log)[c] == if c in Bodies(w.slots) then 1 else 0
  {
    var ops := DestructLive(w.slots, |w.slots|);
    DestructLiveEnds(w, w.slots, |w.slots|);
    DestructLiveDestructs(w.slots, |w.slots|);
    DestructsDisciplined(w, ops);
    RunBalanced(w, ops);
    var done := Run(w, ops).value;
    RunLater(w, ops);
    assert Bodies(done.slots) == Bodies(w.slots) by {
      forall x | x in Bodies(w.slots) ensures x in Bodies(done.slots) {
        var k :| 0 <= k < |w.slots| && w.slots[k].guard.body == x;
        assert done.slots[k].guard.body == x;
      }
    }
    ExactlyOnce(done);
  }

  /** A whole program, from no guards at all, that uses the operations as
      the factory and the macro do: at its end no closure has run twice, and
      leaving the scopes of the guards still alive, newest first, is never a
      misuse and runs each closure ever given to a guard exactly once. */
  lemma ProgramRunsEachOnce(ops: seq<Op>)
    requires DisciplinedRun(Empty, ops) && Run(Empty, ops).Ok?
    ensures var w := Run(Empty, ops).value;
      && (forall c :: multiset(w.log)[c] <= 1)
      && Run(w, DestructLive(w.slots, |w.slots|)).Ok?
      && (forall c :: multiset(Run(w, DestructLive(w.slots, |w.slots|)).value.log)[c]
            == if c in Bodies(w.slots) then 1 else 0)
  {
    EmptyBalanced();
    RunBalanced(Empty, ops);
    var w := Run(Empty, ops).value;
    AtMostOnce(w);
    DestroyLiveRunsEachOnce(w);
  }

  lemma ChainStart(c: Closure)
    ensures Step(Empty, New(c)) == Ok(ChainWorld(c, 0))
  {
    assert Empty.slots + [Slot(Create(c), true)] == ChainWorld(c, 0).slots;
  }

  lemma ChainEnds(c: Closure, n: nat)
    ensures Run(ChainWorld(c, n), DestructAll(n + 1)).Ok?
    ensures multiset(Run(ChainWorld(c, n), DestructAll(n + 1)).value.log) == multiset{c}
  {
    var w := ChainWorld(c, n);
    ChainBalanced(c, n);
    ChainHasOneHolder(c, n);
    DestroyLiveRunsEachOnce(w);
    DestructLiveAll(w.slots, n + 1);
    var done := Run(w, DestructAll(n + 1)).value;
    assert multiset(done.log) == multiset{c};
  }

  /** A guard created by `defer` and then moved `n` times, each time from the
      guard just constructed: at every step exactly one guard is engaged, each
      move is taken from it, and destroying all `n + 1` guards runs the body
      exactly once. */
  lemma ChainRunsOnce(c: Closure, n: nat)
    ensures Step(Empty, New(c)) == Ok(ChainWorld(c, 0))
    ensures DisciplinedRun(ChainWorld(c, 0), Moves(0, n))
    ensures Run(ChainWorld(c, 0), Moves(0, n)) == Ok(ChainWorld(c, n))
    ensures forall k, j :: 0 <= k <= n && 0 <= j < |ChainWorld(c, k).slots| ==>
      (Owns(ChainWorld(c, k).slots[j]) <==> j == k)
    ensures Run(ChainWorld(c, n), DestructAll(n + 1)).Ok?
    ensures multiset(Run(ChainWorld(c, n), DestructAll(n + 1)).value.log) == multiset{c}
  {
    ChainStart(c);
    ChainMoves(c, 0, n);
    forall k | 0 <= k <= n
      ensures forall j :: 0 <= j < |ChainWorld(c, k).slots| ==> (Owns(ChainWorld(c, k).slots[j]) <==> j == k)
    {
      ChainHasOneHolder(c, k);
    }
    ChainEnds(c, n);
  }

  /** `tag{} << closure` without copy elision, as C++11 allows: the guard is
      built inside `operator<<`, moved into the returned temporary, which is
      moved into the named guard; each source is destroyed in turn. The
      moves leave two destroyed, disengaged temporaries behind, run nothing,
      and end with the same live guard that direct construction yields. */
  lemma FactoryWithoutElision(w: World, c: Closure)
    ensures var n := |w.slots|;
      var ops := [New(c), MoveConstruct(n), Destruct(n), MoveConstruct(n + 1), Destruct(n + 1)];
      && Run(w, ops).Ok?
      && Run(w, ops).value.log == w.log
      && Run(w, ops).value.slots == w.slots + [Slot(Guard(c, false), false), Slot(Guard(c, false), false)]
         + Step(w, New(c)).value.slots[n..]
  {
    var n := |w.slots|;
    var ops := [New(c), MoveConstruct(n), Destruct(n), MoveConstruct(n + 1), Destruct(n + 1)];
    var on, off, ended := Slot(Create(c), true), Slot(Guard(c, false), true), Slot(Guard(c, false), false);
    var w1 := World(w.slots + [on], w.log);
    var w2 := World(w.slots + [off, on], w.log);
    var w3 := World(w.slots + [ended, on], w.log);
    var w4 := World(w.slots + [ended, off, on], w.log);
    var w5 := World(w.slots + [ended, ended, on], w.log);
    assert Step(w, New(c)) == Ok(w1);
    assert w1.slots[n := off] + [on] == w2.slots;
    assert Step(w1, MoveConstruct(n)) == Ok(w2);
    assert w2.slots[n := ended] == w3.slots;
    assert w2.log + Runs(off.guard) == w.log;
    assert Step(w2, Destruct(n)) == Ok(w3);
    assert w3.slots[n + 1 := off] + [on] == w4.slots;
    assert Step(w3, MoveConstruct(n + 1)) == Ok(w4);
    assert w4.slots[n + 1 := ended] == w5.slots;
    assert Step(w4, Destruct(n + 1)) == Ok(w5);
    assert w1.slots[n..] == [on];
    assert Run(w4, ops[4..]) == Ok(w5);
    assert Run(w3, ops[3..]) == Ok(w5);
    assert Run(w2, ops[2..]) == Ok(w5);
    assert Run(w1, ops[1..]) == Ok(w5);
  }

  lemma DoubleMoveBuild(c: Closure)
    ensures Run(Empty, [New(c), MoveConstruct(0)])
      == Ok(World([Slot(Guard(c, false), true), Slot(Guard(c, true), true)], []))
    ensures Step(World([Slot(Guard(c, false), true), Slot(Guard(c, true), true)], []), MoveConstruct(0))
      == Ok(World([Slot(Guard(c, false), true), Slot(Guard(c, true), true), Slot(Guard(c, true), true)], []))
  {
    var on, off := Slot(Guard(c, true), true), Slot(Guard(c, false), true);
    var w1 := World([on], []);
    var w2 := World([off, on], []);
    assert Empty.slots + [Slot(Create(c), true)] == [on];
    assert Step(Empty, New(c)) == Ok(w1);
    assert [on][0 := off] + [on] == [off, on];
    assert Step(w1, MoveConstruct(0)) == Ok(w2);
    assert Run(w1, [MoveConstruct(0)]) == Ok(w2);
    assert [New(c), MoveConstruct(0)][1..] == [MoveConstruct(0)];
    assert [off, on][0 := off] + [on] == [off, on, on];
  }

  lemma DoubleMoveDestroy(c: Closure)
    ensures Run(World([Slot(Guard(c, false), true), Slot(Guard(c, true), true), Slot(Guard(c, true), true)], []), DestructAll(3))
      == Ok(World([Slot(Guard(c, false), false), Slot(Guard(c, true), false), Slot(Guard(c, true), false)], [c, c]))
  {
    var on, off := Slot(Guard(c, true), true), Slot(Guard(c, false), true);
    var onEnded, offEnded := Slot(Guard(c, true), false), Slot(Guard(c, false), false);
    var w3 := World([off, on, on], []);
    var w4 := World([off, on, onEnded], [c]);
    var w5 := World([off, onEnded, onEnded], [c, c]);
    var w6 := World([offEnded, onEnded, onEnded], [c, c]);
    assert Runs(on.guard) == [c] && Runs(off.guard) == [];
    assert [] + [c] == [c] && [c] + [c] == [c, c] && [c, c] + [] == [c, c];
    assert w3.slots[2 := onEnded] == w4.slots;
    assert Step(w3, Destruct(2)) == Ok(w4);
    assert w4.slots[1 := onEnded] == w5.slots;
    assert Step(w4, Destruct(1)) == Ok(w5);
    assert w5.slots[0 := offEnded] == w6.slots;
    assert Step(w5, Destruct(0)) == Ok(w6);
    assert DestructAll(1) == [Destruct(0)];
    assert Run(w5, DestructAll(1)) == Ok(w6);
    assert DestructAll(2) == [Destruct(1)] + DestructAll(1);
    assert Run(w4, DestructAll(2)) == Ok(w6);
    assert DestructAll(3) == [Destruct(2)] + DestructAll(2);
  }

  /** Moving twice from the same guard, which the move constructor allows
      because it never copies the flag: the second move is taken from a
      disengaged guard, yet its target is engaged, and destroying the three
      guards runs the body twice. */
  lemma DoubleMoveRunsTwice(c: Closure)
    ensures Run(Empty, [New(c), MoveConstruct(0)])
      == Ok(World([Slot(Guard(c, false), true), Slot(Guard(c, true), true)], []))
    ensures !Disciplined(World([Slot(Guard(c, false), true), Slot(Guard(c, true), true)], []), MoveConstruct(0))
    ensures Step(World([Slot(Guard(c, false), true), Slot(Guard(c, true), true)], []), MoveConstruct(0))
      == Ok(World([Slot(Guard(c, false), true), Slot(Guard(c, true), true), Slot(Guard(c, true), true)], []))
    ensures Run(World([Slot(Guard(c, false), true), Slot(Guard(c, true), true), Slot(Guard(c, true), true)], []), DestructAll(3))
      == Ok(World([Slot(Guard(c, false), false), Slot(Guard(c, true), false), Slot(Guard(c, true), false)], [c, c]))
  {
    DoubleMoveBuild(c);
    DoubleMoveDestroy(c);
  }
}
