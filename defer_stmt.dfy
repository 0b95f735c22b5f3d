/**
 The scope guard as the object it is in the source: `defer_stmt` with its
 mutable `is_engaged` flag, the factory `operator<<(tag, F&&)` that the
 `defer` macro expands to, and an enclosing scope that leaves by falling
 through, by returning or by throwing and destroys its guard on the way out.

 A closure captures the caller's state by reference; here that state is an
 `Effects` object, and running a body appends the body's identity to it.
 */
module DeferStatement {
  import opened Guards

  /** The caller state the deferred closures act on: the bodies run so far, in order. */
  class Effects {
    var log: seq<Closure>

    constructor ()
      ensures log == []
    {
      log := [];
    }

    /** The body `c` has run at least once (in the tests: `flag == true`). */
    predicate HasRun(c: Closure)
      reads this
    {
      c in log
    }
  }

  /** `deferred::defer_stmt<F>`. The object has no copy constructor and no
      assignment operators, so the two constructors below are the only ways
      to obtain one and `Destroy` is the only other thing that touches it. */
  class DeferStmt {
    /** The owned closure; the destructor is where it may run. */
    const body: Closure
    /** `is_engaged`: cleared on the source of a move, and read by the destructor. */
    var engaged: bool
    /** The state the body acts on when it runs. */
    const env: Effects
    /** The object's lifetime has not ended: the destructor has not run. */
    ghost var alive: bool

    /** The two fields of the object, as a value. */
    ghost function State(): Guard
      reads this
    {
      Guard(body, engaged)
    }

    /** `explicit defer_stmt(F&& closure)`: engaged, holding the closure, and
        nothing run. */
    constructor FromClosure(closure: Closure, env: Effects)
      ensures State() == Create(closure)
      ensures this.env == env && alive
    {
      body := closure;
      engaged := true;
      this.env := env;
      alive := true;
    }

    /** `defer_stmt(defer_stmt&& other)`: takes the body, disengages `other`,
        and is itself engaged even when `other` already was not, because the
        flag is never copied. */
    constructor FromMoved(other: DeferStmt)
      requires other.alive
      modifies other`engaged
      ensures State() == Move(old(other.State())).target
      ensures other.State() == Move(old(other.State())).source
      ensures env == other.env && alive && other.alive
    {
      body := other.body;
      engaged := true;
      env := other.env;
      alive := true;
      new;
      other.engaged := false;
    }

    /** `~defer_stmt()`: runs the body if and only if the guard is still
        engaged, and ends the object's lifetime. The flag itself is not
        touched. */
    method Destroy()
      requires alive
      modifies this`alive, env`log
      ensures !alive
      ensures env.log == old(env.log) + Runs(State())
    {
      if engaged {
        env.log := env.log + [body];
      }
      alive := false;
    }
  }

  /** `deferred::tag`, the empty helper the macro puts on the left of `<<`. */
  datatype Tag = Tag

  /** `operator<<(tag, F&& closure)`: builds a guard from the closure. The
      returned object is the one the `defer` macro names (the copy is elided;
      the non-elided form, with its moves, is `GuardWorld.FactoryWithoutElision`). */
  method Defer(t: Tag, closure: Closure, env: Effects) returns (d: DeferStmt)
    ensures fresh(d) && d.alive && d.env == env
    ensures d.State() == Create(closure)
  {
    d := new DeferStmt.FromClosure(closure, env);
  }

  /** How the statements after the `defer` leave the enclosing scope. */
  datatype Exit = FallThrough | ReturnValue(value: int) | ThrowValue(error: int)

  /** What the caller of the scope sees. */
  datatype Outcome = Completed | Returned(value: int) | Threw(error: int)

  /** A scope that opens with `defer { closure }` and then leaves by `exit`.
      On every path the guard is destroyed as the scope is left, so the body
      has run exactly once afterwards; the statements before the exit still
      see the state as it was (`observed`); the returned or thrown value
      passes through unchanged. */
  method Scope(closure: Closure, env: Effects, exit: Exit) returns (outcome: Outcome, observed: seq<Closure>)
    modifies env`log
    ensures observed == old(env.log)
    ensures env.log == old(env.log) + [closure]
    ensures exit.FallThrough? <==> outcome.Completed?
    ensures exit.ReturnValue? ==> outcome == Returned(exit.value)
    ensures exit.ThrowValue? ==> outcome == Threw(exit.error)
  {
    var guard := Defer(Tag, closure, env);
    observed := env.log;
    match exit {
      case FallThrough =>
        outcome := Completed;
      case ReturnValue(v) =>
        outcome := Returned(v);
      case ThrowValue(e) =>
        outcome := Threw(e);
    }
    guard.Destroy();
  }

  /** Ownership transfer: a guard moved into another one. Destroying the
      target runs the body; destroying the moved-from source, in either
      order, runs nothing more. */
  method TransferRunsOnce(closure: Closure, targetFirst: bool) returns (log: seq<Closure>)
    ensures log == [closure]
  {
    var env := new Effects();
    var source := new DeferStmt.FromClosure(closure, env);
    var target := new DeferStmt.FromMoved(source);
    if targetFirst {
      target.Destroy();
      source.Destroy();
    } else {
      source.Destroy();
      target.Destroy();
    }
    log := env.log;
  }

  /** Moving twice from the same guard: the second target starts engaged
      although its source was already disengaged, so the body runs twice. */
  method TransferFromDisengagedRunsTwice(closure: Closure) returns (log: seq<Closure>)
    ensures log == [closure, closure]
  {
    var env := new Effects();
    var source := new DeferStmt.FromClosure(closure, env);
    var first := new DeferStmt.FromMoved(source);
    var second := new DeferStmt.FromMoved(source);
    second.Destroy();
    first.Destroy();
    source.Destroy();
    log := env.log;
  }
}
