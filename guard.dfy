/**
 The value view of one `deferred::defer_stmt<F>`: the closure it owns and its
 `is_engaged` flag, with the three things that can happen to a guard (closure
 construction, move construction, destruction) as functions on that view.
 Copy construction, copy assignment and move assignment are deleted in the
 source, so there is no function for them here either.
 */
module Guards {

  /** The closure a guard owns, seen only through its identity. Every
      execution of a `defer` statement creates a lambda of its own (one
      statement run twice, in a loop say, gives two), so each construction
      from a closure brings a new identity. Its only effect is to be run. */
  datatype Closure = Closure(id: nat)

  /** The two fields of a `defer_stmt`: `body` and `is_engaged`. */
  datatype Guard = Guard(body: Closure, engaged: bool)

  /** What move construction leaves behind: the moved-from guard and the new one. */
  datatype Moved = Moved(source: Guard, target: Guard)

  /** `explicit defer_stmt(F&& closure)`: the body is the closure and the flag
      keeps its default initializer `true`; nothing is run. */
  function Create(closure: Closure): (g: Guard)
    ensures g.engaged
    ensures g.body == closure
  {
    Guard(closure, true)
  }

  /** `defer_stmt(defer_stmt&& other)`: the body moves to the new guard, the
      source is disengaged, and the new guard's flag is the default `true`,
      whatever the source's flag was. The moved-from body is left in place;
      it can no longer run, since the source is disengaged. */
  function Move(src: Guard): (m: Moved)
    ensures !m.source.engaged && m.source.body == src.body
    ensures m.target.engaged && m.target.body == src.body
    ensures m.target == Create(src.body)
  {
    Moved(src.(engaged := false), Guard(src.body, true))
  }

  /** The closures that `~defer_stmt()` runs, in order: the body once if the
      guard is engaged, nothing otherwise. */
  function Runs(g: Guard): (r: seq<Closure>)
    ensures multiset(r)[g.body] == (if g.engaged then 1 else 0)
    ensures forall c :: c in r ==> c == g.body
  {
    if g.engaged then [g.body] else []
  }

  /** Moving from an engaged guard hands its one pending run to the target:
      together the two guards would run the body exactly once, as the source
      alone would have. */
  lemma MoveFromEngagedKeepsOneRun(src: Guard)
    requires src.engaged
    ensures var m := Move(src);
      multiset(Runs(m.source) + Runs(m.target)) == multiset(Runs(src))
  {
  }

  /** Moving from a guard that is already disengaged re-arms the body: the
      target gets the default `true`, so the pair would run it once although
      the source alone would not have run it at all. */
  lemma MoveFromDisengagedRearms(src: Guard)
    requires !src.engaged
    ensures Runs(src) == []
    ensures var m := Move(src); Runs(m.source) + Runs(m.target) == [src.body]
  {
  }
}
