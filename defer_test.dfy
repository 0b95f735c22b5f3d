/**
 The three scenarios of the repository's test suite: a `defer` statement
 whose body sets a flag, left by falling out of a block, by `return 42`,
 and by `throw 42`. In each, the flag is still false before the scope is
 left and true afterwards, and the returned or thrown value reaches the
 caller unchanged.

 The test's `EXPECT_FALSE(flag)` inside the scope comes before the `defer`.
 Here `inside` is read later, by the statements after the `defer` (the
 `observed` state of `Scope`), which is the stronger check: the flag is still
 false once the guard exists, so it is false before the guard exists too.
 */
module DeferTests {
  import opened Guards
  import opened DeferStatement

  /** The body `flag = true;`. */
  const SetFlag: Closure := Closure(0)

  /** `ExecutedAtBlockLeaving`: a block that holds only the `defer`. */
  method ExecutedAtBlockLeaving() returns (before: bool, inside: bool, after: bool)
    ensures !before && !inside && after
  {
    var flag := new Effects();
    before := flag.HasRun(SetFlag);
    var _, observed := Scope(SetFlag, flag, FallThrough);
    inside := SetFlag in observed;
    after := flag.HasRun(SetFlag);
  }

  /** `ExecutedAtReturn`: a function that returns 42 after the `defer`. */
  method ExecutedAtReturn() returns (before: bool, inside: bool, result: Outcome, after: bool)
    ensures !before && !inside && after
    ensures result == Returned(42)
  {
    var flag := new Effects();
    before := flag.HasRun(SetFlag);
    var observed;
    result, observed := Scope(SetFlag, flag, ReturnValue(42));
    inside := SetFlag in observed;
    after := flag.HasRun(SetFlag);
  }

  /** `ExecutedAtThrow`: a function that throws the `int` 42 after the `defer`. */
  method ExecutedAtThrow() returns (before: bool, inside: bool, result: Outcome, after: bool)
    ensures !before && !inside && after
    ensures result == Threw(42)
  {
    var flag := new Effects();
    before := flag.HasRun(SetFlag);
    var observed;
    result, observed := Scope(SetFlag, flag, ThrowValue(42));
    inside := SetFlag in observed;
    after := flag.HasRun(SetFlag);
  }
}
