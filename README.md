# defer: a scope guard, modelled in Dafny

The library provides a `defer { ... };` statement for C++. The macro expands to
`const auto DEFER_n = deferred::tag{} << [&]() noexcept -> void { ... }`. The
`operator<<` factory wraps the lambda in a `deferred::defer_stmt<F>`. That
object holds the closure (`body`) and a flag (`is_engaged`, initialised to
`true`). Its move constructor takes the body and clears the flag of the
moved-from object. Its destructor runs the body if the flag is still set.
Copy construction, copy assignment and move assignment are deleted.

The model has four modules:

- `Guards` (guard.dfy): a guard as a value `Guard(body, engaged)`. It has
  the transitions `Create` (closure constructor), `Move` (move constructor)
  and `Runs` (what the destructor runs). A closure is opaque and known only
  by its identity.
- `DeferStatement` (defer_stmt.dfy): the object as a class `DeferStmt`. It has
  a mutable `engaged` field and a ghost `alive` flag for the object's
  lifetime. It has the constructors `FromClosure` and `FromMoved` and the
  method `Destroy`. We never see what a closure does to caller state. Here
  that state is an `Effects` object, and running a body appends the body's
  identity to its `log`. The module also has the `operator<<` factory
  (`Defer`) and a `Scope` that opens with `defer` and then leaves by falling
  through, by returning a value or by throwing one.
- `GuardWorld` (world.dfy): a whole program's guards as values. Each guard
  ever constructed is a slot whose lifetime may have ended, and the log
  records the bodies run. A `Step` is one of the three operations. The
  invariant `Balanced` says that each closure given to a guard has either run
  once or is held by exactly one live engaged guard. `Balanced` is preserved
  as long as each move is taken from an engaged guard and each `defer` brings
  a closure of its own.
- `DeferTests` (defer_test.dfy): the three scenarios of the test suite.

### Behaviour of the code worth knowing (the model follows it)

- The move constructor never copies `is_engaged`. The target gets the
  default `true` even when the source was already disengaged. So "at most
  once" holds only when every move is taken from the guard that is currently
  engaged. The factory path does this: it moves only temporaries, each of
  them the one fresh holder. The macro's named guard is `const` and cannot be
  moved at all. `Guards.Move` keeps the target engaged whatever the source's
  flag. `GuardWorld.Disciplined` states the condition on moves, and
  `GuardWorld.DoubleMoveRunsTwice` and
  `DeferStatement.TransferFromDisengagedRunsTwice` show a body that runs twice
  when it is broken. So a move from a disengaged guard yields an engaged
  guard.
- The destructor does not clear `is_engaged` after running the body. Running
  it a second time is ruled out by the object's lifetime, not by the flag.
  The model represents lifetime with `alive` and `live`. Destroying an ended
  guard is a `Misuse` in `GuardWorld.Step`, and `Destroy` requires `alive`.

## Model

| member | source | states |
|---|---|---|
| `Guards.Create` | include/defer/defer.hpp:64-74 | a guard built from a closure is engaged and holds that closure as its body |
| `Guards.Move` | include/defer/defer.hpp:64-71 | after a move the source is disengaged and keeps its body; the target holds the source's body and is engaged whatever the source's flag was, equal to a freshly created guard |
| `Guards.Runs` | include/defer/defer.hpp:76-77 | the destructor runs the body exactly once if the guard is engaged and nothing otherwise, and never runs any other closure |
| `Guards.MoveFromEngagedKeepsOneRun` | include/defer/defer.hpp:69-77 | moving from an engaged guard hands its one pending run to the target: source and target together run the body once, as the source alone would have |
| `Guards.MoveFromDisengagedRearms` | include/defer/defer.hpp:65-71 | moving from a disengaged guard re-arms the body: the source would run nothing, yet source and target together run it once |
| `DeferStatement.DeferStmt.FromClosure` | include/defer/defer.hpp:73-74 | the new object's state is `Create(closure)` and its lifetime has begun; nothing is run |
| `DeferStatement.DeferStmt.FromMoved` | include/defer/defer.hpp:68-71 | the new object and the moved-from object take the states `Move` gives; only the source's flag changes; both stay alive |
| `DeferStatement.DeferStmt.Destroy` | include/defer/defer.hpp:76-77 | the log grows by exactly `Runs` of the guard's state, which is the body if it is engaged and nothing if not; the lifetime ends; the flag is left as it was |
| `DeferStatement.Defer` | include/defer/defer.hpp:84-88 | `tag{} << closure` yields a fresh, live, engaged guard holding the closure, without running it |
| `DeferStatement.Scope` | include/defer/defer.hpp:6-36 | on each exit path (fall-through, return, throw) the body has run exactly once when the scope is left, the statements inside saw the state unchanged, and the returned or thrown value passes through |
| `DeferStatement.TransferRunsOnce` | include/defer/defer.hpp:68-77 | a guard moved into another runs its body exactly once when both are destroyed, in either order |
| `DeferStatement.TransferFromDisengagedRunsTwice` | include/defer/defer.hpp:65-71 | two moves from the same object yield two engaged guards, and the body runs twice |
| `GuardWorld.Construct` | include/defer/defer.hpp:73-74 | constructing from a closure appends one live guard equal to `Create(closure)` and leaves every earlier guard and the log exactly as they were |
| `GuardWorld.MoveConstructFrom` | include/defer/defer.hpp:68-71 | move construction from a live guard disengages that guard in place (it stays alive with its body) and appends the `Move` target; every other guard and the log stay as they were |
| `GuardWorld.DestructAt` | include/defer/defer.hpp:76-77 | destroying a live guard ends its lifetime, leaves its fields and every other guard as they were, and appends to the log exactly `Runs` of that guard: the closure it held if engaged, nothing otherwise |
| `GuardWorld.Step` | include/defer/defer.hpp:62-82 | a step fails exactly when it names a guard that does not exist or is destroyed, reporting which; otherwise every guard the step does not name stays exactly as it was, no body is replaced (there is no assignment), no destroyed guard is touched and the log only grows; a move disengages its source and leaves it alive; construction appends one live guard equal to `Create(closure)` and runs nothing; a move appends the `Move` target, which holds the source's body and is engaged, and runs nothing; destruction ends the guard and appends what it held |
| `GuardWorld.StepLater` | include/defer/defer.hpp:62-82 | a successful step replaces no guard's body, leaves every destroyed guard untouched and only appends to the log |
| `GuardWorld.HoldsIsRuns` | include/defer/defer.hpp:77 | a slot is counted as holding a closure exactly as often as its destructor would run it |
| `GuardWorld.NewBalanced` | include/defer/defer.hpp:73-74 | constructing a guard from a new closure keeps the exactly-once balance |
| `GuardWorld.MoveBalanced` | include/defer/defer.hpp:69-71 | moving from a live engaged guard keeps the balance: the set of pending runs is unchanged |
| `GuardWorld.DestructBalanced` | include/defer/defer.hpp:77 | destroying a live guard keeps the balance: what it held moves from pending to the log |
| `GuardWorld.StepBalanced` | include/defer/defer.hpp:62-82 | every disciplined step keeps the balance |
| `GuardWorld.RunBalanced` | include/defer/defer.hpp:62-82 | every disciplined program keeps the balance |
| `GuardWorld.RunLater` | include/defer/defer.hpp:79-81 | over any program, no guard's body is ever replaced, destroyed guards stay untouched and the log is only appended to |
| `GuardWorld.EmptyBalanced` | include/defer/defer.hpp:62-65 | a program with no guards is balanced |
| `GuardWorld.AtMostOnce` | include/defer/defer.hpp:63-77 | in a balanced program no closure has run twice and no two live engaged guards hold the same closure |
| `GuardWorld.ExactlyOnce` | include/defer/defer.hpp:76-77 | once every guard of a balanced program is destroyed, each closure given to a guard has run exactly once and nothing else has run |
| `GuardWorld.DestroyLiveRunsEachOnce` | include/defer/defer.hpp:76-77 | in any balanced program, including one where some guards are already destroyed, destroying the guards still alive, newest first, is never a misuse and leaves each closure ever given to a guard run exactly once and nothing else run |
| `GuardWorld.ProgramRunsEachOnce` | include/defer/defer.hpp:62-88 | any disciplined program started with no guards has run no closure twice, and destroying its remaining live guards, newest first, is never a misuse and then each closure given to a guard has run exactly once |
| `GuardWorld.ChainMoves` | include/defer/defer.hpp:69-71 | each move in a chain of moves from the newest guard is taken from the engaged holder and yields the next chain state |
| `GuardWorld.ChainHasOneHolder` | include/defer/defer.hpp:65-71 | in a chain of moves exactly one guard, the newest, is live and engaged |
| `GuardWorld.ChainRunsOnce` | include/defer/defer.hpp:65-87 | creating a guard and moving it `n` times keeps exactly one engaged guard at every step, and destroying all `n + 1` guards runs the body exactly once |
| `GuardWorld.DestructLiveEnds` | include/defer/defer.hpp:76-77 | destroying the guards still alive among the first `k`, newest first, never misuses a guard, ends all of the first `k` and leaves every later guard as it was |
| `GuardWorld.DestructLiveAll` | include/defer/defer.hpp:76-77 | when the first `k` guards are all alive, destroying the live ones newest first is destroying all `k` of them in reverse order |
| `GuardWorld.FactoryWithoutElision` | include/defer/defer.hpp:84-88 | `tag{} << closure` with the two moves C++11 allows leaves two destroyed temporaries, runs nothing, and ends with the same live engaged guard as direct construction |
| `GuardWorld.DoubleMoveRunsTwice` | include/defer/defer.hpp:65-71 | a second move from a guard is taken from a disengaged guard, yet its target is engaged, and destroying the three guards runs the body twice |
| `DeferTests.ExecutedAtBlockLeaving` | tests/defer_test.cpp:5-15 | the flag is false before and inside the block and true after it |
| `DeferTests.ExecutedAtReturn` | tests/defer_test.cpp:17-31 | the function returns 42, the flag is false before and inside the call, and it is true after the call |
| `DeferTests.ExecutedAtThrow` | tests/defer_test.cpp:33-47 | the function throws the int 42, the flag is false before and inside the call, and it is true after the call |

## Left out

- `DEFER_NAME`, `DEFER_CONCAT` and `DEFER_UNUSED` (include/defer/defer.hpp:42-54) only give each guard a unique variable name and silence warnings. They have no behaviour to model.
- A body that throws calls `std::terminate`, because the lambda and the destructor are `noexcept`. Process abort is not modelled: a body is a total action that only appends its identity to the log.
- The template and type details (`std::decay`, `std::forward`, `std::move`, capture by reference) are not modelled. A closure is an opaque identity, and what it does inside is caller code (it runs its own statements in order). The moved-from body is left as it was, since a disengaged guard never runs it.
- Several guards in one scope are destroyed in reverse declaration order. That is a rule of the C++ language, not of this code, and the tests do not check it. `GuardWorld.DestructAll` and `GuardWorld.DestructLive` destroy newest first as that rule says, but only the count of runs is proved, not their order. A two-guard scope is not modelled.
- The GoogleTest harness is not modelled; only the three scenarios it runs are kept.
- Copy construction, copy assignment and move assignment are deleted, so the model has no operation for them. What the model states instead is that no body is ever replaced (`GuardWorld.RunLater`).
- `DeferStatement.Defer` models the factory with copy elision. The non-elided C++11 form, with its moves, is proved equivalent on the value model (`GuardWorld.FactoryWithoutElision`), not on the class.
