# fn: State, Reader, Lens and Those in Dafny

This project models the Java library `com.github.bduisenov.fn`. The library is a small set of
pure functional-composition primitives:

- **State** (`StateMonad`, `state.dfy`): the indexed State monad. A `State<SA, SB, A>` wraps a
  function from an initial state `SA` to a pair of a final state `SB` and a result `A`. The file
  models the run/eval/exec family, `transform`, `withState`, `map`, `bimap`, `flatMap`,
  `ap`, the 2-, 3- and 4-way `product`, the constructors `get`, `put`, `gets`, `modify`,
  `pure` and `state`, and the lift family `liftA*` and `liftM*`.
  `state_examples.dfy` (`StateExamples`) holds the counter and the indexed pipeline that the
  library's tests exercise.
- **Reader** (`ReaderMonad`, `reader.dfy`): a function from a read-only environment. The file
  models `local`, `map`, `flatMap`, `product`, `reader`, `ask`, `asks`, `pure` and
  `liftM*`.
- **Lens** (`Lenses`, `lens.dfy`): a getter and a setter, with `mod`, `compose` and
  `andThen`. The three lens laws are predicates. The model proves that `mod` respects them and
  that composition preserves them.
- **Those** (`ThoseDisjunction`, `those.dfy`): the right-biased three-way disjunction
  `That(left)`, `This(right)` and `These(left, right)`. `Fold` is its eliminator, and every
  operation that takes a `Those` apart is written through it, as in the library.
  `FromOptions` follows the library's nested conditionals, and `FromEither` goes through the
  fold of `Either`.
- `control.dfy` (`Control`) gives small `Option` and `Either` types in place of the vavr
  types the library uses.

Every combinator is written the way the library builds it: through closure composition,
`transform`, `flatMap` and `fold`. Its contract then says what the new value does. Function
values are never compared for equality. Every law is stated pointwise, over `Run`, `RunReader`,
`Get` or `Set` at an arbitrary input.

Several State operations only make sense when the input and output state types agree: `pure`,
`ap`, `liftA2`, `liftA3`, `liftM2` and `liftM3`. The Java code forces these
with unchecked casts. The model gives them the type `State<S, S, _>` instead. `liftM` needs no
cast, so it stays indexed. `liftA` stays indexed too. It is `ap` against `pure(f)`, and `pure(f)`
hands the initial state on untouched, so `m` runs from it whatever the two state types are.
`LiftA` writes out `Ap`'s body with `Pure(f)` at its true type `State<SA, SA, _>`, and
`StateMonad.LiftAIsApPure` shows it is `Ap(m, Pure(f))` wherever that is typable. The unit value `()` stands for the `null` of type `Void` that
`put` and `modify` return.

The indexed example in `StateTest.java` (lines 26-28) calls `modify` with functions that change
the state's type. `modify` in `State.java` (lines 143-145) takes a function from `S` to `S`, so that
test does not match the code. The model follows the code: `Modify` keeps the state's type, and
`StateExamples.Composite` builds its type-changing steps with the `State` constructor, which is
public in the library.

The counter in `StateTest.java` (line 17) works on Java's `Integer`, so `StateExamples` models it
on the 32-bit newtype `Int32`, and `n + 1` wraps from 2147483647 to -2147483648 as Java's does.

Three comments in `Those.java` disagree with its code. The class comment (lines 20-21) gives the
variants for a left value, a right value and both as "This, That, and These", but the code uses
`That` for the left, `This` for the right and `These` for both. The `isLeft` comment (lines 67-69)
says it holds whenever a left value is present, but the code (line 70) returns `false` for
`These`. The `isRight` comment (lines 74-76) likewise says it holds whenever a right value is
present, but the code (line 78) returns `false` for `These`. The model follows the code in all
three places, and so do the assertions of `ThoseTest.java` (lines 39 and 45).

## Model

| member | source | states |
|---|---|---|
| StateMonad.State.Run | src/main/java/com/github/bduisenov/fn/State.java:63-65 | no contract of its own: it applies the wrapped transition; every other State member's contract is stated over it |
| StateMonad.State.Eval | src/main/java/com/github/bduisenov/fn/State.java:47-49 | the result is the second component of running from `s` |
| StateMonad.State.Exec | src/main/java/com/github/bduisenov/fn/State.java:58-60 | the final state is the first component of running from `s` |
| StateMonad.State.Transform | src/main/java/com/github/bduisenov/fn/State.java:73-75 | for every initial state, runs this computation and then applies `f` to its final state and result |
| StateMonad.State.WithState | src/main/java/com/github/bduisenov/fn/State.java:68-70 | for every initial state, the final state is `f` of this one's and the result is unchanged |
| StateMonad.State.Map | src/main/java/com/github/bduisenov/fn/State.java:78-80 | for every initial state, the final state is unchanged and the result is `f` of this one's |
| StateMonad.State.Bimap | src/main/java/com/github/bduisenov/fn/State.java:82-84 | for every initial state, the final state is `f` of this one's and the result is `g` of this one's |
| StateMonad.State.FlatMap | src/main/java/com/github/bduisenov/fn/State.java:87-89 | for every initial state, the continuation chosen by the first result runs from the first final state |
| StateMonad.State.Product | src/main/java/com/github/bduisenov/fn/State.java:100-106 | both computations start from the same initial state; the final state is this one's; the results are paired in argument order |
| StateMonad.State.Product3 | src/main/java/com/github/bduisenov/fn/State.java:108-115 | three computations from the same initial state; this one's final state; the results in argument order |
| StateMonad.State.Product4 | src/main/java/com/github/bduisenov/fn/State.java:117-125 | four computations from the same initial state; this one's final state; the results in argument order |
| StateMonad.Get | src/main/java/com/github/bduisenov/fn/State.java:127-130 | the state is left unchanged and is also the result |
| StateMonad.Put | src/main/java/com/github/bduisenov/fn/State.java:132-135 | the final state is `v`, whatever the initial state; the result is the unit value |
| StateMonad.Gets | src/main/java/com/github/bduisenov/fn/State.java:137-140 | the state is left unchanged and the result is `f` of it |
| StateMonad.Modify | src/main/java/com/github/bduisenov/fn/State.java:142-145 | the final state is `f` of the initial state; the result is the unit value |
| StateMonad.Pure | src/main/java/com/github/bduisenov/fn/State.java:147-150 | the state is left unchanged and the result is `a` |
| StateMonad.StateOf | src/main/java/com/github/bduisenov/fn/State.java:152-154 | running the wrapped computation is running the given transition |
| StateMonad.Ap | src/main/java/com/github/bduisenov/fn/State.java:92-97 | the function-producing computation runs first; this computation runs from its final state; the function is applied to this computation's result |
| StateMonad.LiftA | src/main/java/com/github/bduisenov/fn/State.java:157-159 | no contract of its own; its run is `StateMonad.LiftARun` |
| StateMonad.LiftA2 | src/main/java/com/github/bduisenov/fn/State.java:161-163 | no contract of its own; its run is `StateMonad.LiftA2Run` |
| StateMonad.LiftA3 | src/main/java/com/github/bduisenov/fn/State.java:165-168 | no contract of its own; its run is `StateMonad.LiftA3Run` |
| StateMonad.LiftM | src/main/java/com/github/bduisenov/fn/State.java:171-173 | no contract of its own; its run is `StateMonad.LiftMRun` |
| StateMonad.LiftM2 | src/main/java/com/github/bduisenov/fn/State.java:175-178 | no contract of its own; its run is `StateMonad.LiftM2Run` |
| StateMonad.LiftM3 | src/main/java/com/github/bduisenov/fn/State.java:180-184 | no contract of its own; its run is `StateMonad.LiftM3Run` |
| StateMonad.LiftARun | src/main/java/com/github/bduisenov/fn/State.java:157-159 | `liftA(f)(m)` keeps `m`'s transition and applies `f` to its result, for any pair of state types |
| StateMonad.LiftAIsApPure | src/main/java/com/github/bduisenov/fn/State.java:157-159 | where the two state types agree, `LiftA(f)(m)` runs as `Ap(m, Pure(f))`, the library's definition |
| StateMonad.LiftA2Run | src/main/java/com/github/bduisenov/fn/State.java:161-163 | `liftA2(f)(a)(b)` runs `a`, then `b` from `a`'s final state, and yields `f` of both results |
| StateMonad.LiftA3Run | src/main/java/com/github/bduisenov/fn/State.java:165-168 | `liftA3` runs its three computations left to right, each from the previous final state |
| StateMonad.LiftMRun | src/main/java/com/github/bduisenov/fn/State.java:171-173 | `liftM(f)(m)` keeps `m`'s transition and applies `f` to its result, for any pair of state types |
| StateMonad.LiftM2Run | src/main/java/com/github/bduisenov/fn/State.java:175-178 | `liftM2(f)(m1)(m2)` runs `m1`, then `m2` from `m1`'s final state, and yields `f(x1)(x2)` |
| StateMonad.LiftM3Run | src/main/java/com/github/bduisenov/fn/State.java:180-184 | `liftM3` runs its three computations left to right and yields `f(x1)(x2)(x3)` |
| StateMonad.LiftAAgreesWithLiftM | src/main/java/com/github/bduisenov/fn/State.java:157-173 | unary applicative lifting, monadic lifting and `map` give the same run, for any pair of state types |
| StateMonad.LiftA2AgreesWithLiftM2 | src/main/java/com/github/bduisenov/fn/State.java:161-178 | binary applicative and monadic lifting give the same run |
| StateMonad.LiftA3AgreesWithLiftM3 | src/main/java/com/github/bduisenov/fn/State.java:165-184 | ternary applicative and monadic lifting give the same run |
| StateMonad.MapIdentity | src/main/java/com/github/bduisenov/fn/State.java:78-80 | functor identity: mapping the identity gives the same run |
| StateMonad.MapComposition | src/main/java/com/github/bduisenov/fn/State.java:78-80 | functor composition: two maps give the same run as one map by the composed function |
| StateMonad.WithStateKeepsEval | src/test/java/com/github/bduisenov/fn/StateTest.java:38-42 | `withState(f)` never changes the result, and `withState` by the identity changes nothing |
| StateMonad.BimapIsMapAndWithState | src/main/java/com/github/bduisenov/fn/State.java:68-84 | `bimap(f, g)` is `map(g)` and `withState(f)`, in either order |
| StateMonad.FlatMapLeftIdentity | src/main/java/com/github/bduisenov/fn/State.java:87-89 | monad left identity: `pure(a).flatMap(k)` runs as `k(a)` |
| StateMonad.FlatMapRightIdentity | src/main/java/com/github/bduisenov/fn/State.java:147-150 | monad right identity: `m.flatMap(pure)` runs as `m` |
| StateMonad.FlatMapAssociativity | src/main/java/com/github/bduisenov/fn/State.java:87-89 | monad associativity across four possibly different state types |
| StateMonad.MapIsFlatMapPure | src/main/java/com/github/bduisenov/fn/State.java:78-89 | `map(f)` runs as `flatMap` followed by `pure(f(a))` |
| StateMonad.ProductProjections | src/main/java/com/github/bduisenov/fn/State.java:100-106 | `product` is not sequencing: its projections give each component as if run alone from the same initial state |
| StateMonad.GetsIsGetMap | src/main/java/com/github/bduisenov/fn/State.java:127-140 | `gets(f)` runs as `get()` mapped by `f` |
| StateMonad.ModifyIsGetThenPut | src/test/java/com/github/bduisenov/fn/StateTest.java:44-52 | `modify(f)` runs as `get().flatMap(x -> put(f(x)))` |
| StateMonad.ModifyConstantIsPut | src/test/java/com/github/bduisenov/fn/StateTest.java:54-62 | `modify(_ -> v)` runs as `put(v)` |
| StateMonad.ModifyIdentity | src/main/java/com/github/bduisenov/fn/State.java:142-145 | `modify` by the identity leaves the state as it was |
| StateMonad.PutThenGet | src/main/java/com/github/bduisenov/fn/State.java:127-135 | `put(v)` followed by `get()` yields `v` and ends in `v`, whatever the initial state |
| StateExamples.HeadOption | src/test/java/com/github/bduisenov/fn/StateTest.java:26 | the head of a list is present exactly when the list is non-empty, and is its first element |
| StateExamples.Increment | src/test/java/com/github/bduisenov/fn/StateTest.java:17 | Java's `n + 1` on an `int`: congruent to `n + 1` modulo 2^32 and within 32 bits, and exactly `n + 1` below 2147483647 |
| StateExamples.Add1 | src/test/java/com/github/bduisenov/fn/StateTest.java:17 | no contract of its own; its run is `StateExamples.Add1Run` |
| StateExamples.Add1Run | src/test/java/com/github/bduisenov/fn/StateTest.java:17-22 | the counter yields its initial value and ends one higher, wrapping from 2147483647 to -2147483648; from 1 it gives `(2, 1)` |
| StateExamples.Add1WithState | src/test/java/com/github/bduisenov/fn/StateTest.java:38-42 | rewriting the counter's final state by the identity or by `x + 1` leaves its result unchanged |
| StateExamples.NatToString | src/test/java/com/github/bduisenov/fn/StateTest.java:28 | the decimal text of a natural number is non-empty, all digits, and has no leading zero: it starts with `0` only when it is exactly `"0"`, the text of 0 |
| StateExamples.IntToString | src/test/java/com/github/bduisenov/fn/StateTest.java:28 | `Integer.toString` starts with a minus sign exactly for negative numbers, every other character is a digit, and the magnitude has at least one digit and no leading zero: it starts with `0` only when it is exactly `0`, so 0 renders as `"0"` |
| StateExamples.NatToStringRoundTrip | src/test/java/com/github/bduisenov/fn/StateTest.java:28 | the digits of `n` read back as `n` |
| StateExamples.IntToStringRoundTrip | src/test/java/com/github/bduisenov/fn/StateTest.java:28 | reading the text of `n` back gives `n`, so distinct integers render differently |
| StateExamples.Composite | src/test/java/com/github/bduisenov/fn/StateTest.java:26-32 | no contract of its own; its run is `StateExamples.CompositeRun` |
| StateExamples.CompositeRun | src/test/java/com/github/bduisenov/fn/StateTest.java:24-36 | the indexed pipeline ends in, and yields, the text of the list's head, or of 0 for an empty list: `("1", "1")` for `[1, 2, 3]` and `("0", "0")` for `[]` |
| ReaderMonad.Reader.RunReader | src/main/java/com/github/bduisenov/fn/Reader.java:29-31 | no contract of its own: it applies the wrapped function; every other Reader member's contract is stated over it |
| ReaderMonad.Reader.Local | src/main/java/com/github/bduisenov/fn/Reader.java:33-36 | for every environment, runs this computation against `f` of it |
| ReaderMonad.Reader.Map | src/main/java/com/github/bduisenov/fn/Reader.java:38-42 | for every environment, the result is `f` of this one's |
| ReaderMonad.Reader.FlatMap | src/main/java/com/github/bduisenov/fn/Reader.java:44-48 | for every environment, the continuation chosen by the first result reads the same environment |
| ReaderMonad.Reader.Product | src/main/java/com/github/bduisenov/fn/Reader.java:50-53 | both computations read the same environment; the results are paired in argument order |
| ReaderMonad.Reader.Product3 | src/main/java/com/github/bduisenov/fn/Reader.java:55-57 | three computations on the same environment; the results in argument order |
| ReaderMonad.Reader.Product4 | src/main/java/com/github/bduisenov/fn/Reader.java:59-61 | four computations on the same environment; the results in argument order |
| ReaderMonad.ReaderOf | src/main/java/com/github/bduisenov/fn/Reader.java:67-71 | running the wrapped function is applying it to the environment |
| ReaderMonad.Ask | src/main/java/com/github/bduisenov/fn/Reader.java:73-76 | the result is the environment itself |
| ReaderMonad.Asks | src/main/java/com/github/bduisenov/fn/Reader.java:78-81 | the result is `f` of the environment |
| ReaderMonad.Pure | src/main/java/com/github/bduisenov/fn/Reader.java:83-86 | the result is `a`, whatever the environment |
| ReaderMonad.AskLocal | src/main/java/com/github/bduisenov/fn/Reader.java:33-36 | `ask().local(f)` yields `f(e)` |
| ReaderMonad.AsksIsAskMap | src/main/java/com/github/bduisenov/fn/Reader.java:73-81 | `asks(f)` and `ask().map(f)` both yield `f(e)` |
| ReaderMonad.MapIdentity | src/main/java/com/github/bduisenov/fn/Reader.java:38-42 | functor identity |
| ReaderMonad.MapComposition | src/main/java/com/github/bduisenov/fn/Reader.java:38-42 | functor composition |
| ReaderMonad.FlatMapLeftIdentity | src/main/java/com/github/bduisenov/fn/Reader.java:44-48 | monad left identity with `pure` |
| ReaderMonad.FlatMapRightIdentity | src/main/java/com/github/bduisenov/fn/Reader.java:83-86 | monad right identity with `pure` |
| ReaderMonad.FlatMapAssociativity | src/main/java/com/github/bduisenov/fn/Reader.java:44-48 | monad associativity |
| ReaderMonad.LiftM | src/main/java/com/github/bduisenov/fn/Reader.java:88-91 | no contract of its own; its run is `ReaderMonad.LiftMRun` |
| ReaderMonad.LiftM2 | src/main/java/com/github/bduisenov/fn/Reader.java:93-95 | no contract of its own; its run is `ReaderMonad.LiftM2Run` |
| ReaderMonad.LiftM3 | src/main/java/com/github/bduisenov/fn/Reader.java:97-100 | no contract of its own; its run is `ReaderMonad.LiftM3Run` |
| ReaderMonad.LiftMRun | src/main/java/com/github/bduisenov/fn/Reader.java:88-91 | `liftM(f)(m)` yields `f` of `m`'s result |
| ReaderMonad.LiftM2Run | src/main/java/com/github/bduisenov/fn/Reader.java:93-95 | `liftM2(f)(m1)(m2)` yields `f(m1(e))(m2(e))` on the same environment |
| ReaderMonad.LiftM3Run | src/main/java/com/github/bduisenov/fn/Reader.java:97-100 | `liftM3` yields `f` of the three results, all on the same environment |
| Lenses.Lens.Get | src/main/java/com/github/bduisenov/fn/Lens.java:24-32 | no contract of its own: it applies the getter; `Mod`, `Compose`, `AndThen` and the law predicates are stated over it |
| Lenses.Lens.Set | src/main/java/com/github/bduisenov/fn/Lens.java:34-43 | no contract of its own: it applies the setter; `Mod`, `Compose`, `AndThen` and the law predicates are stated over it |
| Lenses.Lens.Mod | src/main/java/com/github/bduisenov/fn/Lens.java:45-55 | with set-get, the new view is `f` of the old one; with get-set, a modifier that leaves the current view as it is leaves the source as it was |
| Lenses.GetSet | src/main/java/com/github/bduisenov/fn/Lens.java:45-47 | a law, not a contract: writing back the view just read changes nothing, which is what makes `mod` by the identity do nothing |
| Lenses.SetGet | src/main/java/com/github/bduisenov/fn/Lens.java:34-43 | a law, not a contract: reading after a write gives the written view |
| Lenses.SetSet | src/main/java/com/github/bduisenov/fn/Lens.java:34-43 | a law, not a contract: a second write overwrites the first |
| Lenses.LawfulLens | src/main/java/com/github/bduisenov/fn/Lens.java:6-8 | a law, not a contract: all three laws together, the sense in which a lens focuses on one part of its source |
| Lenses.Lens.Compose | src/main/java/com/github/bduisenov/fn/Lens.java:57-61 | the composed getter reads this lens through `that`; the composed setter writes, through `that`, this lens's update of `that`'s view |
| Lenses.Lens.AndThen | src/main/java/com/github/bduisenov/fn/Lens.java:63-76 | the getter reads `that` from this lens's view; the setter writes back this lens's view updated by `that` |
| Lenses.ModIdentity | src/main/java/com/github/bduisenov/fn/Lens.java:45-55 | for a lens with get-set, `mod(a, identity)` is `a` |
| Lenses.ModComposition | src/main/java/com/github/bduisenov/fn/Lens.java:53-55 | with set-get and set-set, two modifications are one by the composed function |
| Lenses.ComposePreservesGetSet | src/main/java/com/github/bduisenov/fn/Lens.java:57-61 | composition keeps get-set |
| Lenses.ComposePreservesSetGet | src/main/java/com/github/bduisenov/fn/Lens.java:57-61 | composition keeps set-get |
| Lenses.ComposePreservesSetSet | src/main/java/com/github/bduisenov/fn/Lens.java:57-61 | composition keeps set-set, given set-get of the outer lens |
| Lenses.ComposePreservesLaws | src/main/java/com/github/bduisenov/fn/Lens.java:57-76 | composing two lawful lenses, by `compose` or by `andThen`, gives a lawful lens |
| Lenses.AndThenIsFlippedCompose | src/main/java/com/github/bduisenov/fn/Lens.java:74-76 | `l1.andThen(l2)` gets and sets like `l2.compose(l1)` |
| Lenses.AndThenAssociative | src/main/java/com/github/bduisenov/fn/Lens.java:57-76 | `(l1 andThen l2) andThen l3` and `l1 andThen (l2 andThen l3)` agree on get and on set |
| ThoseDisjunction.Those.Fold | src/main/java/com/github/bduisenov/fn/Those.java:48-65 | each variant goes to its own mapper with its payload |
| ThoseDisjunction.Those.IsLeft | src/main/java/com/github/bduisenov/fn/Those.java:67-72 | holds exactly for `That` |
| ThoseDisjunction.Those.IsRight | src/main/java/com/github/bduisenov/fn/Those.java:74-79 | holds exactly for `This` |
| ThoseDisjunction.Those.IsBoth | src/main/java/com/github/bduisenov/fn/Those.java:81-86 | holds exactly for `These` |
| ThoseDisjunction.Those.Left | src/main/java/com/github/bduisenov/fn/Those.java:88-90 | defined exactly for `That` and `These`, and then holds the left payload |
| ThoseDisjunction.Those.Right | src/main/java/com/github/bduisenov/fn/Those.java:92-94 | defined exactly for `This` and `These`, and then holds the right payload |
| ThoseDisjunction.Those.OnlyLeft | src/main/java/com/github/bduisenov/fn/Those.java:96-98 | defined exactly for `That` |
| ThoseDisjunction.Those.OnlyRight | src/main/java/com/github/bduisenov/fn/Those.java:100-102 | defined exactly for `This` |
| ThoseDisjunction.Those.OnlyLeftOrRight | src/main/java/com/github/bduisenov/fn/Those.java:104-106 | empty exactly for `These`; a lone payload becomes `Left` or `Right` |
| ThoseDisjunction.Those.OnlyBoth | src/main/java/com/github/bduisenov/fn/Those.java:108-110 | defined exactly for `These`, and then holds both payloads as a pair |
| ThoseDisjunction.Those.ToEither | src/main/java/com/github/bduisenov/fn/Those.java:112-114 | `Left` exactly for `That`; otherwise `Right` of the right payload (right bias) |
| ThoseDisjunction.Those.ToOption | src/main/java/com/github/bduisenov/fn/Those.java:116-118 | defined exactly when a right payload is present |
| ThoseDisjunction.Those.GetOrElse | src/main/java/com/github/bduisenov/fn/Those.java:120-122 | the right payload when present, otherwise the default |
| ThoseDisjunction.Those.Bimap | src/main/java/com/github/bduisenov/fn/Those.java:124-129 | keeps the variant and maps each payload by its own function |
| ThoseDisjunction.Those.Map | src/main/java/com/github/bduisenov/fn/Those.java:131-133 | keeps the variant and the left payload and maps the right payload |
| ThoseDisjunction.Those.MapLeft | src/main/java/com/github/bduisenov/fn/Those.java:135-137 | keeps the variant and the right payload and maps the left payload |
| ThoseDisjunction.FromOptions | src/main/java/com/github/bduisenov/fn/Those.java:139-153 | empty exactly when both inputs are empty; otherwise its `left()` and `right()` are the inputs |
| ThoseDisjunction.FromEither | src/main/java/com/github/bduisenov/fn/Those.java:155-157 | `Left` becomes `That` and `Right` becomes `This`; never `These` |
| ThoseDisjunction.ExactlyOneTag | src/main/java/com/github/bduisenov/fn/Those.java:67-86 | exactly one of `isLeft`, `isRight` and `isBoth` holds |
| ThoseDisjunction.ProjectionsDefined | src/test/java/com/github/bduisenov/fn/ThoseTest.java:36-46 | `left()` is defined iff `isLeft()` or `isBoth()`, and `right()` iff `isRight()` or `isBoth()` |
| ThoseDisjunction.OptionsRoundTrip | src/test/java/com/github/bduisenov/fn/ThoseTest.java:78-83 | `fromOptions(t.left(), t.right()) == Some(t)` |
| ThoseDisjunction.FromOptionsProjections | src/test/java/com/github/bduisenov/fn/ThoseTest.java:69-76 | projecting what `fromOptions` built gives back both inputs |
| ThoseDisjunction.OnlyLeftOrRightFromParts | src/test/java/com/github/bduisenov/fn/ThoseTest.java:48-55 | `onlyLeftOrRight()` is `onlyLeft().map(Left)` or else `onlyRight().map(Right)` |
| ThoseDisjunction.OnlyBothFromProjections | src/test/java/com/github/bduisenov/fn/ThoseTest.java:57-61 | `onlyBoth()` is the pair of `left()` and `right()` when both are defined |
| ThoseDisjunction.RightBias | src/test/java/com/github/bduisenov/fn/ThoseTest.java:63-97 | `toEither().toOption() == right()`, `isLeft() == toOption().isEmpty()`, and `getOrElse(d) == toOption().getOrElse(d)` |
| ThoseDisjunction.MapIdentity | src/main/java/com/github/bduisenov/fn/Those.java:131-137 | `map` and `mapLeft` by the identity change nothing |
| ThoseDisjunction.BimapSplits | src/main/java/com/github/bduisenov/fn/Those.java:124-137 | `bimap(f, g)` is `map(g)` followed by `mapLeft(f)` |
| ThoseDisjunction.FromEitherRoundTrip | src/main/java/com/github/bduisenov/fn/Those.java:155-157 | `fromEither` never gives `These`, and `toEither` undoes it |

## Left out

- The vavr types `Function1`, `Function2`, `Tuple2`, `Tuple3`, `Tuple4`, `Option`, `Either` and `API.For`: Dafny arrow and tuple types stand in for them, with the small `Option` and `Either` of `Control`. vavr's own implementations are not modelled.
- `equals`, `hashCode` and `toString` of the three `Those` variants: Dafny's structural equality of datatype values already tells the variants apart, and hashing and rendering carry no property.
- The `UnsupportedOperationException` at the end of `fold`: with a closed datatype the missing case cannot occur.
- The unchecked casts in `pure`, `ap`, `liftM2` and `liftM3`: these operations, and `liftA2` and `liftA3`, which are built on `ap`, are modelled only where input and output state types agree. `liftA` needs no such restriction and stays indexed.
- The `StateT` subclass and the static `Reader.runReader` adapter: they only rename a type or a method, and `State` and `RunReader` cover them.
- Equality of computations: the wrapped functions are never compared, and every law holds pointwise at an arbitrary input.
- State and environment types are values without references (`(!new)`): Dafny needs this to quantify over them in contracts, and the library treats them as immutable values anyway.
- `Object::toString` on `Integer`, which the indexed test pipeline uses, is modelled as `StateExamples.IntToString`. It renders every integer, where Java renders only 32-bit values; the pipeline's state is a Dafny `int` rather than `Int32`, and the test renders only 0 and 1, where the two agree.
- Exceptions thrown by caller-supplied functions: the model's functions are total, so no failure can pass through a combinator.
- The test files: JUnit and AssertJ are not modelled. The properties their tests check are lemmas here.
