/**
 * The indexed State monad: a computation that starts from a state of type SA,
 * ends in a state of type SB and yields a result of type A. Every combinator
 * is written the way the library builds it (closure composition through
 * `Transform` and `FlatMap`); its contract states, for every initial state,
 * what running the new computation returns. Functions are never compared for
 * equality: every law is stated pointwise over `Run`.
 */
module StateMonad {

  datatype State<-SA(!new), SB(!new), A> = State(runState: SA -> (SB, A)) {

    /** Runs the computation from `initial`, giving the final state and the result. */
    function Run(initial: SA): (SB, A) {
      runState(initial)
    }

    /** The final result only. */
    function Eval(s: SA): (r: A)
      ensures r == Run(s).1
    {
      Run(s).1
    }

    /** The final state only. */
    function Exec(s: SA): (r: SB)
      ensures r == Run(s).0
    {
      Run(s).0
    }

    /** Post-processes the final state and the result together. */
    function Transform<SC(!new), B>(f: (SB, A) -> (SC, B)): (r: State<SA, SC, B>)
      ensures forall s :: r.Run(s) == f(Run(s).0, Run(s).1)
    {
      State(s => var p := runState(s); f(p.0, p.1))
    }

    /** Post-processes the final state only; the result is untouched. */
    function WithState<SC(!new)>(f: SB -> SC): (r: State<SA, SC, A>)
      ensures forall s :: r.Run(s) == (f(Exec(s)), Eval(s))
    {
      Transform((s, a) => (f(s), a))
    }

    /** Functor map: transforms the result; the state transition is untouched. */
    function Map<B>(f: A -> B): (r: State<SA, SB, B>)
      ensures forall s :: r.Run(s) == (Exec(s), f(Eval(s)))
    {
      Transform((s, a) => (s, f(a)))
    }

    /** Maps the final state and the result independently. */
    function Bimap<SC(!new), B>(f: SB -> SC, g: A -> B): (r: State<SA, SC, B>)
      ensures forall s :: r.Run(s) == (f(Exec(s)), g(Eval(s)))
    {
      Transform((s, a) => (f(s), g(a)))
    }

    /** Sequencing: the final state of this computation is the initial state of the next. */
    function FlatMap<SC(!new), B>(fas: A -> State<SB, SC, B>): (r: State<SA, SC, B>)
      ensures forall s :: r.Run(s) == fas(Eval(s)).Run(Exec(s))
    {
      State(s => var sba := runState(s); fas(sba.1).Run(sba.0))
    }

    /**
     * Runs this computation and `sasbb` from the SAME initial state; the final
     * state is this computation's, and the results are paired in argument order.
     */
    function Product<B>(sasbb: State<SA, SB, B>): (r: State<SA, SB, (A, B)>)
      ensures forall s :: r.Run(s) == (Exec(s), (Eval(s), sasbb.Eval(s)))
    {
      State(s =>
        var sbb := sasbb.runState(s);
        var sba := runState(s);
        (sba.0, (sba.1, sbb.1)))
    }

    /** Three-way `Product`: every component from the same initial state, this one's final state. */
    function Product3<B, C>(sasbb: State<SA, SB, B>, sasbc: State<SA, SB, C>): (r: State<SA, SB, (A, B, C)>)
      ensures forall s :: r.Run(s) == (Exec(s), (Eval(s), sasbb.Eval(s), sasbc.Eval(s)))
    {
      State(s =>
        var sbc := sasbc.runState(s);
        var sbb := sasbb.runState(s);
        var sba := runState(s);
        (sba.0, (sba.1, sbb.1, sbc.1)))
    }

    /** Four-way `Product`: every component from the same initial state, this one's final state. */
    function Product4<B, C, D>(sasbb: State<SA, SB, B>, sasbc: State<SA, SB, C>, sasbd: State<SA, SB, D>)
      : (r: State<SA, SB, (A, B, C, D)>)
      ensures forall s :: r.Run(s) == (Exec(s), (Eval(s), sasbb.Eval(s), sasbc.Eval(s), sasbd.Eval(s)))
    {
      State(s =>
        var sbd := sasbd.runState(s);
        var sbc := sasbc.runState(s);
        var sbb := sasbb.runState(s);
        var sba := runState(s);
        (sba.0, (sba.1, sbb.1, sbc.1, sbd.1)))
    }
  }

  /** Projects a view of the state as the result; the state is unchanged. */
  function Gets<S(!new), T>(f: S -> T): (r: State<S, S, T>)
    ensures forall s :: r.Run(s) == (s, f(s))
  {
    State(s => (s, f(s)))
  }

  /** Returns the current state as the result, leaving it unchanged. */
  function Get<S(!new)>(): (r: State<S, S, S>)
    ensures forall s :: r.Run(s) == (s, s)
  {
    Gets(x => x)
  }

  /** Replaces the state by `v`, whatever it was; the result is the unit value. */
  function Put<S(!new)>(v: S): (r: State<S, S, ()>)
    ensures forall s :: r.Run(s) == (v, ())
  {
    State(_ => (v, ()))
  }

  /** Replaces the state by `f` of it; the result is the unit value. */
  function Modify<S(!new)>(f: S -> S): (r: State<S, S, ()>)
    ensures forall s :: r.Run(s) == (f(s), ())
  {
    State(s => (f(s), ()))
  }

  /** A computation that leaves the state unchanged and yields `a`. */
  function Pure<S(!new), A>(a: A): (r: State<S, S, A>)
    ensures forall s :: r.Run(s) == (s, a)
  {
    State(s => (s, a))
  }

  /** Wraps an arbitrary state transition. */
  function StateOf<S(!new), A>(runState: S -> (S, A)): (r: State<S, S, A>)
    ensures forall s :: r.Run(s) == runState(s)
  {
    State(runState)
  }

  /**
   * Applicative application: `sf` runs first and yields a function; `m` runs
   * from the state `sf` left behind, and the function is applied to its result.
   */
  function Ap<S(!new), A, B>(m: State<S, S, A>, sf: State<S, S, A -> B>): (r: State<S, S, B>)
    ensures forall s :: r.Run(s) == (m.Exec(sf.Exec(s)), sf.Eval(s)(m.Eval(sf.Exec(s))))
  {
    sf.FlatMap((fab: A -> B) => m.FlatMap((a: A) => Pure(fab(a))))
  }

  /**
   * Lifts a unary function over a computation: `Ap` against `Pure(f)`,
   * written out so that it works for any pair of state types. `Pure(f)`
   * leaves the initial state as it is, so `m` then runs from it.
   */
  function LiftA<SA(!new), SB(!new), A, B>(f: A -> B): State<SA, SB, A> -> State<SA, SB, B> {
    (m: State<SA, SB, A>) => Pure(f).FlatMap((fab: A -> B) => m.FlatMap((a: A) => Pure(fab(a))))
  }

  /** Lifts a curried binary function through `Ap`. */
  function LiftA2<S(!new), A, B, C>(f: A -> B -> C): State<S, S, A> -> State<S, S, B> -> State<S, S, C> {
    (a: State<S, S, A>) => (b: State<S, S, B>) => Ap(b, a.Map(f))
  }

  /** Lifts a curried ternary function through `Ap`. */
  function LiftA3<S(!new), A, B, C, D>(f: A -> B -> C -> D)
    : State<S, S, A> -> State<S, S, B> -> State<S, S, C> -> State<S, S, D>
  {
    (a: State<S, S, A>) => (b: State<S, S, B>) => (c: State<S, S, C>) => Ap(c, Ap(b, a.Map(f)))
  }

  /** Monadic lifting of a unary function; it works for any pair of state types. */
  function LiftM<SA(!new), SB(!new), A, B>(f: A -> B): State<SA, SB, A> -> State<SA, SB, B> {
    (m1: State<SA, SB, A>) => m1.FlatMap((x1: A) => Pure(f(x1)))
  }

  /** Monadic lifting of a curried binary function: `m1`, then `m2`. */
  function LiftM2<S(!new), A, B, C>(f: A -> B -> C): State<S, S, A> -> State<S, S, B> -> State<S, S, C> {
    (m1: State<S, S, A>) => (m2: State<S, S, B>) =>
      m1.FlatMap((x1: A) => m2.FlatMap((x2: B) => Pure(f(x1)(x2))))
  }

  /** Monadic lifting of a curried ternary function: `m1`, `m2`, `m3` in turn. */
  function LiftM3<S(!new), A, B, C, D>(f: A -> B -> C -> D)
    : State<S, S, A> -> State<S, S, B> -> State<S, S, C> -> State<S, S, D>
  {
    (m1: State<S, S, A>) => (m2: State<S, S, B>) => (m3: State<S, S, C>) =>
      m1.FlatMap((x1: A) => m2.FlatMap((x2: B) => m3.FlatMap((x3: C) => Pure(f(x1)(x2)(x3)))))
  }
  // ---------------------------------------------------------------------
  // What running a lifted computation does
  // ---------------------------------------------------------------------

  /** `LiftA(f)(m)` keeps `m`'s state transition and applies `f` to its result. */
  lemma LiftARun<SA(!new), SB(!new), A, B>(f: A -> B, m: State<SA, SB, A>, s: SA)
    ensures LiftA(f)(m).Run(s) == (m.Exec(s), f(m.Eval(s)))
  {
  }

  /** Where both state types coincide, `LiftA(f)` is `Ap` against `Pure(f)`. */
  lemma LiftAIsApPure<S(!new), A, B>(f: A -> B, m: State<S, S, A>, s: S)
    ensures LiftA(f)(m).Run(s) == Ap(m, Pure(f)).Run(s)
  {
  }

  /** `LiftA2(f)(a)(b)` runs `a`, then `b` from `a`'s final state. */
  lemma LiftA2Run<S(!new), A, B, C>(f: A -> B -> C, a: State<S, S, A>, b: State<S, S, B>, s: S)
    ensures LiftA2(f)(a)(b).Run(s) == (b.Exec(a.Exec(s)), f(a.Eval(s))(b.Eval(a.Exec(s))))
  {
  }

  /** `LiftA3(f)(a)(b)(c)` runs `a`, `b`, `c` left to right, each from the previous final state. */
  lemma LiftA3Run<S(!new), A, B, C, D>(f: A -> B -> C -> D, a: State<S, S, A>, b: State<S, S, B>,
                                       c: State<S, S, C>, s: S)
    ensures LiftA3(f)(a)(b)(c).Run(s)
         == (c.Exec(b.Exec(a.Exec(s))), f(a.Eval(s))(b.Eval(a.Exec(s)))(c.Eval(b.Exec(a.Exec(s)))))
  {
  }

  /** `LiftM(f)(m)` keeps `m`'s state transition and applies `f` to its result. */
  lemma LiftMRun<SA(!new), SB(!new), A, B>(f: A -> B, m: State<SA, SB, A>, s: SA)
    ensures LiftM(f)(m).Run(s) == (m.Exec(s), f(m.Eval(s)))
  {
  }

  /** `LiftM2(f)(m1)(m2)` runs `m1`, then `m2` from `m1`'s final state, and yields `f(x1)(x2)`. */
  lemma LiftM2Run<S(!new), A, B, C>(f: A -> B -> C, m1: State<S, S, A>, m2: State<S, S, B>, s: S)
    ensures LiftM2(f)(m1)(m2).Run(s) == (m2.Exec(m1.Exec(s)), f(m1.Eval(s))(m2.Eval(m1.Exec(s))))
  {
  }

  /** `LiftM3(f)(m1)(m2)(m3)` runs the three computations left to right. */
  lemma LiftM3Run<S(!new), A, B, C, D>(f: A -> B -> C -> D, m1: State<S, S, A>, m2: State<S, S, B>,
                                       m3: State<S, S, C>, s: S)
    ensures LiftM3(f)(m1)(m2)(m3).Run(s)
         == (m3.Exec(m2.Exec(m1.Exec(s))),
             f(m1.Eval(s))(m2.Eval(m1.Exec(s)))(m3.Eval(m2.Exec(m1.Exec(s)))))
  {
    LiftM3Unfold(f, m1, m2, m3, s);
    LiftM3AfterFirst(f, m1.Eval(s), m2, m3, m1.Exec(s));
  }

  /** Applying the curried `LiftM3` to its three computations gives the nested `FlatMap`. */
  lemma LiftM3Unfold<S(!new), A, B, C, D>(f: A -> B -> C -> D, m1: State<S, S, A>, m2: State<S, S, B>,
                                          m3: State<S, S, C>, s: S)
    ensures LiftM3(f)(m1)(m2)(m3).Run(s)
         == m2.FlatMap((x2: B) => m3.FlatMap((x3: C) => Pure(f(m1.Eval(s))(x2)(x3)))).Run(m1.Exec(s))
  {
  }

  /** The last two steps of `LiftM3`, once the first result `x1` is known. */
  lemma LiftM3AfterFirst<S(!new), A, B, C, D>(f: A -> B -> C -> D, x1: A, m2: State<S, S, B>,
                                              m3: State<S, S, C>, s1: S)
    ensures m2.FlatMap((x2: B) => m3.FlatMap((x3: C) => Pure(f(x1)(x2)(x3)))).Run(s1)
         == (m3.Exec(m2.Exec(s1)), f(x1)(m2.Eval(s1))(m3.Eval(m2.Exec(s1))))
  {
  }

  /** Unary applicative and monadic lifting both coincide with `Map`. */
  lemma LiftAAgreesWithLiftM<SA(!new), SB(!new), A, B>(f: A -> B, a: State<SA, SB, A>, s: SA)
    ensures LiftA(f)(a).Run(s) == LiftM(f)(a).Run(s) == a.Map(f).Run(s)
  {
    LiftARun(f, a, s);
    LiftMRun(f, a, s);
  }

  /** Binary applicative and monadic lifting sequence the same way and agree. */
  lemma LiftA2AgreesWithLiftM2<S(!new), A, B, C>(f: A -> B -> C, a: State<S, S, A>, b: State<S, S, B>, s: S)
    ensures LiftA2(f)(a)(b).Run(s) == LiftM2(f)(a)(b).Run(s)
  {
    LiftA2Run(f, a, b, s);
    LiftM2Run(f, a, b, s);
  }

  /** Ternary applicative and monadic lifting sequence the same way and agree. */
  lemma LiftA3AgreesWithLiftM3<S(!new), A, B, C, D>(f: A -> B -> C -> D, a: State<S, S, A>, b: State<S, S, B>,
                                                    c: State<S, S, C>, s: S)
    ensures LiftA3(f)(a)(b)(c).Run(s) == LiftM3(f)(a)(b)(c).Run(s)
  {
    LiftA3Run(f, a, b, c, s);
    LiftM3Run(f, a, b, c, s);
  }

  // ---------------------------------------------------------------------
  // Functor laws
  // ---------------------------------------------------------------------

  /** Mapping the identity changes nothing. */
  lemma MapIdentity<SA(!new), SB(!new), A>(m: State<SA, SB, A>, s: SA)
    ensures m.Map(x => x).Run(s) == m.Run(s)
  {
  }

  /** Two maps are one map by the composed function. */
  lemma MapComposition<SA(!new), SB(!new), A, B, C>(m: State<SA, SB, A>, f: A -> B, g: B -> C, s: SA)
    ensures m.Map(f).Map(g).Run(s) == m.Map(x => g(f(x))).Run(s)
  {
  }

  /** `WithState` never changes the result, whatever it does to the state. */
  lemma WithStateKeepsEval<SA(!new), SB(!new), SC(!new), A>(m: State<SA, SB, A>, f: SB -> SC, s: SA)
    ensures m.WithState(f).Eval(s) == m.Eval(s)
    ensures m.WithState(x => x).Run(s) == m.Run(s)
  {
  }

  /** `Bimap` is `Map` and `WithState` together, in either order. */
  lemma BimapIsMapAndWithState<SA(!new), SB(!new), SC(!new), A, B>(m: State<SA, SB, A>, f: SB -> SC, g: A -> B, s: SA)
    ensures m.Bimap(f, g).Run(s) == m.Map(g).WithState(f).Run(s) == m.WithState(f).Map(g).Run(s)
  {
  }

  // ---------------------------------------------------------------------
  // Monad laws
  // ---------------------------------------------------------------------

  /** Left identity: `Pure(a).FlatMap(k)` behaves as `k(a)`. */
  lemma FlatMapLeftIdentity<S(!new), SC(!new), A, B>(a: A, k: A -> State<S, SC, B>, s: S)
    ensures Pure(a).FlatMap(k).Run(s) == k(a).Run(s)
  {
  }

  /** Right identity: `m.FlatMap(Pure)` behaves as `m`. */
  lemma FlatMapRightIdentity<SA(!new), SB(!new), A>(m: State<SA, SB, A>, s: SA)
    ensures m.FlatMap((a: A) => Pure(a)).Run(s) == m.Run(s)
  {
  }

  /** Associativity of sequencing, across four possibly different state types. */
  lemma FlatMapAssociativity<SA(!new), SB(!new), SC(!new), SD(!new), A, B, C>(
    m: State<SA, SB, A>, f: A -> State<SB, SC, B>, g: B -> State<SC, SD, C>, s: SA)
    ensures m.FlatMap(f).FlatMap(g).Run(s) == m.FlatMap((x: A) => f(x).FlatMap(g)).Run(s)
  {
  }

  /** `Map` is `FlatMap` followed by `Pure`. */
  lemma MapIsFlatMapPure<SA(!new), SB(!new), A, B>(m: State<SA, SB, A>, f: A -> B, s: SA)
    ensures m.Map(f).Run(s) == m.FlatMap((a: A) => Pure(f(a))).Run(s)
  {
  }

  // ---------------------------------------------------------------------
  // Products and the primitive computations
  // ---------------------------------------------------------------------

  /**
   * `Product` is not sequencing: projecting its result back gives each
   * component as if run alone from the same initial state.
   */
  lemma ProductProjections<SA(!new), SB(!new), A, B>(m: State<SA, SB, A>, n: State<SA, SB, B>, s: SA)
    ensures m.Product(n).Map((p: (A, B)) => p.0).Run(s) == m.Run(s)
    ensures m.Product(n).Eval(s).1 == n.Eval(s)
  {
  }

  /** `Gets(f)` is `Get()` mapped by `f`. */
  lemma GetsIsGetMap<S(!new), T>(f: S -> T, s: S)
    ensures Gets(f).Run(s) == Get().Map(f).Run(s)
  {
  }

  /** `Modify(f)` is reading the state and putting back `f` of it. */
  lemma ModifyIsGetThenPut<S(!new)>(f: S -> S, s: S)
    ensures Get().FlatMap((x: S) => Put(f(x))).Run(s) == Modify(f).Run(s)
  {
  }

  /** A `Modify` that ignores its input is a `Put`. */
  lemma ModifyConstantIsPut<S(!new)>(v: S, s: S)
    ensures Modify((_: S) => v).Run(s) == Put(v).Run(s)
  {
  }

  /** `Modify` by the identity leaves the state as it was. */
  lemma ModifyIdentity<S(!new)>(s: S)
    ensures Modify((x: S) => x).Exec(s) == s
  {
  }

  /** A `Put` followed by `Get` yields what was put, whatever the initial state. */
  lemma PutThenGet<S(!new)>(v: S, s: S)
    ensures Put(v).FlatMap((_: ()) => Get()).Run(s) == (v, v)
  {
  }
}
