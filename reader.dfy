/**
 * The Reader monad: a computation that reads an environment of type R and
 * yields an A. The environment is only ever read, never threaded forward:
 * every step of a composed Reader sees the same environment. Laws are stated
 * pointwise over `RunReader`.
 */
module ReaderMonad {

  datatype Reader<-R(!new), A> = Reader(reader: R -> A) {

    /** Runs the computation against `environment`. */
    function RunReader(environment: R): A {
      reader(environment)
    }

    /** Runs this computation against an environment first transformed by `f`. */
    function Local(f: R -> R): (r: Reader<R, A>)
      ensures forall e :: r.RunReader(e) == RunReader(f(e))
    {
      Reader(e => reader(f(e)))
    }

    /** Functor map: transforms the result. */
    function Map<B>(f: A -> B): (r: Reader<R, B>)
      ensures forall e :: r.RunReader(e) == f(RunReader(e))
    {
      Reader(e => f(reader(e)))
    }

    /** Sequencing: the next computation is chosen by this one's result and reads the same environment. */
    function FlatMap<B>(f: A -> Reader<R, B>): (r: Reader<R, B>)
      ensures forall e :: r.RunReader(e) == f(RunReader(e)).RunReader(e)
    {
      Reader(e => f(reader(e)).reader(e))
    }

    /** Both computations against the same environment, results paired in argument order. */
    function Product<B>(other: Reader<R, B>): (r: Reader<R, (A, B)>)
      ensures forall e :: r.RunReader(e) == (RunReader(e), other.RunReader(e))
    {
      Reader(c => (this.RunReader(c), other.RunReader(c)))
    }

    /** Three computations against the same environment, results in argument order. */
    function Product3<B, C>(other: Reader<R, B>, third: Reader<R, C>): (r: Reader<R, (A, B, C)>)
      ensures forall e :: r.RunReader(e) == (RunReader(e), other.RunReader(e), third.RunReader(e))
    {
      Reader(c => (this.RunReader(c), other.RunReader(c), third.RunReader(c)))
    }

    /** Four computations against the same environment, results in argument order. */
    function Product4<B, C, D>(other: Reader<R, B>, third: Reader<R, C>, fourth: Reader<R, D>)
      : (r: Reader<R, (A, B, C, D)>)
      ensures forall e :: r.RunReader(e) == (RunReader(e), other.RunReader(e), third.RunReader(e), fourth.RunReader(e))
    {
      Reader(c => (this.RunReader(c), other.RunReader(c), third.RunReader(c), fourth.RunReader(c)))
    }
  }

  /** Wraps a function of the environment. */
  function ReaderOf<R(!new), A>(f: R -> A): (r: Reader<R, A>)
    ensures forall e :: r.RunReader(e) == f(e)
  {
    Reader(f)
  }

  /** Yields the environment itself. */
  function Ask<R(!new)>(): (r: Reader<R, R>)
    ensures forall e :: r.RunReader(e) == e
  {
    Reader(x => x)
  }

  /** Yields a function of the environment. */
  function Asks<R(!new), A>(f: R -> A): (r: Reader<R, A>)
    ensures forall e :: r.RunReader(e) == f(e)
  {
    Reader(f)
  }

  /** Yields `a`, whatever the environment. */
  function Pure<R(!new), A>(a: A): (r: Reader<R, A>)
    ensures forall e :: r.RunReader(e) == a
  {
    Reader(_ => a)
  }

  /** Monadic lifting of a unary function. */
  function LiftM<R(!new), A, B>(f: A -> B): Reader<R, A> -> Reader<R, B> {
    (m1: Reader<R, A>) => m1.FlatMap((x1: A) => Pure(f(x1)))
  }

  /** Monadic lifting of a curried binary function. */
  function LiftM2<R(!new), A, B, C>(f: A -> B -> C): Reader<R, A> -> Reader<R, B> -> Reader<R, C> {
    (m1: Reader<R, A>) => (m2: Reader<R, B>) =>
      m1.FlatMap((x1: A) => m2.FlatMap((x2: B) => Pure(f(x1)(x2))))
  }

  /** Monadic lifting of a curried ternary function. */
  function LiftM3<R(!new), A, B, C, D>(f: A -> B -> C -> D)
    : Reader<R, A> -> Reader<R, B> -> Reader<R, C> -> Reader<R, D>
  {
    (m1: Reader<R, A>) => (m2: Reader<R, B>) => (m3: Reader<R, C>) =>
      m1.FlatMap((x1: A) => m2.FlatMap((x2: B) => m3.FlatMap((x3: C) => Pure(f(x1)(x2)(x3)))))
  }

  /** `Ask()` under `Local(f)` yields `f` of the environment. */
  lemma AskLocal<R(!new)>(f: R -> R, e: R)
    ensures Ask().Local(f).RunReader(e) == f(e)
  {
  }

  /** `Asks(f)` is `Ask()` mapped by `f`. */
  lemma AsksIsAskMap<R(!new), A>(f: R -> A, e: R)
    ensures Asks(f).RunReader(e) == Ask().Map(f).RunReader(e) == f(e)
  {
  }

  /** Mapping the identity changes nothing. */
  lemma MapIdentity<R(!new), A>(m: Reader<R, A>, e: R)
    ensures m.Map(x => x).RunReader(e) == m.RunReader(e)
  {
  }

  /** Two maps are one map by the composed function. */
  lemma MapComposition<R(!new), A, B, C>(m: Reader<R, A>, f: A -> B, g: B -> C, e: R)
    ensures m.Map(f).Map(g).RunReader(e) == m.Map(x => g(f(x))).RunReader(e)
  {
  }

  /** Left identity: `Pure(a).FlatMap(k)` behaves as `k(a)`. */
  lemma FlatMapLeftIdentity<R(!new), A, B>(a: A, k: A -> Reader<R, B>, e: R)
    ensures Pure(a).FlatMap(k).RunReader(e) == k(a).RunReader(e)
  {
  }

  /** Right identity: `m.FlatMap(Pure)` behaves as `m`. */
  lemma FlatMapRightIdentity<R(!new), A>(m: Reader<R, A>, e: R)
    ensures m.FlatMap((a: A) => Pure(a)).RunReader(e) == m.RunReader(e)
  {
  }

  /** Associativity of sequencing. */
  lemma FlatMapAssociativity<R(!new), A, B, C>(m: Reader<R, A>, f: A -> Reader<R, B>, g: B -> Reader<R, C>, e: R)
    ensures m.FlatMap(f).FlatMap(g).RunReader(e) == m.FlatMap((x: A) => f(x).FlatMap(g)).RunReader(e)
  {
  }

  /** `LiftM(f)(m)` applies `f` to `m`'s result. */
  lemma LiftMRun<R(!new), A, B>(f: A -> B, m: Reader<R, A>, e: R)
    ensures LiftM(f)(m).RunReader(e) == f(m.RunReader(e))
  {
  }

  /** `LiftM2(f)(m1)(m2)` applies `f` to both results, each read from the same environment. */
  lemma LiftM2Run<R(!new), A, B, C>(f: A -> B -> C, m1: Reader<R, A>, m2: Reader<R, B>, e: R)
    ensures LiftM2(f)(m1)(m2).RunReader(e) == f(m1.RunReader(e))(m2.RunReader(e))
  {
  }

  /** `LiftM3(f)(m1)(m2)(m3)` applies `f` to the three results, all read from the same environment. */
  lemma LiftM3Run<R(!new), A, B, C, D>(f: A -> B -> C -> D, m1: Reader<R, A>, m2: Reader<R, B>,
                                       m3: Reader<R, C>, e: R)
    ensures LiftM3(f)(m1)(m2)(m3).RunReader(e) == f(m1.RunReader(e))(m2.RunReader(e))(m3.RunReader(e))
  {
  }
}
