/**
 * A lens focuses on a part B of a structure A: `Get` reads the part, `Set`
 * writes it back. The library does not enforce the lens laws, so they are
 * stated here as predicates and assumed only where a property depends on
 * them. The model proves that `Mod` respects them and that composition
 * preserves them.
 */
module Lenses {

  datatype Lens<!A(!new), !B(!new)> = Lens(getter: A -> B, setter: (A, B) -> A) {

    /** Extracts the view from a source. */
    function Get(a: A): B {
      getter(a)
    }

    /** Writes a view value into a source. */
    function Set(a: A, b: B): A {
      setter(a, b)
    }

    /** Rewrites the view by `f`. */
    function Mod(a: A, f: B -> B): (r: A)
      ensures SetGet(this) ==> Get(r) == f(Get(a))
      ensures GetSet(this) && f(Get(a)) == Get(a) ==> r == a
    {
      Set(a, f(Get(a)))
    }

    /**
     * The lens `this` seen through `that`: it reads `this` from what `that`
     * reads, and writes by modifying `that`'s view with `this`'s setter.
     */
    function Compose<C(!new)>(that: Lens<C, A>): (r: Lens<C, B>)
      ensures forall c :: r.Get(c) == Get(that.Get(c))
      ensures forall c, b :: r.Set(c, b) == that.Set(c, Set(that.Get(c), b))
    {
      Lens(c => Get(that.Get(c)), (c, b) => that.Mod(c, a => Set(a, b)))
    }

    /** Focuses further inward: `this` first, then `that`; the same as `that.Compose(this)`. */
    function AndThen<C(!new)>(that: Lens<B, C>): (r: Lens<A, C>)
      ensures forall a :: r.Get(a) == that.Get(Get(a))
      ensures forall a, c :: r.Set(a, c) == Set(a, that.Set(Get(a), c))
    {
      that.Compose(this)
    }
  }

  /** Writing back what was read is a no-op. */
  ghost predicate GetSet<A(!new), B(!new)>(l: Lens<A, B>) {
    forall a :: l.Set(a, l.Get(a)) == a
  }

  /** Reading what was written gives it back. */
  ghost predicate SetGet<A(!new), B(!new)>(l: Lens<A, B>) {
    forall a, b :: l.Get(l.Set(a, b)) == b
  }

  /** A second write overwrites the first. */
  ghost predicate SetSet<A(!new), B(!new)>(l: Lens<A, B>) {
    forall a, b1, b2 :: l.Set(l.Set(a, b1), b2) == l.Set(a, b2)
  }

  /** The three lens laws together. */
  ghost predicate LawfulLens<A(!new), B(!new)>(l: Lens<A, B>) {
    GetSet(l) && SetGet(l) && SetSet(l)
  }

  /** For a lens that keeps get-set, modifying by the identity does nothing. */
  lemma ModIdentity<A(!new), B(!new)>(l: Lens<A, B>, a: A)
    requires GetSet(l)
    ensures l.Mod(a, x => x) == a
  {
  }

  /** For a lawful lens, two modifications are one by the composed function. */
  lemma ModComposition<A(!new), B(!new)>(l: Lens<A, B>, a: A, f: B -> B, g: B -> B)
    requires SetGet(l) && SetSet(l)
    ensures l.Mod(l.Mod(a, f), g) == l.Mod(a, x => g(f(x)))
  {
  }

  /** Composition keeps get-set when both lenses do. */
  lemma ComposePreservesGetSet<A(!new), B(!new), C(!new)>(outer: Lens<C, A>, inner: Lens<A, B>)
    requires GetSet(outer) && GetSet(inner)
    ensures GetSet(inner.Compose(outer))
  {
  }

  /** Composition keeps set-get when both lenses do. */
  lemma ComposePreservesSetGet<A(!new), B(!new), C(!new)>(outer: Lens<C, A>, inner: Lens<A, B>)
    requires SetGet(outer) && SetGet(inner)
    ensures SetGet(inner.Compose(outer))
  {
  }

  /** Composition keeps set-set when both lenses do and the outer one also keeps set-get. */
  lemma ComposePreservesSetSet<A(!new), B(!new), C(!new)>(outer: Lens<C, A>, inner: Lens<A, B>)
    requires SetSet(outer) && SetGet(outer) && SetSet(inner)
    ensures SetSet(inner.Compose(outer))
  {
  }

  /** Composing two lawful lenses gives a lawful lens. */
  lemma ComposePreservesLaws<A(!new), B(!new), C(!new)>(outer: Lens<C, A>, inner: Lens<A, B>)
    requires LawfulLens(outer) && LawfulLens(inner)
    ensures LawfulLens(inner.Compose(outer)) && LawfulLens(outer.AndThen(inner))
  {
    ComposePreservesGetSet(outer, inner);
    ComposePreservesSetGet(outer, inner);
    ComposePreservesSetSet(outer, inner);
  }

  /** `AndThen` behaves as the flipped `Compose`. */
  lemma AndThenIsFlippedCompose<A(!new), B(!new), C(!new)>(l1: Lens<A, B>, l2: Lens<B, C>, a: A, c: C)
    ensures l1.AndThen(l2).Get(a) == l2.Compose(l1).Get(a)
    ensures l1.AndThen(l2).Set(a, c) == l2.Compose(l1).Set(a, c)
  {
  }

  /** Composition is associative, on both the getter and the setter. */
  lemma AndThenAssociative<A(!new), B(!new), C(!new), D(!new)>(
    l1: Lens<A, B>, l2: Lens<B, C>, l3: Lens<C, D>, a: A, d: D)
    ensures l1.AndThen(l2).AndThen(l3).Get(a) == l1.AndThen(l2.AndThen(l3)).Get(a)
    ensures l1.AndThen(l2).AndThen(l3).Set(a, d) == l1.AndThen(l2.AndThen(l3)).Set(a, d)
  {
  }
}
