/**
 * A right-biased three-way disjunction: a left value only (`That`), a right
 * value only (`This`), or both (`These`). `Fold` is the one eliminator; every
 * operation that takes a `Those` apart is written through it, as in the
 * library, and its contract states what it means in terms of the three
 * variants.
 */
module ThoseDisjunction {
  import opened Control

  datatype Those<A, B> = That(left: A) | This(right: B) | These(left: A, right: B) {

    /** Case analysis over the three variants. */
    function Fold<C>(onLeft: A -> C, onRight: B -> C, onBoth: (A, B) -> C): (r: C)
      ensures That? ==> r == onLeft(left)
      ensures This? ==> r == onRight(right)
      ensures These? ==> r == onBoth(left, right)
    {
      match this
      case That(l) => onLeft(l)
      case This(rt) => onRight(rt)
      case These(l, rt) => onBoth(l, rt)
    }

    /** Holds only for a left value alone. */
    predicate IsLeft()
      ensures IsLeft() <==> That?
    {
      Fold(_ => true, _ => false, (_, _) => false)
    }

    /** Holds only for a right value alone. */
    predicate IsRight()
      ensures IsRight() <==> This?
    {
      Fold(_ => false, _ => true, (_, _) => false)
    }

    /** Holds only when both values are present. */
    predicate IsBoth()
      ensures IsBoth() <==> These?
    {
      Fold(_ => false, _ => false, (_, _) => true)
    }

    /** The left value, whether or not a right value accompanies it. */
    function Left(): (r: Option<A>)
      ensures r.Some? <==> (That? || These?)
      ensures r.Some? ==> r.value == left
    {
      Fold(l => Some(l), _ => None, (l, _) => Some(l))
    }

    /** The right value, whether or not a left value accompanies it. */
    function Right(): (r: Option<B>)
      ensures r.Some? <==> (This? || These?)
      ensures r.Some? ==> r.value == right
    {
      Fold(_ => None, rt => Some(rt), (_, rt) => Some(rt))
    }

    /** The left value, only when it stands alone. */
    function OnlyLeft(): (r: Option<A>)
      ensures r.Some? <==> That?
      ensures r.Some? ==> r.value == left
    {
      Fold(l => Some(l), _ => None, (_, _) => None)
    }

    /** The right value, only when it stands alone. */
    function OnlyRight(): (r: Option<B>)
      ensures r.Some? <==> This?
      ensures r.Some? ==> r.value == right
    {
      Fold(_ => None, rt => Some(rt), (_, _) => None)
    }

    /** A lone value as an Either; nothing when both are present. */
    function OnlyLeftOrRight(): (r: Option<Either<A, B>>)
      ensures r.None? <==> These?
      ensures That? ==> r == Some(Either.Left(left))
      ensures This? ==> r == Some(Either.Right(right))
    {
      Fold(l => Some(Either.Left(l)), rt => Some(Either.Right(rt)), (_, _) => None)
    }

    /** Both values as a pair, only when both are present. */
    function OnlyBoth(): (r: Option<(A, B)>)
      ensures r.Some? <==> These?
      ensures r.Some? ==> r.value == (left, right)
    {
      Fold(_ => None, _ => None, (l, rt) => Some((l, rt)))
    }

    /** Right-biased conversion: the right value wins when both are present. */
    function ToEither(): (r: Either<A, B>)
      ensures r.Left? <==> That?
      ensures r.Left? ==> r.left == left
      ensures r.Right? ==> r.right == right
    {
      Fold(l => Either.Left(l), rt => Either.Right(rt), (_, rt) => Either.Right(rt))
    }

    /** Right-biased projection to an Option; the same as `Right()`. */
    function ToOption(): (r: Option<B>)
      ensures r.Some? <==> !That?
      ensures r.Some? ==> r.value == right
    {
      Right()
    }

    /** The right value when present, `other` otherwise. */
    function GetOrElse(other: B): (r: B)
      ensures That? ==> r == other
      ensures !That? ==> r == right
    {
      Right().GetOrElse(other)
    }

    /** Maps both payloads; the variant is kept. */
    function Bimap<C, D>(thatMapper: A -> C, thisMapper: B -> D): (r: Those<C, D>)
      ensures r.That? == That? && r.This? == This? && r.These? == These?
      ensures !This? ==> r.left == thatMapper(left)
      ensures !That? ==> r.right == thisMapper(right)
    {
      Fold(l => That(thatMapper(l)), rt => This(thisMapper(rt)),
           (l, rt) => These(thatMapper(l), thisMapper(rt)))
    }

    /** Maps the right payload only. */
    function Map<D>(thisMapper: B -> D): (r: Those<A, D>)
      ensures r.That? == That? && r.This? == This? && r.These? == These?
      ensures !This? ==> r.left == left
      ensures !That? ==> r.right == thisMapper(right)
    {
      Bimap(x => x, thisMapper)
    }

    /** Maps the left payload only. */
    function MapLeft<C>(thatMapper: A -> C): (r: Those<C, B>)
      ensures r.That? == That? && r.This? == This? && r.These? == These?
      ensures !This? ==> r.left == thatMapper(left)
      ensures !That? ==> r.right == right
    {
      Bimap(thatMapper, x => x)
    }
  }

  /** Pairs two independently optional values; nothing when both are absent. */
  function FromOptions<A, B>(oa: Option<A>, ob: Option<B>): (r: Option<Those<A, B>>)
    ensures r.None? <==> oa.None? && ob.None?
    ensures r.Some? ==> r.value.Left() == oa && r.value.Right() == ob
  {
    if oa.IsDefined() then
      if ob.IsDefined() then Some(These(oa.value, ob.value)) else Some(That(oa.value))
    else
      if ob.IsDefined() then Some(This(ob.value)) else None
  }

  /** A left value becomes `That`, a right value `This`. */
  function FromEither<A, B>(eab: Either<A, B>): (r: Those<A, B>)
    ensures !r.These?
    ensures r.That? <==> eab.Left?
    ensures r.That? ==> r.left == eab.left
    ensures r.This? ==> r.right == eab.right
  {
    eab.Fold(l => That(l), rt => This(rt))
  }

  /** Exactly one of the three tag tests holds for every value. */
  lemma ExactlyOneTag<A, B>(t: Those<A, B>)
    ensures t.IsLeft() || t.IsRight() || t.IsBoth()
    ensures !(t.IsLeft() && t.IsRight()) && !(t.IsLeft() && t.IsBoth()) && !(t.IsRight() && t.IsBoth())
  {
  }

  /** `Left()` is defined exactly for left-only and both; `Right()` for right-only and both. */
  lemma ProjectionsDefined<A, B>(t: Those<A, B>)
    ensures t.Left().IsDefined() <==> t.IsLeft() || t.IsBoth()
    ensures t.Right().IsDefined() <==> t.IsRight() || t.IsBoth()
  {
  }

  /** The two projections determine the value: `FromOptions` rebuilds it. */
  lemma OptionsRoundTrip<A, B>(t: Those<A, B>)
    ensures FromOptions(t.Left(), t.Right()) == Some(t)
  {
  }

  /** Projecting what `FromOptions` built gives back its inputs. */
  lemma FromOptionsProjections<A, B>(oa: Option<A>, ob: Option<B>)
    ensures FromOptions(oa, ob).FlatMap((t: Those<A, B>) => t.Left()) == oa
    ensures FromOptions(oa, ob).FlatMap((t: Those<A, B>) => t.Right()) == ob
  {
  }

  /** `OnlyLeftOrRight` is the lone left mapped to `Left`, else the lone right mapped to `Right`. */
  lemma OnlyLeftOrRightFromParts<A, B>(t: Those<A, B>)
    ensures t.OnlyLeftOrRight()
         == t.OnlyLeft().Map((l: A) => Either<A, B>.Left(l))
            .OrElse(t.OnlyRight().Map((rt: B) => Either<A, B>.Right(rt)))
  {
  }

  /** `OnlyBoth` is the pair of both projections, when both are defined. */
  lemma OnlyBothFromProjections<A, B>(t: Those<A, B>)
    ensures t.OnlyBoth() == t.Left().FlatMap((l: A) => t.Right().Map((rt: B) => (l, rt)))
  {
  }

  /** Right bias: the Either and Option views agree with `Right()`, and `IsLeft` means no right value. */
  lemma RightBias<A, B>(t: Those<A, B>, other: B)
    ensures t.ToEither().ToOption() == t.Right()
    ensures t.IsLeft() == t.ToOption().IsEmpty()
    ensures t.GetOrElse(other) == t.ToOption().GetOrElse(other)
  {
  }

  /** Mapping with the identity changes nothing. */
  lemma MapIdentity<A, B>(t: Those<A, B>)
    ensures t.Map(x => x) == t
    ensures t.MapLeft(x => x) == t
  {
  }

  /** `Bimap` is `MapLeft` after `Map`: the two payloads are mapped independently. */
  lemma BimapSplits<A, B, C, D>(t: Those<A, B>, f: A -> C, g: B -> D)
    ensures t.Bimap(f, g) == t.Map(g).MapLeft(f)
  {
  }

  /** `FromEither` never yields both values, and `ToEither` undoes it. */
  lemma FromEitherRoundTrip<A, B>(e: Either<A, B>)
    ensures !FromEither(e).IsBoth()
    ensures FromEither(e).ToEither() == e
  {
  }
}
