/**
 * The modifier enumerations and the interaction-point id of `src/base.rs`.
 *
 * Every enumeration derives `Ord`, which compares variants by their position
 * in the declaration. Each datatype below therefore carries a `Rank` (its
 * declaration position, tied to the declaration list next to it) and the
 * strict order `Less` that the derived `PartialOrd` yields.
 */
module Base {

  /** `InteractionPoint` is a `u32`. */
  type InteractionPoint = n: int | 0 <= n < 0x1_0000_0000

  /** The wire's `i32` fields (`position`, `debugLevel`). */
  type Int32 = n: int | -0x8000_0000 <= n < 0x8000_0000

  /** `decl` lists every value exactly once and `rank` is the position in it. */
  ghost predicate IsDeclarationOrder<T(!new)>(decl: seq<T>, rank: T -> nat) {
    && (forall x :: rank(x) < |decl| && decl[rank(x)] == x)
    && (forall i :: 0 <= i < |decl| ==> rank(decl[i]) == i)
  }

  /** `lt` is irreflexive, transitive and relates any two distinct values. */
  ghost predicate IsStrictTotalOrder<T(!new)>(lt: (T, T) -> bool) {
    && (forall x :: !lt(x, x))
    && (forall x, y, z :: lt(x, y) && lt(y, z) ==> lt(x, z))
    && (forall x, y :: x == y || lt(x, y) || lt(y, x))
  }

  /** Comparing declaration positions is a strict total order that follows the declaration. */
  lemma DeclarationOrderIsTotal<T(!new)>(decl: seq<T>, rank: T -> nat)
    requires IsDeclarationOrder(decl, rank)
    ensures IsStrictTotalOrder((x: T, y: T) => rank(x) < rank(y))
    ensures forall i, j :: 0 <= i < j < |decl| ==> rank(decl[i]) < rank(decl[j])
  {
    forall x: T, y: T
      ensures x == y || rank(x) < rank(y) || rank(y) < rank(x)
    {
      if rank(x) == rank(y) {
        assert x == decl[rank(x)] == decl[rank(y)] == y;
      }
    }
  }

  /** Amount of normalisation applied to displayed terms. */
  datatype Rewrite = AsIs | Instantiated | HeadNormal | Simplified | Normalised {
    function Rank(): (k: nat)
      ensures k < |Rewrites| && Rewrites[k] == this
    {
      match this
      case AsIs => 0
      case Instantiated => 1
      case HeadNormal => 2
      case Simplified => 3
      case Normalised => 4
    }

    predicate Less(other: Rewrite) {
      Rank() < other.Rank()
    }
  }

  const Rewrites: seq<Rewrite> := [AsIs, Instantiated, HeadNormal, Simplified, Normalised]

  /** Mode of the toplevel computation command. */
  datatype ComputeMode = DefaultCompute | IgnoreAbstract | UseShowInstance {
    function Rank(): (k: nat)
      ensures k < |ComputeModes| && ComputeModes[k] == this
    {
      match this
      case DefaultCompute => 0
      case IgnoreAbstract => 1
      case UseShowInstance => 2
    }

    predicate Less(other: ComputeMode) {
      Rank() < other.Rank()
    }
  }

  const ComputeModes: seq<ComputeMode> := [DefaultCompute, IgnoreAbstract, UseShowInstance]

  /** Whether safety checks (termination, positivity, ...) are skipped. */
  datatype UseForce = WithForce | WithoutForce {
    function Rank(): (k: nat)
      ensures k < |UseForces| && UseForces[k] == this
    {
      match this
      case WithForce => 0
      case WithoutForce => 1
    }

    predicate Less(other: UseForce) {
      Rank() < other.Rank()
    }
  }

  const UseForces: seq<UseForce> := [WithForce, WithoutForce]

  datatype Remove = Remove | Keep {
    function Rank(): (k: nat)
      ensures k < |Removes| && Removes[k] == this
    {
      match this
      case Remove => 0
      case Keep => 1
    }

    predicate Less(other: Remove) {
      Rank() < other.Rank()
    }
  }

  const Removes: seq<Remove> := [Remove.Remove, Keep]

  lemma RewriteOrder()
    ensures AsIs.Less(Instantiated) && Instantiated.Less(HeadNormal)
    ensures HeadNormal.Less(Simplified) && Simplified.Less(Normalised)
    ensures IsStrictTotalOrder((a: Rewrite, b: Rewrite) => a.Less(b))
  {
    DeclarationOrderIsTotal(Rewrites, (r: Rewrite) => r.Rank());
  }

  lemma ComputeModeOrder()
    ensures DefaultCompute.Less(IgnoreAbstract) && IgnoreAbstract.Less(UseShowInstance)
    ensures IsStrictTotalOrder((a: ComputeMode, b: ComputeMode) => a.Less(b))
  {
    DeclarationOrderIsTotal(ComputeModes, (m: ComputeMode) => m.Rank());
  }

  /** `UseForce` has exactly the two values `WithForce < WithoutForce`. */
  lemma UseForceOrder()
    ensures WithForce.Less(WithoutForce)
    ensures |UseForces| == 2 && forall f: UseForce :: f in UseForces
    ensures IsStrictTotalOrder((a: UseForce, b: UseForce) => a.Less(b))
  {
    DeclarationOrderIsTotal(UseForces, (f: UseForce) => f.Rank());
    forall f: UseForce ensures f in UseForces {
      assert UseForces[f.Rank()] == f;
    }
  }

  lemma RemoveOrder()
    ensures Remove.Remove.Less(Keep)
    ensures |Removes| == 2 && forall r: Remove :: r in Removes
    ensures IsStrictTotalOrder((a: Remove, b: Remove) => a.Less(b))
  {
    DeclarationOrderIsTotal(Removes, (r: Remove) => r.Rank());
    forall r: Remove ensures r in Removes {
      assert Removes[r.Rank()] == r;
    }
  }
}
