/**
 * The specification pattern: a boolean filter over entities of type T, built
 * from constant seeds, AND, OR, NOT and leaf predicates. A specification is an
 * ordinary value; `Eval` gives its meaning on one entity (what `IsSatisfiedBy`
 * and the compiled expression both compute).
 */
module Specification {

  datatype Spec<!T> =
    | True                          // TrueSpecification: x => true
    | False                         // FalseSpecification: x => false
    | And(left: Spec<T>, right: Spec<T>)
    | Or(left: Spec<T>, right: Spec<T>)
    | Not(inner: Spec<T>)
    | Atom(test: T -> bool)         // a leaf specification's predicate

  function Eval<T>(s: Spec<T>, x: T): bool
  {
    match s
    case True => true
    case False => false
    case And(l, r) => Eval(l, x) && Eval(r, x)
    case Or(l, r) => Eval(l, x) || Eval(r, x)
    case Not(p) => !Eval(p, x)
    case Atom(test) => test(x)
  }

  /** Two specifications accept exactly the same entities. */
  ghost predicate Equivalent<T(!new)>(p: Spec<T>, q: Spec<T>)
  {
    forall x :: Eval(p, x) == Eval(q, x)
  }

  /**
   * The OR-fold of a list seeded with FALSE, in list order:
   * `False.Or(s0).Or(s1)...`.
   */
  function OrAll<T>(specs: seq<Spec<T>>): Spec<T>
  {
    if specs == [] then False
    else Or(OrAll(specs[..|specs| - 1]), specs[|specs| - 1])
  }

  /** The AND-fold of a list seeded with TRUE, in list order: `True.And(s0).And(s1)...`. */
  function AndAll<T>(specs: seq<Spec<T>>): Spec<T>
  {
    if specs == [] then True
    else And(AndAll(specs[..|specs| - 1]), specs[|specs| - 1])
  }

  /**
   * TRUE accepts and FALSE rejects every entity; TRUE is the identity of AND
   * and FALSE the identity of OR, on either side.
   */
  lemma SeedsAreIdentities<T(!new)>(p: Spec<T>)
    ensures forall x: T :: Eval(True, x) && !Eval(False, x)
    ensures Equivalent(And(True, p), p) && Equivalent(And(p, True), p)
    ensures Equivalent(Or(False, p), p) && Equivalent(Or(p, False), p)
  {
  }

  lemma AndOrAssociative<T(!new)>(p: Spec<T>, q: Spec<T>, r: Spec<T>)
    ensures Equivalent(And(And(p, q), r), And(p, And(q, r)))
    ensures Equivalent(Or(Or(p, q), r), Or(p, Or(q, r)))
  {
  }

  lemma AndOrCommutative<T(!new)>(p: Spec<T>, q: Spec<T>)
    ensures Equivalent(And(p, q), And(q, p))
    ensures Equivalent(Or(p, q), Or(q, p))
  {
  }

  lemma DeMorgan<T(!new)>(p: Spec<T>, q: Spec<T>)
    ensures Equivalent(Not(And(p, q)), Or(Not(p), Not(q)))
    ensures Equivalent(Not(Or(p, q)), And(Not(p), Not(q)))
  {
  }

  /** NOT(NOT(p)) stays a two-level tree but means p. */
  lemma DoubleNegation<T(!new)>(p: Spec<T>)
    ensures Equivalent(Not(Not(p)), p)
  {
  }

  /** The OR-fold holds exactly when some member of the list holds; over [] it is FALSE. */
  lemma {:induction false} OrAllHoldsIffSome<T>(specs: seq<Spec<T>>, x: T)
    ensures Eval(OrAll(specs), x) <==> exists i :: 0 <= i < |specs| && Eval(specs[i], x)
  {
    if specs != [] {
      var init := specs[..|specs| - 1];
      OrAllHoldsIffSome(init, x);
      assert forall i :: 0 <= i < |init| ==> init[i] == specs[i];
    }
  }

  /** The AND-fold holds exactly when every member of the list holds; over [] it is TRUE. */
  lemma {:induction false} AndAllHoldsIffEvery<T>(specs: seq<Spec<T>>, x: T)
    ensures Eval(AndAll(specs), x) <==> forall i :: 0 <= i < |specs| ==> Eval(specs[i], x)
  {
    if specs != [] {
      var init := specs[..|specs| - 1];
      AndAllHoldsIffEvery(init, x);
      assert forall i :: 0 <= i < |init| ==> init[i] == specs[i];
    }
  }
}
