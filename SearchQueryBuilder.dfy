/**
 * The fluent query builder: one accumulating specification that starts as
 * TRUE; every call ANDs its effect onto it, so the set of accepted entities
 * can only shrink. `Build` turns the current specification into a callable
 * test without touching the builder.
 */
module SearchQuery {
  import opened Specification

  class SearchQueryBuilder<T(!new)> {
    var finalSpec: Spec<T>

    constructor ()
      ensures finalSpec == True
      ensures forall x :: Eval(finalSpec, x)
    {
      finalSpec := True;
    }

    /**
     * ORs the given specifications into one group, seeded with FALSE (so an
     * empty group accepts nothing), and ANDs the group onto the accumulator.
     */
    method AddOrGroup(specs: seq<Spec<T>>) returns (self: SearchQueryBuilder<T>)
      modifies this
      ensures self == this
      ensures finalSpec == And(old(finalSpec), OrAll(specs))
      ensures forall x :: Eval(finalSpec, x) <==>
                Eval(old(finalSpec), x) && exists j :: 0 <= j < |specs| && Eval(specs[j], x)
    {
      var groupSpec: Spec<T> := False;
      var i := 0;
      while i < |specs|
        invariant 0 <= i <= |specs|
        invariant groupSpec == OrAll(specs[..i])
        invariant forall x :: Eval(groupSpec, x) <==> exists j :: 0 <= j < i && Eval(specs[j], x)
      {
        assert specs[..i + 1][..i] == specs[..i];
        groupSpec := Or(groupSpec, specs[i]);
        i := i + 1;
      }
      assert specs[..i] == specs;
      finalSpec := And(finalSpec, groupSpec);
      self := this;
    }

    /** Keeps only the entities that also satisfy `spec`. */
    method AddFilter(spec: Spec<T>) returns (self: SearchQueryBuilder<T>)
      modifies this
      ensures self == this
      ensures finalSpec == And(old(finalSpec), spec)
      ensures forall x :: Eval(finalSpec, x) <==> Eval(old(finalSpec), x) && Eval(spec, x)
    {
      finalSpec := And(finalSpec, spec);
      self := this;
    }

    /** Drops the entities that satisfy `spec`. */
    method Exclude(spec: Spec<T>) returns (self: SearchQueryBuilder<T>)
      modifies this
      ensures self == this
      ensures finalSpec == And(old(finalSpec), Not(spec))
      ensures forall x :: Eval(finalSpec, x) <==> Eval(old(finalSpec), x) && !Eval(spec, x)
    {
      finalSpec := And(finalSpec, Not(spec));
      self := this;
    }

    /**
     * A callable test equivalent to the accumulated specification. The test
     * captures the specification as it is now; the builder is not modified.
     */
    method Build() returns (test: T -> bool)
      ensures forall x :: test(x) == Eval(finalSpec, x)
    {
      var spec := finalSpec;
      test := x => Eval(spec, x);
    }
  }

  /** A builder nobody has configured accepts every entity. */
  method FreshBuilderAcceptsAll<T(!new)>() returns (test: T -> bool)
    ensures forall x :: test(x)
  {
    var builder := new SearchQueryBuilder<T>();
    test := builder.Build();
  }

  /**
   * An explicitly supplied empty OR-group makes the builder reject every
   * entity, whatever is added afterwards.
   */
  method EmptyOrGroupRejectsAll<T(!new)>(filter: Spec<T>, excluded: Spec<T>) returns (test: T -> bool)
    ensures forall x :: !test(x)
  {
    var builder := new SearchQueryBuilder<T>();
    builder := builder.AddOrGroup([]);
    builder := builder.AddFilter(filter);
    builder := builder.Exclude(excluded);
    test := builder.Build();
  }

  /** Two builds with no change in between give tests that agree on every entity. */
  method BuildTwiceAgrees<T(!new)>(builder: SearchQueryBuilder<T>) returns (first: T -> bool, second: T -> bool)
    ensures forall x :: first(x) == second(x)
  {
    first := builder.Build();
    second := builder.Build();
  }
}
