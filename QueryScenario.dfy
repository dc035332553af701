/**
 * The card search the query builder was written for: cards that are Fire or
 * Ice, with attack of at least 50, that are not spells. The filters are
 * dynamic property specifications resolved against the card schema.
 */
module QueryScenario {
  import opened Wrappers
  import opened Strings
  import opened Specification
  import opened DynamicProperty
  import opened SearchQuery

  const CardSchema: Schema := map["Element" := StrType, "Attack" := IntType, "Type" := StrType]

  function Card(element: string, attack: Int32, kind: string): (card: Entity)
    ensures Conforms(card, CardSchema)
  {
    map["Element" := StrV(element), "Attack" := IntV(attack), "Type" := StrV(kind)]
  }

  /** The four filters, resolved against the card schema. */
  function FireSpec(): Result<Spec<Entity>, SpecError>
  {
    ToSpecification(DynamicPropertySpec("Element", Equal, StrV("Fire")), CardSchema)
  }

  function IceSpec(): Result<Spec<Entity>, SpecError>
  {
    ToSpecification(DynamicPropertySpec("Element", Equal, StrV("Ice")), CardSchema)
  }

  function StrongSpec(): Result<Spec<Entity>, SpecError>
  {
    ToSpecification(DynamicPropertySpec("Attack", GreaterThan, IntV(49)), CardSchema)
  }

  function SpellSpec(): Result<Spec<Entity>, SpecError>
  {
    ToSpecification(DynamicPropertySpec("Type", Equal, StrV("Spell")), CardSchema)
  }

  /** What the accumulated query accepts, on any card. */
  lemma CardVerdict(element: string, attack: Int32, kind: string)
    ensures FireSpec().Success? && IceSpec().Success? && StrongSpec().Success? && SpellSpec().Success?
    ensures var query := And(And(And(True, OrAll([FireSpec().value, IceSpec().value])),
                                 StrongSpec().value), Not(SpellSpec().value));
            Eval(query, Card(element, attack, kind))
            == ((element == "Fire" || element == "Ice") && attack > 49 && kind != "Spell")
  {
  }

  method CardQueryExample() returns (test: Entity -> bool)
    ensures test(Card("Fire", 60, "Creature"))
    ensures !test(Card("Water", 90, "Creature"))
    ensures !test(Card("Ice", 40, "Creature"))
    ensures !test(Card("Fire", 70, "Spell"))
  {
    CardVerdict("Fire", 60, "Creature");
    CardVerdict("Water", 90, "Creature");
    CardVerdict("Ice", 40, "Creature");
    CardVerdict("Fire", 70, "Spell");
    var fire, ice, strong, spell := FireSpec(), IceSpec(), StrongSpec(), SpellSpec();

    var builder := new SearchQueryBuilder<Entity>();
    builder := builder.AddOrGroup([fire.value, ice.value]);
    builder := builder.AddFilter(strong.value);
    builder := builder.Exclude(spell.value);
    test := builder.Build();
  }
}
