/**
 * A specification built at run time from a (property name, operator, value)
 * triple. An entity is a closed map from field name to a tagged value; the
 * field's type is the tag of its value. Evaluation resolves the name, converts
 * the literal to the field's type, then applies the operator, and each of the
 * three steps can fail with its own error instead of yielding false.
 */
module DynamicProperty {
  import opened Wrappers
  import opened Strings
  import opened Specification

  datatype FieldType = IntType | StrType

  datatype Value = IntV(i: Int32) | StrV(s: string)

  /** An entity: its fields by name. */
  type Entity = map<string, Value>

  /** An entity type: the type of each of its fields by name. */
  type Schema = map<string, FieldType>

  datatype ComparisonOperator = Equal | GreaterThan | LessThan | Contains

  /** The three constructor arguments, fixed once the value exists. */
  datatype DynamicPropertySpec = DynamicPropertySpec(propertyName: string, op: ComparisonOperator, value: Value)

  datatype SpecError =
    | FieldNotFound(propertyName: string)                // no such property or field
    | ConversionFailed(value: Value, target: FieldType)  // the literal does not convert
    | OperatorNotDefined(op: ComparisonOperator, fieldType: FieldType)

  function TypeOf(v: Value): FieldType
  {
    match v
    case IntV(_) => IntType
    case StrV(_) => StrType
  }

  /** The entity has exactly the schema's fields, each with the schema's type. */
  ghost predicate Conforms(e: Entity, schema: Schema)
  {
    e.Keys == schema.Keys && forall f :: f in e ==> TypeOf(e[f]) == schema[f]
  }

  /**
   * `Convert.ChangeType` between the two field types: a value already of the
   * target type is returned as it is, an `int` becomes its decimal string, and
   * a string becomes the `int` it denotes, if any.
   */
  function ChangeType(v: Value, target: FieldType): (r: Option<Value>)
    ensures r.Some? ==> TypeOf(r.value) == target
    ensures TypeOf(v) == target ==> r == Some(v)
    ensures v.IntV? ==> r.Some?
  {
    match (v, target)
    case (IntV(_), IntType) => Some(v)
    case (StrV(_), StrType) => Some(v)
    case (IntV(i), StrType) => Some(StrV(IntToString(i)))
    case (StrV(s), IntType) =>
      match ParseInt(s)
      case Some(n) => Some(IntV(n))
      case None => None
  }

  /** Ordering needs an `int` field; `Contains` needs a `string` field; `Equal` takes either. */
  predicate Applicable(op: ComparisonOperator, t: FieldType)
  {
    match op
    case Equal => true
    case GreaterThan => t == IntType
    case LessThan => t == IntType
    case Contains => t == StrType
  }

  /**
   * What building the expression checks against a field of type `t`: the
   * literal must convert to `t`, then the operator must be defined on `t`.
   * The result is the converted literal.
   */
  function Resolve(d: DynamicPropertySpec, t: FieldType): (r: Result<Value, SpecError>)
    ensures r.Success? <==> ChangeType(d.value, t).Some? && Applicable(d.op, t)
    ensures r.Success? ==> Some(r.value) == ChangeType(d.value, t) && TypeOf(r.value) == t
    ensures r.Failure? && ChangeType(d.value, t).None? ==> r.error == ConversionFailed(d.value, t)
    ensures r.Failure? && ChangeType(d.value, t).Some? ==> r.error == OperatorNotDefined(d.op, t)
  {
    match ChangeType(d.value, t)
    case None => Failure(ConversionFailed(d.value, t))
    case Some(literal) =>
      if Applicable(d.op, t) then Success(literal) else Failure(OperatorNotDefined(d.op, t))
  }

  /** The comparison itself, between the field's value and the converted literal. */
  predicate Compare(op: ComparisonOperator, field: Value, literal: Value)
  {
    match op
    case Equal => field == literal
    case GreaterThan => field.IntV? && literal.IntV? && field.i > literal.i
    case LessThan => field.IntV? && literal.IntV? && field.i < literal.i
    case Contains => field.StrV? && literal.StrV? && IsSubstring(literal.s, field.s)
  }

  /** Evaluates the dynamic specification on one entity. */
  function Evaluate(d: DynamicPropertySpec, e: Entity): (r: Result<bool, SpecError>)
    ensures r.Failure? <==>
              d.propertyName !in e
              || ChangeType(d.value, TypeOf(e[d.propertyName])).None?
              || !Applicable(d.op, TypeOf(e[d.propertyName]))
  {
    if d.propertyName !in e then Failure(FieldNotFound(d.propertyName))
    else
      var field := e[d.propertyName];
      match Resolve(d, TypeOf(field))
      case Failure(err) => Failure(err)
      case Success(literal) => Success(Compare(d.op, field, literal))
  }

  /**
   * The specification value that `ToExpression` stands for, resolved against
   * the entity type's schema, ready to be composed with AND, OR and NOT.
   */
  function ToSpecification(d: DynamicPropertySpec, schema: Schema): (r: Result<Spec<Entity>, SpecError>)
    ensures d.propertyName !in schema ==> r == Failure(FieldNotFound(d.propertyName))
    ensures d.propertyName in schema ==>
              (r.Success? <==> ChangeType(d.value, schema[d.propertyName]).Some?
                               && Applicable(d.op, schema[d.propertyName]))
    ensures r.Success? ==>
              forall e :: Conforms(e, schema) ==>
                Evaluate(d, e).Success? && Eval(r.value, e) == Evaluate(d, e).value
  {
    if d.propertyName !in schema then Failure(FieldNotFound(d.propertyName))
    else
      match Resolve(d, schema[d.propertyName])
      case Failure(err) => Failure(err)
      case Success(literal) =>
        var name, op := d.propertyName, d.op;
        Success(Atom((e: Entity) => name in e && Compare(op, e[name], literal)))
  }

  /** An unknown property name is an error, never a silent false. */
  lemma UnknownFieldIsError(d: DynamicPropertySpec, e: Entity)
    requires d.propertyName !in e
    ensures Evaluate(d, e) == Failure(FieldNotFound(d.propertyName))
  {
  }

  /** A literal that does not convert to the field's type is an error. */
  lemma UnconvertibleLiteralIsError(d: DynamicPropertySpec, e: Entity)
    requires d.propertyName in e && ChangeType(d.value, TypeOf(e[d.propertyName])).None?
    ensures d.value.StrV? && e[d.propertyName].IntV?
    ensures Evaluate(d, e) == Failure(ConversionFailed(d.value, IntType))
  {
  }

  /** Ordering a string field, or `Contains` on an `int` field, is an error once the literal converts. */
  lemma OperatorMismatchIsError(d: DynamicPropertySpec, e: Entity)
    requires d.propertyName in e
    requires ChangeType(d.value, TypeOf(e[d.propertyName])).Some?
    requires (d.op in {GreaterThan, LessThan} && e[d.propertyName].StrV?)
          || (d.op == Contains && e[d.propertyName].IntV?)
    ensures Evaluate(d, e) == Failure(OperatorNotDefined(d.op, TypeOf(e[d.propertyName])))
  {
  }

  /** `Equal` holds iff the field equals the converted literal. */
  lemma EqualMeaning(d: DynamicPropertySpec, e: Entity, literal: Value)
    requires d.op == Equal && d.propertyName in e
    requires ChangeType(d.value, TypeOf(e[d.propertyName])) == Some(literal)
    ensures Evaluate(d, e) == Success(e[d.propertyName] == literal)
  {
  }

  /** On an `int` field, `GreaterThan` and `LessThan` are the strict orders against the converted literal. */
  lemma OrderMeaning(d: DynamicPropertySpec, e: Entity, n: Int32)
    requires d.op in {GreaterThan, LessThan} && d.propertyName in e && e[d.propertyName].IntV?
    requires ChangeType(d.value, IntType) == Some(IntV(n))
    ensures d.op == GreaterThan ==> Evaluate(d, e) == Success(e[d.propertyName].i > n)
    ensures d.op == LessThan ==> Evaluate(d, e) == Success(e[d.propertyName].i < n)
  {
  }

  /** On a string field, `Contains` is the substring test with the field as haystack. */
  lemma ContainsMeaning(d: DynamicPropertySpec, e: Entity, needle: string)
    requires d.op == Contains && d.propertyName in e && e[d.propertyName].StrV?
    requires ChangeType(d.value, StrType) == Some(StrV(needle))
    ensures Evaluate(d, e) == Success(IsSubstring(needle, e[d.propertyName].s))
  {
  }

  /**
   * Resolving against the schema and evaluating on an entity of that schema
   * agree: the same error, or a specification whose verdict is the evaluation's.
   */
  lemma ToSpecificationAgrees(d: DynamicPropertySpec, schema: Schema, e: Entity)
    requires Conforms(e, schema)
    ensures ToSpecification(d, schema).Failure? <==> Evaluate(d, e).Failure?
    ensures ToSpecification(d, schema).Failure? ==>
              ToSpecification(d, schema).error == Evaluate(d, e).error
    ensures ToSpecification(d, schema).Success? ==>
              Eval(ToSpecification(d, schema).value, e) == Evaluate(d, e).value
  {
  }

  /** An `int` literal against a string field is compared as its decimal rendering. */
  lemma IntLiteralAgainstStringField(d: DynamicPropertySpec, e: Entity, n: Int32)
    requires d.op == Equal && d.value == IntV(n) && d.propertyName in e && e[d.propertyName].StrV?
    ensures Evaluate(d, e) == Success(e[d.propertyName].s == IntToString(n))
  {
  }

  /** A string literal that renders an `int` converts back to that `int`. */
  lemma ChangeTypeRoundTrip(n: Int32)
    ensures ChangeType(ChangeType(IntV(n), StrType).value, IntType) == Some(IntV(n))
  {
    ParseIntToString(n);
  }

  /** The usage sketch: `("Health", LessThan, 50)` accepts exactly the entities whose Health is below 50. */
  lemma LowHealthExample(e: Entity)
    requires "Health" in e && e["Health"].IntV?
    ensures Evaluate(DynamicPropertySpec("Health", LessThan, IntV(50)), e) == Success(e["Health"].i < 50)
    ensures var spec := ToSpecification(DynamicPropertySpec("Health", LessThan, IntV(50)), map["Health" := IntType]);
            spec.Success? && Eval(spec.value, e) == (e["Health"].i < 50)
  {
  }

  /** A non-numeric literal against an `int` field is a conversion error. */
  lemma NonNumericLiteralExample(e: Entity)
    requires "Health" in e && e["Health"].IntV?
    ensures Evaluate(DynamicPropertySpec("Health", Equal, StrV("abc")), e)
            == Failure(ConversionFailed(StrV("abc"), IntType))
  {
  }
}
