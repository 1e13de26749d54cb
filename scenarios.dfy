/**
 * Callers' view: chains of builder calls and what the resulting rule
 * sequences report, derived from the builders' contracts alone.
 */
module Scenarios {
  import opened Core
  import opened Constraints
  import ContainerConstraints
  import BooleanConstraints

  function Length(s: string): int { |s| }

  /** The rules of a name of 2 to 4 characters with a custom message for
      "too long", in declaration order. */
  function NameRules(): seq<ConstraintPredicate<string>>
  {
    [ NotNullRule(),
      ContainerConstraints.LessThanRule(Length, 5).OverrideMessage(Text("too long")),
      ContainerConstraints.GreaterThanOrEqualRule(Length, 2) ]
  }

  /** Building the name rules with notNull, lessThan, message, greaterThanOrEqual. */
  method BuildNameRules() returns (name: ContainerConstraints.ContainerConstraint<string>)
    ensures name.constraint.predicates == NameRules()
  {
    name := new ContainerConstraints.ContainerConstraint<string>(Length);
    var c := name.constraint.NotNull();
    var n := name.LessThan(5);
    var r := name.constraint.MessageText("too long");
    assert r.Success?;
    n := name.GreaterThanOrEqual(2);
  }

  /** A missing name violates only notNull. */
  lemma NameRulesOnNull()
    ensures Violations(NameRules(), None) == [Violation(Default(OBJECT_NOT_NULL), [])]
  {
  }

  /** A six-character name violates lessThan(5), reported with the custom
      message, the bound and the measured size. */
  lemma NameRulesTooLong()
    ensures Violations(NameRules(), Some("abcdef")) == [Violation(Text("too long"), [5, 6])]
  {
  }

  /** A one-character name violates greaterThanOrEqual(2): bound 2, size 1. */
  lemma NameRulesTooShort()
    ensures Violations(NameRules(), Some("a")) == [Violation(Default(CONTAINER_GREATER_THAN_OR_EQUAL), [2, 1])]
  {
  }

  /** A message override with no rule before it is refused; isTrue then
      rejects only false. */
  method MessageFirst() {
    var flag := new BooleanConstraints.BooleanConstraint();
    var r := flag.constraint.Message(Custom("flag.required", "must be set"));
    assert r == Failure(NoConstraintToOverride) && flag.constraint.predicates == [];
    var b := flag.IsTrue();
    assert flag.constraint.predicates == [BooleanConstraints.IsTrueRule()];
    assert Violations(flag.constraint.predicates, Some(false)) == [Violation(Default(BOOLEAN_IS_TRUE), [])];
    assert Violations(flag.constraint.predicates, None) == [];
  }
}
