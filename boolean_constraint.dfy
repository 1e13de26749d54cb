/**
 * The concrete constraint for Boolean values: isTrue and isFalse.
 */
module BooleanConstraints {
  import opened Core
  import opened Constraints

  /** isTrue(): violates only on false, with no arguments; null passes. */
  function IsTrueRule(): (r: ConstraintPredicate<bool>)
    ensures r.message == Default(BOOLEAN_IS_TRUE) && r.args == [] && r.nullAs == VALID
    ensures Evaluate(r, None).None? && Evaluate(r, Some(true)).None?
    ensures Evaluate(r, Some(false)) == Some(Violation(Default(BOOLEAN_IS_TRUE), []))
  {
    ConstraintPredicate(Of(NonNullTest((x: bool) => x)), Default(BOOLEAN_IS_TRUE), [], VALID)
  }

  /** isFalse(): violates only on true, with no arguments; null passes. */
  function IsFalseRule(): (r: ConstraintPredicate<bool>)
    ensures r.message == Default(BOOLEAN_IS_FALSE) && r.args == [] && r.nullAs == VALID
    ensures Evaluate(r, None).None? && Evaluate(r, Some(false)).None?
    ensures Evaluate(r, Some(true)) == Some(Violation(Default(BOOLEAN_IS_FALSE), []))
  {
    ConstraintPredicate(Of(NonNullTest((x: bool) => !x)), Default(BOOLEAN_IS_FALSE), [], VALID)
  }

  /** A constraint on Booleans; isTrue and isFalse append one rule to
      `constraint` and return the receiver. */
  class BooleanConstraint {
    const constraint: Constraint<bool>

    constructor ()
      ensures fresh(constraint) && constraint.predicates == []
    {
      constraint := new Constraint();
    }

    method IsTrue() returns (c: BooleanConstraint)
      modifies constraint
      ensures c == this
      ensures constraint.predicates == old(constraint.predicates) + [IsTrueRule()]
    {
      constraint.predicates := constraint.predicates + [IsTrueRule()];
      c := this;
    }

    method IsFalse() returns (c: BooleanConstraint)
      modifies constraint
      ensures c == this
      ensures constraint.predicates == old(constraint.predicates) + [IsFalseRule()]
    {
      constraint.predicates := constraint.predicates + [IsFalseRule()];
      c := this;
    }

    /** cast(): the receiver itself, as a BooleanConstraint. */
    method Cast() returns (c: BooleanConstraint)
      ensures c == this
    {
      c := this;
    }
  }
}
