/**
 * Comparison rules for numbers. The comparisons themselves are supplied per
 * numeric representation; this model instantiates them with integer
 * comparison.
 */
module NumericConstraints {
  import opened Core
  import opened Constraints

  /** The comparison factories, instantiated for integers. */
  function IsGreaterThan(min: int): int -> bool { x => x > min }
  function IsGreaterThanOrEqual(min: int): int -> bool { x => x >= min }
  function IsLessThan(max: int): int -> bool { x => x < max }
  function IsLessThanOrEqual(max: int): int -> bool { x => x <= max }

  /** A comparison rule: policy VALID, arguments [threshold], no measured
      value. */
  function ComparisonRule(holds: int -> bool, code: DefaultMessage, threshold: int): (r: ConstraintPredicate<int>)
    ensures r.message == Default(code) && r.args == [threshold] && r.nullAs == VALID
    ensures Evaluate(r, None).None?
    ensures forall x :: Evaluate(r, Some(x)) == if holds(x) then None else Some(Violation(Default(code), [threshold]))
  {
    ConstraintPredicate(Of(NonNullTest(holds)), Default(code), [threshold], VALID)
  }

  /** greaterThan(min): passes iff x > min (strict); null passes. */
  function GreaterThanRule(min: int): (r: ConstraintPredicate<int>)
    ensures r.nullAs == VALID && Evaluate(r, None).None?
    ensures forall x :: Evaluate(r, Some(x)) == if x > min then None else Some(Violation(Default(NUMERIC_GREATER_THAN), [min]))
  {
    ComparisonRule(IsGreaterThan(min), NUMERIC_GREATER_THAN, min)
  }

  /** greaterThanOrEqual(min): passes iff x >= min (inclusive); null passes. */
  function GreaterThanOrEqualRule(min: int): (r: ConstraintPredicate<int>)
    ensures r.nullAs == VALID && Evaluate(r, None).None?
    ensures forall x :: Evaluate(r, Some(x)) == if x >= min then None else Some(Violation(Default(NUMERIC_GREATER_THAN_OR_EQUAL), [min]))
  {
    ComparisonRule(IsGreaterThanOrEqual(min), NUMERIC_GREATER_THAN_OR_EQUAL, min)
  }

  /** lessThan(max): passes iff x < max (strict); null passes. */
  function LessThanRule(max: int): (r: ConstraintPredicate<int>)
    ensures r.nullAs == VALID && Evaluate(r, None).None?
    ensures forall x :: Evaluate(r, Some(x)) == if x < max then None else Some(Violation(Default(NUMERIC_LESS_THAN), [max]))
  {
    ComparisonRule(IsLessThan(max), NUMERIC_LESS_THAN, max)
  }

  /** lessThanOrEqual(max): passes iff x <= max (inclusive); null passes. */
  function LessThanOrEqualRule(max: int): (r: ConstraintPredicate<int>)
    ensures r.nullAs == VALID && Evaluate(r, None).None?
    ensures forall x :: Evaluate(r, Some(x)) == if x <= max then None else Some(Violation(Default(NUMERIC_LESS_THAN_OR_EQUAL), [max]))
  {
    ComparisonRule(IsLessThanOrEqual(max), NUMERIC_LESS_THAN_OR_EQUAL, max)
  }

  /** A constraint on integers; every comparison builder appends one rule to
      `constraint` and returns the receiver. */
  class NumericConstraint {
    const constraint: Constraint<int>

    constructor ()
      ensures fresh(constraint) && constraint.predicates == []
    {
      constraint := new Constraint();
    }

    method GreaterThan(min: int) returns (c: NumericConstraint)
      modifies constraint
      ensures c == this
      ensures constraint.predicates == old(constraint.predicates) + [GreaterThanRule(min)]
    {
      constraint.predicates := constraint.predicates + [GreaterThanRule(min)];
      c := this;
    }

    method GreaterThanOrEqual(min: int) returns (c: NumericConstraint)
      modifies constraint
      ensures c == this
      ensures constraint.predicates == old(constraint.predicates) + [GreaterThanOrEqualRule(min)]
    {
      constraint.predicates := constraint.predicates + [GreaterThanOrEqualRule(min)];
      c := this;
    }

    method LessThan(max: int) returns (c: NumericConstraint)
      modifies constraint
      ensures c == this
      ensures constraint.predicates == old(constraint.predicates) + [LessThanRule(max)]
    {
      constraint.predicates := constraint.predicates + [LessThanRule(max)];
      c := this;
    }

    method LessThanOrEqual(max: int) returns (c: NumericConstraint)
      modifies constraint
      ensures c == this
      ensures constraint.predicates == old(constraint.predicates) + [LessThanOrEqualRule(max)]
    {
      constraint.predicates := constraint.predicates + [LessThanOrEqualRule(max)];
      c := this;
    }
  }
}
