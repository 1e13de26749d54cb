/**
 * Size rules for container-like values (collections, strings, arrays, maps).
 * The size of a candidate comes from a size function that each concrete
 * container constraint supplies.
 */
module ContainerConstraints {
  import opened Core
  import opened Constraints

  /** notEmpty(): violates on null and on size 0, passes on any other size. */
  function NotEmptyRule<V(!new)>(size: V -> int): (r: ConstraintPredicate<V>)
    ensures r.message == Default(CONTAINER_NOT_EMPTY) && r.args == [] && r.nullAs == INVALID
    ensures Evaluate(r, None) == Some(Violation(Default(CONTAINER_NOT_EMPTY), []))
    ensures forall x :: Evaluate(r, Some(x)).None? <==> size(x) != 0
    ensures forall x :: size(x) == 0 ==> Evaluate(r, Some(x)) == Some(Violation(Default(CONTAINER_NOT_EMPTY), []))
  {
    ConstraintPredicate(Of((v: Option<V>) => v.Some? && size(v.value) != 0), Default(CONTAINER_NOT_EMPTY), [], INVALID)
  }

  /** checkSizePredicate(p, size): nothing when `p` accepts the container,
      otherwise the container's actual size as the measured value. On null it
      reports nothing (the source would throw; see NonNullTest). */
  function CheckSizePredicate<V(!new)>(holds: V -> bool, size: V -> int): (f: Option<V> -> Option<ViolatedValue>)
    ensures forall x :: f(Some(x)).None? <==> holds(x)
    ensures forall x :: !holds(x) ==> f(Some(x)) == Some(ViolatedValue(size(x)))
  {
    (v: Option<V>) =>
      if v.None? || holds(v.value) then None else Some(ViolatedValue(size(v.value)))
  }

  /** A size rule: policy VALID, arguments [bound], measured size on failure. */
  function SizeRule<V(!new)>(holds: V -> bool, size: V -> int, code: DefaultMessage, bound: int): (r: ConstraintPredicate<V>)
    ensures r.message == Default(code) && r.args == [bound] && r.nullAs == VALID
    ensures Evaluate(r, None).None?
    ensures forall x :: Evaluate(r, Some(x)) == if holds(x) then None else Some(Violation(Default(code), [bound, size(x)]))
  {
    var r := ConstraintPredicate(WithViolatedValue(CheckSizePredicate(holds, size)), Default(code), [bound], VALID);
    assert forall x :: !holds(x) ==> Evaluate(r, Some(x)).value.args == [bound, size(x)] by {
      forall x | !holds(x) ensures Evaluate(r, Some(x)).value.args == [bound, size(x)] {
        assert [bound] + [size(x)] == [bound, size(x)];
      }
    }
    r
  }

  /** lessThan(max): passes iff size < max (strict). */
  function LessThanRule<V(!new)>(size: V -> int, max: int): (r: ConstraintPredicate<V>)
    ensures r.nullAs == VALID && Evaluate(r, None).None?
    ensures forall x :: Evaluate(r, Some(x)).None? <==> size(x) < max
    ensures forall x :: size(x) >= max ==> Evaluate(r, Some(x)) == Some(Violation(Default(CONTAINER_LESS_THAN), [max, size(x)]))
  {
    SizeRule((x: V) => size(x) < max, size, CONTAINER_LESS_THAN, max)
  }

  /** lessThanOrEqual(max): passes iff size <= max (inclusive). */
  function LessThanOrEqualRule<V(!new)>(size: V -> int, max: int): (r: ConstraintPredicate<V>)
    ensures r.nullAs == VALID && Evaluate(r, None).None?
    ensures forall x :: Evaluate(r, Some(x)).None? <==> size(x) <= max
    ensures forall x :: size(x) > max ==> Evaluate(r, Some(x)) == Some(Violation(Default(CONTAINER_LESS_THAN_OR_EQUAL), [max, size(x)]))
  {
    SizeRule((x: V) => size(x) <= max, size, CONTAINER_LESS_THAN_OR_EQUAL, max)
  }

  /** greaterThan(min): passes iff size > min (strict). */
  function GreaterThanRule<V(!new)>(size: V -> int, min: int): (r: ConstraintPredicate<V>)
    ensures r.nullAs == VALID && Evaluate(r, None).None?
    ensures forall x :: Evaluate(r, Some(x)).None? <==> size(x) > min
    ensures forall x :: size(x) <= min ==> Evaluate(r, Some(x)) == Some(Violation(Default(CONTAINER_GREATER_THAN), [min, size(x)]))
  {
    SizeRule((x: V) => size(x) > min, size, CONTAINER_GREATER_THAN, min)
  }

  /** greaterThanOrEqual(min): passes iff size >= min (inclusive). */
  function GreaterThanOrEqualRule<V(!new)>(size: V -> int, min: int): (r: ConstraintPredicate<V>)
    ensures r.nullAs == VALID && Evaluate(r, None).None?
    ensures forall x :: Evaluate(r, Some(x)).None? <==> size(x) >= min
    ensures forall x :: size(x) < min ==> Evaluate(r, Some(x)) == Some(Violation(Default(CONTAINER_GREATER_THAN_OR_EQUAL), [min, size(x)]))
  {
    SizeRule((x: V) => size(x) >= min, size, CONTAINER_GREATER_THAN_OR_EQUAL, min)
  }

  /** fixedSize(n): passes iff size == n. */
  function FixedSizeRule<V(!new)>(size: V -> int, n: int): (r: ConstraintPredicate<V>)
    ensures r.nullAs == VALID && Evaluate(r, None).None?
    ensures forall x :: Evaluate(r, Some(x)).None? <==> size(x) == n
    ensures forall x :: size(x) != n ==> Evaluate(r, Some(x)) == Some(Violation(Default(CONTAINER_FIXED_SIZE), [n, size(x)]))
  {
    SizeRule((x: V) => size(x) == n, size, CONTAINER_FIXED_SIZE, n)
  }

  /** A constraint on containers. `constraint` holds the rule sequence the
      shared builders work on; every size builder appends one rule to it and
      returns the receiver. */
  class ContainerConstraint<V(!new)> {
    const constraint: Constraint<V>
    const size: V -> int

    constructor (size: V -> int)
      ensures this.size == size && fresh(constraint) && constraint.predicates == []
    {
      this.size := size;
      constraint := new Constraint();
    }

    method NotEmpty() returns (c: ContainerConstraint<V>)
      modifies constraint
      ensures c == this
      ensures constraint.predicates == old(constraint.predicates) + [NotEmptyRule(size)]
    {
      constraint.predicates := constraint.predicates + [NotEmptyRule(size)];
      c := this;
    }

    method LessThan(max: int) returns (c: ContainerConstraint<V>)
      modifies constraint
      ensures c == this
      ensures constraint.predicates == old(constraint.predicates) + [LessThanRule(size, max)]
    {
      constraint.predicates := constraint.predicates + [LessThanRule(size, max)];
      c := this;
    }

    method LessThanOrEqual(max: int) returns (c: ContainerConstraint<V>)
      modifies constraint
      ensures c == this
      ensures constraint.predicates == old(constraint.predicates) + [LessThanOrEqualRule(size, max)]
    {
      constraint.predicates := constraint.predicates + [LessThanOrEqualRule(size, max)];
      c := this;
    }

    method GreaterThan(min: int) returns (c: ContainerConstraint<V>)
      modifies constraint
      ensures c == this
      ensures constraint.predicates == old(constraint.predicates) + [GreaterThanRule(size, min)]
    {
      constraint.predicates := constraint.predicates + [GreaterThanRule(size, min)];
      c := this;
    }

    method GreaterThanOrEqual(min: int) returns (c: ContainerConstraint<V>)
      modifies constraint
      ensures c == this
      ensures constraint.predicates == old(constraint.predicates) + [GreaterThanOrEqualRule(size, min)]
    {
      constraint.predicates := constraint.predicates + [GreaterThanOrEqualRule(size, min)];
      c := this;
    }

    method FixedSize(n: int) returns (c: ContainerConstraint<V>)
      modifies constraint
      ensures c == this
      ensures constraint.predicates == old(constraint.predicates) + [FixedSizeRule(size, n)]
    {
      constraint.predicates := constraint.predicates + [FixedSizeRule(size, n)];
      c := this;
    }
  }
}
