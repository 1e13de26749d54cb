/**
 * The fluent capability shared by every constraint: an ordered sequence of
 * rules to which each builder call appends one rule at the tail, and the
 * message override that replaces the message of the tail rule.
 */
module Constraints {
  import opened Core

  /** The one builder error: overriding a message when there is no rule. */
  datatype IllegalStateException = IllegalStateException(message: string)

  const NoConstraintToOverride := IllegalStateException("no constraint found to override!")

  datatype Result<T> = Success(value: T) | Failure(error: IllegalStateException)

  /** The rule sequence after a message override: the tail rule takes message
      `m`; an empty sequence is an error and stays as it is. */
  function OverrideLast<V>(rules: seq<ConstraintPredicate<V>>, m: ViolationMessage): (r: Result<seq<ConstraintPredicate<V>>>)
    ensures r.Failure? <==> rules == []
    ensures r.Failure? ==> r.error == NoConstraintToOverride
    ensures r.Success? ==> |r.value| == |rules|
    ensures r.Success? ==> forall i :: 0 <= i < |rules| - 1 ==> r.value[i] == rules[i]
    ensures r.Success? ==> r.value[|rules| - 1] == rules[|rules| - 1].OverrideMessage(m)
  {
    if rules == [] then Failure(NoConstraintToOverride)
    else Success(rules[..|rules| - 1] + [rules[|rules| - 1].OverrideMessage(m)])
  }

  /** After a message override only the tail rule reports differently: the
      earlier rules report exactly what they did, and the tail rule fails on
      the same candidates with the same arguments but the new message. */
  lemma {:induction false} OverrideLastViolations<V>(rules: seq<ConstraintPredicate<V>>, m: ViolationMessage, v: Option<V>)
    requires rules != []
    ensures var last := Evaluate(rules[|rules| - 1], v);
      Violations(OverrideLast(rules, m).value, v)
      == Violations(rules[..|rules| - 1], v) + (if last.Some? then [Violation(m, last.value.args)] else [])
  {
    var init, last := rules[..|rules| - 1], rules[|rules| - 1];
    assert rules == init + [last];
    ViolationsAppend(init, last.OverrideMessage(m), v);
    OverrideMessageVerdict(last, m, v);
  }

  /** A message override right after a rule was appended always succeeds and
      re-labels only that rule: the earlier rules report as before. */
  lemma MessageAfterAppend<V>(rules: seq<ConstraintPredicate<V>>, p: ConstraintPredicate<V>, m: ViolationMessage, v: Option<V>)
    ensures OverrideLast(rules + [p], m) == Success(rules + [p.OverrideMessage(m)])
    ensures Violations(OverrideLast(rules + [p], m).value, v)
      == Violations(rules, v) + Reported(Evaluate(p.OverrideMessage(m), v))
  {
    assert (rules + [p])[..|rules|] == rules;
    ViolationsAppend(rules, p.OverrideMessage(m), v);
  }

  /** notNull(): violates exactly on null, with no arguments. */
  function NotNullRule<V(!new)>(): (r: ConstraintPredicate<V>)
    ensures r.message == Default(OBJECT_NOT_NULL) && r.args == [] && r.nullAs == INVALID
    ensures Evaluate(r, None) == Some(Violation(Default(OBJECT_NOT_NULL), []))
    ensures forall x: V :: Evaluate(r, Some(x)).None?
  {
    ConstraintPredicate(Of((v: Option<V>) => v.Some?), Default(OBJECT_NOT_NULL), [], INVALID)
  }

  /** isNull(): passes exactly on null, although its policy is INVALID,
      because the test itself is asked about null. */
  function IsNullRule<V(!new)>(): (r: ConstraintPredicate<V>)
    ensures r.message == Default(OBJECT_IS_NULL) && r.args == [] && r.nullAs == INVALID
    ensures Evaluate(r, None).None?
    ensures forall x: V :: Evaluate(r, Some(x)) == Some(Violation(Default(OBJECT_IS_NULL), []))
  {
    ConstraintPredicate(Of((v: Option<V>) => v.None?), Default(OBJECT_IS_NULL), [], INVALID)
  }

  /** predicate(p, m): null is skipped; a present value violates iff `p`
      rejects it. */
  function PredicateRule<V(!new)>(p: Option<V> -> bool, m: ViolationMessage): (r: ConstraintPredicate<V>)
    ensures r.message == m && r.args == [] && r.nullAs == VALID
    ensures Evaluate(r, None).None?
    ensures forall x: V :: Evaluate(r, Some(x)) == if p(Some(x)) then None else Some(Violation(m, []))
  {
    ConstraintPredicate(Of(p), m, [], VALID)
  }

  /** predicateNullable(p, m): `p` decides on every candidate, null included. */
  function PredicateNullableRule<V(!new)>(p: Option<V> -> bool, m: ViolationMessage): (r: ConstraintPredicate<V>)
    ensures r.message == m && r.args == [] && r.nullAs == INVALID
    ensures forall v: Option<V> :: Evaluate(r, v) == if p(v) then None else Some(Violation(m, []))
  {
    ConstraintPredicate(Of(p), m, [], INVALID)
  }

  /** A constraint under construction: the rules in declaration order. Every
      builder changes only the rule sequence and returns the receiver. */
  class Constraint<V(!new)> {
    var predicates: seq<ConstraintPredicate<V>>

    constructor ()
      ensures predicates == []
    {
      predicates := [];
    }

    /** message(String): the tail rule's message becomes the given text. */
    method MessageText(message: string) returns (r: Result<Constraint<V>>)
      modifies this
      ensures old(predicates) == [] ==> r == Failure(NoConstraintToOverride) && predicates == []
      ensures old(predicates) != [] ==> r == Success(this) && OverrideLast(old(predicates), Text(message)) == Success(predicates)
    {
      r := Message(Text(message));
    }

    /** message(ViolationMessage): pops the tail rule and pushes it back with
        its message replaced; with no rule it fails and changes nothing. */
    method Message(message: ViolationMessage) returns (r: Result<Constraint<V>>)
      modifies this
      ensures old(predicates) == [] ==> r == Failure(NoConstraintToOverride) && predicates == []
      ensures old(predicates) != [] ==> r == Success(this) && OverrideLast(old(predicates), message) == Success(predicates)
    {
      if predicates == [] {
        return Failure(NoConstraintToOverride);
      }
      var last := predicates[|predicates| - 1];
      predicates := predicates[..|predicates| - 1];
      predicates := predicates + [last.OverrideMessage(message)];
      r := Success(this);
    }

    method NotNull() returns (c: Constraint<V>)
      modifies this
      ensures c == this
      ensures predicates == old(predicates) + [NotNullRule()]
    {
      predicates := predicates + [NotNullRule()];
      c := this;
    }

    method IsNull() returns (c: Constraint<V>)
      modifies this
      ensures c == this
      ensures predicates == old(predicates) + [IsNullRule()]
    {
      predicates := predicates + [IsNullRule()];
      c := this;
    }

    method Predicate(p: Option<V> -> bool, violationMessage: ViolationMessage) returns (c: Constraint<V>)
      modifies this
      ensures c == this
      ensures predicates == old(predicates) + [PredicateRule(p, violationMessage)]
    {
      predicates := predicates + [PredicateRule(p, violationMessage)];
      c := this;
    }

    method PredicateNullable(p: Option<V> -> bool, violationMessage: ViolationMessage) returns (c: Constraint<V>)
      modifies this
      ensures c == this
      ensures predicates == old(predicates) + [PredicateNullableRule(p, violationMessage)]
    {
      predicates := predicates + [PredicateNullableRule(p, violationMessage)];
      c := this;
    }

    /** predicate(CustomConstraint): the constraint is both test and message. */
    method PredicateCustom(constraint: CustomConstraint<V>) returns (c: Constraint<V>)
      modifies this
      ensures c == this
      ensures predicates == old(predicates) + [PredicateRule(constraint.test, constraint.Message())]
    {
      c := Predicate(constraint.test, constraint.Message());
    }

    /** predicateNullable(CustomConstraint): the constraint is both test and message. */
    method PredicateNullableCustom(constraint: CustomConstraint<V>) returns (c: Constraint<V>)
      modifies this
      ensures c == this
      ensures predicates == old(predicates) + [PredicateNullableRule(constraint.test, constraint.Message())]
    {
      c := PredicateNullable(constraint.test, constraint.Message());
    }
  }
}
