/**
 * The values a constraint works with: nullable candidates, null policies,
 * violation messages, measured values, and the single rule
 * (ConstraintPredicate) together with how it is evaluated.
 *
 * ConstraintPredicate, NullAs, ViolatedValue, ViolationMessage and
 * CustomConstraint are collaborators of the builder classes; only the parts
 * the builders use are modelled here.
 */
module Core {

  /** A Java reference that may be null: `None` stands for null. */
  datatype Option<T> = None | Some(value: T)

  /** NullAs: whether a null candidate is skipped (VALID) or handed to the
      rule's test (INVALID). */
  datatype NullAs = VALID | INVALID

  /** The built-in message codes (ViolationMessage.Default). */
  datatype DefaultMessage =
    | OBJECT_NOT_NULL
    | OBJECT_IS_NULL
    | BOOLEAN_IS_TRUE
    | BOOLEAN_IS_FALSE
    | CONTAINER_NOT_EMPTY
    | CONTAINER_LESS_THAN
    | CONTAINER_LESS_THAN_OR_EQUAL
    | CONTAINER_GREATER_THAN
    | CONTAINER_GREATER_THAN_OR_EQUAL
    | CONTAINER_FIXED_SIZE
    | NUMERIC_GREATER_THAN
    | NUMERIC_GREATER_THAN_OR_EQUAL
    | NUMERIC_LESS_THAN
    | NUMERIC_LESS_THAN_OR_EQUAL

  /** A message is an opaque value: a built-in code, a caller-supplied
      ViolationMessage (key and default format), or the plain text given to
      `message(String)`. */
  datatype ViolationMessage =
    | Default(code: DefaultMessage)
    | Custom(messageKey: string, defaultMessageFormat: string)
    | Text(text: string)

  /** A quantity measured when a rule fails, e.g. the actual size of a container. */
  datatype ViolatedValue = ViolatedValue(value: int)

  /** What a failing rule reports: its message and the positional arguments,
      i.e. the rule's own arguments followed by the measured value, if any. */
  datatype Violation = Violation(message: ViolationMessage, args: seq<int>)

  /** The test of a rule, in the two shapes ConstraintPredicate is built from:
      `of` (a yes/no test) and `withViolatedValue` (a test that on failure
      yields the measured quantity). Both take the possibly-null candidate. */
  datatype Test<!V> =
    | Of(holds: Option<V> -> bool)
    | WithViolatedValue(measure: Option<V> -> Option<ViolatedValue>)

  /** One rule: test, message, message arguments and null policy. The lazy
      argument supplier of the source is a plain sequence here. */
  datatype ConstraintPredicate<!V> =
    ConstraintPredicate(test: Test<V>, message: ViolationMessage, args: seq<int>, nullAs: NullAs)
  {
    /** The same rule with only its message replaced: test, arguments and
        null policy are kept (see also OverrideMessageVerdict). */
    function OverrideMessage(m: ViolationMessage): (p: ConstraintPredicate<V>)
      ensures p.test == test && p.args == args && p.nullAs == nullAs && p.message == m
    {
      this.(message := m)
    }
  }

  /** A user predicate bundled with its own message: in the source it is at
      the same time a Predicate<V> and a ViolationMessage. */
  datatype CustomConstraint<!V> =
    CustomConstraint(test: Option<V> -> bool, messageKey: string, defaultMessageFormat: string)
  {
    /** The constraint seen as a ViolationMessage. */
    function Message(): ViolationMessage
    {
      Custom(messageKey, defaultMessageFormat)
    }
  }

  /** Lifts a test that the source writes for non-null values (a lambda that
      dereferences its argument) to a test on nullable values. On null the
      source would throw; the lifted test passes instead. Every rule built
      from such a test has policy VALID, so that answer is never consulted. */
  function NonNullTest<V(!new)>(holds: V -> bool): (t: Option<V> -> bool)
    ensures forall x :: t(Some(x)) == holds(x)
  {
    (v: Option<V>) => v.None? || holds(v.value)
  }

  /** Evaluation of one rule against a candidate: `None` means it passes.
      A null candidate is skipped when the policy is VALID; otherwise the
      test decides, null included. */
  function Evaluate<V>(p: ConstraintPredicate<V>, v: Option<V>): (r: Option<Violation>)
    ensures v.None? && p.nullAs == VALID ==> r.None?
    ensures r.Some? ==> r.value.message == p.message && p.args <= r.value.args
    ensures p.test.Of? && r.Some? ==> r.value.args == p.args
  {
    if v.None? && p.nullAs == VALID then None
    else match p.test
      case Of(holds) =>
        if holds(v) then None else Some(Violation(p.message, p.args))
      case WithViolatedValue(measure) =>
        match measure(v)
        case None => None
        case Some(measured) => Some(Violation(p.message, p.args + [measured.value]))
  }

  /** A rule with an overridden message fails on exactly the same candidates,
      with the same arguments, and reports the new message. */
  lemma OverrideMessageVerdict<V>(p: ConstraintPredicate<V>, m: ViolationMessage, v: Option<V>)
    ensures Evaluate(p.OverrideMessage(m), v).Some? <==> Evaluate(p, v).Some?
    ensures Evaluate(p, v).Some? ==> Evaluate(p.OverrideMessage(m), v) == Some(Violation(m, Evaluate(p, v).value.args))
  {
  }

  /** The violation of one rule, as a sequence of length 0 or 1. */
  function Reported(r: Option<Violation>): seq<Violation>
  {
    match r
    case None => []
    case Some(x) => [x]
  }

  /** The violations of a whole rule sequence, in declaration order: what the
      evaluation engine collects for one candidate. */
  function Violations<V>(rules: seq<ConstraintPredicate<V>>, v: Option<V>): (vs: seq<Violation>)
    ensures |vs| <= |rules|
    ensures rules != [] && Evaluate(rules[0], v).Some? ==> vs != [] && vs[0] == Evaluate(rules[0], v).value
  {
    if rules == [] then []
    else Reported(Evaluate(rules[0], v)) + Violations(rules[1..], v)
  }

  /** Violations of a concatenation are the violations of each part, in order. */
  lemma {:induction false} ViolationsConcat<V>(a: seq<ConstraintPredicate<V>>, b: seq<ConstraintPredicate<V>>, v: Option<V>)
    ensures Violations(a + b, v) == Violations(a, v) + Violations(b, v)
  {
    if a == [] {
      assert a + b == b;
    } else {
      assert (a + b)[0] == a[0];
      assert (a + b)[1..] == a[1..] + b;
      ViolationsConcat(a[1..], b, v);
    }
  }

  /** Appending a rule appends at most its own violation, at the end. */
  lemma ViolationsAppend<V>(rules: seq<ConstraintPredicate<V>>, p: ConstraintPredicate<V>, v: Option<V>)
    ensures Violations(rules + [p], v) == Violations(rules, v) + Reported(Evaluate(p, v))
  {
    ViolationsConcat(rules, [p], v);
  }

  /** A null candidate violates no rule whose policy is VALID. */
  lemma {:induction false} NullSkipsValidRules<V>(rules: seq<ConstraintPredicate<V>>)
    requires forall i :: 0 <= i < |rules| ==> rules[i].nullAs == VALID
    ensures Violations(rules, None) == []
  {
    if rules != [] {
      NullSkipsValidRules(rules[1..]);
    }
  }
}
