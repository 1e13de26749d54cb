# Constraint rule builder of a Java validation library, modelled in Dafny

A constraint is an ordered sequence of rules (`ConstraintPredicate`s) for one
value. Each fluent builder call appends one rule at the tail and returns the
constraint itself. `message(...)` pops the tail rule and pushes it back with
its message replaced. It throws `IllegalStateException` when there is no rule.
A rule is a test, a message, message arguments and a null policy (`NullAs`).
Evaluating a rule on a candidate that may be null gives nothing (pass) or a
violation. The violation holds the message and the arguments. Size rules add
the measured size as the last argument.

Files:

- `core.dfy` (module `Core`): the collaborators, kept to what the builders
  use. These are nullable candidates (`Option`), `NullAs`, the built-in
  message codes, `ViolationMessage`, `ViolatedValue`, `Violation`,
  `CustomConstraint` (whose `Message` is the constraint used as its own
  `ViolationMessage`) and `ConstraintPredicate` with `OverrideMessage`. It also
  holds `Evaluate` (one rule on one candidate) and `Violations` (a whole rule
  sequence, in declaration order).
- `constraint.dfy` (module `Constraints`): the shared builders of
  `Constraint.java`. The class `Constraint<V>` holds `predicates` and has
  `Message`, `MessageText`, `NotNull`, `IsNull`, `Predicate`,
  `PredicateNullable` and the two `CustomConstraint` overloads. Each builder's
  rule is also given as a function (`NotNullRule`, ...) whose contract states
  how that rule evaluates.
- `container_constraint.dfy`, `numeric_constraint.dfy`,
  `boolean_constraint.dfy`: the three rule families. Each is a class that
  holds its `Constraint` and appends to it. `NumericConstraints.IsGreaterThan`,
  `IsGreaterThanOrEqual`, `IsLessThan` and `IsLessThanOrEqual` are the four
  abstract comparison factories, instantiated for integers.
- `scenarios.dfy`: builder chains as a caller writes them, and what the built
  sequences report. It covers null, too long (a custom message, arguments
  `[5, 6]`), too short (`[2, 1]`) and `message` with no rule.

Null handling follows the code. A `VALID` rule skips null. An `INVALID` rule
runs its own test on null. So `isNull()` has policy `INVALID` and still passes
on null (`Constraint.java` line 60). `notEmpty()` fails on null because its
test checks `x != null`.

One could read the null policy as deciding null on its own, so that the test
never sees null. That reading would make `isNull()` fail on null. The model
follows the code instead: under `INVALID` the test decides.

## Model

| member | source | states |
|---|---|---|
| Core.ConstraintPredicate.OverrideMessage | src/main/java/am/ik/yavi/constraint/Constraint.java:40 | the override keeps test, arguments and null policy and sets only the message |
| Core.OverrideMessageVerdict | src/main/java/am/ik/yavi/constraint/Constraint.java:49 | an overridden rule fails on exactly the same candidates, with the same arguments, and reports the new message |
| Core.Evaluate | src/main/java/am/ik/yavi/constraint/Constraint.java:65-76 | evaluation of one rule (ConstraintPredicate's own evaluation is not part of this model; the cited lines are where the VALID and INVALID policies are set): a null candidate never violates a VALID rule; a violation carries the rule's message and starts with the rule's arguments; a yes/no rule adds no measured value |
| Core.Violations | src/main/java/am/ik/yavi/constraint/Constraint.java:31 | at most one violation per rule; when the first rule fails, its violation comes first |
| Core.ViolationsConcat | src/main/java/am/ik/yavi/constraint/Constraint.java:31 | the violations of `a + b` are those of `a` followed by those of `b`: report order is declaration order |
| Core.ViolationsAppend | src/main/java/am/ik/yavi/constraint/Constraint.java:53-56 | appending a rule adds at most its own violation, at the end, and leaves earlier reports unchanged |
| Core.NullSkipsValidRules | src/main/java/am/ik/yavi/constraint/base/NumericConstraintBase.java:37-59 | a sequence of VALID rules reports nothing for a null candidate |
| Constraints.OverrideLast | src/main/java/am/ik/yavi/constraint/Constraint.java:44-51 | fails with IllegalStateException("no constraint found to override!") iff there is no rule; otherwise same length, every earlier rule unchanged, tail rule re-messaged |
| Constraints.OverrideLastViolations | src/main/java/am/ik/yavi/constraint/Constraint.java:44-51 | after an override the earlier rules report as before and the tail rule fails exactly as before, now with the new message |
| Constraints.MessageAfterAppend | src/main/java/am/ik/yavi/constraint/Constraint.java:36-40 | `message` right after a builder call always succeeds and re-labels only the rule just added |
| Constraints.NotNullRule | src/main/java/am/ik/yavi/constraint/Constraint.java:53-57 | code OBJECT_NOT_NULL, no arguments, INVALID; violates on null, passes on every non-null value |
| Constraints.IsNullRule | src/main/java/am/ik/yavi/constraint/Constraint.java:59-63 | code OBJECT_IS_NULL, no arguments, INVALID; passes on null, violates on every non-null value |
| Constraints.PredicateRule | src/main/java/am/ik/yavi/constraint/Constraint.java:65-69 | given message, no arguments, VALID; null passes; a value violates iff the predicate rejects it |
| Constraints.PredicateNullableRule | src/main/java/am/ik/yavi/constraint/Constraint.java:71-76 | given message, no arguments, INVALID; the predicate decides on every candidate, null included |
| Constraints.Constraint.Message | src/main/java/am/ik/yavi/constraint/Constraint.java:44-51 | on no rule: IllegalStateException and the sequence stays empty; otherwise returns the receiver and the new sequence is OverrideLast of the old |
| Constraints.Constraint.MessageText | src/main/java/am/ik/yavi/constraint/Constraint.java:35-42 | the same as Message, with the text as the new message |
| Constraints.Constraint.NotNull | src/main/java/am/ik/yavi/constraint/Constraint.java:53-57 | appends exactly NotNullRule at the tail, keeps every earlier rule, returns the receiver |
| Constraints.Constraint.IsNull | src/main/java/am/ik/yavi/constraint/Constraint.java:59-63 | appends exactly IsNullRule at the tail, keeps every earlier rule, returns the receiver |
| Constraints.Constraint.Predicate | src/main/java/am/ik/yavi/constraint/Constraint.java:65-69 | appends exactly PredicateRule(p, m), keeps every earlier rule, returns the receiver |
| Constraints.Constraint.PredicateNullable | src/main/java/am/ik/yavi/constraint/Constraint.java:71-76 | appends exactly PredicateNullableRule(p, m), keeps every earlier rule, returns the receiver |
| Constraints.Constraint.PredicateCustom | src/main/java/am/ik/yavi/constraint/Constraint.java:78-80 | the same as Predicate with the custom constraint as both test and message |
| Constraints.Constraint.PredicateNullableCustom | src/main/java/am/ik/yavi/constraint/Constraint.java:82-84 | the same as PredicateNullable with the custom constraint as both test and message |
| ContainerConstraints.NotEmptyRule | src/main/java/am/ik/yavi/constraint/base/ContainerConstraintBase.java:36-40 | code CONTAINER_NOT_EMPTY, no arguments, INVALID; violates on null and on size 0; passes iff size is not 0 |
| ContainerConstraints.CheckSizePredicate | src/main/java/am/ik/yavi/constraint/base/ContainerConstraintBase.java:43-52 | reports nothing iff the predicate holds; otherwise a ViolatedValue of exactly the container's size |
| ContainerConstraints.LessThanRule | src/main/java/am/ik/yavi/constraint/base/ContainerConstraintBase.java:54-61 | VALID, null passes; passes iff size < max (strict); otherwise CONTAINER_LESS_THAN with arguments [max, size] |
| ContainerConstraints.LessThanOrEqualRule | src/main/java/am/ik/yavi/constraint/base/ContainerConstraintBase.java:63-70 | VALID, null passes; passes iff size <= max; otherwise CONTAINER_LESS_THAN_OR_EQUAL with [max, size] |
| ContainerConstraints.GreaterThanRule | src/main/java/am/ik/yavi/constraint/base/ContainerConstraintBase.java:72-79 | VALID, null passes; passes iff size > min (strict); otherwise CONTAINER_GREATER_THAN with [min, size] |
| ContainerConstraints.GreaterThanOrEqualRule | src/main/java/am/ik/yavi/constraint/base/ContainerConstraintBase.java:81-89 | VALID, null passes; passes iff size >= min; otherwise CONTAINER_GREATER_THAN_OR_EQUAL with [min, size] |
| ContainerConstraints.FixedSizeRule | src/main/java/am/ik/yavi/constraint/base/ContainerConstraintBase.java:91-98 | VALID, null passes; passes iff size == n; otherwise CONTAINER_FIXED_SIZE with [n, size] |
| ContainerConstraints.ContainerConstraint.NotEmpty | src/main/java/am/ik/yavi/constraint/base/ContainerConstraintBase.java:36-41 | appends exactly NotEmptyRule at the tail, keeps every earlier rule, returns the receiver |
| ContainerConstraints.ContainerConstraint.LessThan | src/main/java/am/ik/yavi/constraint/base/ContainerConstraintBase.java:54-61 | appends exactly LessThanRule(size, max), keeps every earlier rule, returns the receiver |
| ContainerConstraints.ContainerConstraint.LessThanOrEqual | src/main/java/am/ik/yavi/constraint/base/ContainerConstraintBase.java:63-70 | appends exactly LessThanOrEqualRule(size, max), keeps every earlier rule, returns the receiver |
| ContainerConstraints.ContainerConstraint.GreaterThan | src/main/java/am/ik/yavi/constraint/base/ContainerConstraintBase.java:72-79 | appends exactly GreaterThanRule(size, min), keeps every earlier rule, returns the receiver |
| ContainerConstraints.ContainerConstraint.GreaterThanOrEqual | src/main/java/am/ik/yavi/constraint/base/ContainerConstraintBase.java:81-89 | appends exactly GreaterThanOrEqualRule(size, min), keeps every earlier rule, returns the receiver |
| ContainerConstraints.ContainerConstraint.FixedSize | src/main/java/am/ik/yavi/constraint/base/ContainerConstraintBase.java:91-98 | appends exactly FixedSizeRule(size, n), keeps every earlier rule, returns the receiver |
| NumericConstraints.GreaterThanRule | src/main/java/am/ik/yavi/constraint/base/NumericConstraintBase.java:37-41 | VALID, null passes; passes iff x > min; otherwise NUMERIC_GREATER_THAN with arguments [min] only |
| NumericConstraints.GreaterThanOrEqualRule | src/main/java/am/ik/yavi/constraint/base/NumericConstraintBase.java:43-47 | VALID, null passes; passes iff x >= min; otherwise NUMERIC_GREATER_THAN_OR_EQUAL with [min] |
| NumericConstraints.LessThanRule | src/main/java/am/ik/yavi/constraint/base/NumericConstraintBase.java:49-53 | VALID, null passes; passes iff x < max; otherwise NUMERIC_LESS_THAN with [max] |
| NumericConstraints.LessThanOrEqualRule | src/main/java/am/ik/yavi/constraint/base/NumericConstraintBase.java:55-59 | VALID, null passes; passes iff x <= max; otherwise NUMERIC_LESS_THAN_OR_EQUAL with [max] |
| NumericConstraints.NumericConstraint.GreaterThan | src/main/java/am/ik/yavi/constraint/base/NumericConstraintBase.java:37-41 | appends exactly GreaterThanRule(min), keeps every earlier rule, returns the receiver |
| NumericConstraints.NumericConstraint.GreaterThanOrEqual | src/main/java/am/ik/yavi/constraint/base/NumericConstraintBase.java:43-47 | appends exactly GreaterThanOrEqualRule(min), keeps every earlier rule, returns the receiver |
| NumericConstraints.NumericConstraint.LessThan | src/main/java/am/ik/yavi/constraint/base/NumericConstraintBase.java:49-53 | appends exactly LessThanRule(max), keeps every earlier rule, returns the receiver |
| NumericConstraints.NumericConstraint.LessThanOrEqual | src/main/java/am/ik/yavi/constraint/base/NumericConstraintBase.java:55-59 | appends exactly LessThanOrEqualRule(max), keeps every earlier rule, returns the receiver |
| BooleanConstraints.IsTrueRule | src/main/java/am/ik/yavi/constraint/BooleanConstraint.java:28-32 | code BOOLEAN_IS_TRUE, no arguments, VALID; passes on true and on null, violates on false |
| BooleanConstraints.IsFalseRule | src/main/java/am/ik/yavi/constraint/BooleanConstraint.java:34-38 | code BOOLEAN_IS_FALSE, no arguments, VALID; passes on false and on null, violates on true |
| BooleanConstraints.BooleanConstraint.IsTrue | src/main/java/am/ik/yavi/constraint/BooleanConstraint.java:28-32 | appends exactly IsTrueRule, keeps every earlier rule, returns the receiver |
| BooleanConstraints.BooleanConstraint.IsFalse | src/main/java/am/ik/yavi/constraint/BooleanConstraint.java:34-38 | appends exactly IsFalseRule, keeps every earlier rule, returns the receiver |
| BooleanConstraints.BooleanConstraint.Cast | src/main/java/am/ik/yavi/constraint/BooleanConstraint.java:40-43 | returns the receiver itself |
| Scenarios.BuildNameRules | src/main/java/am/ik/yavi/constraint/base/ContainerConstraintBase.java:54-89 | a chain of notNull, lessThan(5), message, greaterThanOrEqual(2) builds exactly the three rules in order, the middle one re-messaged |
| Scenarios.NameRulesTooLong | src/main/java/am/ik/yavi/constraint/base/ContainerConstraintBase.java:54-61 | for a six-character name those rules report only the re-messaged lessThan violation, with arguments [5, 6] |
| Scenarios.NameRulesTooShort | src/main/java/am/ik/yavi/constraint/base/ContainerConstraintBase.java:81-89 | for a one-character name those rules report only CONTAINER_GREATER_THAN_OR_EQUAL with arguments [2, 1] |

## Left out

- Self-typed generics: the source's `C extends Constraint<T, V, C>` and `cast()` are not modelled as types. Each family class holds its `Constraint` in a field. The shared builders (`NotNull`, `Message`, ...) are called on that field and return the `Constraint`, not the family object. The family builders return the family object itself.
- The abstract `cast()` of `Constraint` has no member of its own. Every builder states that it returns the receiver. Only `BooleanConstraint` defines `cast()` in the source, and it has `Cast`.
- The argument `Supplier` is a plain sequence. Its laziness has no observable effect.
- Arguments and measured values are integers. The container thresholds and sizes are Java `int`s. Only comparisons are applied to them, so 32-bit wrap-around never matters. The numeric thresholds have the generic value type; for them see the integer instantiation below.
- `message(String)`: the string is modelled as an opaque `Text` message. How the library combines it with the old message key, and how templates are rendered, is not part of this model.
- `ConstraintPredicate`, `NullAs`, `ViolatedValue`, `ViolationMessage`, `CustomConstraint` and `ConstraintBase` are not part of this model beyond the fields the builders use. `ConstraintPredicate`'s evaluation is outside the modelled files. `Evaluate` assumes that a failing size rule appends its measured value after the rule's arguments, and that a yes/no rule adds nothing.
- Java lambdas that dereference their argument throw on null: the numeric comparisons, `x -> x` and `x -> !x` of the Boolean rules, and the size tests. The model's versions (`NonNullTest`, `CheckSizePredicate`) pass on null instead. Every rule built from them is VALID, so evaluation never asks them about null.
- Numeric representations: only integers are modelled; numeric thresholds are integers for that reason. The four abstract comparison factories are instantiated with integer `>`, `>=`, `<` and `<=`. BigDecimal, floating point and the other concrete subclasses are not part of this model.
- The evaluation engine that walks object fields and aggregates violations is not modelled. `Violations` stands for its per-value, declaration-order collection only.
- The build-then-publish thread-safety discipline is not modelled. This is concurrency.
