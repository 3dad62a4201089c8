/**
 Write conditions: the flattened set form that `&` and `|` build (store/conditions.py) and
 its enforcement against the latest event of a stream (store/adapters/memory/converters.py).
 */
module Conditions {
  import opened Prelude

  datatype WriteCondition =
    | NoCondition
    | PositionIs(position: Option<int>)
    | EmptyStream
    | AndCondition(conditions: set<WriteCondition>)
    | OrCondition(conditions: set<WriteCondition>)

  datatype Combination = And | Or

  predicate IsCombination(kind: Combination, c: WriteCondition) {
    if kind == And then c.AndCondition? else c.OrCondition?
  }

  function Construct(kind: Combination, conditions: set<WriteCondition>): WriteCondition {
    if kind == And then AndCondition(conditions) else OrCondition(conditions)
  }

  function Combine(a: WriteCondition, b: WriteCondition, kind: Combination): WriteCondition {
    if IsCombination(kind, a) && IsCombination(kind, b) then Construct(kind, a.conditions + b.conditions)
    else if IsCombination(kind, a) then Construct(kind, a.conditions + {b})
    else if IsCombination(kind, b) then Construct(kind, {a} + b.conditions)
    else Construct(kind, {a, b})
  }

  // Meaning.

  /** What a condition asks of the position of the stream's latest event. */
  ghost predicate Holds(c: WriteCondition, latest: Option<int>)
    decreases c
  {
    match c
    case NoCondition => true
    case PositionIs(position) => latest == position
    case EmptyStream => latest == None
    case AndCondition(conditions) => forall part :: part in conditions ==> Holds(part, latest)
    case OrCondition(conditions) => conditions == {} || exists part :: part in conditions && Holds(part, latest)
  }

  /** An expression a caller writes with `&` and `|`. */
  datatype Expression =
    | Leaf(condition: WriteCondition)
    | Combined(left: Expression, right: Expression, kind: Combination)

  function Build(e: Expression): WriteCondition {
    match e
    case Leaf(condition) => condition
    case Combined(left, right, kind) => Combine(Build(left), Build(right), kind)
  }

  ghost predicate Meaning(e: Expression, latest: Option<int>) {
    match e
    case Leaf(condition) => Holds(condition, latest)
    case Combined(left, right, And) => Meaning(left, latest) && Meaning(right, latest)
    case Combined(left, right, Or) => Meaning(left, latest) || Meaning(right, latest)
  }

  ghost predicate ForLeaves(e: Expression, p: WriteCondition -> bool) {
    match e
    case Leaf(condition) => p(condition)
    case Combined(left, right, _) => ForLeaves(left, p) && ForLeaves(right, p)
  }

  /** An empty Or passes its enforcer, unlike an empty disjunction. */
  predicate NotEmptyOr(c: WriteCondition) {
    c != OrCondition({})
  }

  function Operands(kind: Combination, c: WriteCondition): set<WriteCondition> {
    if IsCombination(kind, c) then c.conditions else {c}
  }

  lemma CombineOperands(a: WriteCondition, b: WriteCondition, kind: Combination)
    ensures Combine(a, b, kind) == Construct(kind, Operands(kind, a) + Operands(kind, b))
    ensures IsCombination(kind, Combine(a, b, kind))
    ensures Operands(kind, Combine(a, b, kind)) == Operands(kind, a) + Operands(kind, b)
  {
  }

  /** What combining two conditions is meant to ask. */
  ghost predicate CombinedMeaning(a: WriteCondition, b: WriteCondition, kind: Combination, latest: Option<int>) {
    if kind == And then Holds(a, latest) && Holds(b, latest) else Holds(a, latest) || Holds(b, latest)
  }

  /** An empty Or, which passes alone, joined by `|` to a condition that fails. */
  ghost predicate LosesEmptyOr(a: WriteCondition, b: WriteCondition, kind: Combination, latest: Option<int>) {
    kind == Or && ((!NotEmptyOr(a) && !Holds(b, latest)) || (!NotEmptyOr(b) && !Holds(a, latest)))
  }

  /**
   The set form of two combined conditions means their conjunction or disjunction, except exactly
   where an empty Or is joined to a condition that fails: it disappears from the set.
   */
  lemma CombineMeaningExactly(
    a: WriteCondition, b: WriteCondition, kind: Combination, latest: Option<int>)
    ensures (Holds(Combine(a, b, kind), latest) <==> CombinedMeaning(a, b, kind, latest))
        <==> !LosesEmptyOr(a, b, kind, latest)
    ensures LosesEmptyOr(a, b, kind, latest) ==> !Holds(Combine(a, b, kind), latest)
    ensures NotEmptyOr(a) || NotEmptyOr(b) ==> NotEmptyOr(Combine(a, b, kind))
  {
    var whole, x, y := Combine(a, b, kind), Operands(kind, a), Operands(kind, b);
    CombineOperands(a, b, kind);
    OperandsMeaning(kind, a, latest);
    OperandsMeaning(kind, b, latest);
    OperandsMeaning(kind, whole, latest);
    assert kind == And || kind == Or;
  }

  /** A condition asks what its operands ask, unless it is an empty Or. */
  lemma OperandsMeaning(kind: Combination, c: WriteCondition, latest: Option<int>)
    ensures kind == And ==>
      (Holds(c, latest) <==> forall part :: part in Operands(And, c) ==> Holds(part, latest))
    ensures kind == Or ==>
      (Holds(c, latest) <==> !NotEmptyOr(c) || exists part :: part in Operands(Or, c) && Holds(part, latest))
    ensures kind == Or ==> (Operands(Or, c) == {} <==> !NotEmptyOr(c))
  {
  }

  lemma CombineMeaning(a: WriteCondition, b: WriteCondition, kind: Combination, latest: Option<int>)
    requires NotEmptyOr(a) && NotEmptyOr(b)
    ensures NotEmptyOr(Combine(a, b, kind))
    ensures Holds(Combine(a, b, kind), latest) <==> CombinedMeaning(a, b, kind, latest)
  {
    CombineMeaningExactly(a, b, kind, latest);
  }

  /** The set form means what the expression says. */
  lemma {:induction false} BuildMeaning(e: Expression, latest: Option<int>)
    requires ForLeaves(e, NotEmptyOr)
    ensures NotEmptyOr(Build(e)) && (Holds(Build(e), latest) <==> Meaning(e, latest))
  {
    if e.Combined? {
      BuildMeaning(e.left, latest);
      BuildMeaning(e.right, latest);
      CombineMeaning(Build(e.left), Build(e.right), e.kind, latest);
      assert e.kind == And || e.kind == Or;
    }
  }

  /** So every empty Or loses its meaning beside some condition: it passes alone, but not next to one that fails. */
  lemma EmptyOrLosesItsMeaning(c: WriteCondition, latest: Option<int>)
    ensures Holds(OrCondition({}), latest)
    ensures Holds(Combine(OrCondition({}), c, Or), latest) <==> Holds(c, latest)
  {
    CombineMeaningExactly(OrCondition({}), c, Or, latest);
  }

  /** No combination directly holds one of its own kind, at any depth. */
  ghost predicate Flat(c: WriteCondition)
    decreases c
  {
    match c
    case AndCondition(conditions) => forall part :: part in conditions ==> !part.AndCondition? && Flat(part)
    case OrCondition(conditions) => forall part :: part in conditions ==> !part.OrCondition? && Flat(part)
    case _ => true
  }

  lemma {:induction false} BuildFlat(e: Expression)
    requires ForLeaves(e, c => Flat(c))
    ensures Flat(Build(e))
  {
    if e.Combined? {
      BuildFlat(e.left);
      BuildFlat(e.right);
    }
  }

  /** Grouping and order of the operands of one kind of combination leave no trace. */
  lemma CombineAssociates(a: WriteCondition, b: WriteCondition, c: WriteCondition, kind: Combination)
    ensures Combine(Combine(a, b, kind), c, kind) == Combine(a, Combine(b, c, kind), kind)
    ensures Combine(a, b, kind) == Combine(b, a, kind)
  {
    var x, y, z := Operands(kind, a), Operands(kind, b), Operands(kind, c);
    CombineOperands(a, b, kind);
    CombineOperands(b, a, kind);
    CombineOperands(b, c, kind);
    CombineOperands(Combine(a, b, kind), c, kind);
    CombineOperands(a, Combine(b, c, kind), kind);
    assert (x + y) + z == x + (y + z) && x + y == y + x;
  }

  // Enforcement.

  datatype UnmetWriteCondition = UnexpectedStreamPosition | StreamIsNotEmpty

  /** An error some failing part of the condition raises. */
  ghost predicate Raises(c: WriteCondition, latest: Option<int>, error: UnmetWriteCondition)
    decreases c
  {
    match c
    case NoCondition => false
    case PositionIs(position) => latest != position && error == UnexpectedStreamPosition
    case EmptyStream => latest != None && error == StreamIsNotEmpty
    case AndCondition(conditions) => exists part :: part in conditions && Raises(part, latest, error)
    case OrCondition(conditions) =>
      (forall part :: part in conditions ==> !Holds(part, latest))
      && exists part :: part in conditions && Raises(part, latest, error)
  }

  /** The enforcers visit a set in whatever order it iterates. */
  method AssertSatisfied(c: WriteCondition, latest: Option<int>) returns (outcome: Result<(), UnmetWriteCondition>)
    ensures outcome.Success? <==> Holds(c, latest)
    ensures outcome.Failure? ==> Raises(c, latest, outcome.error)
    decreases c
  {
    match c
    case NoCondition => outcome := Success(());
    case PositionIs(position) =>
      outcome := if latest != position then Failure(UnexpectedStreamPosition) else Success(());
    case EmptyStream =>
      outcome := if latest != None then Failure(StreamIsNotEmpty) else Success(());
    case AndCondition(conditions) =>
      var remaining := conditions;
      while remaining != {}
        invariant remaining <= conditions
        invariant forall part :: part in conditions && part !in remaining ==> Holds(part, latest)
        decreases |remaining|
      {
        var part :| part in remaining;
        remaining := remaining - {part};
        var enforced := AssertSatisfied(part, latest);
        if enforced.Failure? {
          return enforced;
        }
      }
      outcome := Success(());
    case OrCondition(conditions) =>
      var lastFailure: Option<UnmetWriteCondition> := None;
      var remaining := conditions;
      while remaining != {}
        invariant remaining <= conditions
        invariant forall part :: part in conditions && part !in remaining ==> !Holds(part, latest)
        invariant lastFailure.None? ==> remaining == conditions
        invariant lastFailure.Some? ==> exists part :: part in conditions && Raises(part, latest, lastFailure.value)
        decreases |remaining|
      {
        var part :| part in remaining;
        remaining := remaining - {part};
        var enforced := AssertSatisfied(part, latest);
        if enforced.Success? {
          return Success(());
        }
        lastFailure := Some(enforced.error);
      }
      outcome := if lastFailure.Some? then Failure(lastFailure.value) else Success(());
  }
}
