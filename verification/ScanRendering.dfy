/** The text of the query for a page of the scan, run, gives that page. */
module ScanRendering {
  import opened Prelude
  import opened Values
  import opened SqlQuery
  import opened Evaluation
  import opened Rendering
  import opened RenderedFragments
  import opened SqlReader
  import opened Wording
  import opened TextLaws
  import opened PagingRendering
  import opened PagedScan

  /** Conditions of registered constraints are readable. */
  predicate ReadableConstraints(constraints: seq<ScanConstraint>) {
    forall i :: 0 <= i < |constraints| && constraints[i].Registered? ==> Readable(constraints[i].condition)
  }

  lemma NameIsReadable(field: string, name: string)
    ensures forall c :: c in NameCondition(field, name) ==> Fit(ToReadBack, c)
  {
    FitLeaf(ToReadBack, Column(field));
    FitLeaf(ToReadBack, Constant(Text(name)));
    FitComparison(ToReadBack, Single(Column(field)), Equals, Single(Constant(Text(name))));
  }

  lemma ConstraintIsReadable(constraint: ScanConstraint)
    requires constraint.Registered? ==> Readable(constraint.condition)
    ensures Fit(ToReadBack, ConstraintCondition(constraint))
  {
    match constraint
    case SequenceNumberAfter(n) =>
      FitLeaf(ToReadBack, SEQUENCE_NUMBER);
      FitLeaf(ToReadBack, Constant(Number(n)));
      FitComparison(ToReadBack, Single(SEQUENCE_NUMBER), GreaterThan, Single(Constant(Number(n))));
    case Registered(_) =>
  }

  lemma ConditionsAreReadable(target: ScanTarget, constraints: seq<ScanConstraint>)
    requires ReadableConstraints(constraints)
    ensures forall c :: c in ScanConditions(target, constraints) ==> Fit(ToReadBack, c)
  {
    NameIsReadable("category", target.NameOfCategory());
    NameIsReadable("stream", target.NameOfStream());
    assert forall c :: c in TargetConditions(target) ==> Fit(ToReadBack, c);
    var conditions := Map(ConstraintCondition, constraints);
    forall c | c in conditions ensures Fit(ToReadBack, c) {
      var i :| 0 <= i < |conditions| && conditions[i] == c;
      ConstraintIsReadable(constraints[i]);
    }
  }

  lemma ScanQueryIsReadable(table: string, target: ScanTarget, constraints: seq<ScanConstraint>, pageSize: nat)
    requires ReadableConstraints(constraints)
    ensures ReadableQuery(ScanQuery(table, target, constraints, pageSize))
  {
    var q := ScanQuery(table, target, constraints, pageSize);
    SelectedTargets([Star(None, None)]);
    ConditionsAreReadable(target, constraints);
    FitLeaf(ToReadBack, SEQUENCE_NUMBER);
    assert q == Query([], None, EMPTY_QUERY.SelectAll().selectTargetList, [table], [],
                      ScanConditions(target, constraints), BY_NUMBER, Some(pageSize), None);
    FitFromParts(ToReadBack, q);
  }

  lemma ScanTextServesPage(
    db: Database, env: Environment, table: string, target: ScanTarget, constraints: seq<ScanConstraint>, pageSize: nat)
    requires table in env && EventTable(env[table]) && PlainConstraints(ToSet(constraints))
    requires ReadableConstraints(constraints)
    ensures var q := ScanQuery(table, target, constraints, pageSize);
      && RenderQuery(Placeholders, q).Success?
      && Run(db, env, RenderQuery(Placeholders, q).value)
         == Some(Take(pageSize, OneShot(db, target, ToSet(constraints), env[table])))
  {
    PageMeaning(db, env, table, target, constraints, pageSize);
    ScanQueryIsReadable(table, target, constraints, pageSize);
    BoundTextReadsBack(ScanQuery(table, target, constraints, pageSize));
  }
}
