/**
 * The creation kit's validator: it checks an object definition against the
 * property constraints and reports every violated constraint as an error and
 * every risky-but-legal value as a warning.
 */
module CreationKit {
  import opened ObjectConfig

  datatype PropertyConstraints = PropertyConstraints(
    minPrice: nat, maxPrice: nat, minSize: (real, real), maxSize: (real, real),
    minUtility: real, maxUtility: real, minRange: real, maxRange: real,
    allowedActions: seq<string>, allowedCategories: seq<string>, maxSimultaneousUsers: nat)

  function DefaultConstraints(): (c: PropertyConstraints)
    ensures c.minPrice == 1 && c.maxPrice == 10000
    ensures c.minUtility == 0.1 && c.maxUtility == 1.0 && c.minRange == 10.0 && c.maxRange == 300.0
    ensures |c.allowedActions| == 9 && "Eat" in c.allowedActions && "Shelter" in c.allowedActions
    ensures "Flock" !in c.allowedActions && "HoverFeed" !in c.allowedActions
    ensures |c.allowedCategories| == 5 && "Food" in c.allowedCategories
    ensures c.maxSimultaneousUsers == 10
  {
    PropertyConstraints(
      1, 10000, (5.0, 5.0), (200.0, 200.0), 0.1, 1.0, 10.0, 300.0,
      ["Eat", "Drink", "Bathe", "Perch", "Play", "Explore", "Nest", "Roost", "Shelter"],
      ["Comfort", "Food", "Water", "Decorative", "Special"],
      10)
  }

  /** One message per violated constraint; the message text carries the offending value or bounds. */
  datatype ValidationError =
    | EmptyName
    | PriceOutOfRange(minPrice: nat, maxPrice: nat)
    | CategoryNotAllowed(category: string)
    | SizeOutOfRange
    | UtilityOutOfRange
    | RangeOutOfRange
    | TooManyUsers(max: nat)
    | ActionNotAllowed(action: string)

  datatype ValidationWarning = HighUtility | LargeRange | LowDurability

  datatype ValidationResult = ValidationResult(errors: seq<ValidationError>, warnings: seq<ValidationWarning>)

  /** A result passes when no error is reported; warnings do not count against it. */
  function IsValid(r: ValidationResult): (valid: bool)
    ensures valid <==> forall e :: e !in r.errors
  {
    if r.errors == [] then true else assert r.errors[0] in r.errors; false
  }

  /** A result has warnings when at least one is reported. */
  function HasWarnings(r: ValidationResult): (warned: bool)
    ensures warned <==> exists w :: w in r.warnings
  {
    if r.warnings == [] then false else assert r.warnings[0] in r.warnings; true
  }

  predicate PriceOk(d: Definition, c: PropertyConstraints)
  {
    c.minPrice <= d.metadata.price <= c.maxPrice
  }

  predicate SizeOk(d: Definition, c: PropertyConstraints)
  {
    c.minSize.0 <= d.size.0 <= c.maxSize.0 && c.minSize.1 <= d.size.1 <= c.maxSize.1
  }

  predicate UtilityOk(d: Definition, c: PropertyConstraints)
  {
    c.minUtility <= d.behavior.baseUtility <= c.maxUtility
  }

  predicate RangeOk(d: Definition, c: PropertyConstraints)
  {
    c.minRange <= d.behavior.interactionRange <= c.maxRange
  }

  /** A field check: whether it failed, and the error it reports if so. */
  datatype Check = Check(failed: bool, error: ValidationError)

  /** The errors of the failed checks, in order. */
  function Failures(checks: seq<Check>): (e: seq<ValidationError>)
    ensures |e| <= |checks|
  {
    if checks == [] then []
    else
      var n := |checks| - 1;
      Failures(checks[..n]) + (if checks[n].failed then [checks[n].error] else [])
  }

  /** An error is reported iff some check reporting it failed. */
  lemma {:induction false} FailuresMembers(checks: seq<Check>)
    ensures forall x :: x in Failures(checks) <==> exists k :: 0 <= k < |checks| && checks[k].failed && checks[k].error == x
  {
    if checks != [] {
      var n := |checks| - 1;
      FailuresMembers(checks[..n]);
      assert forall k :: 0 <= k < n ==> checks[..n][k] == checks[k];
    }
  }

  /** Adding one more check appends its error, if it failed. */
  lemma FailuresStep(checks: seq<Check>, j: nat)
    requires j < |checks|
    ensures Failures(checks[..j + 1]) == Failures(checks[..j]) + (if checks[j].failed then [checks[j].error] else [])
  {
    assert checks[..j + 1][..j] == checks[..j];
  }

  /** An error that only one check can report is reported iff that check failed. */
  lemma ReportedIffFailed(checks: seq<Check>, i: nat)
    requires i < |checks|
    requires forall k :: 0 <= k < |checks| && k != i ==> checks[k].error != checks[i].error
    ensures checks[i].error in Failures(checks) <==> checks[i].failed
  {
    FailuresMembers(checks);
  }

  /** The field checks, in the order the validator makes them. */
  function FieldChecks(d: Definition, c: PropertyConstraints): seq<Check>
  {
    [ Check(d.metadata.name == [], EmptyName),
      Check(!PriceOk(d, c), PriceOutOfRange(c.minPrice, c.maxPrice)),
      Check(d.metadata.category !in c.allowedCategories, CategoryNotAllowed(d.metadata.category)),
      Check(!SizeOk(d, c), SizeOutOfRange),
      Check(!UtilityOk(d, c), UtilityOutOfRange),
      Check(!RangeOk(d, c), RangeOutOfRange),
      Check(d.behavior.maxSimultaneousUsers > c.maxSimultaneousUsers, TooManyUsers(c.maxSimultaneousUsers)) ]
  }

  function FieldErrors(d: Definition, c: PropertyConstraints): seq<ValidationError>
  {
    Failures(FieldChecks(d, c))
  }

  /** Each field error is reported iff its constraint is violated. */
  lemma FieldErrorsReport(d: Definition, c: PropertyConstraints)
    ensures EmptyName in FieldErrors(d, c) <==> d.metadata.name == []
    ensures PriceOutOfRange(c.minPrice, c.maxPrice) in FieldErrors(d, c) <==> !PriceOk(d, c)
    ensures CategoryNotAllowed(d.metadata.category) in FieldErrors(d, c) <==> d.metadata.category !in c.allowedCategories
    ensures SizeOutOfRange in FieldErrors(d, c) <==> !SizeOk(d, c)
    ensures UtilityOutOfRange in FieldErrors(d, c) <==> !UtilityOk(d, c)
    ensures RangeOutOfRange in FieldErrors(d, c) <==> !RangeOk(d, c)
    ensures TooManyUsers(c.maxSimultaneousUsers) in FieldErrors(d, c) <==> d.behavior.maxSimultaneousUsers > c.maxSimultaneousUsers
  {
    var checks := FieldChecks(d, c);
    ReportedIffFailed(checks, 0);
    ReportedIffFailed(checks, 1);
    ReportedIffFailed(checks, 2);
    ReportedIffFailed(checks, 3);
    ReportedIffFailed(checks, 4);
    ReportedIffFailed(checks, 5);
    ReportedIffFailed(checks, 6);
  }

  /** At most one error per field check, and none of them about an action. */
  lemma FieldErrorsNotActions(d: Definition, c: PropertyConstraints)
    ensures forall x :: x in FieldErrors(d, c) ==> !x.ActionNotAllowed?
    ensures |FieldErrors(d, c)| <= 7
  {
    var checks := FieldChecks(d, c);
    FailuresMembers(checks);
    assert forall k :: 0 <= k < |checks| ==> !checks[k].error.ActionNotAllowed?;
  }

  /** One error per provided action that is not allowed, in the order the actions are listed. */
  function ActionErrors(actions: seq<string>, allowed: seq<string>): (e: seq<ValidationError>)
    ensures |e| <= |actions|
    ensures forall x :: x in e ==> x.ActionNotAllowed?
  {
    if actions == [] then []
    else
      var last := actions[|actions| - 1];
      ActionErrors(actions[..|actions| - 1], allowed)
        + (if last !in allowed then [ActionNotAllowed(last)] else [])
  }

  /** Checking one more action appends its error, if it is not allowed. */
  lemma ActionErrorsStep(actions: seq<string>, allowed: seq<string>, i: nat)
    requires i < |actions|
    ensures ActionErrors(actions[..i + 1], allowed)
         == ActionErrors(actions[..i], allowed) + (if actions[i] !in allowed then [ActionNotAllowed(actions[i])] else [])
  {
    assert actions[..i + 1][..i] == actions[..i];
  }

  /** How often a disallowed action occurs in the list. */
  function CountDisallowed(actions: seq<string>, allowed: seq<string>): nat
  {
    if actions == [] then 0
    else CountDisallowed(actions[..|actions| - 1], allowed) + (if actions[|actions| - 1] !in allowed then 1 else 0)
  }

  /** Exactly one error per disallowed action, naming that action. */
  lemma {:induction false} ActionErrorsExact(actions: seq<string>, allowed: seq<string>)
    ensures |ActionErrors(actions, allowed)| == CountDisallowed(actions, allowed)
    ensures forall x :: x in ActionErrors(actions, allowed) <==> (exists a :: a in actions && a !in allowed && x == ActionNotAllowed(a))
  {
    if actions != [] {
      var init := actions[..|actions| - 1];
      var last := actions[|actions| - 1];
      ActionErrorsExact(init, allowed);
      assert actions == init + [last];
      forall x
        ensures x in ActionErrors(actions, allowed) <==> (exists a :: a in actions && a !in allowed && x == ActionNotAllowed(a))
      {
        if x in ActionErrors(actions, allowed) {
          if x in ActionErrors(init, allowed) {
            var a :| a in init && a !in allowed && x == ActionNotAllowed(a);
            assert a in actions;
          } else {
            assert last in actions;
          }
        }
        if (exists a :: a in actions && a !in allowed && x == ActionNotAllowed(a)) {
          var a :| a in actions && a !in allowed && x == ActionNotAllowed(a);
          if a != last {
            assert a in init;
          }
        }
      }
    }
  }

  function Warnings(d: Definition): (w: seq<ValidationWarning>)
    ensures HighUtility in w <==> d.behavior.baseUtility > 0.9
    ensures LargeRange in w <==> d.behavior.interactionRange > 150.0
    ensures LowDurability in w <==> d.durability < 0.3
  {
    (if d.behavior.baseUtility > 0.9 then [HighUtility] else [])
    + (if d.behavior.interactionRange > 150.0 then [LargeRange] else [])
    + (if d.durability < 0.3 then [LowDurability] else [])
  }

  /** What validation reports, as a function of the definition and the constraints. */
  function Validation(d: Definition, c: PropertyConstraints): ValidationResult
  {
    ValidationResult(FieldErrors(d, c) + ActionErrors(d.behavior.providesActions, c.allowedActions), Warnings(d))
  }

  /** No field error is reported iff every field constraint holds. */
  lemma FieldErrorsEmptyIff(d: Definition, c: PropertyConstraints)
    ensures FieldErrors(d, c) == [] <==>
      (d.metadata.name != [] && PriceOk(d, c) && d.metadata.category in c.allowedCategories
       && SizeOk(d, c) && UtilityOk(d, c) && RangeOk(d, c)
       && d.behavior.maxSimultaneousUsers <= c.maxSimultaneousUsers)
  {
    FieldErrorsReport(d, c);
    var fe := FieldErrors(d, c);
    if fe != [] {
      FailuresMembers(FieldChecks(d, c));
      assert fe[0] in fe;
    }
  }

  /** No action error is reported iff every provided action is allowed. */
  lemma ActionErrorsEmptyIff(actions: seq<string>, allowed: seq<string>)
    ensures ActionErrors(actions, allowed) == [] <==> forall a :: a in actions ==> a in allowed
  {
    ActionErrorsExact(actions, allowed);
    var ae := ActionErrors(actions, allowed);
    if ae != [] {
      assert ae[0] in ae;
    }
    if a :| a in actions && a !in allowed {
      assert ActionNotAllowed(a) in ae;
    }
  }

  /** The definition passes iff every constraint holds; warnings play no part. */
  lemma ValidIff(d: Definition, c: PropertyConstraints)
    ensures IsValid(Validation(d, c)) <==>
      (d.metadata.name != [] && PriceOk(d, c) && d.metadata.category in c.allowedCategories
       && SizeOk(d, c) && UtilityOk(d, c) && RangeOk(d, c)
       && d.behavior.maxSimultaneousUsers <= c.maxSimultaneousUsers
       && forall a :: a in d.behavior.providesActions ==> a in c.allowedActions)
  {
    FieldErrorsEmptyIff(d, c);
    ActionErrorsEmptyIff(d.behavior.providesActions, c.allowedActions);
  }

  /** Validation warns exactly when one of the three warning thresholds is crossed. */
  lemma WarnedIff(d: Definition, c: PropertyConstraints)
    ensures HasWarnings(Validation(d, c)) <==>
      d.behavior.baseUtility > 0.9 || d.behavior.interactionRange > 150.0 || d.durability < 0.3
  {
  }

  /** Durability only ever produces a warning, never an error. */
  lemma DurabilityNeverInvalidates(d: Definition, c: PropertyConstraints, durability: real)
    ensures Validation(d.(durability := durability), c).errors == Validation(d, c).errors
  {
  }

  /** The validator's field checks, made in order; the errors of those that failed. */
  method CollectFailures(checks: seq<Check>) returns (errors: seq<ValidationError>)
    ensures errors == Failures(checks)
  {
    errors := [];
    for j := 0 to |checks|
      invariant errors == Failures(checks[..j])
    {
      FailuresStep(checks, j);
      if checks[j].failed {
        errors := errors + [checks[j].error];
      }
    }
    assert checks[..|checks|] == checks;
  }

  /** The validator's pass over the provided actions: one error per action not allowed. */
  method CollectActionErrors(actions: seq<string>, allowed: seq<string>) returns (errors: seq<ValidationError>)
    ensures errors == ActionErrors(actions, allowed)
  {
    errors := [];
    var i := 0;
    while i < |actions|
      invariant 0 <= i <= |actions|
      invariant errors == ActionErrors(actions[..i], allowed)
    {
      ActionErrorsStep(actions, allowed, i);
      if actions[i] !in allowed {
        errors := errors + [ActionNotAllowed(actions[i])];
      }
      i := i + 1;
    }
    assert actions[..|actions|] == actions;
  }

  /** ObjectValidator::validate_definition: the field checks, then one pass over the provided actions. */
  method ValidateDefinition(d: Definition, c: PropertyConstraints) returns (r: ValidationResult)
    ensures r == Validation(d, c)
  {
    var fieldErrors := CollectFailures(FieldChecks(d, c));
    var actionErrors := CollectActionErrors(d.behavior.providesActions, c.allowedActions);
    var warnings := [];
    if d.behavior.baseUtility > 0.9 {
      warnings := warnings + [HighUtility];
    }
    if d.behavior.interactionRange > 150.0 {
      warnings := warnings + [LargeRange];
    }
    if d.durability < 0.3 {
      warnings := warnings + [LowDurability];
    }
    r := ValidationResult(fieldErrors + actionErrors, warnings);
  }
}
