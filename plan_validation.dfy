/** The plan-category rules: what a DIGITAL, PRODUCT_BASED or HYBRID plan
 *  must say about products and base price, what a subscription to it may
 *  contain, what it costs, and the flags a new plan gets by default. */
module PlanValidation {
  import opened Common
  import opened Records

  const Digital: string := "DIGITAL"
  const ProductBased: string := "PRODUCT_BASED"
  const Hybrid: string := "HYBRID"

  predicate IsKnownCategory(c: Option<string>)
  {
    c == Some(Digital) || c == Some(ProductBased) || c == Some(Hybrid)
  }

  /** A validation outcome: valid, or the list of collected errors. */
  datatype ValidationResult = ValidationResult(valid: bool, errors: seq<string>)
  {
    /** The errors joined by ", ". */
    function ErrorMessage(): string
    {
      Join(errors, ", ")
    }
  }

  function ValidationSuccess(): ValidationResult { ValidationResult(true, []) }
  function ValidationFailure(errors: seq<string>): ValidationResult { ValidationResult(false, errors) }

  /** A nullable Boolean column that holds TRUE, and one that holds FALSE. */
  predicate IsTrue(b: Option<bool>) { b == Some(true) }
  predicate IsFalse(b: Option<bool>) { b == Some(false) }

  predicate PositiveBasePrice(plan: Plan)
  {
    plan.basePriceCents.Some? && plan.basePriceCents.value > 0
  }

  /** The category rules, stated positively: a DIGITAL plan neither requires
   *  nor allows products, does not waive the base price and has one above
   *  zero; a PRODUCT_BASED plan requires and allows products and does not
   *  require a base price; a HYBRID plan allows but does not require
   *  products, requires a base price and has one above zero. No other
   *  category, and no missing category, is consistent. */
  predicate ConsistentConfiguration(plan: Plan)
  {
    if plan.planCategory == Some(Digital) then
      !IsTrue(plan.requiresProducts) && !IsTrue(plan.allowsProducts)
      && !IsFalse(plan.basePriceRequired) && PositiveBasePrice(plan)
    else if plan.planCategory == Some(ProductBased) then
      IsTrue(plan.requiresProducts) && IsTrue(plan.allowsProducts) && !IsTrue(plan.basePriceRequired)
    else if plan.planCategory == Some(Hybrid) then
      !IsTrue(plan.requiresProducts) && IsTrue(plan.allowsProducts)
      && IsTrue(plan.basePriceRequired) && PositiveBasePrice(plan)
    else false
  }

  /** validatePlanConfiguration: a missing category fails at once with
   *  "Plan category is required"; otherwise each rule of the category that
   *  the plan breaks adds one message, an unknown category adds "Invalid
   *  plan category: <c>", and the plan is valid iff no message was added. */
  method ValidatePlanConfiguration(plan: Plan) returns (r: ValidationResult)
    ensures plan.planCategory.None? ==> r == ValidationFailure(["Plan category is required"])
    ensures r.valid <==> ConsistentConfiguration(plan)
    ensures r.valid <==> r.errors == []
    ensures plan.planCategory.Some? && !IsKnownCategory(plan.planCategory) ==>
              r.errors == ["Invalid plan category: " + plan.planCategory.value]
    ensures plan.planCategory == Some(Digital) ==>
              ("DIGITAL plans must have base price > 0" in r.errors <==> !PositiveBasePrice(plan))
    ensures plan.planCategory == Some(Hybrid) ==>
              ("HYBRID plans must have base price > 0" in r.errors <==> !PositiveBasePrice(plan))
    ensures plan.planCategory == Some(ProductBased) ==>
              ("PRODUCT_BASED plans must require products" in r.errors <==> !IsTrue(plan.requiresProducts))
  {
    if plan.planCategory.None? {
      return ValidationFailure(["Plan category is required"]);
    }
    var category := plan.planCategory.value;
    var errors: seq<string>;
    if category == Digital {
      errors := DigitalErrors(plan);
    } else if category == ProductBased {
      errors := ProductBasedErrors(plan);
    } else if category == Hybrid {
      errors := HybridErrors(plan);
    } else {
      errors := ["Invalid plan category: " + category];
    }
    r := if errors == [] then ValidationSuccess() else ValidationFailure(errors);
  }

  /** The DIGITAL rules, one message per rule broken. */
  method DigitalErrors(plan: Plan) returns (errors: seq<string>)
    ensures errors == [] <==> !IsTrue(plan.requiresProducts) && !IsTrue(plan.allowsProducts)
                              && !IsFalse(plan.basePriceRequired) && PositiveBasePrice(plan)
    ensures "DIGITAL plans must have base price > 0" in errors <==> !PositiveBasePrice(plan)
  {
    errors := [];
    if IsTrue(plan.requiresProducts) {
      errors := errors + ["DIGITAL plans cannot require products"];
    }
    if IsTrue(plan.allowsProducts) {
      errors := errors + ["DIGITAL plans cannot allow products"];
    }
    if IsFalse(plan.basePriceRequired) {
      errors := errors + ["DIGITAL plans must require base price"];
    }
    if !PositiveBasePrice(plan) {
      errors := errors + ["DIGITAL plans must have base price > 0"];
    }
  }

  /** The PRODUCT_BASED rules, one message per rule broken. */
  method ProductBasedErrors(plan: Plan) returns (errors: seq<string>)
    ensures errors == [] <==> IsTrue(plan.requiresProducts) && IsTrue(plan.allowsProducts)
                              && !IsTrue(plan.basePriceRequired)
    ensures "PRODUCT_BASED plans must require products" in errors <==> !IsTrue(plan.requiresProducts)
  {
    errors := [];
    if !IsTrue(plan.requiresProducts) {
      errors := errors + ["PRODUCT_BASED plans must require products"];
    }
    if !IsTrue(plan.allowsProducts) {
      errors := errors + ["PRODUCT_BASED plans must allow products"];
    }
    if IsTrue(plan.basePriceRequired) {
      errors := errors + ["PRODUCT_BASED plans should not require base price (products determine price)"];
    }
  }

  /** The HYBRID rules, one message per rule broken. */
  method HybridErrors(plan: Plan) returns (errors: seq<string>)
    ensures errors == [] <==> !IsTrue(plan.requiresProducts) && IsTrue(plan.allowsProducts)
                              && IsTrue(plan.basePriceRequired) && PositiveBasePrice(plan)
    ensures "HYBRID plans must have base price > 0" in errors <==> !PositiveBasePrice(plan)
  {
    errors := [];
    if IsTrue(plan.requiresProducts) {
      errors := errors + ["HYBRID plans cannot require products (they are optional)"];
    }
    if !IsTrue(plan.allowsProducts) {
      errors := errors + ["HYBRID plans must allow products"];
    }
    if !IsTrue(plan.basePriceRequired) {
      errors := errors + ["HYBRID plans must require base price"];
    }
    if !PositiveBasePrice(plan) {
      errors := errors + ["HYBRID plans must have base price > 0"];
    }
  }

  /** validateSubscriptionRequest: whether a subscription with or without
   *  products fits the plan's category. */
  function ValidateSubscriptionRequest(plan: Plan, hasProducts: bool, productCount: int): (r: ValidationResult)
    ensures r.valid <==> r.errors == []
    ensures plan.planCategory.None? ==> r == ValidationFailure(["Plan category is not set"])
    ensures plan.planCategory == Some(Digital) ==> (r.valid <==> !hasProducts)
    ensures plan.planCategory == Some(ProductBased) ==> (r.valid <==> hasProducts && productCount != 0)
    ensures plan.planCategory == Some(Hybrid) ==> r.valid
    ensures !IsKnownCategory(plan.planCategory) ==> !r.valid
  {
    match plan.planCategory
    case None => ValidationFailure(["Plan category is not set"])
    case Some(c) =>
      if c == Digital then
        (if hasProducts then ValidationFailure(["DIGITAL plans do not allow products in subscription"])
         else ValidationSuccess())
      else if c == ProductBased then
        (if !hasProducts || productCount == 0
         then ValidationFailure(["PRODUCT_BASED plans require at least one product in subscription"])
         else ValidationSuccess())
      else if c == Hybrid then ValidationSuccess()
      else ValidationFailure(["Invalid plan category: " + c])
  }

  /** calculateSubscriptionPrice: a missing base price counts as zero; a
   *  missing or unknown category throws. */
  function CalculateSubscriptionPrice(plan: Plan, productsTotalCents: int): (r: Result<int>)
    ensures r.Success? <==> IsKnownCategory(plan.planCategory)
    ensures r.Success? ==>
      var base := if plan.basePriceCents.Some? then plan.basePriceCents.value else 0;
      (plan.planCategory == Some(Digital) ==> r.value == base)
      && (plan.planCategory == Some(ProductBased) ==> r.value == productsTotalCents)
      && (plan.planCategory == Some(Hybrid) ==> r.value == base + productsTotalCents)
  {
    match plan.planCategory
    case None => Failure("Plan category is required")
    case Some(c) =>
      var base := if plan.basePriceCents.Some? then plan.basePriceCents.value else 0;
      if c == Digital then Success(base)
      else if c == ProductBased then Success(productsTotalCents)
      else if c == Hybrid then Success(base + productsTotalCents)
      else Failure("Invalid plan category: " + c)
  }

  /** The plan after setDefaultValidationFlags: a missing category becomes
   *  DIGITAL, and a known category gets its (requiresProducts,
   *  allowsProducts, basePriceRequired) triple; an unknown category is left
   *  as it is. The defaults never break a flag rule: afterwards a plan of a
   *  known category is consistent exactly when its base-price rule holds
   *  (none for PRODUCT_BASED, a base price above zero otherwise), and only
   *  the category and the three flags may differ from the input. */
  function WithDefaultFlags(plan: Plan): (r: Plan)
    ensures r.planCategory.Some?
    ensures plan.planCategory.None? ==> r.planCategory == Some(Digital)
    ensures plan.planCategory.Some? ==> r.planCategory == plan.planCategory
    ensures IsKnownCategory(r.planCategory) ==>
              (ConsistentConfiguration(r) <==> r.planCategory == Some(ProductBased) || PositiveBasePrice(plan))
    ensures !IsKnownCategory(r.planCategory) ==> r == plan && !ConsistentConfiguration(plan)
    ensures r.(planCategory := plan.planCategory, requiresProducts := plan.requiresProducts,
               allowsProducts := plan.allowsProducts, basePriceRequired := plan.basePriceRequired) == plan
  {
    var c := if plan.planCategory.None? then Some(Digital) else plan.planCategory;
    var p := plan.(planCategory := c);
    if c == Some(Digital) then p.(requiresProducts := Some(false), allowsProducts := Some(false), basePriceRequired := Some(true))
    else if c == Some(ProductBased) then p.(requiresProducts := Some(true), allowsProducts := Some(true), basePriceRequired := Some(false))
    else if c == Some(Hybrid) then p.(requiresProducts := Some(false), allowsProducts := Some(true), basePriceRequired := Some(true))
    else p
  }

  /** A Plans object whose setters the plan service and the validator call in
   *  place. */
  class PlanEntity {
    var plan: Plan

    constructor(initial: Plan)
      ensures plan == initial
    {
      plan := initial;
    }
  }

  /** setDefaultValidationFlags: sets the category default and the flags on
   *  the plan object in place. */
  method SetDefaultValidationFlags(entity: PlanEntity)
    modifies entity
    ensures entity.plan == WithDefaultFlags(old(entity.plan))
  {
    if entity.plan.planCategory.None? {
      entity.plan := entity.plan.(planCategory := Some(Digital));
    }
    var c := entity.plan.planCategory.value;
    if c == Digital {
      entity.plan := entity.plan.(requiresProducts := Some(false), allowsProducts := Some(false), basePriceRequired := Some(true));
    } else if c == ProductBased {
      entity.plan := entity.plan.(requiresProducts := Some(true), allowsProducts := Some(true), basePriceRequired := Some(false));
    } else if c == Hybrid {
      entity.plan := entity.plan.(requiresProducts := Some(false), allowsProducts := Some(true), basePriceRequired := Some(true));
    }
  }
}
