/** GlobalExceptionHandler: how the API turns a failure into an error
 *  reply. Every reply carries success = false, an error code, a message
 *  for people and a map of details; the HTTP status is 400, 409 or 500.
 *  A database integrity violation is classified by the words of the
 *  driver's message, lower-cased. */
module GlobalExceptionHandler {
  import opened Common

  /** ErrorResponse, without its timestamp; `error` is spelled by `CodeName`. */
  datatype ErrorResponse = ErrorResponse(success: bool, error: Code, message: string, details: map<string, string>)

  datatype Response = Response(status: int, body: ErrorResponse)

  /** A binding error of one request field. */
  datatype FieldError = FieldError(field: string, defaultMessage: string)

  /** The failures the handler has a method for; anything else is `Unexpected`. */
  datatype Failure =
    | ArgumentNotValid(fieldErrors: seq<FieldError>)
    | IntegrityViolation(driverMessage: Option<string>)
    | TypeMismatch(name: string, requiredType: Option<string>, value: Option<string>)
    | Unexpected(typeName: string)

  function Failed(error: Code, message: string, details: map<string, string>): ErrorResponse
  {
    ErrorResponse(false, error, message, details)
  }

  // ---------------------------------------------------------------- validation errors

  /** The field-error map: one entry per field, the last error of a field
   *  winning, as repeated HashMap.put leaves it. */
  function FieldErrorMap(errors: seq<FieldError>): (m: map<string, string>)
    ensures m.Keys == set e | e in errors :: e.field
  {
    if errors == [] then map[]
    else
      var last := errors[|errors| - 1];
      var m := FieldErrorMap(errors[..|errors| - 1]);
      assert forall e :: e in errors <==> e in errors[..|errors| - 1] || e == last;
      m[last.field := last.defaultMessage]
  }

  /** A field's entry is the message of its last error. */
  lemma {:induction false} LastErrorWins(errors: seq<FieldError>, i: nat)
    requires i < |errors|
    requires forall j :: i < j < |errors| ==> errors[j].field != errors[i].field
    ensures errors[i].field in FieldErrorMap(errors)
    ensures FieldErrorMap(errors)[errors[i].field] == errors[i].defaultMessage
  {
    if i < |errors| - 1 {
      var init := errors[..|errors| - 1];
      assert forall j :: i < j < |init| ==> init[j] == errors[j];
      LastErrorWins(init, i);
    }
  }

  function ValidationResponse(errors: seq<FieldError>): (r: Response)
    ensures r.status == 400 && !r.body.success && r.body.error == ValidationError
    ensures r.body.details.Keys == set e | e in errors :: e.field
  {
    Response(400, Failed(ValidationError, "Validation failed for one or more fields", FieldErrorMap(errors)))
  }

  /** handleValidationErrors */
  method HandleValidationErrors(errors: seq<FieldError>) returns (r: Response)
    ensures r == ValidationResponse(errors)
    ensures r.status == 400 && r.body.details.Keys == set e | e in errors :: e.field
  {
    var fieldErrors: map<string, string> := map[];
    var i := 0;
    while i < |errors|
      invariant 0 <= i <= |errors|
      invariant fieldErrors == FieldErrorMap(errors[..i])
    {
      assert errors[..i + 1][..i] == errors[..i];
      fieldErrors := fieldErrors[errors[i].field := errors[i].defaultMessage];
      i := i + 1;
    }
    assert errors[..i] == errors;
    r := Response(400, Failed(ValidationError, "Validation failed for one or more fields", fieldErrors));
  }

  // ---------------------------------------------------------------- integrity violations

  /** The error codes of the replies. */
  datatype Code =
    | ValidationError | DataIntegrityError | InvalidStatus | InvalidTrialPeriod | InvalidBillingInterval
    | InvalidPlanType | DuplicateEntry | InvalidReference | InvalidParameterFormat | InternalError

  /** A code as the reply spells it. */
  function CodeName(c: Code): string
  {
    match c
    case ValidationError => "VALIDATION_ERROR"
    case DataIntegrityError => "DATA_INTEGRITY_ERROR"
    case InvalidStatus => "INVALID_STATUS"
    case InvalidTrialPeriod => "INVALID_TRIAL_PERIOD"
    case InvalidBillingInterval => "INVALID_BILLING_INTERVAL"
    case InvalidPlanType => "INVALID_PLAN_TYPE"
    case DuplicateEntry => "DUPLICATE_ENTRY"
    case InvalidReference => "INVALID_REFERENCE"
    case InvalidParameterFormat => "INVALID_PARAMETER_FORMAT"
    case InternalError => "INTERNAL_ERROR"
  }

  datatype Classification = Classification(code: Code, userMessage: string)

  /** 409 for a duplicate, 400 for every other integrity violation. */
  function IntegrityStatus(c: Code): int
  {
    if c == DuplicateEntry then 409 else 400
  }

  predicate NamesCheck(message: string)
  {
    Contains(message, "subscriptions_status_check") || Contains(message, "subscriptions_trial_check")
    || Contains(message, "plans_interval_check") || Contains(message, "plans_type_check")
  }

  const IntegrityViolated := "Data integrity constraint violation"
  const BadStatus := "Invalid subscription status. Allowed values: ACTIVE, TRIALING, PAUSED, CANCELED, EXPIRED, PAST_DUE"
  const BadTrial := "Trial end date must be after trial start date"
  const BadInterval := "Invalid billing interval. Allowed values: DAILY, WEEKLY, MONTHLY, QUARTERLY, YEARLY"
  const BadPlanType := "Invalid plan type. Allowed values: RECURRING, ONE_TIME"
  const NoTenant := "The specified tenant does not exist"
  const NoPlan := "The specified plan does not exist"
  const NoCustomer := "The specified customer does not exist"
  const NoRecord := "Referenced record does not exist"
  const SlugTaken := "A tenant with this slug already exists"
  const ValueTaken := "A record with this value already exists"

  /** The duplicate and foreign-key cases of a message that names no
   *  check constraint. */
  function KeyViolation(message: string): (r: Classification)
    ensures r.code == DuplicateEntry <==> Contains(message, "duplicate key") || Contains(message, "unique constraint")
  {
    if Contains(message, "duplicate key") || Contains(message, "unique constraint") then
      Classification(DuplicateEntry, if Contains(message, "tenants_slug_key") then SlugTaken else ValueTaken)
    else if Contains(message, "foreign key constraint") then
      Classification(InvalidReference,
                     if Contains(message, "plans_tenant_id_fkey") then NoTenant
                     else if Contains(message, "subscriptions_plan_id_fkey") then NoPlan
                     else if Contains(message, "subscriptions_customer_id_fkey") then NoCustomer
                     else NoRecord)
    else Classification(DataIntegrityError, IntegrityViolated)
  }

  /** The error code, message and status for a lower-cased driver message:
   *  nothing specific unless the message speaks of a constraint; a named
   *  check constraint first, then duplicates (409), then foreign keys. */
  function Classify(message: string): (r: Classification)
    ensures !Contains(message, "constraint") ==> r == Classification(DataIntegrityError, IntegrityViolated)
    ensures r.code == DuplicateEntry ==>
              Contains(message, "constraint") && !NamesCheck(message)
              && (Contains(message, "duplicate key") || Contains(message, "unique constraint"))
  {
    if !Contains(message, "constraint") then Classification(DataIntegrityError, IntegrityViolated)
    else if Contains(message, "subscriptions_status_check") then
      Classification(InvalidStatus, BadStatus)
    else if Contains(message, "subscriptions_trial_check") then
      Classification(InvalidTrialPeriod, BadTrial)
    else if Contains(message, "plans_interval_check") then
      Classification(InvalidBillingInterval, BadInterval)
    else if Contains(message, "plans_type_check") then
      Classification(InvalidPlanType, BadPlanType)
    else KeyViolation(message)
  }

  /** A text holding a pattern holds every piece of the pattern. */
  lemma ContainsPiece(s: string, sub: string, piece: string, k: nat)
    requires Contains(s, sub) && OccursAt(sub, piece, k)
    ensures Contains(s, piece)
  {
    var i :| 0 <= i <= |s| - |sub| && OccursAt(s, sub, i);
    forall j | 0 <= j < |piece| ensures s[i + k + j] == piece[j] {
      assert sub[k..k + |piece|][j] == sub[k + j];
      assert s[i..i + |sub|][k + j] == s[i + k + j];
    }
    assert s[i + k..i + k + |piece|] == piece;
    assert OccursAt(s, piece, i + k);
  }

  /** A unique-constraint violation, or a duplicate key reported with its
   *  constraint, that names none of the check constraints is a 409
   *  DUPLICATE_ENTRY; the message names the tenant slug exactly when the
   *  violated key is tenants_slug_key. */
  lemma {:induction false} DuplicateIsConflict(message: string)
    requires Contains(message, "unique constraint") || (Contains(message, "duplicate key") && Contains(message, "constraint"))
    requires !NamesCheck(message)
    ensures Classify(message).code == DuplicateEntry
    ensures Contains(message, "tenants_slug_key") ==> Classify(message).userMessage == SlugTaken
    ensures !Contains(message, "tenants_slug_key") ==> Classify(message).userMessage == ValueTaken
  {
    if Contains(message, "unique constraint") {
      assert "unique constraint"[7..17] == "constraint";
      ContainsPiece(message, "unique constraint", "constraint", 7);
    }
  }

  /** A foreign-key violation that is neither a named check nor a duplicate
   *  is a 400 INVALID_REFERENCE. */
  lemma {:induction false} ForeignKeyIsInvalidReference(message: string)
    requires Contains(message, "foreign key constraint") && !NamesCheck(message)
    requires !Contains(message, "duplicate key") && !Contains(message, "unique constraint")
    ensures Classify(message).code == InvalidReference
  {
    assert "foreign key constraint"[12..22] == "constraint";
    ContainsPiece(message, "foreign key constraint", "constraint", 12);
  }

  const NoDetails := "No additional details available"
  const CheckInput := "Check your input values and try again"

  /** The end of the line that starts at or before `i`: the first newline at
   *  or after `i`, or the end of the text. */
  function LineEnd(m: string, i: nat): (e: nat)
    requires i <= |m|
    ensures i <= e <= |m| && (e < |m| ==> m[e] == '\n')
    ensures forall k :: i <= k < e ==> m[k] != '\n'
  {
    var e := IndexOfFrom(m, "\n", i);
    var end := if e == -1 then |m| else e;
    assert forall k :: i <= k < end ==> m[k..k + 1] == [m[k]] && !OccursAt(m, "\n", k);
    if e != -1 then assert m[e..e + 1] == "\n"; end else end
  }

  /** Trimming the end drops only blanks. */
  lemma {:induction false} TrimEndDropsBlanks(s: string)
    ensures forall k :: |TrimEnd(s)| <= k < |s| ==> IsTrimmed(s[k])
  {
    if |s| > 0 && IsTrimmed(s[|s| - 1]) {
      TrimEndDropsBlanks(s[..|s| - 1]);
    }
  }

  /** Trimming the end keeps every character up to the last non-blank one. */
  lemma {:induction false} TrimEndKeeps(s: string, k: nat)
    requires k < |s| && !IsTrimmed(s[k])
    ensures k < |TrimEnd(s)|
  {
    if IsTrimmed(s[|s| - 1]) {
      TrimEndKeeps(s[..|s| - 1], k);
    }
  }

  /** The detail line of a driver message: the text from the first
   *  "Detail:" to the end of its line, without trailing blanks. */
  predicate IsDetailLine(m: string, r: string)
  {
    var i := IndexOfFrom(m, "Detail:", 0);
    0 <= i && OccursAt(m, r, i) && |r| >= 7 && r[..7] == "Detail:"
    && (forall k :: 0 <= k < |r| ==> r[k] != '\n')
    && (forall k :: i + |r| <= k < LineEnd(m, i) ==> IsTrimmed(m[k]))
  }

  /** extractConstraintDetails */
  function ExtractConstraintDetails(message: Option<string>): (r: string)
    ensures message.None? ==> r == NoDetails
    ensures message.Some? && !Contains(message.value, "Detail:") ==> r == CheckInput
    ensures message.Some? && Contains(message.value, "Detail:") ==> IsDetailLine(message.value, r)
  {
    if message.None? then NoDetails
    else
      var m := message.value;
      var i := IndexOfFrom(m, "Detail:", 0);
      IndexOfContains(m, "Detail:");
      if i == -1 then CheckInput
      else
        var e := LineEnd(m, i);
        assert "Detail:"[0] == 'D' && "Detail:"[6] == ':';
        assert forall k :: 0 <= k < 7 ==> "Detail:"[k] != '\n';
        LineFromPattern(m, "Detail:", i, e);
        Trim(m[i..e])
  }

  /** Trimming a text that starts with a non-blank keeps a prefix that
   *  reaches at least to the non-blank at `k` and drops only blanks. */
  lemma TrimFromNonBlank(s: string, k: nat)
    requires k < |s| && !IsTrimmed(s[0]) && !IsTrimmed(s[k])
    ensures var r := Trim(s);
            k < |r| && r == s[..|r|] && forall j :: |r| <= j < |s| ==> IsTrimmed(s[j])
  {
    assert TrimStart(s) == s;
    TrimEndKeeps(s, k);
    TrimEndDropsBlanks(s);
  }

  /** The same, for a slice of a longer text. */
  lemma TrimSlice(m: string, i: nat, e: nat, k: nat)
    requires i + k < e <= |m| && !IsTrimmed(m[i]) && !IsTrimmed(m[i + k])
    ensures var r := Trim(m[i..e]);
            k < |r| && i + |r| <= e && OccursAt(m, r, i)
            && (forall j :: 0 <= j < |r| ==> r[j] == m[i + j])
            && (forall j :: i + |r| <= j < e ==> IsTrimmed(m[j]))
  {
    var s := m[i..e];
    TrimFromNonBlank(s, k);
    var r := Trim(s);
    assert m[i..i + |r|] == s[..|r|];
    assert forall j :: 0 <= j < |r| ==> r[j] == s[j];
    forall j | i + |r| <= j < e ensures IsTrimmed(m[j]) {
      assert m[j] == s[j - i];
    }
  }

  /** A line cannot end inside a pattern that holds no newline. */
  lemma LineHoldsPattern(m: string, p: string, i: nat, e: nat)
    requires OccursAt(m, p, i) && i <= e <= |m|
    requires forall k :: 0 <= k < |p| ==> p[k] != '\n'
    requires e < |m| ==> m[e] == '\n'
    ensures i + |p| <= e
  {
    assert forall k :: i <= k < i + |p| ==> m[k] == m[i..i + |p|][k - i];
  }

  /** The line that starts with a pattern, trimmed, still starts with the
   *  pattern when the pattern has no newline and no blank at either end. */
  lemma LineFromPattern(m: string, p: string, i: nat, e: nat)
    requires OccursAt(m, p, i) && i <= e <= |m| && |p| > 0
    requires !IsTrimmed(p[0]) && !IsTrimmed(p[|p| - 1])
    requires forall k :: 0 <= k < |p| ==> p[k] != '\n'
    requires e < |m| ==> m[e] == '\n'
    requires forall k :: i <= k < e ==> m[k] != '\n'
    ensures var r := Trim(m[i..e]);
            OccursAt(m, r, i) && |r| >= |p| && r[..|p|] == p
            && (forall k :: 0 <= k < |r| ==> r[k] != '\n')
            && (forall k :: i + |r| <= k < e ==> IsTrimmed(m[k]))
  {
    LineHoldsPattern(m, p, i, e);
    PatternEnds(m, p, i);
    TrimSlice(m, i, e, |p| - 1);
    var r := Trim(m[i..e]);
    CopyKeepsPattern(m, p, r, i);
    CopyKeepsNoNewline(m, r, i, e);
  }

  /** The first and last characters of an occurrence are those of the
   *  pattern. */
  lemma PatternEnds(m: string, p: string, i: nat)
    requires OccursAt(m, p, i) && |p| > 0
    ensures m[i] == p[0] && m[i + |p| - 1] == p[|p| - 1]
  {
    assert m[i..i + |p|][0] == m[i] && m[i..i + |p|][|p| - 1] == m[i + |p| - 1];
  }

  /** A copy of the text from `i` on, at least as long as a pattern found
   *  there, starts with the pattern. */
  lemma CopyKeepsPattern(m: string, p: string, r: string, i: nat)
    requires OccursAt(m, p, i) && |r| >= |p| && i + |r| <= |m|
    requires forall j :: 0 <= j < |r| ==> r[j] == m[i + j]
    ensures r[..|p|] == p
  {
    forall j | 0 <= j < |p| ensures r[j] == p[j] {
      assert r[j] == m[i + j] == m[i..i + |p|][j];
    }
  }

  /** A copy of part of a line holds no newline. */
  lemma CopyKeepsNoNewline(m: string, r: string, i: nat, e: nat)
    requires i + |r| <= e <= |m|
    requires forall j :: 0 <= j < |r| ==> r[j] == m[i + j]
    requires forall k :: i <= k < e ==> m[k] != '\n'
    ensures forall k :: 0 <= k < |r| ==> r[k] != '\n'
  {
  }

  // ---------------------------------------------------------------- the handlers

  /** handleDataIntegrityViolation as written: the driver message is
   *  lower-cased (null read as empty) before it is both classified and
   *  searched for its "Detail:" line. */
  function HandleIntegrityAsWritten(driverMessage: Option<string>): (r: Response)
    ensures !r.body.success && (r.status == 409 <==> r.body.error == DuplicateEntry)
    ensures var fixed := HandleIntegrityViolation(driverMessage);
            r.status == fixed.status && r.body.(details := fixed.body.details) == fixed.body
  {
    var message := Lower(if driverMessage.Some? then driverMessage.value else "");
    var c := Classify(message);
    Response(IntegrityStatus(c.code), Failed(c.code, c.userMessage, map["details" := ExtractConstraintDetails(Some(message))]))
  }

  /** As written, the detail line is never found: a lower-cased message has
   *  no capital D, so every integrity reply carries the generic hint, even
   *  for a driver message that holds a "Detail:" line. */
  lemma DetailNeverFound(driverMessage: Option<string>)
    ensures HandleIntegrityAsWritten(driverMessage).body.details == map["details" := CheckInput]
  {
    var message := Lower(if driverMessage.Some? then driverMessage.value else "");
    forall k | 0 <= k < |message| ensures message[k] != "Detail:"[0] {
      LowerHasNoUpper(if driverMessage.Some? then driverMessage.value else "", k);
    }
    NotContainsMissingChar(message, "Detail:", 0);
  }

  /** handleDataIntegrityViolation, with the details taken from the driver's
   *  own message: the lower-cased text still decides the code, and the
   *  "Detail:" line is searched in the message as the driver wrote it. */
  function HandleIntegrityViolation(driverMessage: Option<string>): (r: Response)
    ensures r.status == 409 <==> r.body.error == DuplicateEntry
    ensures driverMessage.Some? && Contains(driverMessage.value, "Detail:") ==>
              "details" in r.body.details && IsDetailLine(driverMessage.value, r.body.details["details"])
    ensures driverMessage.None? ==>
              r == Response(400, Failed(DataIntegrityError, IntegrityViolated, map["details" := NoDetails]))
  {
    var message := Lower(if driverMessage.Some? then driverMessage.value else "");
    var c := Classify(message);
    Response(IntegrityStatus(c.code), Failed(c.code, c.userMessage, map["details" := ExtractConstraintDetails(driverMessage)]))
  }

  /** handleTypeMismatch */
  function HandleTypeMismatch(name: string, requiredType: Option<string>, value: Option<string>): (r: Response)
    ensures r.status == 400 && !r.body.success && r.body.error == InvalidParameterFormat
    ensures r.body.details.Keys == {"parameter", "providedValue"} && r.body.details["parameter"] == name
    ensures r.body.details["providedValue"] == if value.Some? then value.value else "null"
  {
    var typeName := if requiredType.Some? then requiredType.value else "unknown";
    Response(400, Failed(InvalidParameterFormat,
                         "Invalid format for parameter '" + name + "'. Expected type: " + typeName,
                         map["parameter" := name, "providedValue" := if value.Some? then value.value else "null"]))
  }

  /** handleGenericException */
  function HandleUnexpected(typeName: string): (r: Response)
    ensures r.status == 500 && !r.body.success && r.body.error == InternalError
    ensures r.body.details.Keys == {"type"}
  {
    Response(500, Failed(InternalError, "An unexpected error occurred. Please contact support if this persists.",
                         map["type" := typeName]))
  }

  /** The reply for a failure: the handler Spring picks for its type. */
  function Respond(f: Failure): (r: Response)
    ensures !r.body.success
    ensures r.status == 400 || r.status == 409 || r.status == 500
    ensures r.status == 500 <==> f.Unexpected?
    ensures r.status == 409 <==> f.IntegrityViolation? && r.body.error == DuplicateEntry
    ensures f.ArgumentNotValid? ==> r.body.error == ValidationError && r.body.details.Keys == set e | e in f.fieldErrors :: e.field
    ensures f.TypeMismatch? ==>
              r.body.error == InvalidParameterFormat && r.body.details.Keys == {"parameter", "providedValue"}
              && r.body.details["parameter"] == f.name
              && r.body.details["providedValue"] == (if f.value.Some? then f.value.value else "null")
  {
    match f
    case ArgumentNotValid(errors) => ValidationResponse(errors)
    case IntegrityViolation(m) => HandleIntegrityViolation(m)
    case TypeMismatch(name, requiredType, value) => HandleTypeMismatch(name, requiredType, value)
    case Unexpected(typeName) => HandleUnexpected(typeName)
  }
}
