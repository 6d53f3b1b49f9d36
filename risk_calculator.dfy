/**
 The risk-calculator function of the cold-chain monitoring system: it takes one
 telemetry reading (a temperature in degrees Celsius and a vibration in G),
 checks it against two fixed upper thresholds and answers with a status, the
 ordered list of issues found, an estimated financial loss and a flag saying
 whether an alert should be raised.

 The request arrives as JSON; here it is modelled after decoding, as a
 `Request`. Readings are exact reals (no binary floating point, no rounding).
 */
module RiskCalculator {

  // ---------------------------------------------------------------------------
  // Constants of the handler
  // ---------------------------------------------------------------------------

  /** Readings strictly above these thresholds raise an issue. */
  const MaxTemperature: real := 8.0
  const MaxVibration: real := 4.0

  /** Values used when the request object lacks the key. */
  const DefaultTemperature: real := 4.0
  const DefaultVibration: real := 0.0

  /** Loss per degree above the temperature threshold, and per G of shock. */
  const LossPerDegree: real := 150.0
  const LossPerG: real := 100.0

  /** The fixed `audit_engine` field of every successful response. */
  const AuditEngine: string := "OpenFaaS"

  // ---------------------------------------------------------------------------
  // Data model
  // ---------------------------------------------------------------------------

  datatype Status = Safe | Warning | Critical

  /** One detected problem, carrying the reading that caused it. */
  datatype Issue = TempIssue(celsius: real) | ShockIssue(g: real)

  /** What the decoded request object holds under one key. A JSON `true` or
      `false` compares as 1 or 0; `null`, strings, arrays and objects cannot be
      compared with a number (`NonNumeric`). */
  datatype Field = Absent | Number(x: real) | Boolean(b: bool) | NonNumeric

  /** The request body after JSON decoding: not valid JSON, valid JSON that is
      not an object, or an object with (possibly absent) reading fields. */
  datatype Request = Malformed | NotObject | Object(temperature: Field, vibration: Field)

  /** Why the handler answered with an error object instead of a response:
      the body did not decode, the decoded value has no keyed lookup, or a
      reading could not be compared with its threshold. */
  datatype Error = InvalidJson | NoKeyLookup | NotComparable

  datatype Response = Response(
    status: Status,
    issues: seq<Issue>,
    estimatedLoss: real,
    shouldAlert: bool,
    auditEngine: string)

  datatype Option<T> = None | Some(value: T)

  datatype Result<T> = Ok(value: T) | Err(error: Error)

  // ---------------------------------------------------------------------------
  // Readings and losses
  // ---------------------------------------------------------------------------

  /** The number a field contributes to the threshold comparison, or `None`
      when comparing it with a number fails. */
  function Reading(f: Field, default: real): (r: Option<real>)
    ensures r.None? <==> f.NonNumeric?
    ensures f.Absent? ==> r == Some(default)
    ensures f.Number? ==> r == Some(f.x)
    ensures f.Boolean? ==> r == Some(if f.b then 1.0 else 0.0)
  {
    match f
    case Absent => Some(default)
    case Number(x) => Some(x)
    case Boolean(b) => Some(if b then 1.0 else 0.0)
    case NonNumeric => None
  }

  /** An issue as the handler raises it: its reading is above its threshold. */
  predicate Raised(i: Issue)
  {
    match i
    case TempIssue(t) => t > MaxTemperature
    case ShockIssue(v) => v > MaxVibration
  }

  /** The loss one issue adds to the estimate. */
  function IssueLoss(i: Issue): (r: real)
  {
    match i
    case TempIssue(t) => (t - MaxTemperature) * LossPerDegree
    case ShockIssue(v) => v * LossPerG
  }

  /** The estimated loss of a list of issues: the sum of their losses. */
  function IssuesLoss(issues: seq<Issue>): (r: real)
  {
    if issues == [] then 0.0 else IssueLoss(issues[0]) + IssuesLoss(issues[1..])
  }

  /** Appending issues adds their losses: the step the handler takes each time
      it appends an issue and increases the estimate. */
  lemma {:induction false} IssuesLossAppend(a: seq<Issue>, b: seq<Issue>)
    ensures IssuesLoss(a + b) == IssuesLoss(a) + IssuesLoss(b)
  {
    if a == [] {
      assert a + b == b;
    } else {
      assert (a + b)[0] == a[0];
      assert (a + b)[1..] == a[1..] + b;
      IssuesLossAppend(a[1..], b);
    }
  }

  /** Every raised issue costs something, so a non-empty list of raised issues
      has a strictly positive loss. */
  lemma {:induction false} IssuesLossPositive(issues: seq<Issue>)
    requires forall k :: 0 <= k < |issues| ==> Raised(issues[k])
    ensures issues == [] ==> IssuesLoss(issues) == 0.0
    ensures issues != [] ==> IssuesLoss(issues) > 0.0
  {
    if issues != [] {
      assert Raised(issues[0]);
      var rest := issues[1..];
      assert forall k :: 0 <= k < |rest| ==> rest[k] == issues[k + 1];
      IssuesLossPositive(rest);
    }
  }

  // ---------------------------------------------------------------------------
  // Specification of the classification
  // ---------------------------------------------------------------------------

  /** The response for two readings that compare with their thresholds: the
      temperature issue (if any) followed by the shock issue (if any); the
      shock decides CRITICAL, a temperature issue alone WARNING; the loss is
      the sum over the issues; an alert is due when any issue was found. */
  function Assess(temp: real, vibration: real): (r: Response)
  {
    var tempIssues := if temp > MaxTemperature then [TempIssue(temp)] else [];
    var shockIssues := if vibration > MaxVibration then [ShockIssue(vibration)] else [];
    var issues := tempIssues + shockIssues;
    var status :=
      if vibration > MaxVibration then Critical
      else if temp > MaxTemperature then Warning
      else Safe;
    Response(status, issues, IssuesLoss(issues), issues != [], AuditEngine)
  }

  /** The handler's answer to a decoded request: an error for a body that is
      not JSON, for JSON that is not an object, and for a reading that cannot be
      compared with a number (the temperature is compared first); otherwise the
      assessment of the readings, missing ones taking their defaults. */
  function Classify(req: Request): (r: Result<Response>)
    ensures r.Err? <==>
      req.Malformed? || req.NotObject? ||
      req.temperature.NonNumeric? || req.vibration.NonNumeric?
    ensures r.Err? ==>
      r.error == (if req.Malformed? then InvalidJson
                  else if req.NotObject? then NoKeyLookup
                  else NotComparable)
  {
    match req
    case Malformed => Err(InvalidJson)
    case NotObject => Err(NoKeyLookup)
    case Object(tf, vf) =>
      var temp := Reading(tf, DefaultTemperature);
      var vibration := Reading(vf, DefaultVibration);
      if temp.None? || vibration.None? then Err(NotComparable)
      else Ok(Assess(temp.value, vibration.value))
  }

  // ---------------------------------------------------------------------------
  // The handler, step by step
  // ---------------------------------------------------------------------------

  /** The handler as written: locals `issues`, `status` and `estimatedLoss`
      are updated by two checks in sequence, the second overwriting the status
      the first set; the response is then built from them. */
  method Handle(req: Request) returns (r: Result<Response>)
    ensures r == Classify(req)
  {
    if req.Malformed? {
      return Err(InvalidJson);
    }
    if req.NotObject? {
      return Err(NoKeyLookup);
    }
    var temp := Reading(req.temperature, DefaultTemperature);
    var vibration := Reading(req.vibration, DefaultVibration);

    var issues: seq<Issue> := [];
    var status := Safe;
    var estimatedLoss: real := 0.0;

    if temp.None? {
      return Err(NotComparable);
    }
    if temp.value > MaxTemperature {
      IssuesLossAppend(issues, [TempIssue(temp.value)]);
      issues := issues + [TempIssue(temp.value)];
      estimatedLoss := estimatedLoss + (temp.value - MaxTemperature) * LossPerDegree;
      status := Warning;
    }
    ghost var tempIssues := issues;
    assert tempIssues == if temp.value > MaxTemperature then [TempIssue(temp.value)] else [];
    assert estimatedLoss == IssuesLoss(issues);

    if vibration.None? {
      return Err(NotComparable);
    }
    if vibration.value > MaxVibration {
      IssuesLossAppend(issues, [ShockIssue(vibration.value)]);
      issues := issues + [ShockIssue(vibration.value)];
      estimatedLoss := estimatedLoss + vibration.value * LossPerG;
      status := Critical;
    }
    assert estimatedLoss == IssuesLoss(issues);
    assert issues == tempIssues + if vibration.value > MaxVibration then [ShockIssue(vibration.value)] else [];

    r := Ok(Response(status, issues, estimatedLoss, |issues| > 0, AuditEngine));
  }

  // ---------------------------------------------------------------------------
  // Properties of the classification
  // ---------------------------------------------------------------------------

  /** The loss in closed form: (temp - 8.0) * 150 when the temperature is above
      its threshold, plus vibration * 100 when the vibration is above its. */
  lemma LossFormula(temp: real, vibration: real)
    ensures Assess(temp, vibration).estimatedLoss ==
      (if temp > MaxTemperature then (temp - MaxTemperature) * LossPerDegree else 0.0) +
      (if vibration > MaxVibration then vibration * LossPerG else 0.0)
  {
    var tempIssues := if temp > MaxTemperature then [TempIssue(temp)] else [];
    var shockIssues := if vibration > MaxVibration then [ShockIssue(vibration)] else [];
    IssuesLossAppend(tempIssues, shockIssues);
    assert IssuesLoss(tempIssues) ==
      if temp > MaxTemperature then (temp - MaxTemperature) * LossPerDegree else 0.0;
    assert IssuesLoss(shockIssues) ==
      if vibration > MaxVibration then vibration * LossPerG else 0.0;
  }

  /** SAFE exactly when neither reading is above its threshold; then there
      are no issues, no loss and no alert. */
  lemma SafeExactly(temp: real, vibration: real)
    ensures Assess(temp, vibration).status == Safe <==>
      temp <= MaxTemperature && vibration <= MaxVibration
    ensures Assess(temp, vibration).status == Safe ==>
      Assess(temp, vibration) == Response(Safe, [], 0.0, false, AuditEngine)
  {
  }

  /** CRITICAL exactly when the vibration is above its threshold, whatever the
      temperature: the shock check runs second and overwrites a WARNING. */
  lemma CriticalExactly(temp: real, vibration: real)
    ensures Assess(temp, vibration).status == Critical <==> vibration > MaxVibration
    ensures vibration > MaxVibration ==>
      ShockIssue(vibration) in Assess(temp, vibration).issues
  {
  }

  /** WARNING exactly when only the temperature is above its threshold; the
      issues are then exactly the one temperature issue. */
  lemma WarningExactly(temp: real, vibration: real)
    ensures Assess(temp, vibration).status == Warning <==>
      temp > MaxTemperature && vibration <= MaxVibration
    ensures Assess(temp, vibration).status == Warning ==>
      Assess(temp, vibration).issues == [TempIssue(temp)]
  {
  }

  /** At most two issues, each raised by its own reading, the temperature
      issue before the shock issue; each is present exactly when its reading
      is above its threshold. */
  lemma IssuesShape(temp: real, vibration: real)
    ensures |Assess(temp, vibration).issues| <= 2
    ensures forall i :: i in Assess(temp, vibration).issues ==> Raised(i)
    ensures TempIssue(temp) in Assess(temp, vibration).issues <==> temp > MaxTemperature
    ensures ShockIssue(vibration) in Assess(temp, vibration).issues <==> vibration > MaxVibration
    ensures forall i :: i in Assess(temp, vibration).issues ==>
      i == TempIssue(temp) || i == ShockIssue(vibration)
    ensures |Assess(temp, vibration).issues| == 2 ==>
      Assess(temp, vibration).issues == [TempIssue(temp), ShockIssue(vibration)]
  {
  }

  /** An alert is due exactly when some issue was found, which is exactly when
      the status is not SAFE. */
  lemma AlertExactly(temp: real, vibration: real)
    ensures Assess(temp, vibration).shouldAlert <==> Assess(temp, vibration).issues != []
    ensures Assess(temp, vibration).shouldAlert <==> Assess(temp, vibration).status != Safe
  {
  }

  /** The status can be read back from the issues: CRITICAL when a shock issue
      is among them, WARNING when there are issues but no shock issue, SAFE
      when there are none. */
  lemma StatusFromIssues(temp: real, vibration: real)
    ensures Assess(temp, vibration).status ==
      if exists i :: i in Assess(temp, vibration).issues && i.ShockIssue? then Critical
      else if Assess(temp, vibration).issues != [] then Warning
      else Safe
  {
    var issues := Assess(temp, vibration).issues;
    if vibration > MaxVibration {
      assert issues[|issues| - 1] in issues;
    } else {
      assert forall i :: i in issues ==> i == TempIssue(temp);
    }
  }

  /** The estimated loss is strictly positive when the status is not SAFE and
      zero when it is. */
  lemma LossPositiveExactly(temp: real, vibration: real)
    ensures Assess(temp, vibration).estimatedLoss > 0.0 <==> Assess(temp, vibration).status != Safe
    ensures Assess(temp, vibration).status == Safe ==> Assess(temp, vibration).estimatedLoss == 0.0
  {
    var issues := Assess(temp, vibration).issues;
    IssuesShape(temp, vibration);
    forall k | 0 <= k < |issues| ensures Raised(issues[k]) {
      assert issues[k] in issues;
    }
    IssuesLossPositive(issues);
  }

  /** The order of the statuses, from SAFE up to CRITICAL. */
  function Severity(s: Status): (r: nat)
  {
    match s
    case Safe => 0
    case Warning => 1
    case Critical => 2
  }

  /** A hotter or shakier reading never lowers the status nor the loss. */
  lemma Monotone(temp1: real, vibration1: real, temp2: real, vibration2: real)
    requires temp1 <= temp2 && vibration1 <= vibration2
    ensures Severity(Assess(temp1, vibration1).status) <= Severity(Assess(temp2, vibration2).status)
    ensures Assess(temp1, vibration1).estimatedLoss <= Assess(temp2, vibration2).estimatedLoss
  {
    LossFormula(temp1, vibration1);
    LossFormula(temp2, vibration2);
  }

  /** Only the upper temperature bound is checked: a reading however cold,
      with the vibration within bounds, is SAFE with no issue. */
  lemma NoLowerTemperatureBound(temp: real, vibration: real)
    requires temp <= MaxTemperature && vibration <= MaxVibration
    ensures Classify(Object(Number(temp), Number(vibration))) ==
      Ok(Response(Safe, [], 0.0, false, AuditEngine))
  {
  }

  /** A missing field takes its default (4.0 degrees, 0.0 G); a request with
      neither field is SAFE with no loss. */
  lemma DefaultsApply(req: Request)
    requires req.Object?
    ensures req.temperature.Absent? ==>
      Classify(req) == Classify(Object(Number(DefaultTemperature), req.vibration))
    ensures req.vibration.Absent? ==>
      Classify(req) == Classify(Object(req.temperature, Number(DefaultVibration)))
    ensures req.temperature.Absent? && req.vibration.Absent? ==>
      Classify(req) == Ok(Response(Safe, [], 0.0, false, AuditEngine))
  {
  }

  /** JSON booleans compare as 0 and 1, both within every threshold, so a
      request whose readings are booleans or absent is SAFE. */
  lemma BooleanReadingsAreSafe(req: Request)
    requires req.Object?
    requires req.temperature.Boolean? || req.temperature.Absent?
    requires req.vibration.Boolean? || req.vibration.Absent?
    ensures Classify(req).Ok? && Classify(req).value.status == Safe
  {
  }
}
