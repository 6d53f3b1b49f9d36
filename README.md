# Risk calculator — a Dafny model

This project models the risk-calculator function of the cold-chain monitoring
system (`packages/functions/risk-calculator/handler.py`, `handle`). The
function receives one telemetry reading as JSON: a `temperature` in degrees
Celsius and a `vibration` in G. Each field falls back to a default when it is
missing: 4.0 degrees and 0.0 G. The function then checks two fixed upper
thresholds in sequence:

- a temperature above 8.0 appends a temperature issue, adds
  `(temperature - 8.0) * 150` to the estimated loss and sets the status to
  `WARNING`;
- a vibration above 4.0 appends a shock issue, adds `vibration * 100` and sets
  the status to `CRITICAL`, overwriting any `WARNING`.

The answer carries the status, the ordered issues, the estimated loss, a
`should_alert` flag (true when there is any issue) and the fixed
`audit_engine` field `"OpenFaaS"`. Any exception becomes an error answer.

Everything is in one module, `RiskCalculator` (`risk_calculator.dfy`):

- `Request` is the body after JSON decoding. It is not JSON (`Malformed`), is
  JSON but not an object (`NotObject`), or is an object whose two reading
  fields are each `Absent`, a `Number`, a `Boolean`, or `NonNumeric` (null, a
  string, an array or an object).
- A JSON boolean compares with a number as 0 or 1. A `NonNumeric` field makes
  the comparison with its threshold fail, which gives the error answer
  `NotComparable`. A `Malformed` body gives `InvalidJson`. A `NotObject` body
  has no keyed lookup and gives `NoKeyLookup`.
- Issues are tagged values (`TempIssue(t)`, `ShockIssue(v)`) that carry the
  reading which raised them. Statuses are `Safe`, `Warning` and `Critical`.
- `Assess` and `Classify` are the specification functions. `Handle` is the
  handler written as the source writes it: locals updated step by step by two
  `if` blocks. It is proved equal to `Classify`.
- The reference definition of the loss is `IssuesLoss`, the sum over the
  reported issues of each issue's own loss. `Handle` keeps its running
  `estimatedLoss` equal to `IssuesLoss(issues)` after each append.

The handler checks only an upper temperature bound (line 19). A reading
however cold is SAFE (see `NoLowerTemperatureBound`).

## Model

| member | source | states |
|---|---|---|
| `RiskCalculator.Handle` | packages/functions/risk-calculator/handler.py:5-40 | The step-by-step handler gives exactly the `Classify` answer for every request, error requests included. The second check overwrites the status set by the first. Each append of an issue adds that issue's loss to the running estimate. |
| `RiskCalculator.Classify` | packages/functions/risk-calculator/handler.py:10-40 | The answer is an error exactly when the body is not JSON, is not an object, or has a non-numeric temperature or vibration. The error kind is invalid JSON, then no keyed lookup, then not comparable, in that order. An integer reading too large for a float is not an error here (see Left out). |
| `RiskCalculator.Reading` | packages/functions/risk-calculator/handler.py:12-13 | A field fails to compare exactly when it is non-numeric. A missing field reads as its default. A number reads as its own value. `true` reads as 1.0 and `false` as 0.0. |
| `RiskCalculator.IssuesLossAppend` | packages/functions/risk-calculator/handler.py:15-26 | The loss of a concatenation of issue lists is the sum of their losses, so appending an issue and adding its loss keeps the estimate equal to the loss of the issues. |
| `RiskCalculator.IssuesLossPositive` | packages/functions/risk-calculator/handler.py:17-26 | A list of raised issues has loss 0 when empty and a strictly positive loss otherwise. |
| `RiskCalculator.LossFormula` | packages/functions/risk-calculator/handler.py:17-26 | The estimated loss is (temperature - 8.0) * 150 when temperature > 8.0, plus vibration * 100 when vibration > 4.0. |
| `RiskCalculator.SafeExactly` | packages/functions/risk-calculator/handler.py:15-27 | The status is SAFE if and only if temperature <= 8.0 and vibration <= 4.0. In that case there are no issues, the loss is 0 and no alert is due. |
| `RiskCalculator.CriticalExactly` | packages/functions/risk-calculator/handler.py:19-27 | The status is CRITICAL if and only if vibration > 4.0, whatever the temperature. The shock issue is then among the issues. |
| `RiskCalculator.WarningExactly` | packages/functions/risk-calculator/handler.py:19-27 | The status is WARNING if and only if temperature > 8.0 and vibration <= 4.0. The issues are then exactly the one temperature issue. |
| `RiskCalculator.IssuesShape` | packages/functions/risk-calculator/handler.py:15-25 | There are at most two issues, each raised by a reading above its threshold. The temperature issue is present if and only if temperature > 8.0, and the shock issue if and only if vibration > 4.0. When both are present, the temperature issue comes first. |
| `RiskCalculator.AlertExactly` | packages/functions/risk-calculator/handler.py:33 | `should_alert` holds if and only if the issues are non-empty, which is if and only if the status is not SAFE. |
| `RiskCalculator.StatusFromIssues` | packages/functions/risk-calculator/handler.py:16-27 | The status can be read back from the issues: CRITICAL when a shock issue is present, WARNING when there are only other issues, SAFE when there are none. |
| `RiskCalculator.LossPositiveExactly` | packages/functions/risk-calculator/handler.py:17-27 | The unrounded estimated loss is strictly positive if and only if the status is not SAFE. It is 0 when the status is SAFE. The reported, rounded loss can be 0.0 for a WARNING (see Left out). |
| `RiskCalculator.Monotone` | packages/functions/risk-calculator/handler.py:19-27 | A reading that is no colder and no shakier never gets a lower status or a lower loss. |
| `RiskCalculator.NoLowerTemperatureBound` | packages/functions/risk-calculator/handler.py:19 | Only the upper temperature bound is checked. Any numeric temperature <= 8.0, however cold, with vibration <= 4.0 is SAFE with no issue, no loss and no alert. |
| `RiskCalculator.DefaultsApply` | packages/functions/risk-calculator/handler.py:12-13 | A missing temperature behaves as 4.0 and a missing vibration as 0.0. A request with neither field is SAFE with loss 0 and no alert. |
| `RiskCalculator.BooleanReadingsAreSafe` | packages/functions/risk-calculator/handler.py:12-24 | Readings that are JSON booleans or are missing never raise an issue, so such a request is SAFE. |

## Left out

- JSON decoding and encoding are not modelled. The request is taken already decoded as a `Request`, and the answer is a `Result` value rather than JSON text.
- The text of the error answer (Python's `str(e)`) is not modelled. The error answer is reduced to one of three kinds.
- The rounding of the estimated loss to two decimals is not modelled. The model keeps the exact loss, because rounding depends on binary floating point.
- LossPositiveExactly: positivity holds for the unrounded estimate only. The handler reports `round(estimated_loss, 2)` (line 32), so a WARNING with a temperature in (8.0, 8.0 + 1/30000), such as 8.00001, is reported with `estimated_loss` 0.0 while `should_alert` is true.
- The formatted issue strings (`Temperature: …°C`, `Shock: …G`) are not modelled. Issues are tagged values that carry their reading, because the formatting depends on Python's float-to-text conversion.
- Floating point is not modelled: readings are exact reals, so NaN and infinities are not represented, and a loss too large for a float (which Python turns silently into `inf`) stays a finite real.
- Classify: answers `Ok` with a WARNING or CRITICAL response where the handler gives an error answer for a JSON integer reading too large for a float. Python compares such an integer with 8.0 or 4.0 exactly, so the threshold check passes. The conversion to float then raises OverflowError, at `temp - 8.0` (line 21) or at `estimated_loss += vibration * 100` (line 26) once the estimate is already a float. Line 39 turns that into an error answer. The model has no integer/float distinction, so it does not represent this error path.
- The standard-input entry point is not modelled (I/O).
- The e-mail sender function (`packages/functions/email-sender/handler.py`) is not modelled. It is a wrapper around an SMTP connection and environment variables.
