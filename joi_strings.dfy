/** The part of Joi's `string()` schema the request validators use: presence
    (`required()` or `optional()`), `allow('')`, `min(n)`, `max(n)` and
    `email()`. A property is absent (`None`) or a string; lengths are
    JavaScript lengths (UTF-16 code units). Whether a string is an e-mail
    address is Joi's own test, kept as the parameter `isEmail`. */
module JoiStrings {
  import opened Wrappers
  import opened JsString

  datatype StringRule = StringRule(required: bool, allowEmpty: bool, min: Option<nat>, max: Option<nat>, email: bool)

  /** Whether `value` passes `rule`. The empty string is refused unless
      allowed, and an allowed empty string skips the other rules. */
  predicate Accepts(rule: StringRule, value: Option<string>, isEmail: string -> bool) {
    match value
    case None => !rule.required
    case Some(s) =>
      if s == "" then rule.allowEmpty
      else (rule.min.None? || rule.min.value <= JsLength(s)) &&
           (rule.max.None? || JsLength(s) <= rule.max.value) &&
           (!rule.email || isEmail(s))
  }

  /** A string under `max(n)` has at most `n` characters, whatever they are,
      and a non-empty one under `min(n)` at least `n / 2`. */
  lemma AcceptedLength(rule: StringRule, s: string, isEmail: string -> bool)
    requires Accepts(rule, Some(s), isEmail) && s != ""
    ensures rule.max.Some? ==> |s| <= rule.max.value
    ensures rule.min.Some? ==> rule.min.value <= 2 * |s|
  {
    assert |s| <= JsLength(s) <= 2 * |s|;
  }
}
