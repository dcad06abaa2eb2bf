/** `LogSnag::Insight`: the insight builder, for creating an insight (`mutate: false`)
    or incrementing one (`mutate: true`). */
module Insight {
  import opened Values
  import opened Hashes
  import opened Errors
  import opened Config
  import opened Validator
  import opened EventBase

  const REQUIRED_KEYS: seq<string> := ["project", "title", "value"]

  /** The value check: a created insight takes a string or a number, a mutation only a
      number. */
  function ValueCheck(mutate: bool, v: Value): (c: Check)
    ensures mutate ==> (c.Pass? <==> v.Num?)
    ensures !mutate ==> (c.Pass? <==> v.Str? || v.Num?)
    ensures c.Fail? ==> c.error == (if mutate then InvalidMutationValue(v) else InvalidInsightValue(v))
  {
    if mutate then
      if v.Num? then Pass else Fail(InvalidMutationValue(v))
    else
      if v.Str? || v.Num? then Pass else Fail(InvalidInsightValue(v))
  }

  /** The caller's entries after `append_required_fields!`; nothing is compacted. */
  function Prepared(d: Entries, project: Option<string>): Entries {
    WithProject(d, project)
  }

  /** What `validate_data` or `validate_mutation_data` raise on the prepared entries:
      required keys, then the value. There is no allow-list. */
  function Validation(d: Entries, project: Option<string>, mutate: bool): Check {
    var e := WithProject(d, project);
    ValidateRequiredKeys(REQUIRED_KEYS, e).Then(ValueCheck(mutate, Get(e, "value")))
  }

  /** `Insight.new(data, config, mutate:)`: after the base guards, writes `project` in the
      caller's own hash, then validates; the write stays even when a check raises. */
  method New(data: DataArg, config: Configuration?, mutate: bool) returns (r: Attempt<Event>)
    requires data.HashArg? ==> data.hash.Valid()
    modifies if data.HashArg? then {data.hash} else {}
    ensures data.HashArg? ==> data.hash.Valid()
    ensures Guard(data, config).Fail? ==> r == Raised(Guard(data, config).error)
    ensures Guard(data, config).Fail? && data.HashArg? ==> unchanged(data.hash)
    ensures Guard(data, config).Pass? ==>
      data.hash.entries == Prepared(old(data.hash.entries), config.project)
    ensures Guard(data, config).Pass? ==>
      (r.Raised? <==> Validation(old(data.hash.entries), config.project, mutate).Fail?)
    ensures Guard(data, config).Pass? && r.Raised? ==>
      r.error == Validation(old(data.hash.entries), config.project, mutate).error
    ensures r.Ok? ==> fresh(r.value) && r.value.kind == InsightKind(mutate)
    ensures r.Ok? ==> r.value.data == data.hash && r.value.config == config
  {
    var g := Guard(data, config);
    if g.Fail? {
      return Raised(g.error);
    }
    var hash := data.hash;
    hash.Store("project", OptionalString(config.project));
    var c := ValidateRequiredKeys(REQUIRED_KEYS, hash.entries);
    if c.Fail? {
      return Raised(c.error);
    }
    var v := hash.Fetch("value");
    if mutate {
      if !v.Num? {
        return Raised(InvalidMutationValue(v));
      }
    } else {
      if !(v.Str? || v.Num?) {
        return Raised(InvalidInsightValue(v));
      }
    }
    var event := new Event(InsightKind(mutate), hash, config);
    return Ok(event);
  }

  /** The checks read as checks on the caller's original data, whatever the configured
      project: `project` is never reported and never read as the value. */
  lemma ValidationOnCallerData(d: Entries, project: Option<string>, mutate: bool)
    ensures Validation(d, project, mutate) ==
      ValidateRequiredKeys(["title", "value"], d).Then(ValueCheck(mutate, Get(d, "value")))
  {
    var e := WithProject(d, project);
    assert REQUIRED_KEYS == ["project"] + ["title", "value"];
    RequiredAfterInjection(["title", "value"], d, e);
  }

  /** An insight is built exactly when `title` and `value` are present and the value is
      a number, or, when creating, a string. */
  lemma Accepted(d: Entries, project: Option<string>, mutate: bool)
    ensures Validation(d, project, mutate).Pass? <==>
      && "title" in Keys(d) && "value" in Keys(d)
      && (Get(d, "value").Num? || (!mutate && Get(d, "value").Str?))
  {
    ValidationOnCallerData(d, project, mutate);
  }

  /** Every mutation the builder accepts would also be accepted as a new insight. */
  lemma MutationAcceptedIsCreatable(d: Entries, project: Option<string>)
    requires Validation(d, project, true).Pass?
    ensures Validation(d, project, false).Pass?
  {
    Accepted(d, project, true);
    Accepted(d, project, false);
  }

  /** A string value is what separates the two modes: with the required keys present,
      creating accepts it and mutating rejects it, naming the value. */
  lemma StringValueOnlyCreates(d: Entries, project: Option<string>)
    requires "title" in Keys(d) && Get(d, "value").Str?
    ensures Validation(d, project, false).Pass?
    ensures Validation(d, project, true) == Fail(InvalidMutationValue(Get(d, "value")))
  {
    ValidationOnCallerData(d, project, false);
    ValidationOnCallerData(d, project, true);
  }

  /** Missing keys are reported before the value is looked at, in both modes. */
  lemma MissingKeysFirst(d: Entries, project: Option<string>, mutate: bool)
    requires "title" !in Keys(d) || "value" !in Keys(d)
    ensures Validation(d, project, mutate).Fail?
    ensures Validation(d, project, mutate).error.MissingKeys?
  {
    ValidationOnCallerData(d, project, mutate);
  }

  /** Without an allow-list, a field other than the three known ones (such as `icon`)
      never changes the outcome, whatever its value. */
  lemma ExtraFieldIgnored(d: Entries, project: Option<string>, mutate: bool, k: string, v: Value)
    requires k !in REQUIRED_KEYS
    ensures Validation(Put(d, k, v), project, mutate) == Validation(d, project, mutate)
  {
    var d' := Put(d, k, v);
    PutEffect(d, k, v);
    ValidationOnCallerData(d, project, mutate);
    ValidationOnCallerData(d', project, mutate);
    DifferenceSameMembership(["title", "value"], Keys(d'), Keys(d));
  }
}
