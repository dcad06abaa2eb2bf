/** `LogSnag::Identify`: the user-properties builder. */
module Identify {
  import opened Values
  import opened Hashes
  import opened Errors
  import opened Config
  import opened Validator
  import opened EventBase

  const REQUIRED_KEYS: seq<string> := ["project", "user_id", "properties"]

  /** The caller's entries after `append_required_fields!` and `compact_properties!`. */
  function Prepared(d: Entries, project: Option<string>): Entries {
    Compacted(WithProject(d, project), "properties")
  }

  /** What compacting the properties and then `validate_data` raise on the prepared
      entries: required keys, then the shape of the properties. There is no allow-list. */
  function Validation(d: Entries, project: Option<string>): Check {
    var injected := WithProject(d, project);
    var e := Compacted(injected, "properties");
    CompactCheck(injected, "properties")
      .Then(ValidateRequiredKeys(REQUIRED_KEYS, e))
      .Then(HashCheck(Get(e, "properties")))
  }

  /** `Identify.new(data, config)`: after the base guards, writes `project` and compacts
      the properties in the caller's own hash, then validates; the writes stay even when
      a check then raises. */
  method New(data: DataArg, config: Configuration?) returns (r: Attempt<Event>)
    requires data.HashArg? ==> data.hash.Valid()
    modifies if data.HashArg? then {data.hash} else {}
    ensures data.HashArg? ==> data.hash.Valid()
    ensures Guard(data, config).Fail? ==> r == Raised(Guard(data, config).error)
    ensures Guard(data, config).Fail? && data.HashArg? ==> unchanged(data.hash)
    ensures Guard(data, config).Pass? ==>
      data.hash.entries == Prepared(old(data.hash.entries), config.project)
    ensures Guard(data, config).Pass? ==>
      (r.Raised? <==> Validation(old(data.hash.entries), config.project).Fail?)
    ensures Guard(data, config).Pass? && r.Raised? ==>
      r.error == Validation(old(data.hash.entries), config.project).error
    ensures r.Ok? ==> fresh(r.value) && r.value.kind == IdentifyKind
    ensures r.Ok? ==> r.value.data == data.hash && r.value.config == config
  {
    var g := Guard(data, config);
    if g.Fail? {
      return Raised(g.error);
    }
    var hash := data.hash;
    hash.Store("project", OptionalString(config.project));
    var c := CompactHash(hash, "properties");
    if c.Fail? {
      return Raised(c.error);
    }
    c := ValidateRequiredKeys(REQUIRED_KEYS, hash.entries);
    if c.Fail? {
      return Raised(c.error);
    }
    c := ValidateHash(hash.Fetch("properties"));
    if c.Fail? {
      return Raised(c.error);
    }
    var event := new Event(IdentifyKind, hash, config);
    return Ok(event);
  }

  /** The same checks stated on the caller's original data: `project` dropped from the
      key list, and the properties taken after compaction. An Identify is built exactly
      when the properties can be compacted, `user_id` and `properties` are present, and
      the compacted properties pass the shape check. */
  function CallerChecks(d: Entries): (c: Check)
    ensures c.Pass? <==>
      && CompactOutcome(Get(d, "properties")).Pass?
      && "user_id" in Keys(d) && "properties" in Keys(d)
      && HashCheck(AfterCompaction(Get(d, "properties"))).Pass?
  {
    CompactOutcome(Get(d, "properties"))
      .Then(ValidateRequiredKeys(["user_id", "properties"], d))
      .Then(HashCheck(AfterCompaction(Get(d, "properties"))))
  }

  /** The checks read as checks on the caller's original data, whatever the configured
      project: `project` is never reported. */
  lemma ValidationOnCallerData(d: Entries, project: Option<string>)
    ensures Validation(d, project) == CallerChecks(d)
  {
    var injected := WithProject(d, project);
    var e := Compacted(injected, "properties");
    CompactedEffect(injected, "properties");
    assert REQUIRED_KEYS == ["project"] + ["user_id", "properties"];
    RequiredAfterInjection(["user_id", "properties"], d, e);
  }

  /** Without an allow-list, a field other than the three known ones never changes the
      outcome, whatever its value. */
  lemma ExtraFieldIgnored(d: Entries, project: Option<string>, k: string, v: Value)
    requires k !in REQUIRED_KEYS
    ensures Validation(Put(d, k, v), project) == Validation(d, project)
  {
    var d' := Put(d, k, v);
    PutEffect(d, k, v);
    ValidationOnCallerData(d, project);
    ValidationOnCallerData(d', project);
    DifferenceSameMembership(["user_id", "properties"], Keys(d'), Keys(d));
  }

  /** What the payload holds after construction: `project` from the configuration, the
      properties compacted, and every other field as the caller gave it. */
  lemma PreparedPayload(d: Entries, project: Option<string>)
    ensures Get(Prepared(d, project), "project") == OptionalString(project)
    ensures Get(Prepared(d, project), "properties") == AfterCompaction(Get(d, "properties"))
    ensures forall k :: k != "project" && k != "properties" ==>
      Get(Prepared(d, project), k) == Get(d, k)
    ensures Keys(Prepared(d, project)) ==
      if "project" in Keys(d) then Keys(d) else Keys(d) + ["project"]
  {
    CompactedEffect(WithProject(d, project), "properties");
    WithProjectKeys(d, project);
  }

  /** Nil properties are dropped before the shape check: when the remaining properties
      have well-formed keys and scalar values and `user_id` is present, the call is
      accepted and the payload carries the properties without their nil entries. */
  lemma NilPropertiesDropped(d: Entries, project: Option<string>, props: Entries)
    requires "user_id" in Keys(d) && Get(d, "properties") == Hash(props)
    requires forall i :: 0 <= i < |props| && props[i].1 != Nil ==>
      KeyShape(props[i].0) && Scalar(props[i].1)
    ensures Validation(d, project).Pass?
    ensures Get(Prepared(d, project), "properties") == Hash(Compact(props))
  {
    var kept := Compact(props);
    forall i | 0 <= i < |kept| ensures KeyShape(kept[i].0) && Scalar(kept[i].1) {
      assert kept[i] in kept;
      var j :| 0 <= j < |props| && props[j] == kept[i];
    }
    HashCheckOfHash(kept);
    assert "properties" in Keys(d);
    ValidationOnCallerData(d, project);
    PreparedPayload(d, project);
  }
}
