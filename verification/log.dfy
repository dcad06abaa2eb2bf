/** `LogSnag::Log`: the event-log builder. */
module Log {
  import opened Values
  import opened Hashes
  import opened Errors
  import opened Config
  import opened Validator
  import opened EventBase

  const REQUIRED_KEYS: seq<string> := ["project", "channel", "event"]
  const ALLOWED_KEYS: seq<string> :=
    REQUIRED_KEYS + ["user_id", "description", "icon", "notify", "tags", "parser", "timestamp"]

  /** The caller's entries after `append_required_fields!` and `compact_tags!`. */
  function Prepared(d: Entries, project: Option<string>): Entries {
    Compacted(WithProject(d, project), "tags")
  }

  /** What `validate_data` (preceded by `compact_tags!`, which can raise) raises on the
      prepared entries: required keys, then allowed keys, then the tags' shape. */
  function Validation(d: Entries, project: Option<string>): Check {
    var injected := WithProject(d, project);
    var e := Compacted(injected, "tags");
    CompactCheck(injected, "tags")
      .Then(ValidateRequiredKeys(REQUIRED_KEYS, e))
      .Then(ValidateAllowedKeys(ALLOWED_KEYS, e))
      .Then(HashCheck(Get(e, "tags")))
  }

  /** `Log.new(data, config)`: after the base guards, writes `project` and compacts the
      tags in the caller's own hash, then validates; the writes stay even when a check
      then raises. */
  method New(data: DataArg, config: Configuration?) returns (r: Attempt<Event>)
    requires data.HashArg? ==> data.hash.Valid()
    modifies if data.HashArg? then {data.hash} else {}
    ensures data.HashArg? ==> data.hash.Valid()
    ensures Guard(data, config).Fail? ==> r == Raised(Guard(data, config).error)
    ensures Guard(data, config).Fail? && data.HashArg? ==> unchanged(data.hash)
    ensures Guard(data, config).Pass? ==>
      data.hash.entries == Prepared(old(data.hash.entries), config.project)
    ensures Guard(data, config).Pass? ==>
      (r.Raised? <==> Validation(old(data.hash.entries), config.project).Fail?)
    ensures Guard(data, config).Pass? && r.Raised? ==>
      r.error == Validation(old(data.hash.entries), config.project).error
    ensures r.Ok? ==> fresh(r.value) && r.value.kind == LogKind
    ensures r.Ok? ==> r.value.data == data.hash && r.value.config == config
  {
    var g := Guard(data, config);
    if g.Fail? {
      return Raised(g.error);
    }
    var hash := data.hash;
    ghost var d := hash.entries;
    hash.Store("project", OptionalString(config.project));
    var c := CompactHash(hash, "tags");
    if c.Fail? {
      return Raised(c.error);
    }
    c := ValidateRequiredKeys(REQUIRED_KEYS, hash.entries);
    if c.Fail? {
      return Raised(c.error);
    }
    c := ValidateAllowedKeys(ALLOWED_KEYS, hash.entries);
    if c.Fail? {
      return Raised(c.error);
    }
    c := ValidateHash(hash.Fetch("tags"));
    if c.Fail? {
      return Raised(c.error);
    }
    var event := new Event(LogKind, hash, config);
    return Ok(event);
  }

  /** The same checks stated on the caller's original data: `project` dropped from both
      key lists, and the tags taken after compaction. A Log is built exactly when the
      tags can be compacted, `channel` and `event` are present, every key is allowed, and
      the compacted tags pass the shape check. */
  function CallerChecks(d: Entries): (c: Check)
    ensures c.Pass? <==>
      && CompactOutcome(Get(d, "tags")).Pass?
      && "channel" in Keys(d) && "event" in Keys(d)
      && (forall k :: k in Keys(d) ==> k in ALLOWED_KEYS)
      && HashCheck(AfterCompaction(Get(d, "tags"))).Pass?
  {
    var tags := Get(d, "tags");
    var required := ValidateRequiredKeys(["channel", "event"], d);
    assert required.Pass? <==> "channel" in Keys(d) && "event" in Keys(d);
    var allowed := ValidateAllowedKeys(ALLOWED_KEYS, d);
    CompactOutcome(tags).Then(required).Then(allowed).Then(HashCheck(AfterCompaction(tags)))
  }

  /** The checks read as checks on the caller's original data, whatever the configured
      project: `project` is always present and always allowed, so it never appears in an
      error. */
  lemma ValidationOnCallerData(d: Entries, project: Option<string>)
    ensures Validation(d, project) == CallerChecks(d)
  {
    var injected := WithProject(d, project);
    var e := Compacted(injected, "tags");
    var tags := Get(d, "tags");
    CompactedEffect(injected, "tags");
    WithProjectKeys(d, project);
    assert Get(injected, "tags") == tags;
    assert CompactCheck(injected, "tags") == CompactOutcome(tags);
    assert Get(e, "tags") == AfterCompaction(tags);
    assert REQUIRED_KEYS == ["project"] + ["channel", "event"];
    RequiredAfterInjection(["channel", "event"], d, e);
    assert ALLOWED_KEYS[0] == "project";
    AllowedAfterInjection(ALLOWED_KEYS, d, e);
  }

  /** The missing-key list of the caller-side checks, spelled out for two keys. */
  lemma CallerMissingKeys(d: Entries)
    requires CompactOutcome(Get(d, "tags")).Pass?
    requires "channel" !in Keys(d) || "event" !in Keys(d)
    ensures CallerChecks(d) ==
      Fail(MissingKeys((if "channel" in Keys(d) then [] else ["channel"]) +
                       (if "event" in Keys(d) then [] else ["event"])))
  {
    var r := ["channel", "event"];
    var missing := (if "channel" in Keys(d) then [] else ["channel"]) +
                   (if "event" in Keys(d) then [] else ["event"]);
    assert r[1..] == ["event"] && ["event"][1..] == [];
    assert Difference(["event"], Keys(d)) == if "event" in Keys(d) then [] else ["event"];
    assert Difference(r, Keys(d)) == missing;
    assert ValidateRequiredKeys(r, d) == Fail(MissingKeys(missing));
  }

  /** Missing `channel` or `event` raises "Missing required keys", listing exactly the
      missing ones in the order channel, event, before any allow-list or tag check. */
  lemma MissingKeysReported(d: Entries, project: Option<string>)
    requires CompactOutcome(Get(d, "tags")).Pass?
    requires "channel" !in Keys(d) || "event" !in Keys(d)
    ensures Validation(d, project) ==
      Fail(MissingKeys((if "channel" in Keys(d) then [] else ["channel"]) +
                       (if "event" in Keys(d) then [] else ["event"])))
  {
    ValidationOnCallerData(d, project);
    CallerMissingKeys(d);
  }

  /** With the required keys present, any key outside the allow-list raises "Found
      invalid keys", listing exactly the unknown keys in the data's key order. */
  lemma InvalidKeysReported(d: Entries, project: Option<string>)
    requires CompactOutcome(Get(d, "tags")).Pass?
    requires "channel" in Keys(d) && "event" in Keys(d)
    requires exists k :: k in Keys(d) && k !in ALLOWED_KEYS
    ensures Validation(d, project) == Fail(InvalidKeys(Difference(Keys(d), ALLOWED_KEYS)))
  {
    ValidationOnCallerData(d, project);
  }

  /** What the payload holds after construction: `project` from the configuration, the
      tags compacted, and every other field as the caller gave it, in the caller's order. */
  lemma PreparedPayload(d: Entries, project: Option<string>)
    ensures Get(Prepared(d, project), "project") == OptionalString(project)
    ensures Get(Prepared(d, project), "tags") == AfterCompaction(Get(d, "tags"))
    ensures forall k :: k != "project" && k != "tags" ==> Get(Prepared(d, project), k) == Get(d, k)
    ensures Keys(Prepared(d, project)) ==
      if "project" in Keys(d) then Keys(d) else Keys(d) + ["project"]
  {
    var injected := WithProject(d, project);
    CompactedEffect(injected, "tags");
    WithProjectKeys(d, project);
  }

  /** For a caller who supplies no `project` and no nil tag, the payload is the input
      with `project` appended (`data.merge(project: ...)`). */
  lemma PayloadIsInputWithProject(d: Entries, project: Option<string>)
    requires "project" !in Keys(d)
    requires AfterCompaction(Get(d, "tags")) == Get(d, "tags")
    ensures Prepared(d, project) == d + [("project", OptionalString(project))]
  {
    var injected := WithProject(d, project);
    assert Find(d, "project") < 0;
    assert injected == d + [("project", OptionalString(project))];
    var v := Get(injected, "tags");
    assert v == Get(d, "tags");
    if v.Hash? || v.Arr? {
      assert "tags" in Keys(injected);
      assert CompactValue(v) == v;
      PutExisting(injected, "tags");
    }
  }

  /** `log({channel: "c", event: "e"})` with project "p" passes and sends
      `{channel: "c", event: "e", project: "p"}`. */
  lemma MinimalLogExample(d: Entries)
    requires d == [("channel", Str("c")), ("event", Str("e"))]
    ensures Validation(d, Some("p")).Pass?
    ensures Prepared(d, Some("p")) == d + [("project", Str("p"))]
  {
    assert Keys(d) == ["channel", "event"];
    assert Get(d, "tags") == Nil;
    assert CallerChecks(d).Pass?;
    ValidationOnCallerData(d, Some("p"));
    PayloadIsInputWithProject(d, Some("p"));
  }
}
