/** `LogSnag::EventBase`: the guards every event builder runs first, the event object
    itself, and the `project` injection the three builders share. */
module EventBase {
  import opened Values
  import opened Hashes
  import opened Errors
  import opened Config
  import opened Validator

  /** Which builder produced an event; an Insight remembers its `mutate:` flag. */
  datatype Kind = Base | LogKind | IdentifyKind | InsightKind(mutate: bool)

  /** The `data` argument: the caller's Hash object, or an object of another class. */
  datatype DataArg = HashArg(hash: RubyHash) | NotAHash

  /** An event: the caller's own data hash (not a copy) and the configuration it was
      built with. */
  class Event {
    const kind: Kind
    const data: RubyHash
    const config: Configuration

    constructor (kind: Kind, data: RubyHash, config: Configuration)
      ensures this.kind == kind && this.data == data && this.config == config
    {
      this.kind := kind;
      this.data := data;
      this.config := config;
    }

    /** `to_json`: the data hash itself, with no wrapping (serialization is the identity
        on values here). */
    function ToJson(): (v: Value)
      reads data
      ensures v.Hash? && v.entries == data.entries
    {
      Hash(data.entries)
    }
  }

  /** The constructor's guards: a non-Hash `data` raises first, then a `config` that is
      not a Configuration; any Configuration object passes, set or not. `null` stands for
      every argument that is not a Configuration: nil, a String, any other object. */
  function Guard(data: DataArg, config: Configuration?): (c: Check)
    ensures c.Pass? <==> data.HashArg? && config != null
    ensures !data.HashArg? ==> c == Fail(DataNotHash)
    ensures data.HashArg? && config == null ==> c == Fail(ConfigurationNotFound)
  {
    if !data.HashArg? then Fail(DataNotHash)
    else if config == null then Fail(ConfigurationNotFound)
    else Pass
  }

  /** `EventBase.new(data, config)`: keeps the caller's hash object after the guards. */
  method New(data: DataArg, config: Configuration?) returns (r: Attempt<Event>)
    ensures r.Raised? <==> Guard(data, config).Fail?
    ensures r.Raised? ==> r.error == Guard(data, config).error
    ensures r.Ok? ==> fresh(r.value) && r.value.kind == Base
    ensures r.Ok? ==> r.value.data == data.hash && r.value.config == config
  {
    var g := Guard(data, config);
    if g.Fail? {
      return Raised(g.error);
    }
    var event := new Event(Base, data.hash, config);
    return Ok(event);
  }

  /** The entries after `append_required_fields!`: `data[:project] = config.project`.
      The caller's own `project` is overwritten in place; an unset project stores nil. */
  function WithProject(d: Entries, project: Option<string>): (r: Entries)
    ensures Get(r, "project") == OptionalString(project)
    ensures forall k :: k != "project" ==> Get(r, k) == Get(d, k)
    ensures forall k :: k in Keys(r) <==> k in Keys(d) || k == "project"
    ensures |r| >= |d|
    ensures forall i :: 0 <= i < |d| && d[i].0 != "project" ==> r[i] == d[i]
    ensures UniqueKeys(d) ==> UniqueKeys(r)
  {
    PutEffect(d, "project", OptionalString(project));
    if UniqueKeys(d) then
      PutUnique(d, "project", OptionalString(project));
      Put(d, "project", OptionalString(project))
    else Put(d, "project", OptionalString(project))
  }

  /** The key list after injecting `project`: the caller's keys in their order, with
      `project` appended when the caller did not supply it. */
  lemma WithProjectKeys(d: Entries, project: Option<string>)
    ensures Keys(WithProject(d, project)) ==
      if "project" in Keys(d) then Keys(d) else Keys(d) + ["project"]
  {
    PutKeys(d, "project", OptionalString(project));
  }

  /** After the injection, checking for `project` plus `rest` is checking the caller's
      data for `rest` alone: `project` is never reported missing. */
  lemma RequiredAfterInjection(rest: seq<string>, d: Entries, e: Entries)
    requires "project" !in rest
    requires forall k :: k in Keys(e) <==> k in Keys(d) || k == "project"
    ensures ValidateRequiredKeys(["project"] + rest, e) == ValidateRequiredKeys(rest, d)
  {
    assert (["project"] + rest)[1..] == rest;
    assert "project" in Keys(e);
    assert Difference(["project"] + rest, Keys(e)) == Difference(rest, Keys(e));
    DifferenceSameMembership(rest, Keys(e), Keys(d));
  }

  /** After the injection, the allow-list check reports what it would on the caller's
      data, as long as `project` is allowed. */
  lemma AllowedAfterInjection(allowed: seq<string>, d: Entries, e: Entries)
    requires "project" in allowed
    requires Keys(e) == if "project" in Keys(d) then Keys(d) else Keys(d) + ["project"]
    ensures ValidateAllowedKeys(allowed, e) == ValidateAllowedKeys(allowed, d)
  {
    if "project" !in Keys(d) {
      DifferenceAppendExcluded(Keys(d), "project", allowed);
    }
  }
}
