# LogSnag Ruby client: a Dafny model of payload building and response mapping

This project models the core of the LogSnag Ruby gem. The gem sends event logs,
user-identify calls and insights to the LogSnag HTTP API. The model covers:

- the `Validator` helpers: required-key and allow-list checks, nil compaction of one
  nested field, and the shape check on flat property maps;
- the event builders. `EventBase` checks that `data` is a Hash and `config` a
  Configuration, and keeps the caller's own Hash object. `Log`, `Identify` and `Insight`
  then write `project` into that Hash. `Log` compacts `tags` in place, `Identify` compacts
  `properties` and `Insight` compacts nothing. Each then runs its checks in a fixed order,
  and the first failing check raises;
- `Configuration` with its two guarded setters and the logger slot;
- `Result`, and how the `LogSnag` module maps an HTTP exchange to a `Result`: routing,
  headers, the PATCH body of `mutate_insight`, `handle_response`, and the rescue of
  transport errors;
- `configure` and the four request methods.

Ruby objects are the datatype `Values.Value`. A Ruby Hash is an ordered sequence of
`(key, value)` entries (`Values.Entries`):

- `Hashes.Get` reads `hash[k]` and gives nil for a missing key;
- `Hashes.Put` writes `hash[k] = v`: an existing key keeps its position, a new key
  goes at the end.

The caller's top-level Hash is a mutable object, `Hashes.RubyHash`. The builders update
it in place, and the built `EventBase.Event` holds that same object. A raised exception
is an `Errors.Error` value. `Errors.Check` is the outcome of a check that may raise.
`Errors.Attempt` is a computation that returns a value or raises.

Each builder is a method proved against two functions:

- `Prepared` gives the entries after the in-place steps;
- `Validation` gives the first check that raises.

Lemmas then restate `Validation` as checks on the caller's original data. They also
prove the properties the gem's tests pin down.

Where the code and its own YARD comments differ (`@param hash [Hash]` on `compact_hash!`
and `validate_hash`, lib/logsnag/validator.rb:26-29 and 35-38), the model follows the code:

- `compact_hash!` on an Array compacts it, as `Array#compact` does. On any other truthy
  value (a String, a number, `true`) it raises `NoMethodError`.
- `validate_hash(false)` passes, like `validate_hash(nil)`. A truthy value that is
  neither a Hash nor an Array raises `NoMethodError` for `each`.
- For an Array argument, `validate_hash` sees the pairs Ruby's block auto-splat yields.
- Keys are matched through `to_s`: `true` and `false` read as "true" and "false" and can
  match. Nil, numbers, arrays and hashes never match.

## Model

| member | source | states |
|---|---|---|
| Validator.ValidateRequiredKeys | lib/logsnag/validator.rb:11-14 | raises iff some required key is not a key of the data; a key stored with nil counts as present; the list names exactly the missing keys, as a subsequence of the required list |
| Validator.ValidateAllowedKeys | lib/logsnag/validator.rb:21-24 | raises iff the data has a key outside the allow-list; the list names exactly those keys, as a subsequence of the data's keys |
| Validator.Difference | lib/logsnag/validator.rb:12 | Ruby `a - b`: holds exactly the elements of `a` not in `b`, in `a`'s order |
| Validator.DifferenceIsUnique | lib/logsnag/validator.rb:12 | for a duplicate-free `a`, any order-preserving sublist with those members is `a - b`, so the order of reported keys is determined |
| Validator.ReportedKeysAreExact | lib/logsnag/validator.rb:12-13 | for duplicate-free key lists the reported missing or invalid keys are exactly `required - keys` and `keys - allowed` |
| Validator.DifferenceAppendExcluded | lib/logsnag/validator.rb:22 | appending an allowed key to the data's keys does not change the invalid-key list |
| Validator.DifferenceSameMembership | lib/logsnag/validator.rb:12 | the missing-key list depends only on which required keys are present |
| Validator.CompactOutcome | lib/logsnag/validator.rb:31 | compaction raises NoMethodError exactly for a truthy value that is neither a Hash nor an Array; nil and false are skipped |
| Validator.CompactValue | lib/logsnag/validator.rb:31 | `compact` keeps exactly the non-nil entries of a Hash, in order; for an Array, exactly its non-nil elements in order, as many as the input holds |
| Validator.CompactHash | lib/logsnag/validator.rb:30-33 | replaces `hash[path]` in place by its compacted copy, or raises; the new entries are `Compacted` of the old ones and the Hash keeps distinct keys |
| Validator.CompactedEffect | lib/logsnag/validator.rb:30-33 | only `hash[path]` changes: same keys in the same order, every other entry unchanged; no-op when `hash[path]` is missing, nil or false |
| Validator.CompactedIdempotent | lib/logsnag/validator.rb:31 | compacting twice equals compacting once, and the second call raises exactly when the first did |
| Hashes.CompactItems | lib/logsnag/validator.rb:31 | `Array#compact` keeps exactly the non-nil elements, in order, and its length is the input's minus the number of nils |
| Hashes.Compact | lib/logsnag/validator.rb:31 | `Hash#compact` drops exactly the nil-valued entries and keeps the order of the rest |
| Hashes.CompactWithoutNil | lib/logsnag/validator.rb:31 | compacting a Hash with no nil value returns it unchanged |
| Validator.KeyShapeIsFlat | lib/logsnag/validator.rb:43 | the recursive matcher for `[a-z]+(-[a-z]+)*` accepts exactly the strings of lower-case letters and single dashes that start and end with a letter |
| Validator.AfterLetterIsFlatTail | lib/logsnag/validator.rb:43 | what may follow a letter in a key, described recursively and by character, are the same |
| Validator.KeyShapeRejects | lib/logsnag/validator.rb:43 | `SomeKey`, `Foo!`, `-foo`, `12345`, `foo-`, `foo_bar`, `foo--bar` and the empty key are rejected |
| Validator.KeyShapeAccepts | lib/logsnag/validator.rb:43 | `foo` and `foo-bar` are accepted |
| Validator.FirstViolation | lib/logsnag/validator.rb:42-46 | walking the pairs passes iff every key matches and every value is a string, boolean or number |
| Validator.FirstViolationIsFirst | lib/logsnag/validator.rb:42-46 | a failing walk reports the first offending pair in iteration order, naming the key when the key is bad and the value otherwise |
| Validator.ValidateHash | lib/logsnag/validator.rb:39-47 | the `each` loop returns the outcome of `HashCheck`: nil and false pass, non-enumerables raise NoMethodError, otherwise the first violation |
| Validator.HashCheckOfHash | lib/logsnag/validator.rb:40-45 | a Hash passes iff every key has the pattern and every value is a string, boolean or number (arrays and maps are rejected); nil passes |
| Validator.HashCheckFirstBad | lib/logsnag/validator.rb:42-45 | a bad first entry is reported whatever follows, and its key is checked before its value |
| Validator.HashCheckExamples | lib/logsnag/validator.rb:43-45 | `{SomeKey: "invalid"}` raises for the key; an Array value raises for the value before a later bad key is reached |
| Hashes.Get | lib/logsnag/validator.rb:31 | `hash[k]` is nil for a missing key; otherwise it is the value of an entry for `k` |
| Hashes.GetUnique | lib/logsnag/validator.rb:31 | in a Hash with distinct keys, every entry for `k` holds `hash[k]`, and an entry for `k` exists only when `k` is a key |
| Hashes.Put | lib/logsnag/log.rb:44 | `hash[k] = v` holds the entry `(k, v)`, keeps every entry for another key, and grows by one exactly when `k` is new |
| Hashes.RubyHash.Store | lib/logsnag/log.rb:44 | `hash[k] = v` in place: the entries become `Put` of the old ones, the key reads back `v`, keys stay distinct |
| Hashes.PutEffect | lib/logsnag/log.rb:44 | a store changes only its own key: every other key reads as before and keeps its position |
| Hashes.PutExisting | lib/logsnag/validator.rb:31 | storing the value a key already has leaves the Hash unchanged |
| Hashes.PutPut | lib/logsnag/validator.rb:31 | a second store under the same key overrides the first |
| Hashes.Find | lib/logsnag/validator.rb:31 | the position of the first entry with the key, or -1 exactly when the key is absent |
| EventBase.Guard | lib/logsnag/event_base.rb:14-24 | passes iff the data is a Hash and `config` is a Configuration (a `null` config stands for nil, a String or any other non-Configuration object); the data check comes first; any Configuration, set or not, passes |
| EventBase.New | lib/logsnag/event_base.rb:14-24 | raises exactly the guard's error; otherwise a fresh event holding the caller's own Hash object and the configuration |
| EventBase.Event.ToJson | lib/logsnag/event_base.rb:26-28 | the JSON body is exactly the data's entries, with no wrapping |
| EventBase.WithProject | lib/logsnag/log.rb:43-46 | after `data[:project] = config.project`, `project` reads the configured project (nil when unset) and every other field is untouched and in place |
| EventBase.WithProjectKeys | lib/logsnag/log.rb:44 | the keys after the injection are the caller's, with `project` appended only when it was missing |
| EventBase.RequiredAfterInjection | lib/logsnag/log.rb:53 | once `project` is injected it is never reported missing: the check reduces to the other required keys on the caller's data |
| EventBase.AllowedAfterInjection | lib/logsnag/log.rb:54 | the injected `project` is never reported as an invalid key |
| Log.New | lib/logsnag/log.rb:33-39 | after the guards, the caller's Hash becomes `Prepared` (project written, tags compacted) even when a check then raises; raises iff `Validation` fails, with its error; otherwise a fresh Log event on the same Hash |
| Log.CallerChecks | lib/logsnag/log.rb:52-56 | compaction, required, allowed and tags-shape checks on the caller's own data pass iff the tags can be compacted, `channel` and `event` are present, every key is allowed, and the compacted tags have the right shape |
| Log.ValidationOnCallerData | lib/logsnag/log.rb:36-56 | whatever the configured project, the checks on the prepared data raise exactly what `CallerChecks` raises on the caller's data: `project` is never reported, and the tags are checked after compaction |
| Log.MissingKeysReported | lib/logsnag/log.rb:52-56 | a missing `channel` or `event` raises "Missing required keys" naming exactly the missing ones, in order, before any allow-list or tag check |
| Log.InvalidKeysReported | lib/logsnag/log.rb:10-12 | with the required keys present, any unknown key raises "Found invalid keys" naming exactly the unknown keys in the data's order |
| Log.PreparedPayload | lib/logsnag/log.rb:36-50 | the payload holds the configured project, the compacted tags, every other field as given, and the caller's keys in order with `project` appended when new |
| Log.PayloadIsInputWithProject | lib/logsnag/log.rb:36-50 | with no `project` and no nil tag supplied, the payload is the input plus `project` |
| Log.MinimalLogExample | lib/logsnag/log.rb:33-56 | `{channel: "c", event: "e"}` with project "p" is accepted and sends those fields plus `project: "p"` |
| Identify.New | lib/logsnag/identify.rb:22-28 | after the guards, the caller's Hash becomes `Prepared` (project written, properties compacted) even when a check raises; raises iff `Validation` fails; otherwise a fresh Identify event on the same Hash |
| Identify.CallerChecks | lib/logsnag/identify.rb:41-44 | compaction, then required keys, then the properties' shape, on the caller's data: pass iff the properties can be compacted, `user_id` and `properties` are present, and the compacted properties have the right shape |
| Identify.ValidationOnCallerData | lib/logsnag/identify.rb:25-44 | whatever the configured project, the checks on the prepared data raise exactly what `CallerChecks` raises on the caller's data |
| Identify.ExtraFieldIgnored | lib/logsnag/identify.rb:41-44 | there is no allow-list: a field outside the required ones never changes the outcome |
| Identify.PreparedPayload | lib/logsnag/identify.rb:25-39 | the payload holds the configured project, the compacted properties, and every other field as given, in order |
| Identify.NilPropertiesDropped | lib/logsnag/identify.rb:22-44 | nil properties are removed before the shape check: with `user_id` present and the remaining properties well formed, the call is accepted and the payload carries exactly the non-nil properties in their order |
| Insight.ValueCheck | lib/logsnag/insight.rb:54-64 | creating accepts iff the value is a string or a number; mutating accepts iff it is a number; each raises its own error naming the value |
| Insight.New | lib/logsnag/insight.rb:25-35 | after the guards, `project` is written into the caller's Hash even when a check raises; raises iff `Validation` for the given mode fails; otherwise a fresh Insight event that records the mode |
| Insight.ValidationOnCallerData | lib/logsnag/insight.rb:44-52 | in both modes, required keys come before the value check, on the caller's data, whatever the configured project |
| Insight.Accepted | lib/logsnag/insight.rb:44-64 | built iff `title` and `value` are present and the value is a number, or a string when creating |
| Insight.MutationAcceptedIsCreatable | lib/logsnag/insight.rb:54-64 | every input accepted as a mutation is accepted as a new insight |
| Insight.StringValueOnlyCreates | lib/logsnag/insight.rb:54-64 | a string value is accepted when creating and rejected, naming the value, when mutating |
| Insight.MissingKeysFirst | lib/logsnag/insight.rb:44-52 | a missing `title` or `value` raises "Missing required keys" in both modes, before the value is inspected |
| Insight.ExtraFieldIgnored | lib/logsnag/insight.rb:25-35 | there is no allow-list: a field such as `icon` never changes the outcome |
| Config.Configuration.SetApiToken | lib/logsnag/configuration.rb:9-13 | a nil or empty token raises "API token cannot be nil" and keeps the old one; otherwise it is stored; only this field changes; the invariant is kept |
| Config.Configuration.SetProject | lib/logsnag/configuration.rb:15-19 | a nil or empty name raises "Project cannot be nil" and keeps the old one; otherwise it is stored; only this field changes; the invariant is kept |
| Config.Configuration.SetLogger | lib/logsnag/configuration.rb:6 | any object is stored and read back unchanged |
| Config.Configuration.constructor | lib/logsnag/configuration.rb:5-20 | a new configuration has nothing set and meets the invariant that each setting is unset or non-empty |
| Results.Result.IsSuccess | lib/logsnag/result.rb:5-7 | `success?` returns the stored `success` field itself, truthy exactly when `error?` is false |
| Results.Result.IsError | lib/logsnag/result.rb:9-11 | `error?` holds exactly when `success` is nil or false |
| Results.OneOutcome | lib/logsnag/result.rb:4-11 | for a boolean `success`, exactly one of `success?` and `error?` holds |
| Results.ErrorCarriesMessage | lib/logsnag.rb:155-162 | on a result the client builds, `error?` holds iff an error message is present, and then there is no data |
| LogSnag.IsSuccessStatus | lib/logsnag.rb:156 | `response.success?` holds for a three-digit status exactly when its first digit is 2, and never outside 200-299 |
| LogSnag.Headers | lib/logsnag.rb:166-171 | exactly two headers, `Content-Type: application/json` and `Authorization: Bearer <token>`, with an unset token read as empty; under the configuration invariant, a set token always appears after `Bearer ` |
| LogSnag.MessageOf | lib/logsnag.rb:159 | `parsed_response["message"]`: a Hash's `message` entry; for a String, "message" or nil; raises for nil, booleans, arrays and numbers |
| LogSnag.HandleResponse | lib/logsnag.rb:155-162 | a 2xx gives success with the parsed body and the code; any other status gives a failure with no data, the code, and the body's message or else the raw body; the result is always well formed |
| LogSnag.HandleOutcome | lib/logsnag.rb:119-150 | an `HTTParty::Error` gives a failure with its message and no status code; a response goes to `handle_response`; any other exception is not rescued and propagates; it raises exactly for such an exception or a raising `handle_response`; the status code is nil iff an `HTTParty::Error` was rescued |
| LogSnag.PatchBody | lib/logsnag.rb:136-144 | the PATCH body replaces only `value`, in place, by `{"$inc": value}`; every other field is unchanged and the keys keep their order |
| LogSnag.PatchBodyUnwraps | lib/logsnag.rb:138-143 | putting the increment's operand back as `value` restores the event's data exactly |
| LogSnag.MutationBody | lib/logsnag.rb:108-143 | an accepted mutation sends the prepared fields in order, the configured project, and a numeric `$inc` in place of `value` |
| LogSnag.FailedRequestExample | lib/logsnag.rb:158-161 | a 400 whose body has message "Event log failed" gives a failure carrying that message and status 400 |
| LogSnag.Client.Configure | lib/logsnag.rb:29-32 | creates a configuration, with nothing set, only when none exists, and otherwise hands out the same object untouched; either way the configuration meets its invariant, so the block can call the setters |
| LogSnag.Client.Execute | lib/logsnag.rb:119-129 | sends the request once and returns `HandleOutcome` of what the transport gave; the result is well formed |
| LogSnag.Client.Log | lib/logsnag.rb:54-57 | a builder error raises with no request sent; otherwise one POST to `https://api.logsnag.com/v1/log` with the headers and the prepared data, and its mapped result; when the guard raises (no configuration yet), the caller's Hash is untouched; the client invariant is kept |
| LogSnag.Client.Identify | lib/logsnag.rb:75-78 | as for `log`, with the Identify builder and a POST to `/identify`; when the guard raises (no configuration yet), the caller's Hash is untouched; the client invariant is kept |
| LogSnag.Client.Insight | lib/logsnag.rb:92-95 | as for `log`, with the Insight builder in create mode and a POST to `/insight`; when the guard raises (no configuration yet), the caller's Hash is untouched; the client invariant is kept |
| LogSnag.Client.MutateInsight | lib/logsnag.rb:108-111 | as for `log`, with the Insight builder in mutate mode and a PATCH to `/insight` whose body wraps `value` as `$inc`; when the guard raises (no configuration yet), the caller's Hash is untouched; the client invariant is kept |

## Left out

- HTTP transport: HTTParty, `base_uri` and the actual POST and PATCH calls are network I/O. The transport is a parameter (`Request -> Outcome`), so the model states which request is sent and what each outcome maps to. It does not model timeouts or retries. An `Outcome.OtherException` stands for any exception other than an `HTTParty::Error` (for example `Errno::ECONNREFUSED`, `SocketError`, `Net::ReadTimeout`) only by its class name.
- JSON encoding and decoding: serialization is the identity on `Value`, and a response arrives already parsed beside its raw text.
- Floating-point numbers: Ruby's `Numeric` includes floats, but `Value.Num` holds integers only.
- The regular-expression engine: the key pattern is a hand-written matcher, proved equal to a character-level description.
- Symbol and string keys are both plain strings. `inspect` formatting inside error messages is not modelled: an `Error` carries the keys or values the message interpolates.
- Config.Configuration.SetApiToken: a non-String token is not modelled (the argument is an optional string). In Ruby, a token without `empty?` (an Integer, say) raises NoMethodError. A Symbol, Array or Hash is checked with its own `empty?`: an empty one raises ArgumentError, and any other is stored.
- Config.Configuration.SetProject: the same restriction to optional strings applies. A name without `empty?` raises NoMethodError, and a Symbol, Array or Hash is checked with its own `empty?` and stored when non-empty.
- The logger's behaviour: it is stored and returned, never called.
- The default `data = {}` argument of the four request methods: calling without data is the same as passing a fresh empty Hash.
- Thread safety of the process-wide `config`: `LogSnag.Client` is a single object with no concurrency.
- `Result` construction is not restricted. Any four values form a `Result`. `Results.WellFormed` is the shape the client builds, and `HandleOutcome` proves every result meets it.
- Nested values are immutable: `compact` builds a new nested Hash, so the model has no aliasing below the top-level data Hash.
- Frozen Hash arguments are not modelled. Ruby raises FrozenError when writing to one.
