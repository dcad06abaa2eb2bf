/** The `LogSnag` module: the configuration it holds, the four request methods, and how
    an HTTP exchange becomes a `Result`. The HTTP transport is a parameter. */
module LogSnag {
  import opened Values
  import opened Hashes
  import opened Errors
  import opened Config
  import opened EventBase
  import opened Results
  import LogBuilder = Log
  import IdentifyBuilder = Identify
  import InsightBuilder = Insight

  const BASE_URI: string := "https://api.logsnag.com/v1"
  /** `PATHS` */
  const LOG_PATH: string := "/log"
  const IDENTIFY_PATH: string := "/identify"
  const INSIGHT_PATH: string := "/insight"

  datatype Verb = Post | Patch

  /** A request as handed to HTTParty: verb, full URL, headers and the JSON body. */
  datatype Request = Request(verb: Verb, url: string, headers: Entries, body: Value)

  /** A response as HTTParty presents it: the status code, the parsed body and the raw
      body text. */
  datatype Response = Response(code: int, parsed: Value, body: string)

  /** What sending a request yields: a response, an `HTTParty::Error` with its message, or
      any other exception the HTTP layer raises, named by its class. */
  datatype Outcome =
    | Responded(response: Response)
    | TransportError(message: string)
    | OtherException(name: string)

  /** `response.success?`: a 2xx status, the codes whose first digit is 2. */
  predicate IsSuccessStatus(code: int): (b: bool)
    ensures 100 <= code <= 999 ==> (b <==> code / 100 == 2)
    ensures b ==> !(code < 200 || 300 <= code)
  {
    200 <= code <= 299
  }

  /** `headers`: JSON content, and the API token as a bearer credential; an unset token
      interpolates as the empty string. */
  function Headers(apiToken: Option<string>): (h: Entries)
    ensures Keys(h) == ["Content-Type", "Authorization"] && UniqueKeys(h)
    ensures Get(h, "Content-Type") == Str("application/json")
    ensures Get(h, "Authorization").Str? && |Get(h, "Authorization").s| >= 7
    ensures Get(h, "Authorization").s[..7] == "Bearer "
    ensures apiToken.Some? ==> Get(h, "Authorization").s[7..] == apiToken.value
    ensures apiToken.None? ==> Get(h, "Authorization").s == "Bearer "
    ensures UnsetOrNonEmpty(apiToken) ==> (apiToken.Some? <==> |Get(h, "Authorization").s| > 7)
  {
    var token := if apiToken.Some? then apiToken.value else "";
    var h := [("Content-Type", Str("application/json")), ("Authorization", Str("Bearer " + token))];
    assert Keys(h) == ["Content-Type", "Authorization"];
    h
  }

  /** Whether `needle` occurs in `s` (Ruby's `String#[]` with a string argument). */
  predicate Contains(s: string, needle: string)
    decreases |s|
  {
    |s| >= |needle| && (s[..|needle|] == needle || Contains(s[1..], needle))
  }

  /** `parsed_response["message"]`: a Hash looks the key up; a String returns "message"
      when it contains that text and nil otherwise; an Array or an Integer raise a
      TypeError; nil and booleans have no `[]`. */
  function MessageOf(parsed: Value): (r: Attempt<Value>)
    ensures parsed.Hash? ==> r == Ok(Get(parsed.entries, "message"))
    ensures parsed.Str? ==> r.Ok? && (r.value == Nil || r.value == Str("message"))
    ensures r.Raised? <==> !(parsed.Hash? || parsed.Str?)
  {
    match parsed
    case Hash(entries) => Ok(Get(entries, "message"))
    case Str(s) => Ok(if Contains(s, "message") then Str("message") else Nil)
    case Arr(_) => Raised(NoImplicitConversion(parsed))
    case Num(_) => Raised(NoImplicitConversion(parsed))
    case Bool(_) => Raised(NoMethod("[]", parsed))
    case Nil => Raised(NoMethod("[]", parsed))
  }

  /** `handle_response`: a 2xx becomes a success carrying the parsed body and the code;
      anything else a failure carrying the code and the body's "message", or the raw body
      when there is none. Reading the message can raise, and that is not rescued. */
  function HandleResponse(resp: Response): (r: Attempt<Result>)
    ensures r.Raised? <==> !IsSuccessStatus(resp.code) && MessageOf(resp.parsed).Raised?
    ensures r.Ok? ==> WellFormed(r.value) && r.value.statusCode == Num(resp.code)
    ensures r.Ok? ==> (r.value.IsError() <==> !IsSuccessStatus(resp.code))
    ensures IsSuccessStatus(resp.code) ==> r.value.data == resp.parsed
    ensures r.Ok? && r.value.IsError() && Truthy(MessageOf(resp.parsed).value) ==>
      r.value.errorMessage == MessageOf(resp.parsed).value
    ensures r.Ok? && r.value.IsError() && !Truthy(MessageOf(resp.parsed).value) ==>
      r.value.errorMessage == Str(resp.body)
  {
    if IsSuccessStatus(resp.code) then
      Ok(Result(Bool(true), resp.parsed, Nil, Num(resp.code)))
    else
      match MessageOf(resp.parsed)
      case Raised(e) => Raised(e)
      case Ok(m) =>
        var message := if Truthy(m) then m else Str(resp.body);
        Ok(Result(Bool(false), Nil, message, Num(resp.code)))
  }

  /** The rescue in `execute_post` and `execute_patch`: an `HTTParty::Error` becomes a
      failure with its message and no status code; a response goes to `handle_response`;
      any other exception is not rescued and leaves the request method. */
  function HandleOutcome(o: Outcome): (r: Attempt<Result>)
    ensures o.TransportError? ==> r == Ok(Result(Bool(false), Nil, Str(o.message), Nil))
    ensures o.Responded? ==> r == HandleResponse(o.response)
    ensures o.OtherException? ==> r == Raised(Uncaught(o.name))
    ensures r.Raised? <==> o.OtherException? || (o.Responded? && HandleResponse(o.response).Raised?)
    ensures r.Ok? ==> WellFormed(r.value)
    ensures r.Ok? ==> (r.value.statusCode == Nil <==> o.TransportError?)
    ensures r.Ok? ==> (r.value.IsError() <==> o.TransportError? || !IsSuccessStatus(o.response.code))
  {
    match o
    case TransportError(message) => Ok(Result(Bool(false), Nil, Str(message), Nil))
    case Responded(resp) => HandleResponse(resp)
    case OtherException(name) => Raised(Uncaught(name))
  }

  /** The body of `execute_patch`: the event's fields with `value` replaced, in place,
      by `{"$inc": value}`. */
  function PatchBody(d: Entries): (b: Entries)
    ensures Get(b, "value") == Hash([("$inc", Get(d, "value"))])
    ensures forall k :: k != "value" ==> Get(b, k) == Get(d, k)
    ensures "value" in Keys(d) ==> Keys(b) == Keys(d)
    ensures UniqueKeys(d) ==> UniqueKeys(b)
  {
    var w := Hash([("$inc", Get(d, "value"))]);
    PutEffect(d, "value", w);
    PutKeys(d, "value", w);
    if UniqueKeys(d) then
      PutUnique(d, "value", w);
      Put(d, "value", w)
    else Put(d, "value", w)
  }

  /** Unwrapping the increment gives back the event's own fields: the patch body loses
      nothing and moves nothing. */
  lemma PatchBodyUnwraps(d: Entries)
    requires "value" in Keys(d)
    ensures Put(PatchBody(d), "value", Get(PatchBody(d), "value").entries[0].1) == d
  {
    var w := Hash([("$inc", Get(d, "value"))]);
    PutPut(d, "value", w, Get(d, "value"));
    PutExisting(d, "value");
  }

  /** The object behind `LogSnag.config` and the four request methods. */
  class Client {
    var config: Configuration?

    /** The configuration, once there is one, only changes through its guarded setters. */
    ghost predicate Valid()
      reads this, config
    {
      config != null ==> config.Valid()
    }

    /** Before `configure`, there is no configuration. */
    constructor ()
      ensures Valid()
      ensures config == null
    {
      config := null;
    }

    /** `configure`: creates the configuration on first use and hands the same object
        out from then on; the block's settings are the caller's calls on it. */
    method Configure() returns (c: Configuration)
      requires Valid()
      modifies this
      ensures Valid() && c.Valid()
      ensures config == c
      ensures old(config) != null ==> c == old(config) && unchanged(c)
      ensures old(config) == null ==> fresh(c) && c.apiToken == None && c.project == None && c.logger == null
    {
      if config == null {
        config := new Configuration();
      }
      c := config;
    }

    /** `execute_post` / `execute_patch` after the body is built: send through `transport`
        and turn the outcome into a Result. */
    static method Execute(req: Request, transport: Request -> Outcome) returns (r: Attempt<Result>)
      ensures r == HandleOutcome(transport(req))
      ensures r.Ok? ==> WellFormed(r.value)
    {
      var outcome := transport(req);
      r := HandleOutcome(outcome);
    }

    /** `LogSnag.log(data)`: build a Log (raising before any request is made), then POST
        its data to /log. */
    method Log(data: DataArg, transport: Request -> Outcome) returns (r: Attempt<Result>, sent: Option<Request>)
      requires Valid()
      requires data.HashArg? ==> data.hash.Valid()
      modifies if data.HashArg? then {data.hash} else {}
      ensures Valid()
      ensures Guard(data, config).Fail? ==> r == Raised(Guard(data, config).error) && sent == None
      ensures Guard(data, config).Fail? && data.HashArg? ==> unchanged(data.hash)
      ensures Guard(data, config).Pass? ==>
        data.hash.entries == LogBuilder.Prepared(old(data.hash.entries), config.project)
      ensures Guard(data, config).Pass? && LogBuilder.Validation(old(data.hash.entries), config.project).Fail? ==>
        r == Raised(LogBuilder.Validation(old(data.hash.entries), config.project).error) && sent == None
      ensures Guard(data, config).Pass? && LogBuilder.Validation(old(data.hash.entries), config.project).Pass? ==>
        && sent == Some(Request(Post, BASE_URI + LOG_PATH, Headers(config.apiToken), Hash(data.hash.entries)))
        && r == HandleOutcome(transport(sent.value))
    {
      var built := LogBuilder.New(data, config);
      if built.Raised? {
        return Raised(built.error), None;
      }
      var event := built.value;
      var req := Request(Post, BASE_URI + LOG_PATH, Headers(config.apiToken), event.ToJson());
      r := Execute(req, transport);
      sent := Some(req);
    }

    /** `LogSnag.identify(data)`: build an Identify, then POST its data to /identify. */
    method Identify(data: DataArg, transport: Request -> Outcome) returns (r: Attempt<Result>, sent: Option<Request>)
      requires Valid()
      requires data.HashArg? ==> data.hash.Valid()
      modifies if data.HashArg? then {data.hash} else {}
      ensures Valid()
      ensures Guard(data, config).Fail? ==> r == Raised(Guard(data, config).error) && sent == None
      ensures Guard(data, config).Fail? && data.HashArg? ==> unchanged(data.hash)
      ensures Guard(data, config).Pass? ==>
        data.hash.entries == IdentifyBuilder.Prepared(old(data.hash.entries), config.project)
      ensures Guard(data, config).Pass? && IdentifyBuilder.Validation(old(data.hash.entries), config.project).Fail? ==>
        r == Raised(IdentifyBuilder.Validation(old(data.hash.entries), config.project).error) && sent == None
      ensures Guard(data, config).Pass? && IdentifyBuilder.Validation(old(data.hash.entries), config.project).Pass? ==>
        && sent == Some(Request(Post, BASE_URI + IDENTIFY_PATH, Headers(config.apiToken), Hash(data.hash.entries)))
        && r == HandleOutcome(transport(sent.value))
    {
      var built := IdentifyBuilder.New(data, config);
      if built.Raised? {
        return Raised(built.error), None;
      }
      var event := built.value;
      var req := Request(Post, BASE_URI + IDENTIFY_PATH, Headers(config.apiToken), event.ToJson());
      r := Execute(req, transport);
      sent := Some(req);
    }

    /** `LogSnag.insight(data)`: build an Insight, then POST its data to /insight. */
    method Insight(data: DataArg, transport: Request -> Outcome) returns (r: Attempt<Result>, sent: Option<Request>)
      requires Valid()
      requires data.HashArg? ==> data.hash.Valid()
      modifies if data.HashArg? then {data.hash} else {}
      ensures Valid()
      ensures Guard(data, config).Fail? ==> r == Raised(Guard(data, config).error) && sent == None
      ensures Guard(data, config).Fail? && data.HashArg? ==> unchanged(data.hash)
      ensures Guard(data, config).Pass? ==>
        data.hash.entries == InsightBuilder.Prepared(old(data.hash.entries), config.project)
      ensures Guard(data, config).Pass? && InsightBuilder.Validation(old(data.hash.entries), config.project, false).Fail? ==>
        r == Raised(InsightBuilder.Validation(old(data.hash.entries), config.project, false).error) && sent == None
      ensures Guard(data, config).Pass? && InsightBuilder.Validation(old(data.hash.entries), config.project, false).Pass? ==>
        && sent == Some(Request(Post, BASE_URI + INSIGHT_PATH, Headers(config.apiToken), Hash(data.hash.entries)))
        && r == HandleOutcome(transport(sent.value))
    {
      var built := InsightBuilder.New(data, config, false);
      if built.Raised? {
        return Raised(built.error), None;
      }
      var event := built.value;
      var req := Request(Post, BASE_URI + INSIGHT_PATH, Headers(config.apiToken), event.ToJson());
      r := Execute(req, transport);
      sent := Some(req);
    }

    /** `LogSnag.mutate_insight(data)`: build an Insight in mutation mode, then PATCH
        /insight with the value wrapped as an increment. */
    method MutateInsight(data: DataArg, transport: Request -> Outcome) returns (r: Attempt<Result>, sent: Option<Request>)
      requires Valid()
      requires data.HashArg? ==> data.hash.Valid()
      modifies if data.HashArg? then {data.hash} else {}
      ensures Valid()
      ensures Guard(data, config).Fail? ==> r == Raised(Guard(data, config).error) && sent == None
      ensures Guard(data, config).Fail? && data.HashArg? ==> unchanged(data.hash)
      ensures Guard(data, config).Pass? ==>
        data.hash.entries == InsightBuilder.Prepared(old(data.hash.entries), config.project)
      ensures Guard(data, config).Pass? && InsightBuilder.Validation(old(data.hash.entries), config.project, true).Fail? ==>
        r == Raised(InsightBuilder.Validation(old(data.hash.entries), config.project, true).error) && sent == None
      ensures Guard(data, config).Pass? && InsightBuilder.Validation(old(data.hash.entries), config.project, true).Pass? ==>
        && sent == Some(Request(Patch, BASE_URI + INSIGHT_PATH, Headers(config.apiToken), Hash(PatchBody(data.hash.entries))))
        && r == HandleOutcome(transport(sent.value))
    {
      var built := InsightBuilder.New(data, config, true);
      if built.Raised? {
        return Raised(built.error), None;
      }
      var event := built.value;
      var body := Hash(PatchBody(event.data.entries));
      var req := Request(Patch, BASE_URI + INSIGHT_PATH, Headers(config.apiToken), body);
      r := Execute(req, transport);
      sent := Some(req);
    }
  }

  /** An accepted mutation sends the event's fields in their order with a numeric
      increment in place of `value`, and the project from the configuration. */
  lemma MutationBody(d: Entries, project: Option<string>)
    requires InsightBuilder.Validation(d, project, true).Pass?
    ensures var e := InsightBuilder.Prepared(d, project);
      && Keys(PatchBody(e)) == Keys(e)
      && Get(PatchBody(e), "value") == Hash([("$inc", Get(d, "value"))])
      && Get(d, "value").Num?
      && Get(PatchBody(e), "project") == OptionalString(project)
  {
    InsightBuilder.Accepted(d, project, true);
    var e := InsightBuilder.Prepared(d, project);
    assert "value" in Keys(e);
  }

  /** The failing request of the log tests: a 400 whose body carries a message. */
  lemma FailedRequestExample()
    ensures HandleOutcome(Responded(Response(400, Hash([("message", Str("Event log failed"))]), "{}")))
      == Ok(Result(Bool(false), Nil, Str("Event log failed"), Num(400)))
  {
    assert Get([("message", Str("Event log failed"))], "message") == Str("Event log failed");
  }
}
