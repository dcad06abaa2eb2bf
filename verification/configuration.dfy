/** `LogSnag::Configuration`: the API token, the project name and a logger slot. */
module Config {
  import opened Values
  import opened Errors

  /** A setting is either unset (nil) or a non-empty string. */
  predicate UnsetOrNonEmpty(o: Option<string>) {
    o.Some? ==> o.value != []
  }

  /** Whether a setter rejects its argument: `value.nil? || value.empty?` */
  predicate Blank(o: Option<string>) {
    o.None? || o.value == []
  }

  class Configuration {
    var apiToken: Option<string>
    var project: Option<string>
    /** Any object the host wires in; never inspected. */
    var logger: object?

    /** The fields only change through the guarded setters, so neither setting is ever
        the empty string. */
    ghost predicate Valid()
      reads this
    {
      UnsetOrNonEmpty(apiToken) && UnsetOrNonEmpty(project)
    }

    /** `Configuration.new`: nothing set yet. */
    constructor ()
      ensures Valid()
      ensures apiToken == None && project == None && logger == null
    {
      apiToken := None;
      project := None;
      logger := null;
    }

    /** `api_token=`: a nil or empty token raises and keeps the stored one. */
    method SetApiToken(token: Option<string>) returns (c: Check)
      requires Valid()
      modifies this`apiToken
      ensures Valid()
      ensures c.Fail? <==> Blank(token)
      ensures c.Fail? ==> c.error == ApiTokenNil && apiToken == old(apiToken)
      ensures c.Pass? ==> apiToken == token
    {
      if Blank(token) {
        return Fail(ApiTokenNil);
      }
      apiToken := token;
      return Pass;
    }

    /** `project=`: a nil or empty name raises and keeps the stored one. */
    method SetProject(projectName: Option<string>) returns (c: Check)
      requires Valid()
      modifies this`project
      ensures Valid()
      ensures c.Fail? <==> Blank(projectName)
      ensures c.Fail? ==> c.error == ProjectNil && project == old(project)
      ensures c.Pass? ==> project == projectName
    {
      if Blank(projectName) {
        return Fail(ProjectNil);
      }
      project := projectName;
      return Pass;
    }

    /** `logger=`: any object is accepted and read back unchanged. */
    method SetLogger(l: object?)
      modifies this`logger
      ensures logger == l
    {
      logger := l;
    }
  }
}
