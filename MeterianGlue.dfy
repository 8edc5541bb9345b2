/**
 * The Jenkins build step of the Meterian scanner plugin (package
 * io.meterian.jenkins.glue): the build step itself, MeterianPlugin, and its
 * descriptor, Configuration, which holds the global settings (base URL, API
 * token, JVM arguments), normalises what the settings form submits, masks the
 * token for logging, probes the Meterian API, and supplies the settings of
 * the HTTP client.
 */
module MeterianGlue {
  import opened Wrappers
  import opened JavaStrings

  /** An HTTP header, name and value. */
  datatype Header = Header(name: string, value: string)

  /** What the HTTP client factory reads from its configuration. */
  datatype HttpSettings = HttpSettings(
    connectTimeoutMs: int,
    socketTimeoutMs: int,
    maxTotalConnections: int,
    maxConnectionsPerRoute: int,
    userAgent: string)

  /**
   * The GET request of the connection test: the client it is sent with, the
   * base URL, the resource path appended to it, and the headers added.
   */
  datatype ProbeRequest = ProbeRequest(
    client: HttpSettings,
    baseUrl: string,
    path: string,
    headers: seq<Header>)

  /**
   * What happens when the probe is attempted: a response with its status code
   * and status line, or an exception with its (possibly null) message.
   */
  datatype HttpOutcome =
    | Response(statusCode: int, statusLine: string)
    | Thrown(message: Option<string>)

  /** The form validation shown next to the settings form. */
  datatype FormValidation = Ok(okMessage: string) | Error(errorMessage: string)

  /** Jenkins's build results. */
  datatype BuildResult = Success | Unstable | Failure | NotBuilt | Aborted

  /** The kinds of Jenkins project a build step may be offered for. */
  datatype JobType = FreeStyleProject | OtherProject(className: string)

  /** One invocation of the Meterian client: the user's arguments and the explicit flags. */
  datatype ClientRun = ClientRun(args: Option<string>, flags: seq<string>)

  /** The global settings of the plugin (MeterianPlugin.Configuration). */
  class Configuration {
    static const DefaultBaseUrl: string := "https://www.meterian.io"
    static const OneMinute: int := 60 * 1000
    static const AccountsPath: string := "/api/v1/accounts/me"
    static const SuccessMessage: string := "Success - connection to the Meterian API verified."

    var url: Option<string>
    var token: Option<string>
    var jvmArgs: Option<string>

    /** Whatever the host's persisted settings (load()) restore, possibly nothing. */
    constructor (storedUrl: Option<string>, storedToken: Option<string>, storedJvmArgs: Option<string>)
      ensures url == storedUrl && token == storedToken && jvmArgs == storedJvmArgs
    {
      url := storedUrl;
      token := storedToken;
      jvmArgs := storedJvmArgs;
    }

    /** The state `configure` leaves behind: a usable URL, JVM arguments present, token absent or usable. */
    predicate Normalised()
      reads this
    {
      && url.Some? && !AllTrimmable(url.value)
      && jvmArgs.Some?
      && (token.None? || !AllTrimmable(token.value))
    }

    /** `text` unless it is null or blank, in which case `defval`; a kept text is not trimmed. */
    static function ParseEmpty(text: Option<string>, defval: Option<string>): (r: Option<string>)
      ensures text.None? || AllTrimmable(text.value) ==> r == defval
      ensures text.Some? && !AllTrimmable(text.value) ==> r == text
    {
      if text.None? then defval
      else
        BlankIffAllTrimmable(text.value);
        if IsBlank(text.value) then defval else text
    }

    static lemma DefaultBaseUrlNotBlank()
      ensures !AllTrimmable(DefaultBaseUrl)
    {
      assert !Trimmable(DefaultBaseUrl[0]);
    }

    /** The base URL a form value stands for: the value itself, or the default when it is null or blank. */
    static function ComputeFinalUrl(testUrl: Option<string>): (r: string)
      ensures !AllTrimmable(r)
      ensures testUrl.Some? && !AllTrimmable(testUrl.value) ==> r == testUrl.value
      ensures testUrl.None? || AllTrimmable(testUrl.value) ==> r == DefaultBaseUrl
    {
      DefaultBaseUrlNotBlank();
      ParseEmpty(testUrl, Some(DefaultBaseUrl)).value
    }

    /** The token a form value stands for: null when it is null or blank, otherwise the value untouched. */
    static function ComputeFinalToken(testToken: Option<string>): (r: Option<string>)
      ensures r.None? <==> testToken.None? || AllTrimmable(testToken.value)
      ensures r.Some? ==> r == testToken && !AllTrimmable(r.value)
    {
      ParseEmpty(testToken, None)
    }

    /** The JVM arguments a form value stands for: the value, or "" when it is null or blank. */
    static function ComputeJvmArgs(formJvmArgs: Option<string>): (r: Option<string>)
      ensures r.Some?
      ensures formJvmArgs.Some? && !AllTrimmable(formJvmArgs.value) ==> r == formJvmArgs
      ensures formJvmArgs.None? || AllTrimmable(formJvmArgs.value) ==> r.value == ""
    {
      ParseEmpty(formJvmArgs, Some(""))
    }

    /** The token as logged: a short prefix followed by "...". */
    static function Mask(data: Option<string>): (r: Option<string>)
      ensures r.None? <==> data.None?
      ensures r.Some? ==>
        var d, m := data.value, r.value;
        var k := |m| - 3;
        && 0 <= k <= 4 && 5 * k <= |d|
        && (k == 4 || |d| < 5 * (k + 1))
        && m == d[..k] + "..."
      ensures data.Some? && |data.value| < 5 ==> r == Some("...")
    {
      match data
      case None => None
      case Some(d) =>
        var n := if 4 < |d| / 5 then 4 else |d| / 5;
        assert n == 0 ==> d[..n] + "..." == "...";
        Some(d[..n] + "...")
    }

    /** The base URL the client is run against: the stored URL unless it is null or blank. */
    function GetMeterianBaseUrl(): (r: string)
      reads this
      ensures !AllTrimmable(r)
      ensures url.Some? && !AllTrimmable(url.value) ==> r == url.value
      ensures url.None? || AllTrimmable(url.value) ==> r == DefaultBaseUrl
    {
      DefaultBaseUrlNotBlank();
      ParseEmpty(url, Some(DefaultBaseUrl)).value
    }

    /**
     * Stores what the settings form submitted; `superConfigured` is what the
     * host's own configure step returns, which is passed on.
     */
    method Configure(formUrl: Option<string>, formToken: Option<string>, formJvmArgs: Option<string>,
                     superConfigured: bool)
      returns (r: bool)
      modifies this
      ensures url == Some(ComputeFinalUrl(formUrl))
      ensures token == ComputeFinalToken(formToken)
      ensures jvmArgs == ComputeJvmArgs(formJvmArgs)
      ensures Normalised()
      ensures GetMeterianBaseUrl() == ComputeFinalUrl(formUrl)
      ensures r == superConfigured
    {
      url := Some(ComputeFinalUrl(formUrl));
      token := ComputeFinalToken(formToken);
      jvmArgs := ComputeJvmArgs(formJvmArgs);
      r := superConfigured;
    }

    function HttpConnectTimeout(): (r: int)
      ensures r == 60000
    {
      OneMinute
    }

    function HttpSocketTimeout(): (r: int)
      ensures r == 60000
    {
      OneMinute
    }

    function HttpMaxTotalConnections(): (r: int)
      ensures r == 100
    {
      100
    }

    function HttpMaxDefaultConnectionsPerRoute(): (r: int)
      ensures r == 100
    {
      100
    }

    function HttpUserAgent(): (r: string)
      ensures r == "meterian-jenkins_1.0"
    {
      "meterian-jenkins_1.0"
    }

    /** The settings the HTTP client factory reads from this configuration. */
    function ClientSettings(): (s: HttpSettings)
      ensures s == HttpSettings(60000, 60000, 100, 100, "meterian-jenkins_1.0")
    {
      HttpSettings(HttpConnectTimeout(), HttpSocketTimeout(), HttpMaxTotalConnections(),
                   HttpMaxDefaultConnectionsPerRoute(), HttpUserAgent())
    }

    /** The step is offered for every kind of project. */
    function IsApplicable(jobType: JobType): (r: bool)
      ensures r
    {
      true || jobType.FreeStyleProject?
    }

    /**
     * The "Test connection" button: builds a GET of the accounts resource
     * under the normalised URL, with an Authorization header only when a
     * token remains after normalisation, hands it to `exchange` (which stands
     * for the HTTP client and everything it may throw), and turns the
     * outcome into a validation message. No Exception from the request escapes.
     */
    method DoTestConnection(testUrl: Option<string>, testToken: Option<string>,
                            exchange: ProbeRequest -> HttpOutcome)
      returns (v: FormValidation, request: ProbeRequest)
      ensures request.client == ClientSettings()
      ensures request.baseUrl == ComputeFinalUrl(testUrl) && request.path == "/api/v1/accounts/me"
      ensures ComputeFinalToken(testToken).None? <==> request.headers == []
      ensures ComputeFinalToken(testToken).Some? ==>
        request.headers == [Header("Authorization", "Token " + testToken.value)]
      ensures v.Ok? <==> exchange(request).Response? && exchange(request).statusCode == 200
      ensures v.Ok? ==> v.okMessage == "Success - connection to the Meterian API verified."
      ensures exchange(request).Response? && exchange(request).statusCode != 200 ==>
        v == Error("Failed - status: " + exchange(request).statusLine)
      ensures exchange(request).Thrown? ==>
        v == Error("Error: " + Render(exchange(request).message))
    {
      var apiUrl := ComputeFinalUrl(testUrl);
      var apiToken := ComputeFinalToken(testToken);
      var headers: seq<Header> := [];
      if apiToken != None {
        var auth := "Token " + apiToken.value;
        headers := headers + [Header("Authorization", auth)];
      }
      request := ProbeRequest(ClientSettings(), apiUrl, AccountsPath, headers);
      var outcome := exchange(request);
      match outcome
      case Response(status, statusLine) =>
        if status == 200 {
          v := Ok(SuccessMessage);
        } else {
          v := Error("Failed - status: " + statusLine);
        }
      case Thrown(message) =>
        v := Error("Error: " + Render(message));
    }
  }

  /**
   * Submitting the stored settings again changes nothing: each normalisation
   * is idempotent.
   */
  lemma NormalisationIdempotent(formUrl: Option<string>, formToken: Option<string>, formJvmArgs: Option<string>)
    ensures Configuration.ComputeFinalUrl(Some(Configuration.ComputeFinalUrl(formUrl))) == Configuration.ComputeFinalUrl(formUrl)
    ensures Configuration.ComputeFinalToken(Configuration.ComputeFinalToken(formToken)) == Configuration.ComputeFinalToken(formToken)
    ensures Configuration.ComputeJvmArgs(Configuration.ComputeJvmArgs(formJvmArgs)) == Configuration.ComputeJvmArgs(formJvmArgs)
  {
  }

  /** The build whose result the step may change. */
  class Build {
    var result: Option<BuildResult>

    constructor (initial: Option<BuildResult>)
      ensures result == initial
    {
      result := initial;
    }

    method SetResult(r: BuildResult)
      modifies this
      ensures result == Some(r)
    {
      result := Some(r);
    }
  }

  /** The build step: runs the Meterian client with the user's arguments. */
  class MeterianPlugin {
    const args: Option<string>

    constructor (args: Option<string>)
      ensures this.args == args
    {
      this.args := args;
    }

    /**
     * Runs the client non-interactively (`runClient` stands for building and
     * running it) and fails the build exactly when the exit code is not zero.
     */
    method Perform(build: Build, runClient: ClientRun -> int) returns (r: bool)
      modifies build
      ensures r
      ensures runClient(ClientRun(args, ["--interactive=false"])) != 0 ==> build.result == Some(Failure)
      ensures runClient(ClientRun(args, ["--interactive=false"])) == 0 ==> build.result == old(build.result)
    {
      var exitCode := runClient(ClientRun(args, ["--interactive=false"]));
      if exitCode != 0 {
        build.SetResult(Failure);
      }
      r := true;
    }
  }
}
