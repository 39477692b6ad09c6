/** The `generateOpenApiDocs` task (OpenApiGeneratorTask.kt): choose the
    targets, then for each (url, file name) pair wait for the application to
    become ready, fetch the document, keep it verbatim when the URL names
    YAML or pretty-print it as JSON otherwise, and write it into the output
    directory. The HTTP exchange with the forked application and the Gson
    library are parameters of the model. */
module Generator {
  import opened Common
  import opened YamlUrl
  import opened Readiness

  // ---------------------------------------------------------------------
  // Data model.

  /** One url -> output file name pair. */
  datatype Target = Target(url: string, fileName: string)

  /** The task's inputs; `None` is a Gradle property without a value.
      `groupedApiMappings` lists the map's entries in its iteration order. */
  datatype TaskConfig = TaskConfig(
    apiDocsUrl: Option<string>,
    outputFileName: Option<string>,
    groupedApiMappings: Option<seq<Target>>,
    requestHeaders: seq<(string, string)>,
    waitTimeInSeconds: Option<nat>,
    trustStore: Option<string>,
    trustStorePassword: Option<string>)

  /** The TLS context the probes and the fetch use. */
  datatype SslContext =
    | PlatformDefault
    | TrustStoreContext(trustStore: string, password: string)

  /** What the task sends: a GET of `url` with the configured headers. */
  datatype Request = Request(url: string, headers: seq<(string, string)>, ssl: SslContext)

  /** The response body of the fetch after readiness, or what it threw. */
  datatype Fetch = Body(text: string) | FetchFailed(cause: string)

  /** How the application answers one target: the outcomes of successive
      readiness probes, and of the one fetch that follows readiness. */
  datatype Exchange = Exchange(probes: seq<Probe>, fetch: Fetch)

  /** The exceptions that leave `generateApiDocs` and `execute`. */
  datatype Failure =
    | MissingValue(property: string)  // Property.get() on a property without a value
    | ProbeFailed(cause: string)      // a non-ConnectException thrown while waiting
    | GradleException(message: string) // the wait timed out
    | FetchError(cause: string)       // the fetch after readiness threw
    | JsonSyntaxException(message: string) // the body did not parse as JSON

  /** Gson's parse-then-pretty-print: `None` when parsing throws. */
  type JsonPrettifier = string -> Option<string>

  /** The application, answering each request. */
  type Server = Request -> Exchange

  // ---------------------------------------------------------------------
  // Messages.

  const PARSE_FAILURE_SENTENCE: string :=
    "Failed to parse the API docs response string. Please ensure that the response is in the correct format."

  function DigitChar(d: nat): char
    requires d < 10
  {
    ('0' as int + d) as char
  }

  /** The decimal rendering of a non-negative number. */
  function DecimalString(n: nat): (s: string)
    ensures |s| >= 1
    ensures forall i :: 0 <= i < |s| ==> '0' <= s[i] <= '9'
    decreases n
  {
    if n < 10 then [DigitChar(n)] else DecimalString(n / 10) + [DigitChar(n % 10)]
  }

  /** Reading a string of decimal digits back as a number. */
  function DecimalValue(s: string): nat
    requires forall i :: 0 <= i < |s| ==> '0' <= s[i] <= '9'
  {
    if s == [] then 0 else DecimalValue(s[..|s| - 1]) * 10 + (s[|s| - 1] as int - '0' as int)
  }

  lemma {:induction false} DecimalRoundTrip(n: nat)
    ensures DecimalValue(DecimalString(n)) == n
    decreases n
  {
    var s := DecimalString(n);
    if n >= 10 {
      DecimalRoundTrip(n / 10);
      assert s[..|s| - 1] == DecimalString(n / 10);
    }
  }

  /** The timeout message: it names the URL and the configured number of seconds. */
  function TimeoutMessage(url: string, seconds: nat): string {
    "Unable to connect to " + url + " waited for " + DecimalString(seconds) + " seconds"
  }

  /** The timeout message names the URL and the configured number of
      seconds, which can be read back from it. */
  lemma TimeoutMessageNamesUrlAndSeconds(url: string, seconds: nat)
    ensures var m := TimeoutMessage(url, seconds);
      var head := "Unable to connect to " + url + " waited for ";
      var tail := " seconds";
      |head| + |tail| < |m| && m[..|head|] == head && m[|m| - |tail|..] == tail &&
      (forall i :: |head| <= i < |m| - |tail| ==> '0' <= m[i] <= '9') &&
      DecimalValue(m[|head|..|m| - |tail|]) == seconds
  {
    var head := "Unable to connect to " + url + " waited for ";
    var digits := DecimalString(seconds);
    var m := TimeoutMessage(url, seconds);
    assert m == head + digits + " seconds";
    assert m[|head|..|m| - 8] == digits;
    DecimalRoundTrip(seconds);
  }

  // ---------------------------------------------------------------------
  // Pure decisions of the task.

  /** `prettifyJson`: Gson's output, or a JsonSyntaxException carrying the
      fixed sentence and the raw response. */
  function PrettifyJson(response: string, gson: JsonPrettifier): Result<string, Failure> {
    match gson(response)
    case Some(pretty) => Ok(pretty)
    case None => Err(JsonSyntaxException(PARSE_FAILURE_SENTENCE + " response=" + response))
  }

  /** Prettifying fails exactly when Gson cannot parse the body, and the
      failure message starts with the sentence and ends with the raw body. */
  lemma PrettifyJsonOutcome(response: string, gson: JsonPrettifier)
    ensures PrettifyJson(response, gson).Ok? <==> gson(response).Some?
    ensures PrettifyJson(response, gson).Ok? ==> PrettifyJson(response, gson).value == gson(response).value
    ensures PrettifyJson(response, gson).Err? ==>
      var e := PrettifyJson(response, gson).error;
      e.JsonSyntaxException? &&
      |e.message| == |PARSE_FAILURE_SENTENCE| + 10 + |response| &&
      e.message[..|PARSE_FAILURE_SENTENCE|] == PARSE_FAILURE_SENTENCE &&
      e.message[|PARSE_FAILURE_SENTENCE|..|PARSE_FAILURE_SENTENCE| + 10] == " response=" &&
      e.message[|PARSE_FAILURE_SENTENCE| + 10..] == response
  {
    if gson(response).None? {
      var m := PARSE_FAILURE_SENTENCE + " response=" + response;
      assert m[..|PARSE_FAILURE_SENTENCE|] == PARSE_FAILURE_SENTENCE;
      assert m[|PARSE_FAILURE_SENTENCE|..|PARSE_FAILURE_SENTENCE| + 10] == " response=";
      assert m[|PARSE_FAILURE_SENTENCE| + 10..] == response;
    }
  }

  /** `getCustomSslContext`: a context over the trust store when one is
      configured (reading its password), the platform default otherwise. */
  function SslContextFor(trustStore: Option<string>, trustStorePassword: Option<string>): (r: Result<SslContext, Failure>)
    ensures r.Ok? && r.value.PlatformDefault? <==> trustStore.None?
    ensures r.Ok? && r.value.TrustStoreContext? <==> trustStore.Some? && trustStorePassword.Some?
    ensures r.Ok? && r.value.TrustStoreContext? ==>
      r.value.trustStore == trustStore.value && r.value.password == trustStorePassword.value
    ensures r.Err? ==> r.error == MissingValue("trustStorePassword")
  {
    match trustStore
    case None => Ok(PlatformDefault)
    case Some(path) =>
      match trustStorePassword
      case None => Err(MissingValue("trustStorePassword"))
      case Some(password) => Ok(TrustStoreContext(path, password))
  }

  /** `generateApiDocs` for one target: the document to write, or the
      exception it throws. */
  function GenerateSpec(cfg: TaskConfig, t: Target, server: Server, gson: JsonPrettifier): Result<string, Failure> {
    var isYaml := IsYaml(t.url);
    match SslContextFor(cfg.trustStore, cfg.trustStorePassword)
    case Err(e) => Err(e)
    case Ok(ssl) =>
      match cfg.waitTimeInSeconds
      case None => Err(MissingValue("waitTimeInSeconds"))
      case Some(wait) =>
        var exchange := server(Request(t.url, cfg.requestHeaders, ssl));
        match PollSpec(exchange.probes, wait)
        case Escaped(cause) => Err(ProbeFailed(cause))
        case TimedOut => Err(GradleException(TimeoutMessage(t.url, wait)))
        case Ready(_) =>
          match exchange.fetch
          case FetchFailed(cause) => Err(FetchError(cause))
          case Body(response) => if isYaml then Ok(response) else PrettifyJson(response, gson)
  }

  /** The targets `execute` processes: the grouped mappings when present and
      non-empty, the single url/file name pair otherwise. */
  function Targets(cfg: TaskConfig): Result<seq<Target>, Failure> {
    if cfg.groupedApiMappings.Some? && |cfg.groupedApiMappings.value| > 0 then
      Ok(cfg.groupedApiMappings.value)
    else if cfg.apiDocsUrl.None? then
      Err(MissingValue("apiDocsUrl"))
    else if cfg.outputFileName.None? then
      Err(MissingValue("outputFileName"))
    else
      Ok([Target(cfg.apiDocsUrl.value, cfg.outputFileName.value)])
  }

  /** Processing `ts` in order over the directory `dir`: the first failure
      stops the rest and is returned with the directory as it was then. */
  function RunFrom(cfg: TaskConfig, ts: seq<Target>, dir: map<string, string>, server: Server, gson: JsonPrettifier)
    : (Option<Failure>, map<string, string>)
    decreases |ts|
  {
    if ts == [] then (None, dir)
    else match GenerateSpec(cfg, ts[0], server, gson)
      case Err(e) => (Some(e), dir)
      case Ok(doc) => RunFrom(cfg, ts[1..], dir[ts[0].fileName := doc], server, gson)
  }

  /** `execute`: the exception it throws, if any, and the output directory. */
  function ExecuteSpec(cfg: TaskConfig, dir: map<string, string>, server: Server, gson: JsonPrettifier)
    : (Option<Failure>, map<string, string>)
  {
    match Targets(cfg)
    case Err(e) => (Some(e), dir)
    case Ok(ts) => RunFrom(cfg, ts, dir, server, gson)
  }

  /** The file names `ts` writes. */
  function FileNames(ts: seq<Target>): set<string> {
    set t | t in ts :: t.fileName
  }

  // ---------------------------------------------------------------------
  // The task object.

  class OpenApiGeneratorTask {
    const config: TaskConfig
    /** The output directory: file name -> file content. */
    var outputDir: map<string, string>

    constructor (config: TaskConfig, outputDir: map<string, string>)
      ensures this.config == config && this.outputDir == outputDir
    {
      this.config := config;
      this.outputDir := outputDir;
    }

    /** Wait, fetch, normalise and write one target. On success exactly the
        entry `fileName` of the directory is (over)written; on failure the
        directory is unchanged and the exception is returned. */
    method GenerateApiDocs(target: Target, server: Server, gson: JsonPrettifier) returns (failure: Option<Failure>)
      modifies this
      ensures match GenerateSpec(config, target, server, gson)
        case Ok(doc) => failure == None && outputDir == old(outputDir)[target.fileName := doc]
        case Err(e) => failure == Some(e) && outputDir == old(outputDir)
    {
      var isYaml := IsYaml(target.url);
      var ssl := SslContextFor(config.trustStore, config.trustStorePassword);
      if ssl.Err? {
        return Some(ssl.error);
      }
      if config.waitTimeInSeconds.None? {
        return Some(MissingValue("waitTimeInSeconds"));
      }
      var wait := config.waitTimeInSeconds.value;
      var exchange := server(Request(target.url, config.requestHeaders, ssl.value));
      var ready := Poll(exchange.probes, wait);
      match ready
      case Escaped(cause) =>
        return Some(ProbeFailed(cause));
      case TimedOut =>
        return Some(GradleException(TimeoutMessage(target.url, wait)));
      case Ready(_) =>
      if exchange.fetch.FetchFailed? {
        return Some(FetchError(exchange.fetch.cause));
      }
      var response := exchange.fetch.text;
      var apiDocs: string;
      if isYaml {
        apiDocs := response;
      } else {
        var pretty := PrettifyJson(response, gson);
        if pretty.Err? {
          return Some(pretty.error);
        }
        apiDocs := pretty.value;
      }
      outputDir := outputDir[target.fileName := apiDocs];
      failure := None;
    }

    /** Run every target in order, stopping at the first failure. */
    method Execute(server: Server, gson: JsonPrettifier) returns (failure: Option<Failure>)
      modifies this
      ensures (failure, outputDir) == ExecuteSpec(config, old(outputDir), server, gson)
    {
      var targets: seq<Target>;
      if config.groupedApiMappings.Some? && |config.groupedApiMappings.value| > 0 {
        targets := config.groupedApiMappings.value;
      } else {
        if config.apiDocsUrl.None? {
          return Some(MissingValue("apiDocsUrl"));
        }
        if config.outputFileName.None? {
          return Some(MissingValue("outputFileName"));
        }
        targets := [Target(config.apiDocsUrl.value, config.outputFileName.value)];
      }
      var i := 0;
      while i < |targets|
        invariant 0 <= i <= |targets|
        invariant RunFrom(config, targets[i..], outputDir, server, gson)
               == RunFrom(config, targets, old(outputDir), server, gson)
      {
        assert targets[i..][0] == targets[i] && targets[i..][1..] == targets[i + 1..];
        failure := GenerateApiDocs(targets[i], server, gson);
        if failure.Some? {
          return;
        }
        i := i + 1;
      }
      failure := None;
    }
  }

  // ---------------------------------------------------------------------
  // Properties of one target.

  /** Whatever is written for a target is the body fetched after a ready
      probe: verbatim for a YAML URL, Gson's pretty-printing otherwise. */
  lemma WrittenDocument(cfg: TaskConfig, t: Target, server: Server, gson: JsonPrettifier, doc: string)
    requires GenerateSpec(cfg, t, server, gson) == Ok(doc)
    ensures SslContextFor(cfg.trustStore, cfg.trustStorePassword).Ok? && cfg.waitTimeInSeconds.Some?
    ensures var exchange := server(Request(t.url, cfg.requestHeaders, SslContextFor(cfg.trustStore, cfg.trustStorePassword).value));
      PollSpec(exchange.probes, cfg.waitTimeInSeconds.value).Ready? &&
      exchange.fetch.Body? &&
      (IsYaml(t.url) ==> doc == exchange.fetch.text) &&
      (!IsYaml(t.url) ==> gson(exchange.fetch.text) == Some(doc))
  {
  }

  /** Conversely, a ready wait followed by a fetched body always produces a
      document: the body itself for a YAML URL, otherwise Gson's output, or
      the JsonSyntaxException when Gson cannot parse it. */
  lemma ReadyBodyIsWritten(cfg: TaskConfig, t: Target, server: Server, gson: JsonPrettifier)
    requires SslContextFor(cfg.trustStore, cfg.trustStorePassword).Ok? && cfg.waitTimeInSeconds.Some?
    requires var exchange := server(Request(t.url, cfg.requestHeaders, SslContextFor(cfg.trustStore, cfg.trustStorePassword).value));
      PollSpec(exchange.probes, cfg.waitTimeInSeconds.value).Ready? && exchange.fetch.Body?
    ensures var exchange := server(Request(t.url, cfg.requestHeaders, SslContextFor(cfg.trustStore, cfg.trustStorePassword).value));
      GenerateSpec(cfg, t, server, gson) ==
        if IsYaml(t.url) then Ok(exchange.fetch.text) else PrettifyJson(exchange.fetch.text, gson)
  {
  }

  /** When no probe within the wait succeeds or throws, the target fails
      with the timeout exception naming its URL and the configured seconds. */
  lemma NeverReadyTimesOut(cfg: TaskConfig, t: Target, server: Server, gson: JsonPrettifier)
    requires SslContextFor(cfg.trustStore, cfg.trustStorePassword).Ok? && cfg.waitTimeInSeconds.Some?
    requires var probes := server(Request(t.url, cfg.requestHeaders, SslContextFor(cfg.trustStore, cfg.trustStorePassword).value)).probes;
      forall j :: 0 <= j < cfg.waitTimeInSeconds.value && j < |probes| ==> KeepsPolling(probes[j])
    ensures GenerateSpec(cfg, t, server, gson) == Err(GradleException(TimeoutMessage(t.url, cfg.waitTimeInSeconds.value)))
  {
    var probes := server(Request(t.url, cfg.requestHeaders, SslContextFor(cfg.trustStore, cfg.trustStorePassword).value)).probes;
    PollTimesOutIff(probes, cfg.waitTimeInSeconds.value);
  }

  /** A probe exception other than a refused connection, met before any
      ready probe, escapes from the target unchanged. */
  lemma OtherProbeErrorEscapes(cfg: TaskConfig, t: Target, server: Server, gson: JsonPrettifier, k: nat, cause: string)
    requires SslContextFor(cfg.trustStore, cfg.trustStorePassword).Ok? && cfg.waitTimeInSeconds.Some?
    requires var probes := server(Request(t.url, cfg.requestHeaders, SslContextFor(cfg.trustStore, cfg.trustStorePassword).value)).probes;
      k < cfg.waitTimeInSeconds.value && k < |probes| && probes[k] == OtherError(cause) &&
      forall j :: 0 <= j < k ==> KeepsPolling(probes[j])
    ensures GenerateSpec(cfg, t, server, gson) == Err(ProbeFailed(cause))
  {
    var probes := server(Request(t.url, cfg.requestHeaders, SslContextFor(cfg.trustStore, cfg.trustStorePassword).value)).probes;
    PollEscapesIff(probes, cfg.waitTimeInSeconds.value, cause);
  }

  // ---------------------------------------------------------------------
  // Properties of a whole run.

  /** A run writes only the targets' file names and leaves every other file
      as it was. */
  lemma {:induction false} RunFromFrame(cfg: TaskConfig, ts: seq<Target>, dir: map<string, string>, server: Server, gson: JsonPrettifier)
    ensures var after := RunFrom(cfg, ts, dir, server, gson).1;
      after.Keys <= dir.Keys + FileNames(ts) &&
      forall n :: n in dir && n !in FileNames(ts) ==> n in after && after[n] == dir[n]
    decreases |ts|
  {
    if ts != [] {
      assert FileNames(ts) == {ts[0].fileName} + FileNames(ts[1..]) by {
        assert ts == [ts[0]] + ts[1..];
      }
      match GenerateSpec(cfg, ts[0], server, gson)
      case Err(_) =>
      case Ok(doc) => RunFromFrame(cfg, ts[1..], dir[ts[0].fileName := doc], server, gson);
    }
  }

  /** A run succeeds iff every target succeeds; it then writes every
      target's file. */
  lemma {:induction false} RunFromSucceeds(cfg: TaskConfig, ts: seq<Target>, dir: map<string, string>, server: Server, gson: JsonPrettifier)
    ensures RunFrom(cfg, ts, dir, server, gson).0 == None <==>
      forall k :: 0 <= k < |ts| ==> GenerateSpec(cfg, ts[k], server, gson).Ok?
    ensures RunFrom(cfg, ts, dir, server, gson).0 == None ==>
      FileNames(ts) <= RunFrom(cfg, ts, dir, server, gson).1.Keys
    decreases |ts|
  {
    if ts != [] {
      assert FileNames(ts) == {ts[0].fileName} + FileNames(ts[1..]) by {
        assert ts == [ts[0]] + ts[1..];
      }
      match GenerateSpec(cfg, ts[0], server, gson)
      case Err(_) =>
      case Ok(doc) =>
        var dir' := dir[ts[0].fileName := doc];
        RunFromSucceeds(cfg, ts[1..], dir', server, gson);
        RunFromFrame(cfg, ts[1..], dir', server, gson);
        if forall k :: 0 <= k < |ts[1..]| ==> GenerateSpec(cfg, ts[1..][k], server, gson).Ok? {
          forall k | 0 <= k < |ts| ensures GenerateSpec(cfg, ts[k], server, gson).Ok? {
            if k > 0 { assert ts[k] == ts[1..][k - 1]; }
          }
        }
        if forall k :: 0 <= k < |ts| ==> GenerateSpec(cfg, ts[k], server, gson).Ok? {
          forall k | 0 <= k < |ts[1..]| ensures GenerateSpec(cfg, ts[1..][k], server, gson).Ok? {
            assert ts[1..][k] == ts[k + 1];
          }
        }
    }
  }

  /** The first failing target aborts the run: its exception is the run's,
      and the directory holds exactly what the targets before it wrote. */
  lemma {:induction false} RunFromFirstFailure(cfg: TaskConfig, ts: seq<Target>, dir: map<string, string>, server: Server, gson: JsonPrettifier, k: nat)
    requires k < |ts| && GenerateSpec(cfg, ts[k], server, gson).Err?
    requires forall j :: 0 <= j < k ==> GenerateSpec(cfg, ts[j], server, gson).Ok?
    ensures RunFrom(cfg, ts, dir, server, gson) ==
      (Some(GenerateSpec(cfg, ts[k], server, gson).error), RunFrom(cfg, ts[..k], dir, server, gson).1)
    decreases k
  {
    if k > 0 {
      var doc := GenerateSpec(cfg, ts[0], server, gson).value;
      assert ts[1..][k - 1] == ts[k];
      assert ts[..k][1..] == ts[1..][..k - 1];
      forall j | 0 <= j < k - 1 ensures GenerateSpec(cfg, ts[1..][j], server, gson).Ok? {
        assert ts[1..][j] == ts[j + 1];
      }
      RunFromFirstFailure(cfg, ts[1..], dir[ts[0].fileName := doc], server, gson, k - 1);
    }
  }

  /** With distinct file names, a successful run leaves each target's file
      holding that target's document. */
  lemma {:induction false} RunFromContents(cfg: TaskConfig, ts: seq<Target>, dir: map<string, string>, server: Server, gson: JsonPrettifier)
    requires forall a, b :: 0 <= a < b < |ts| ==> ts[a].fileName != ts[b].fileName
    requires RunFrom(cfg, ts, dir, server, gson).0 == None
    ensures forall k :: 0 <= k < |ts| ==>
      GenerateSpec(cfg, ts[k], server, gson).Ok? &&
      ts[k].fileName in RunFrom(cfg, ts, dir, server, gson).1 &&
      RunFrom(cfg, ts, dir, server, gson).1[ts[k].fileName] == GenerateSpec(cfg, ts[k], server, gson).value
    decreases |ts|
  {
    if ts != [] {
      RunFromSucceeds(cfg, ts, dir, server, gson);
      var doc := GenerateSpec(cfg, ts[0], server, gson).value;
      var dir' := dir[ts[0].fileName := doc];
      var after := RunFrom(cfg, ts, dir, server, gson).1;
      assert after == RunFrom(cfg, ts[1..], dir', server, gson).1;
      RunFromContents(cfg, ts[1..], dir', server, gson);
      RunFromFrame(cfg, ts[1..], dir', server, gson);
      assert ts[0].fileName !in FileNames(ts[1..]);
      forall k | 0 <= k < |ts|
        ensures ts[k].fileName in after && after[ts[k].fileName] == GenerateSpec(cfg, ts[k], server, gson).value
      {
        if k > 0 { assert ts[k] == ts[1..][k - 1]; }
      }
    }
  }

  /** Grouped mode: the single url/file name pair plays no part in the run. */
  lemma {:induction false} RunFromIgnoresSinglePair(cfg: TaskConfig, ts: seq<Target>, dir: map<string, string>, server: Server, gson: JsonPrettifier,
                                                    url: Option<string>, name: Option<string>)
    ensures RunFrom(cfg.(apiDocsUrl := url, outputFileName := name), ts, dir, server, gson) == RunFrom(cfg, ts, dir, server, gson)
    decreases |ts|
  {
    var cfg' := cfg.(apiDocsUrl := url, outputFileName := name);
    if ts != [] {
      assert GenerateSpec(cfg', ts[0], server, gson) == GenerateSpec(cfg, ts[0], server, gson);
      match GenerateSpec(cfg, ts[0], server, gson)
      case Err(_) =>
      case Ok(doc) => RunFromIgnoresSinglePair(cfg, ts[1..], dir[ts[0].fileName := doc], server, gson, url, name);
    }
  }

  /** Non-empty grouped mappings win outright: the run is the grouped
      entries in their order, whatever `apiDocsUrl` and `outputFileName`
      say, and the single pair's file is created only if a grouped entry
      names it. */
  lemma GroupedMappingsWin(cfg: TaskConfig, dir: map<string, string>, server: Server, gson: JsonPrettifier,
                           url: Option<string>, name: Option<string>)
    requires cfg.groupedApiMappings.Some? && |cfg.groupedApiMappings.value| > 0
    ensures ExecuteSpec(cfg, dir, server, gson) == RunFrom(cfg, cfg.groupedApiMappings.value, dir, server, gson)
    ensures ExecuteSpec(cfg.(apiDocsUrl := url, outputFileName := name), dir, server, gson) == ExecuteSpec(cfg, dir, server, gson)
    ensures cfg.outputFileName.Some? && cfg.outputFileName.value !in dir &&
            cfg.outputFileName.value !in FileNames(cfg.groupedApiMappings.value) ==>
      cfg.outputFileName.value !in ExecuteSpec(cfg, dir, server, gson).1
  {
    RunFromIgnoresSinglePair(cfg, cfg.groupedApiMappings.value, dir, server, gson, url, name);
    RunFromFrame(cfg, cfg.groupedApiMappings.value, dir, server, gson);
  }

  /** Without grouped mappings exactly the single pair is processed. */
  lemma SinglePairOtherwise(cfg: TaskConfig, dir: map<string, string>, server: Server, gson: JsonPrettifier)
    requires cfg.groupedApiMappings.None? || cfg.groupedApiMappings.value == []
    requires cfg.apiDocsUrl.Some? && cfg.outputFileName.Some?
    ensures var t := Target(cfg.apiDocsUrl.value, cfg.outputFileName.value);
      ExecuteSpec(cfg, dir, server, gson) ==
        match GenerateSpec(cfg, t, server, gson)
        case Ok(doc) => (None, dir[t.fileName := doc])
        case Err(e) => (Some(e), dir)
  {
    var t := Target(cfg.apiDocsUrl.value, cfg.outputFileName.value);
    assert Targets(cfg) == Ok([t]);
    assert [t][1..] == [];
    match GenerateSpec(cfg, t, server, gson)
    case Ok(doc) =>
      assert RunFrom(cfg, [t], dir, server, gson) == RunFrom(cfg, [], dir[t.fileName := doc], server, gson);
    case Err(e) =>
  }
}
