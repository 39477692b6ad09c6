# springdoc-openapi Gradle plugin: model of the document generator and the fork settings merge

This project models two parts of the springdoc-openapi Gradle plugin in Dafny
and proves properties about them.

1. **The `generateOpenApiDocs` task** (`OpenApiGeneratorTask`). It picks its
   targets first: the grouped url→file-name mappings when they are present and
   non-empty, otherwise the single `apiDocsUrl`/`outputFileName` pair. It then
   handles the targets in order, and the first exception aborts the rest. Each
   target goes through these steps:
   - The URL is classified as YAML by its lowercased text alone. The test is
     the full-match regex `.+[./]yaml(/.+)*`.
   - The TLS context is chosen: a trust-store context when `trustStore` is
     set, the platform default otherwise.
   - The application is polled until it answers with a status below 299. A
     refused connection is retried. Any other probe exception escapes. Running
     out of time raises `GradleException("Unable to connect to <url> waited
     for <n> seconds")`.
   - The document is fetched. A YAML body is kept as it is. Any other body goes
     through Gson's pretty-printer, whose failure becomes a
     `JsonSyntaxException` with a fixed sentence and the raw response.
   - The result is written to `outputDir/<fileName>`.
2. **The `onlyIf` action of `forkedSpringBootRun`** (`OpenApiGradlePlugin`).
   Each field of the `customBootRun` block replaces the `bootRun` value when it
   is set. For collections it must also be non-empty. System properties whose
   names start with `java.class.path` are dropped. `killDescendants` is forced
   to `false` on a JVM whose description starts with `1.8`.

Files:
- `common.dfy`: `Option`, `Result` and `StartsWith`.
- `yaml_url.dfy`: the YAML classification. A ghost predicate gives the regex's
  meaning piece by piece (`.+`, `[./]`, `yaml`, `(/.+)*`). An executable
  scanner decides it, and a lemma proves the two agree.
- `readiness.dfy`: the readiness wait. A method with a loop runs over a finite
  sequence of probe outcomes (`Refused | Status(n) | OtherError`) with a budget
  of attempts. It is proved equal to a recursive specification, and each
  outcome is characterised by an if-and-only-if lemma.
- `generator.dfy`: the task itself. One function states what a target
  produces, another states what a whole run produces. The class
  `OpenApiGeneratorTask` holds the output directory as a map from file name to
  content, updated in place. Its methods are proved against those functions,
  and the lemmas cover grouped-mapping precedence, first-failure abort and
  which files get written.
- `fork_merge.dfy`: the fork settings. Each field has a pure selection
  function. The class `JavaExecFork` has an `OnlyIf` method that assigns its
  fields in the source's order. Lemmas state that empty overrides reproduce
  `bootRun` and that non-empty overrides replace it wholesale.

The application, the network and Gson are parameters of the model:
- A `Server` maps each request (URL, headers, TLS context) to the outcomes of
  the successive readiness probes and of the one fetch that follows.
- A `JsonPrettifier` is a partial function from a response to its
  pretty-printed form.
- The wait is a budget of attempts, one per one-second poll interval, taken
  from `waitTimeInSeconds`. When the probe sequence runs out before the budget
  does, the wait also times out.

Behaviour of the code worth knowing:
- Readiness needs a status below 299 (`MAX_HTTP_STATUS_CODE` with `<`), so
  status 299 keeps the wait polling.
- The TLS context is worked out again for every target.
- The fetch after readiness is made once and is never retried. Whatever it
  throws escapes.
- The code has no stop-on-every-path cleanup. Stopping the forked application
  is left to the external fork plugin.

## Model

| member | source | states |
|---|---|---|
| `YamlUrl.IsYamlMatchesRegex` | src/main/kotlin/org/springdoc/openapi/gradle/plugin/OpenApiGeneratorTask.kt:96 | `IsYaml(url)` holds iff the lowercased URL fully matches `.+[./]yaml(/.+)*`, with `.` excluding Java's line terminators, in both directions |
| `YamlUrl.YamlSuffixIsYaml` | src/main/kotlin/org/springdoc/openapi/gradle/plugin/OpenApiGeneratorTask.kt:96 | a non-empty prefix, then `.` or `/`, then `yaml` in any letter case, then nothing or `/` plus at least one character, is YAML |
| `YamlUrl.NoLetterYNotYaml` | src/main/kotlin/org/springdoc/openapi/gradle/plugin/OpenApiGeneratorTask.kt:96 | a URL with no `y`/`Y` is never YAML |
| `YamlUrl.ApiDocsUrlExamples` | src/test/kotlin/org/springdoc/openapi/gradle/plugin/OpenApiGradlePluginTest.kt:230-335 | after a host with no `y`: the tests' `/v3/api-docs.yaml` and `/v3/api-docs.yaml/groupA` are YAML, and their `/v3/api-docs` and `/v3/api-docs/groupA` are not; `/v3/api-docs.YAML` is YAML too, because the URL is lowercased before matching (OpenApiGeneratorTask.kt line 96) |
| `Readiness.Poll` | src/main/kotlin/org/springdoc/openapi/gradle/plugin/OpenApiGeneratorTask.kt:98-114 | the polling loop ends exactly as the wait specification `PollSpec` says |
| `Readiness.PollReadyIff` | src/main/kotlin/org/springdoc/openapi/gradle/plugin/OpenApiGeneratorTask.kt:98-114 | the wait is ready at attempt k iff k is within the budget, probe k returned a status below 299, and every earlier probe was refused or returned 299 or more |
| `Readiness.PollEscapesIff` | src/main/kotlin/org/springdoc/openapi/gradle/plugin/OpenApiGeneratorTask.kt:98-114 | an exception escapes the wait iff, within the budget, a non-ConnectException probe error comes before any ready probe |
| `Readiness.PollTimesOutIff` | src/main/kotlin/org/springdoc/openapi/gradle/plugin/OpenApiGeneratorTask.kt:98-114 | the wait times out iff every probe within the budget was refused or returned a status of 299 or more |
| `Readiness.StatusBoundary` | src/main/kotlin/org/springdoc/openapi/gradle/plugin/OpenApiGeneratorTask.kt:111-113 | a status keeps the wait polling iff it is at least 299, and is ready iff it is at most 298 |
| `Generator.TimeoutMessageNamesUrlAndSeconds` | src/main/kotlin/org/springdoc/openapi/gradle/plugin/OpenApiGeneratorTask.kt:131-136 | the timeout message is "Unable to connect to <url> waited for <digits> seconds", and the digits read back as the configured seconds |
| `Generator.DecimalRoundTrip` | src/main/kotlin/org/springdoc/openapi/gradle/plugin/OpenApiGeneratorTask.kt:136 | the decimal rendering of the wait time in the message reads back as the same number |
| `Generator.PrettifyJsonOutcome` | src/main/kotlin/org/springdoc/openapi/gradle/plugin/OpenApiGeneratorTask.kt:158-170 | prettifying fails iff Gson cannot parse the body; on success the result is Gson's output; on failure the JsonSyntaxException message is the fixed sentence, then " response=", then the raw body |
| `Generator.SslContextFor` | src/main/kotlin/org/springdoc/openapi/gradle/plugin/OpenApiGeneratorTask.kt:140-156 | the platform default iff no trust store is set; a trust-store context carrying the configured path and password iff both are set; a missing-password error otherwise |
| `Generator.OpenApiGeneratorTask.GenerateApiDocs` | src/main/kotlin/org/springdoc/openapi/gradle/plugin/OpenApiGeneratorTask.kt:94-138 | on success only the entry `fileName` of the output directory is (over)written, with the target's document; on failure the directory is unchanged and the exception is returned |
| `Generator.OpenApiGeneratorTask.Execute` | src/main/kotlin/org/springdoc/openapi/gradle/plugin/OpenApiGeneratorTask.kt:86-92 | the exception and the final output directory are those of processing the selected targets in order, stopping at the first failure |
| `Generator.WrittenDocument` | src/main/kotlin/org/springdoc/openapi/gradle/plugin/OpenApiGeneratorTask.kt:125-130 | a written document is the body fetched after a ready probe: verbatim when the URL is YAML, Gson's pretty-printing otherwise |
| `Generator.ReadyBodyIsWritten` | src/main/kotlin/org/springdoc/openapi/gradle/plugin/OpenApiGeneratorTask.kt:125-130 | a ready wait followed by a fetched body always yields the body verbatim for a YAML URL, and otherwise Gson's output or the JsonSyntaxException when Gson cannot parse it |
| `Generator.NeverReadyTimesOut` | src/main/kotlin/org/springdoc/openapi/gradle/plugin/OpenApiGeneratorTask.kt:131-136 | when no probe within the wait is ready or throws, the target fails with the GradleException naming its URL and the configured seconds |
| `Generator.OtherProbeErrorEscapes` | src/main/kotlin/org/springdoc/openapi/gradle/plugin/OpenApiGeneratorTask.kt:98-114 | a non-ConnectException probe error that comes before any ready probe is the target's exception |
| `Generator.RunFromFrame` | src/main/kotlin/org/springdoc/openapi/gradle/plugin/OpenApiGeneratorTask.kt:86-92 | a run creates or changes only the targets' file names; every other file keeps its content |
| `Generator.RunFromSucceeds` | src/main/kotlin/org/springdoc/openapi/gradle/plugin/OpenApiGeneratorTask.kt:86-92 | a run succeeds iff every target succeeds, and a successful run writes every target's file |
| `Generator.RunFromFirstFailure` | src/main/kotlin/org/springdoc/openapi/gradle/plugin/OpenApiGeneratorTask.kt:86-92 | the first failing target's exception is the run's, and the directory holds exactly what the earlier targets wrote |
| `Generator.RunFromContents` | src/main/kotlin/org/springdoc/openapi/gradle/plugin/OpenApiGeneratorTask.kt:88 | with distinct file names, after a successful run each target's file holds that target's document |
| `Generator.RunFromIgnoresSinglePair` | src/main/kotlin/org/springdoc/openapi/gradle/plugin/OpenApiGeneratorTask.kt:87-88 | processing a list of targets does not depend on `apiDocsUrl` or `outputFileName` |
| `Generator.GroupedMappingsWin` | src/main/kotlin/org/springdoc/openapi/gradle/plugin/OpenApiGeneratorTask.kt:87-88 | non-empty grouped mappings are processed in their order, whatever the single pair says, and the single pair's file is never created unless a grouped entry names it |
| `Generator.SinglePairOtherwise` | src/main/kotlin/org/springdoc/openapi/gradle/plugin/OpenApiGeneratorTask.kt:89-91 | with grouped mappings absent or empty, exactly the one target (`apiDocsUrl`, `outputFileName`) is processed |
| `ForkMerge.WithoutClassPath` | src/main/kotlin/org/springdoc/openapi/gradle/plugin/OpenApiGradlePlugin.kt:43-48 | a key is kept iff it does not start with `java.class.path`, and kept values are unchanged |
| `ForkMerge.JavaExecFork.OnlyIf` | src/main/kotlin/org/springdoc/openapi/gradle/plugin/OpenApiGradlePlugin.kt:38-69 | the fork's fields become the per-field selections. A missing main class stops the action after the classpath, leaving main, jvmArgs, environment and killDescendants untouched. Otherwise `killDescendants` becomes false on a 1.8 JVM and is unchanged elsewhere, and the predicate returns true |
| `ForkMerge.EmptyOverridesReproduceBase` | src/main/kotlin/org/springdoc/openapi/gradle/plugin/OpenApiGradlePlugin.kt:41-62 | with every custom field unset or empty, each fork field is `bootRun`'s, apart from the dropped class-path properties; an absent `bootRun` argument list becomes empty; a missing main class is an error |
| `ForkMerge.FullOverridesReplaceBase` | src/main/kotlin/org/springdoc/openapi/gradle/plugin/OpenApiGradlePlugin.kt:41-62 | set, non-empty overrides become the fork fields verbatim, whatever `bootRun` holds |
| `ForkMerge.FieldsAreIndependent` | src/main/kotlin/org/springdoc/openapi/gradle/plugin/OpenApiGradlePlugin.kt:41-62 | each merged field (system properties, working directory, arguments, classpath, main class, JVM arguments, environment) depends only on its own custom and base values |
| `ForkMerge.ArgsResolution` | src/main/kotlin/org/springdoc/openapi/gradle/plugin/OpenApiGradlePlugin.kt:53-54 | arguments are the non-empty custom list, else `bootRun`'s list, else the empty list |
| `ForkMerge.ClasspathResolution` | src/main/kotlin/org/springdoc/openapi/gradle/plugin/OpenApiGradlePlugin.kt:55-56 | the classpath is the custom collection when it is non-empty, else `bootRun`'s |
| `ForkMerge.PresenceOverrides` | src/main/kotlin/org/springdoc/openapi/gradle/plugin/OpenApiGradlePlugin.kt:51-58 | a set custom working directory or main class wins without any emptiness check; an unset one falls back to `bootRun`'s; the main class is an error when neither side has one |
| `ForkMerge.SystemPropertiesFiltered` | src/main/kotlin/org/springdoc/openapi/gradle/plugin/OpenApiGradlePlugin.kt:41-48 | the fork's system properties are the chosen map (custom if set and non-empty, else `bootRun`'s) minus exactly the keys starting with `java.class.path`, values unchanged |
| `ForkMerge.WithoutClassPathKeepsOthers` | src/main/kotlin/org/springdoc/openapi/gradle/plugin/OpenApiGradlePlugin.kt:43-48 | a map with no class-path keys passes the filter unchanged |
| `ForkMerge.Java8Prefix` | src/main/kotlin/org/springdoc/openapi/gradle/plugin/OpenApiGradlePlugin.kt:63-65 | an example of the JVM prefix test: any description starting with `1.8` is Java 8, and one starting with `17` is not (the `killDescendants` rule itself is in `OnlyIf`'s contract) |

## Left out

- Gradle wiring is not modelled: task registration, `dependsOn`, `stopAfter`, extension creation, property conventions and up-to-date checks are framework behaviour.
- Starting and stopping the forked application is not modelled. Stopping belongs to the external execfork plugin, and the code has no cleanup block of its own.
- `HttpURLConnection`, `setDefaultSSLSocketFactory` and the request headers are foreign I/O. The headers are passed to the abstract `Server` but have no modelled effect.
- SslContextFor: does not model failures while opening or loading the trust-store file, or while building the TLS context, because that is key-store I/O. Only the selection, and reading the password property, are modelled.
- Awaitility's wall-clock timing and poll delay are abstracted to one attempt per second of `waitTimeInSeconds`. `TaskConfig.waitTimeInSeconds` is a `nat`: a negative `Int`, which the code would hand unchecked to `Duration.of` and Awaitility, is not modelled.
- Gson's parsing and pretty-printing is an uninterpreted partial function.
- Logging (trace, info, error and debug messages) is not modelled.
- Lowercase: changes only the ASCII letters A-Z. The locale-dependent Unicode case mapping of `String.lowercase(Locale)` is not modelled.
- Errors while writing the output file and creating the output directory are not modelled. The output directory is a map from file name to content.
- System property and environment values are modelled as strings (the source uses `Any`).
- The fork task's initial field values come from the external execfork plugin. The model's constructor starts them empty, with `killDescendants` passed in.
- AnnotatedFork.kt (Groovy metaclass interop) and OpenApiExtension.kt (property declarations only) are not part of this model. The defaults in Constants.kt are not applied anywhere.
