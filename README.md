# Meterian scanner plugin for Jenkins — build step and global settings

A Dafny model of the Jenkins build step `MeterianPlugin` and its descriptor
`MeterianPlugin.Configuration`. The step runs the Meterian client against a
build and fails the build when the client's exit code is non-zero. The
descriptor does four things:

- it holds the global settings `url`, `token` and `jvmArgs`;
- it normalises what the settings form submits: a blank URL becomes
  `https://www.meterian.io`, a blank token becomes null and blank JVM
  arguments become `""`;
- it masks the token for the log;
- it answers the "Test connection" button by probing `/api/v1/accounts/me`.

Java's `trim().isEmpty()` is modelled exactly. `trim` first drops leading
chars at or below U+0020, then trailing ones (`JavaStrings.TrimStart`,
`JavaStrings.TrimEnd`). The lemma `JavaStrings.BlankIffAllTrimmable` proves
that a string is blank exactly when all of its chars are at or below U+0020.
Every contract in `MeterianGlue` is stated with that simpler predicate.

Java `null` is `Wrappers.Option`. The settings that `load()` restores are
the constructor's parameters. Everything foreign becomes an input:

- the values looked up in the submitted form;
- what the host's `super.configure` returns;
- the HTTP exchange of the connection test: client construction, URI
  building and `execute`, and anything they throw (a function from the
  request to a response or an exception);
- building and running the Meterian client (a function from the invocation
  to its exit code).

Files: `Wrappers.dfy` (Option), `JavaStrings.dfy` (trim and blank,
rendering of null in concatenation), `MeterianGlue.dfy` (the two classes,
the build they act on, and the datatypes of requests, outcomes and
validations).

## Model

| member | source | states |
|---|---|---|
| `JavaStrings.TrimStart` | src/main/java/io/meterian/jenkins/glue/MeterianPlugin.java:192 | the leading scan of `trim` returns a suffix of the input. Every char it dropped is at or below U+0020, and what is left does not start with such a char |
| `JavaStrings.TrimEnd` | src/main/java/io/meterian/jenkins/glue/MeterianPlugin.java:192 | the trailing scan of `trim` returns a prefix of the input. Every char it dropped is at or below U+0020, and what is left does not end with such a char |
| `JavaStrings.BlankIffAllTrimmable` | src/main/java/io/meterian/jenkins/glue/MeterianPlugin.java:192 | `s.trim().isEmpty()` holds exactly when every char of `s` is at or below U+0020 |
| `JavaStrings.Render` | src/main/java/io/meterian/jenkins/glue/MeterianPlugin.java:177 | concatenation renders a non-null string as itself and a null one as `"null"` |
| `MeterianGlue.Configuration.ParseEmpty` | src/main/java/io/meterian/jenkins/glue/MeterianPlugin.java:191-193 | gives the default when the text is null or all chars are at or below U+0020, and otherwise the text itself, untrimmed |
| `MeterianGlue.Configuration.DefaultBaseUrlNotBlank` | src/main/java/io/meterian/jenkins/glue/MeterianPlugin.java:94 | the default base URL is not blank |
| `MeterianGlue.Configuration.ComputeFinalUrl` | src/main/java/io/meterian/jenkins/glue/MeterianPlugin.java:186-189 | never blank: a non-blank input unchanged, otherwise `https://www.meterian.io` |
| `MeterianGlue.Configuration.ComputeFinalToken` | src/main/java/io/meterian/jenkins/glue/MeterianPlugin.java:181-184 | null exactly when the input is null or blank; otherwise the input unchanged, which is then non-blank |
| `MeterianGlue.Configuration.ComputeJvmArgs` | src/main/java/io/meterian/jenkins/glue/MeterianPlugin.java:119 | never null: a non-blank input unchanged, otherwise `""` |
| `MeterianGlue.Configuration.Mask` | src/main/java/io/meterian/jenkins/glue/MeterianPlugin.java:127-132 | null exactly for null. Otherwise a prefix of the token followed by `"..."`, where the prefix has at most 4 chars and at most a fifth of the token's length, and is the longest prefix under both bounds. A token shorter than 5 chars gives exactly `"..."` |
| `MeterianGlue.Configuration.GetMeterianBaseUrl` | src/main/java/io/meterian/jenkins/glue/MeterianPlugin.java:146-148 | never blank: the stored URL when that is non-blank, otherwise the default. This holds for any restored state, including one with no URL |
| `MeterianGlue.Configuration.constructor` | src/main/java/io/meterian/jenkins/glue/MeterianPlugin.java:101-103 | the fields are whatever the persisted settings restore |
| `MeterianGlue.Configuration.Configure` | src/main/java/io/meterian/jenkins/glue/MeterianPlugin.java:116-125 | changes only the three fields and sets each to its normalised form value. Afterwards the URL is non-blank, the JVM arguments are non-null and the token is null or non-blank. The base URL used afterwards is the normalised form URL, and the host's configure result is returned |
| `MeterianGlue.NormalisationIdempotent` | src/main/java/io/meterian/jenkins/glue/MeterianPlugin.java:181-193 | normalising an already normalised URL, token or JVM-argument value changes nothing, so resubmitting the stored settings leaves them as they are |
| `MeterianGlue.Configuration.HttpConnectTimeout` | src/main/java/io/meterian/jenkins/glue/MeterianPlugin.java:195-198 | 60000 ms |
| `MeterianGlue.Configuration.HttpSocketTimeout` | src/main/java/io/meterian/jenkins/glue/MeterianPlugin.java:200-203 | 60000 ms |
| `MeterianGlue.Configuration.HttpMaxTotalConnections` | src/main/java/io/meterian/jenkins/glue/MeterianPlugin.java:205-208 | 100 |
| `MeterianGlue.Configuration.HttpMaxDefaultConnectionsPerRoute` | src/main/java/io/meterian/jenkins/glue/MeterianPlugin.java:210-213 | 100 |
| `MeterianGlue.Configuration.HttpUserAgent` | src/main/java/io/meterian/jenkins/glue/MeterianPlugin.java:215-218 | `meterian-jenkins_1.0` |
| `MeterianGlue.Configuration.ClientSettings` | src/main/java/io/meterian/jenkins/glue/MeterianPlugin.java:195-218 | the HTTP client the descriptor configures has both timeouts at one minute, a pool of 100 connections in total and 100 per route, and the plugin's user agent |
| `MeterianGlue.Configuration.IsApplicable` | src/main/java/io/meterian/jenkins/glue/MeterianPlugin.java:105-108 | true for every kind of project |
| `MeterianGlue.Configuration.DoTestConnection` | src/main/java/io/meterian/jenkins/glue/MeterianPlugin.java:150-179 | the probe is a GET of `/api/v1/accounts/me` under the normalised URL, sent with the descriptor's client settings. It carries the single header `Authorization: Token <token>` exactly when the normalised token is non-null, and no header otherwise. The result is ok exactly on status 200, with the success message. Any other status is an error carrying the status line. An exception is an error carrying `"Error: "` and its message (`null` if it has none). No `Exception` thrown by the request escapes: every outcome of the exchange gives a validation |
| `MeterianGlue.Build.constructor` | src/main/java/io/meterian/jenkins/glue/MeterianPlugin.java:54 | the build starts with the given result |
| `MeterianGlue.Build.SetResult` | src/main/java/io/meterian/jenkins/glue/MeterianPlugin.java:65 | the build's result becomes the given one |
| `MeterianGlue.MeterianPlugin.constructor` | src/main/java/io/meterian/jenkins/glue/MeterianPlugin.java:42-46 | the step keeps the user's arguments as given |
| `MeterianGlue.MeterianPlugin.Perform` | src/main/java/io/meterian/jenkins/glue/MeterianPlugin.java:53-76 | runs the client with the step's arguments and `--interactive=false`. It sets the build result to FAILURE exactly when the exit code is non-zero, leaves the result untouched on zero, and returns true |

## Left out

- `createGitHubPullRequest` / `createPullRequest` (MeterianPlugin.java:78-89): a placeholder with a hard-coded path that prints "Not yet implemented" and has no defined behaviour. With it go its two ways of ending `perform` abruptly: the `RuntimeException` that wraps a `GitAPIException` (:68-73), and an `IOException` it declares (:78), which `perform` does not catch.
- `MeterianGlue.MeterianPlugin.Perform`: its `ensures r` describes only the path on which the pull-request step completes normally.
- What `Meterian.build` and `client.run` do: downloading, caching and launching the client (`ClientDownloader`, `Shell`), the environment and JVM arguments they pass, and the `IOException` / `InterruptedException` they may raise. Their source is not part of this model, so `Perform` takes the client run as a function from the invocation to its exit code. `build.getEnvironment`, the logger and `getConfiguration()` are left out for the same reason.
- The HTTP client factory, `makeUrl`, `new URI` and `client.execute`: not part of this model. `DoTestConnection` records the probe as base URL, path, headers and client settings, and takes what happens to it as an input.
- `MeterianGlue.Build.SetResult`: a plain assignment. The rule Jenkins itself applies when a result is set is host code and not part of this model.
- `load()`, `save()`, `super.configure`, the descriptor's registration and `getDisplayName`: host plumbing. `load()` is the constructor's parameters and `super.configure`'s result is a parameter of `Configure`.
- The form lookups `formData.getString(...)` and their failure when a key is missing: JSON library code. `Configure` starts from the looked-up values, each possibly null.
- Logging (SLF4J). `Mask` is modelled on its own, but the log lines that use it, and the two log lines in `doTestConnection` that print the token unmasked, are not.
- The getters `getUrl`, `getToken`, `getJvmArgs` and `getArgs`: they only read a field, and the fields themselves are modelled.
- `MeterianGlue.Configuration.IsApplicable`: takes a non-null project kind. In Java, `isAssignableFrom(null)` would throw, because `|` does not short-circuit.
- `MeterianGlue.Configuration.Mask`: strings are sequences of Dafny chars, which are Unicode scalar values, whereas a Java string is a sequence of UTF-16 code units. For a token holding characters outside the Basic Multilingual Plane, `Mask` counts characters, not code units, so its `len/5` bound and its cut differ from Java's (Java can cut a surrogate pair in half; the model cannot). Trimming is unaffected, since every char it removes is in the Basic Multilingual Plane.
- The integration test builds a `Configuration` with six arguments (URL, token, JVM arguments and three GitHub settings). The descriptor shown has only the no-argument constructor that calls `load()`, so that constructor is what is modelled.
