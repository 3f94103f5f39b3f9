# konnektor-watchdog, modelled in Dafny

The watchdog reports on a TI Konnektor, the device that holds a medical
institution's security cards. It exports the results as gauges for a metrics
scraper. The repository has two near-identical entry points, one per Java
package: the konnektor watchdog (`com.oviva.konnektor.watchdog`) and the ePA
watchdog (`com.oviva.epa.watchdog`). Each has a `Main` and a card-status row
builder, `CardCheckGauges`. This project models the pure logic of both:

- **Card-status rows** (`KonnektorGauges`, `EpaGauges`, data in `Cards`). One
  device poll becomes an ordered sequence of rows. Each row is a tag map plus a
  value that is 0.0 or 1.0.
  - A failed poll gives no rows.
  - A PIN check that throws `KonnektorException` gives 0.0.
  - A row factory that throws still gives a row, with the same tags and 0.0.
  - The konnektor builder keeps every listed SMC-B card and tags
    `holder`, `card_handle` and `telematik_id`.
  - The ePA builder keeps only cards of type SMC-B and tags `holder` and
    `card_handle`.
  - `Variants` proves that on an all-SMC-B listing the two builders give the
    same values, and the same tags apart from `telematik_id`.
- **User agent** (`UserAgents.Build`, with one `UserAgent` per builder supplying its defaults). The title is
  upper-cased and every character outside `[A-Z0-9]` becomes `_`; the result is
  `agent/version`. Defaults are per package. A split at the first `/` gets the
  agent and the version back.
- **Configuration** (`Configuration`). `loadConfig` and `mustLoad` are the same
  in both `Main` classes, so one model serves both. A key→value map becomes a
  `Config` or a named `ConfigError`, with the checks in the source's order.
  `Integer.parseInt`, `URI.create`, `Path.of` and the keystore loader are
  partial functions passed in as parameters.
- **Status gauge and registration schedule** (`Watchdog`).
  - `konnektor_status` is 1 when `connect()` returns and 0 when it throws.
  - The konnektor watchdog registers a fresh builder at set-up, then every 3
    minutes; the first periodic run is at minute 3. This holds while no
    refresh throws an exception the builder does not catch (see "## Left out").
  - The ePA watchdog registers once.
  - Time is a minute-indexed state function.

Points where the code's behaviour is easy to misread:

- A refresh always registers a fresh builder. When its poll fails, that
  builder yields no rows (`Watchdog.KonnektorFailedRefresh`).
- The tags are built before the guarded `Row.of`, so the fallback row carries
  the full tag set.
- In the konnektor builder, `buildService` computes the user agent but never
  hands it to the service builder (`KonnektorGauges.BuildService`). The ePA
  builder does hand it over.
- `configNotValid("credentials.path")` can never fire: `.or(...)` always
  supplies a path, and `loadKeys` either returns key material or throws.
  `LoadConfig` never returns `NotValid`.

## Model

| member | source | states |
|---|---|---|
| KonnektorGauges.UserAgent | src/main/java/com/oviva/konnektor/watchdog/CardCheckGauges.java:72-82 | The title (default `konnektor-watchdog`) sanitised into `[A-Z0-9_]` with its length kept, then `/`, then the version (default `0.0.1`). |
| EpaGauges.UserAgent | src/main/java/com/oviva/epa/watchdog/CardCheckGauges.java:75-85 | The title (default `epa-fm-watchdog`) sanitised into `[A-Z0-9_]` with its length kept, then `/`, then the version (default `0.0.1`). |
| Configuration.Message | src/main/java/com/oviva/konnektor/watchdog/Main.java:221-227 | `NotFound(key)` reads `configuration for '<key>' not found`, `NotValid(key)` reads `configuration for '<key>' not valid`, and `KeystoreFailed(path)` reads `failed to load keystore from: <path>`. |
| Configuration.MessagesIdentifyErrors | src/main/java/com/oviva/konnektor/watchdog/Main.java:252-253 | Two of these errors with the same message are the same error: the message names the kind and the key or path. |
| Cards.PinValue | src/main/java/com/oviva/konnektor/watchdog/CardCheckGauges.java:97-106 | The value is 0.0 or 1.0. It is 1.0 exactly when the PIN is verified. A `KonnektorException` gives 0.0 and does not propagate. |
| KonnektorGauges.CheckCard | src/main/java/com/oviva/konnektor/watchdog/CardCheckGauges.java:84-110 | The tags are exactly `holder`, `card_handle` and `telematik_id`, holding the card's holder name, handle and telematik id. The value is 0.0 or 1.0. It is 1.0 exactly when the PIN is verified and the row factory did not throw. |
| Cards.MapRows | src/main/java/com/oviva/konnektor/watchdog/CardCheckGauges.java:39-43 | One row per card, in listing order: row k is the row of card k. Both builders use it, the ePA one after its filter. |
| KonnektorGauges.CardRows | src/main/java/com/oviva/konnektor/watchdog/CardCheckGauges.java:28-56 | A failed connect or listing gives the empty sequence. Otherwise the row count equals the card count, and row k is the row of card k. |
| Cards.MapRowsAppend | src/main/java/com/oviva/konnektor/watchdog/CardCheckGauges.java:39-43 | Mapping preserves order: the rows of `a + b` are the rows of `a` followed by the rows of `b`. |
| KonnektorGauges.RowValuesAreGaugeValues | src/main/java/com/oviva/konnektor/watchdog/CardCheckGauges.java:93-109 | For every poll outcome, no row value is anything but 0.0 or 1.0. |
| KonnektorGauges.RowValueIff | src/main/java/com/oviva/konnektor/watchdog/CardCheckGauges.java:97-109 | Row k is 1.0 exactly when card k is verified and its row was built. It is 0.0 exactly when card k is not verified, its check failed, or its row factory threw. |
| KonnektorGauges.FailureStaysLocal | src/main/java/com/oviva/konnektor/watchdog/CardCheckGauges.java:93-109 | Changing one card's outcome, a failure included, changes that card's row only; no card is dropped. |
| UserAgents.Build | src/main/java/com/oviva/konnektor/watchdog/CardCheckGauges.java:72-82 | The title (or the package default) sanitised, then `/`, then the version (default `0.0.1`); the agent part is as long as the title. |
| UserAgents.BuildRoundTrip | src/main/java/com/oviva/epa/watchdog/CardCheckGauges.java:75-85 | The result contains `/`. Split at the first `/`, it gives back the sanitised title and the version. The agent is in `[A-Z0-9_]*`. |
| KonnektorGauges.DefaultUserAgent | src/main/java/com/oviva/konnektor/watchdog/CardCheckGauges.java:73-81 | With no title and no version, the user agent is `KONNEKTOR_WATCHDOG/0.0.1`. |
| KonnektorGauges.BuildService | src/main/java/com/oviva/konnektor/watchdog/CardCheckGauges.java:58-70 | The service gets the workplace, client-system, mandant and user identifiers from the configuration, and no user agent. |
| EpaGauges.CheckCard | src/main/java/com/oviva/epa/watchdog/CardCheckGauges.java:87-107 | The tags are exactly `holder` and `card_handle`, with no `telematik_id`. The value is 0.0 or 1.0. It is 1.0 exactly when the status is VERIFIED and the row factory did not throw. Any other status, or a `KonnektorException` from the query, gives 0.0. |
| EpaGauges.SmcbOnly | src/main/java/com/oviva/epa/watchdog/CardCheckGauges.java:41-42 | Keeps exactly the SMC-B cards of the listing and never adds a card. |
| EpaGauges.CardRows | src/main/java/com/oviva/epa/watchdog/CardCheckGauges.java:29-58 | A failed connect or `getCardsInfo` gives the empty sequence. Otherwise row k is the row of the k-th SMC-B card. |
| EpaGauges.SmcbOnlyAppend | src/main/java/com/oviva/epa/watchdog/CardCheckGauges.java:40-45 | The filter preserves relative order: it distributes over concatenation. |
| EpaGauges.SmcbCount | src/main/java/com/oviva/epa/watchdog/CardCheckGauges.java:41-42 | The filter keeps as many cards as there are SMC-B entries among the listed card types. |
| EpaGauges.RowCountIsSmcbCount | src/main/java/com/oviva/epa/watchdog/CardCheckGauges.java:40-45 | The row count equals the number of SMC-B entries among the listed card types. |
| EpaGauges.RowValuesAreGaugeValues | src/main/java/com/oviva/epa/watchdog/CardCheckGauges.java:93-105 | For every poll outcome, no row value is anything but 0.0 or 1.0. |
| EpaGauges.SmcbCardsHaveRows | src/main/java/com/oviva/epa/watchdog/CardCheckGauges.java:41-45 | Every listed SMC-B card has its row, and nothing but SMC-B cards is kept. |
| EpaGauges.DefaultUserAgent | src/main/java/com/oviva/epa/watchdog/CardCheckGauges.java:76-84 | With no title and no version, the user agent is `EPA_FM_WATCHDOG/0.0.1`. |
| EpaGauges.BuildService | src/main/java/com/oviva/epa/watchdog/CardCheckGauges.java:60-73 | The service gets the four identifiers from the configuration and the computed user agent. |
| Variants.VariantsAgree | src/main/java/com/oviva/epa/watchdog/CardCheckGauges.java:87-105 | On an all-SMC-B listing both builders give the same number of rows with the same values. The ePA tags are the konnektor tags without `telematik_id`. |
| UserAgents.Sanitise | src/main/java/com/oviva/konnektor/watchdog/CardCheckGauges.java:76-77 | Keeps the length and gives only `[A-Z0-9_]`. Each character whose upper case is in `[A-Z0-9]` becomes that upper case; every other character becomes `_`. |
| UserAgents.SanitiseIdempotent | src/main/java/com/oviva/epa/watchdog/CardCheckGauges.java:79-80 | Sanitising an agent again changes nothing. |
| UserAgents.SanitiseFixedPoint | src/main/java/com/oviva/epa/watchdog/CardCheckGauges.java:79-80 | A title is unchanged exactly when it is already in `[A-Z0-9_]*`. |
| UserAgents.Format | src/main/java/com/oviva/konnektor/watchdog/CardCheckGauges.java:81 | The agent occupies the first positions, then a single `/`, then the version, with nothing else. |
| UserAgents.Split | src/main/java/com/oviva/epa/watchdog/CardCheckGauges.java:84 | Inverse of the `agent/version` format: it splits at the first `/`. |
| UserAgents.SplitFormat | src/main/java/com/oviva/konnektor/watchdog/CardCheckGauges.java:72-82 | Round trip: splitting `agent/version` for a sanitised agent gives back agent and version. |
| Configuration.ValueOr | src/main/java/com/oviva/konnektor/watchdog/Main.java:188 | A present key gives its value; an absent key gives the default. |
| Configuration.MustLoad | src/main/java/com/oviva/konnektor/watchdog/Main.java:210-223 | Succeeds exactly when the key is present, giving its value. Otherwise it fails with `NotFound(key)`, whose message is `configuration for '<key>' not found`. |
| Configuration.IntOr | src/main/java/com/oviva/konnektor/watchdog/Main.java:180 | An absent key gives the default and a present key its parsed value. Unparseable text fails and names the key and the text. |
| Configuration.LoadKeys | src/main/java/com/oviva/konnektor/watchdog/Main.java:190-196 | Uses the configured path, or `./credentials.p12`, through `Path.of`. A keystore that fails to load names that path. It never yields the `not valid` error. |
| Configuration.LoadConfig | src/main/java/com/oviva/konnektor/watchdog/Main.java:177-208 | Fixed check order: `port`, then `konnektor.uri` (present, valid URI), then `proxy.address`, then `proxy.port`, then `Path.of` of the keystore path, then loading the keystore. The first check that fails decides the error (`NotANumber`, `NotFound`, `InvalidUri`, `NotFound`, `NotANumber`, `InvalidPath`, `KeystoreFailed`). `NotValid` never occurs. On success every field holds the configured value or its default (`0.0.0.0`, 8080, 3128, `0000`, `a`, `c`, `m`, `admin`), in its matching record field. |
| Configuration.LoadConfigSucceedsIff | src/main/java/com/oviva/epa/watchdog/Main.java:137-168 | A configuration results exactly when every check passes: port, URI, proxy address, proxy port and keystore. |
| Configuration.DefaultsWhenOnlyRequiredKeys | src/main/java/com/oviva/epa/watchdog/Main.java:137-168 | With only `konnektor.uri` and `proxy.address` set, the result is the record with proxy port 3128, identifiers a/m/c/admin, address `0.0.0.0` and port 8080. |
| Configuration.BothRequiredMissingNamesUri | src/main/java/com/oviva/epa/watchdog/Main.java:142-144 | With neither required key set, the error is `configuration for 'konnektor.uri' not found`. |
| Configuration.KeystoreFailureNamesPath | src/main/java/com/oviva/epa/watchdog/Main.java:198-215 | When every earlier check passes and the keystore fails, start-up stops with `failed to load keystore from: <path>`. |
| Configuration.CheckUri | src/main/java/com/oviva/konnektor/watchdog/Main.java:182 | Succeeds with the text exactly when `URI.create` accepts it; otherwise fails with `InvalidUri` naming the text. |
| Configuration.KeystorePath | src/main/java/com/oviva/konnektor/watchdog/Main.java:190-194 | The path is `Path.of` of the configured `credentials.path`, or of `./credentials.p12` when the key is absent. |
| Watchdog.KonnektorStatus | src/main/java/com/oviva/konnektor/watchdog/Main.java:107-119 | The value is 0 or 1; it is 1 exactly when `connect()` returns. |
| Watchdog.Setup | src/main/java/com/oviva/konnektor/watchdog/Main.java:136-137 | Set-up is minute 0 with exactly one registration, made at minute 0 with that minute's rows. |
| Watchdog.FiresAt | src/main/java/com/oviva/konnektor/watchdog/Main.java:143-154 | A register-once policy never fires; the konnektor policy fires exactly at the positive multiples of 3 minutes. |
| Watchdog.KonnektorRowsAt | src/main/java/com/oviva/konnektor/watchdog/Main.java:149-150 | A minute whose poll fails yields no rows; otherwise row k is the konnektor `CheckCard` row of the minute's k-th listed card, one row per card. |
| Watchdog.EpaRowsAt | src/main/java/com/oviva/epa/watchdog/Main.java:115 | A minute whose poll fails yields no rows; otherwise row k is the ePA `CheckCard` row of the minute's k-th listed SMC-B card, one row per SMC-B card. |
| Watchdog.Tick | src/main/java/com/oviva/konnektor/watchdog/Main.java:143-154 | One minute on: a fresh registration is appended exactly when the fixed-rate task fires. |
| Watchdog.StateAt | src/main/java/com/oviva/konnektor/watchdog/Main.java:131-155 | At every minute the first registration is the set-up one at minute 0. |
| Watchdog.KonnektorRegistrations | src/main/java/com/oviva/konnektor/watchdog/Main.java:131-155 | By minute t there are exactly t/3 + 1 registrations. Registration i is at minute 3i, with that minute's rows, so the first periodic run is at minute 3. |
| Watchdog.KonnektorLatestRegistration | src/main/java/com/oviva/konnektor/watchdog/Main.java:143-154 | At minute t, the builder registered last is the one from minute t - t mod 3. |
| Watchdog.KonnektorFailedRefresh | src/main/java/com/oviva/konnektor/watchdog/Main.java:147-151 | A periodic refresh whose poll fails registers a builder with no rows. |
| Watchdog.EpaRegistersOnce | src/main/java/com/oviva/epa/watchdog/Main.java:106-116 | The ePA watchdog registers exactly once, at set-up, whatever the time. |
| Watchdog.EpaRowsFromSetupPoll | src/main/java/com/oviva/epa/watchdog/Main.java:115 | The only rows the ePA watchdog hands over are those of the set-up poll. |

## Left out

- HTTP serving (`buildServer`, the `/health` handler, `MetricsHandler`, `run`, `awaitTermination`, `close`): socket and server plumbing.
- The metrics library: gauge registration, `overwrite`, when a registered row set is iterated or its values evaluated, and scrape rendering. A row's value is modelled as resolved from the card's PIN outcome when the row is built. The rows of a registration are those of the poll for that registration's minute.
- Tag order: tags are a map, because the library's tag ordering is not modelled.
- Threads of the scheduled executor and `shutdownNow`: only the minute schedule is modelled, not concurrency or a task overrunning its period.
- Keystore loading and key-manager set-up (`loadKeys`, `loadKeyStore`): a parameter that returns key material or fails.
- The device client (connection factory, service, `verifySmcPin`, `listSmcbCards`, `getCardsInfo`): its results are inputs (a `Poll` and each card's `Probe`).
- `Integer.parseInt`, `URI.create`, `Path.of`: parameters that may fail. The exception each one raises ends start-up, and the model names it as a `ConfigError`.
- The configuration provider reading environment variables: modelled as a key→value map.
- Exceptions other than the ones the code catches: `PinOutcome.Failed` stands for a `KonnektorException` only. A `ProcessingException` or other runtime exception from `verifySmcPin` or `pinVerified` escapes the value callback, and what the metrics library reports for it is not modelled. Other exceptions escaping the listing, such as a null holder name in the tag builder, are not modelled either; strings are never null here.
- Watchdog.KonnektorRegistrations: holds only while no refresh throws an exception that the builder does not catch, for example a null holder name in `Tags.of` or a client runtime exception that is neither a `KonnektorException` nor a `ProcessingException`. The first such exception in the periodic task ends every later run, as `scheduleAtFixedRate` does, so the rows are never refreshed again. At set-up the exception stops start-up before the schedule exists. The schedule lemmas (`Watchdog.KonnektorRegistrations`, `Watchdog.KonnektorLatestRegistration`, `Watchdog.EpaRegistersOnce`) and the "every 3 minutes" above assume no such exception.
- Logging and `LogConfigurator`: side effects only.
- `HealthHandler`: never wired in.
- KonnektorGauges.UserAgent: only ASCII titles, because root-locale upper-casing can change the length of non-ASCII text.
- EpaGauges.UserAgent: only ASCII titles, for the same reason.
- UserAgents.Build: only ASCII titles, for the same reason.
- UserAgents.Sanitise: only ASCII titles, because root-locale upper-casing can change a character outside ASCII (`ı` becomes `I`) or the length (`ß` becomes `SS`).
- EpaGauges.BuildService: only ASCII titles, because it calls `EpaGauges.UserAgent`.
