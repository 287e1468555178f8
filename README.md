# erxes launcher and dashboard dimension resolver

This project models two pieces of erxes.

**The launch sequence of the erxes command-line tool** (`cli/commands/utils.js`):
- `startBackendServices(configs)` builds one environment per backend service and starts seven services under pm2, in a fixed order:
  1. main api
  2. cron jobs
  3. workers
  4. integrations
  5. engages
  6. logger
  7. email verifier

  The environments are built from:
  - a shared `commonEnv`;
  - an optional broker and cache block, `optionalDbConfigs`;
  - per-service override blocks (`API`, `INTEGRATIONS`, …).

  When `ELK_SYNCER` is truthy, it then installs the Python requirements of the search-index syncer and starts it.
- `startUI(configs)`:
  1. Honours the `UI.disableServe` switch.
  2. Derives the websocket subscription URL from `API_DOMAIN`.
  3. Writes the UI bundle's runtime configuration file, `build/ui/js/env.js`.
  4. Serves the UI.
  5. Starts the widgets bundle under pm2.

**The dimension resolver of the dashboard API** (`dashboard-api/controller/controller.js`). `resolver(data, dimensions)` finds the resolver table entry for a dimension. It then rewrites each report row's dimension value, an identifier, in place:
- a falsy value becomes `'unknown'`;
- any other value is replaced by the matching field of the document the search cluster returns for it, or by `'unknown'` when that field is falsy;
- on a failed lookup the value is left as it is.

A memo list, `foundedValue`, means an identifier whose lookup succeeded is not looked up again.

Layout:
- `Js.dfy` (module `Js`): the JavaScript value semantics the code relies on. It covers `undefined`/`null`, booleans, integral numbers, strings, truthiness, `v || w`, template rendering, `Array.prototype.find`, and `String.prototype.includes` with a reference definition of it.
- `launcher_env.dfy` (module `LauncherEnv`): the configuration and every environment object the launcher composes. Spread layering `{...a, ...b}` is map union `a + b`, so the right-hand layer wins.
- `launcher_plan.dfy` (module `LauncherPlan`): the effects as a sequence of steps (log line, command launch, file write). Three parts:
  - plan functions for both entry points;
  - lemmas about the order and content of the plans;
  - a `Launcher` class whose methods perform the steps by appending them to its record. Each method is proved to produce exactly the plan.
- `resolver.dfy` (module `DimensionResolver`): `Resolve`, an imperative loop over an `array` of rows with the memo list as a local. It is proved against the per-row function `ResolveRecord` and three more specifications:
  - `Lookups`, the sequence of identifiers looked up;
  - `CacheSound`, meaning each memo entry holds its identifier's display value;
  - `CacheCovers`, meaning the memo list holds exactly the successful identifiers.

The subscription URL keeps the domain's own scheme. It is `wss//` or `ws//`, then `API_DOMAIN` verbatim, then `/subscriptions`, so `https://api.x` gives `wss//https://api.x/subscriptions` (`cli/commands/utils.js:197`, `LauncherPlan.ExampleSubscriptionUrl`).

## Model

| member | source | states |
|---|---|---|
| Js.Find | dashboard-api/controller/controller.js:21-23 | `find` gives nothing iff no element satisfies the predicate; otherwise it gives an element that satisfies it, and no earlier element does |
| Js.IncludesIff | cli/commands/utils.js:197 | `includes` holds iff the searched text occurs at some position (reference definition `OccursAt`) |
| Js.IncludesExtend | cli/commands/utils.js:199-206 | helper fact about the `includes` reference (none of these lines calls `includes`): appending text to a string keeps every substring it already includes; it is used to show what the env.js text contains |
| LauncherEnv.OptionalDbConfigs | cli/commands/utils.js:68-78 | the optional block holds only broker/cache keys; `RABBITMQ_HOST` is present iff the broker host is truthy; the three cache keys are present iff the cache host is truthy, and carry the configured values, `undefined` included |
| LauncherEnv.BuildOptionalDbConfigs | cli/commands/utils.js:68-78 | building the block by conditional assignments to an empty object gives exactly `OptionalDbConfigs` |
| LauncherEnv.CommonEnvLayers | cli/commands/utils.js:80-88 | `commonEnv` has the literal keys plus the `API` block's keys; the `API` block wins on every key; otherwise the MongoDB locator is `${MONGO_URL || ''}/erxes` and the JWT secret is the configured one when truthy, `''` otherwise |
| LauncherEnv.ApiEnvLayers | cli/commands/utils.js:90-98 | main api: `DEBUG` is always `erxes-api:*`; broker/cache keys come from the optional block; other `API` keys are passed on; the default MongoDB locator stays unless overridden |
| LauncherEnv.CronsEnvFixed | cli/commands/utils.js:100-109 | cron jobs: `DEBUG` is always `erxes-crons:*` and `PROCESS_NAME` is always `crons`; the MongoDB locator is the main one unless the `API` block overrides it |
| LauncherEnv.CronsEnvLayers | cli/commands/utils.js:100-109 | cron jobs: optional-block keys win over the `API` block, which wins for all keys except `DEBUG` and `PROCESS_NAME` |
| LauncherEnv.WorkersEnvLayers | cli/commands/utils.js:111-119 | workers: as the main api, with `DEBUG` fixed to `erxes-workers:*` |
| LauncherEnv.IntegrationsEnvLayers | cli/commands/utils.js:121-134 | integrations: the `INTEGRATIONS` block wins over everything; the optional block wins over the literal keys; the defaults are `/erxes_integrations` and `erxes-integrations:*` |
| LauncherEnv.EngagesEnvLayers | cli/commands/utils.js:136-148 | engages: the `ENGAGES` block wins over everything; the optional block wins over the literal keys; the defaults are `/erxes_engages` and `erxes-engages:*` |
| LauncherEnv.LoggerEnvLayers | cli/commands/utils.js:150-162 | logger: the `LOGGER` block wins over everything; the optional block wins over the literal keys; the defaults are `/erxes_logger` and `erxes-logs:*` |
| LauncherEnv.EmailVerifierEnvLayers | cli/commands/utils.js:164-173 | email verifier: a broker/cache key is present iff its own block supplies it; the block wins; the defaults are `/erxes_email_verifier` and `erxes-email-verifier:*` |
| LauncherEnv.EmailVerifierIgnoresOptional | cli/commands/utils.js:164-173 | the email verifier's environment does not depend on the broker or cache settings |
| LauncherEnv.WidgetsEnvLayers | cli/commands/utils.js:212-220 | widgets: the keys are the `WIDGETS` block's plus four fixed ones (`NODE_ENV`, `ROOT_URL`, `API_URL`, `API_SUBSCRIPTIONS_URL`); the fixed ones win, and the block's other keys pass through |
| LauncherEnv.SubscriptionScheme | cli/commands/utils.js:197 | the URL is `wss//<domain>/subscriptions` iff the domain contains `https` somewhere, and `ws//<domain>/subscriptions` iff it does not |
| LauncherEnv.ApiEnvKeys | cli/commands/utils.js:80-98 | main api: the keys are exactly those of `commonEnv`'s literals, the `API` block, the optional block and `DEBUG` (none is dropped); a literal (`NODE_ENV`, JWT secret, domains, locator) that neither the `API` block nor `DEBUG` names keeps its literal value |
| LauncherEnv.CronsEnvKeys | cli/commands/utils.js:80-109 | cron jobs: the same key set plus `PROCESS_NAME`; a literal that neither the `API` block, `PROCESS_NAME` nor `DEBUG` names keeps its literal value |
| LauncherEnv.WorkersEnvKeys | cli/commands/utils.js:80-119 | workers: as the main api |
| LauncherEnv.IntegrationsEnvKeys | cli/commands/utils.js:121-134 | integrations: the keys are exactly its literals, the optional block's and the `INTEGRATIONS` block's; a literal (`NODE_ENV`, `DOMAIN` = `INTEGRATIONS_API_DOMAIN`, `MAIN_APP_DOMAIN`, `MAIN_API_DOMAIN` = `API_DOMAIN`, …) its block does not name keeps its literal value |
| LauncherEnv.EngagesEnvKeys | cli/commands/utils.js:136-148 | engages: the same with its literals and the `ENGAGES` block |
| LauncherEnv.LoggerEnvKeys | cli/commands/utils.js:150-162 | logger: the same with its literals and the `LOGGER` block |
| LauncherEnv.EmailVerifierEnvKeys | cli/commands/utils.js:164-173 | email verifier: the keys are exactly its literals and the `EMAIL_VERIFIER` block's; a literal its block does not name keeps its literal value |
| LauncherEnv.OptionalKeysApi | cli/commands/utils.js:68-98 | for every configuration and every broker/cache key: it is in `commonEnv` iff the `API` block has it, and in the main api's and the workers' environments iff the optional block or the `API` block has it |
| LauncherEnv.OptionalKeysCrons | cli/commands/utils.js:100-109 | the same per-key statement for the cron jobs |
| LauncherEnv.OptionalKeysGateways | cli/commands/utils.js:121-162 | for every configuration and every broker/cache key: it is in the integrations', engages' and logger's environments iff the optional block or that service's own block has it |
| LauncherEnv.NoOptionalInfrastructureApi | cli/commands/utils.js:68-119 | with no broker and no cache host, a broker/cache key is in the main api's, the cron jobs' and the workers' environments iff the `API` block supplies it |
| LauncherEnv.NoOptionalInfrastructureGateways | cli/commands/utils.js:68-162 | the same for integrations, engages and logger, with each service's own block |
| LauncherEnv.ElkSyncerEnv | cli/commands/utils.js:178-183 | the syncer's environment has exactly `MONGO_URL` and `ELASTICSEARCH_URL`, both the configured values verbatim (no database suffix) |
| LauncherEnv.MongoLocatorShape | cli/commands/utils.js:83 | the locator of each service (the configured base or the empty string, then the service's database suffix) always ends with the suffix; it is the bare suffix when the base is falsy, and the base followed by the suffix otherwise (the same shape at lines 130, 144, 158 and 170) |
| LauncherPlan.BackendLaunchOrder | cli/commands/utils.js:49-184 | the launches are: seven `pm2 start <entry>` runs in the fixed order, each with its own environment; then the syncer's `pip install` and `pm2 start main.py --interpreter /usr/bin/python3`, exactly when `ELK_SYNCER` is truthy |
| LauncherPlan.UiDisabledGate | cli/commands/utils.js:187-192 | serving is disabled iff `startUI` ends without error having only logged; it then logs exactly the yellow warning |
| LauncherPlan.UiLaunchGate | cli/commands/utils.js:187-212 | the configuration file is written iff serving is enabled and `API_DOMAIN` is a string; anything is launched iff, in addition, the write succeeds |
| LauncherPlan.UiOrder | cli/commands/utils.js:199-220 | on success there are five steps: the write of `build/ui/js/env.js`, then `serve`, then the widgets launch, and those two are the only launches |
| LauncherPlan.EnvJsMentions | cli/commands/utils.js:199-206 | the configuration file contains `NODE_ENV: "production"` and the quoted API URL, subscription URL and CDN host entries |
| LauncherPlan.SharedSubscriptionUrl | cli/commands/utils.js:197-219 | the UI file and the widgets' `API_SUBSCRIPTIONS_URL` carry the same subscription URL |
| LauncherPlan.ExampleLaunchCount | cli/commands/utils.js:49-220 | for a sample configuration without syncer and with serving enabled, nine commands are launched in all |
| LauncherPlan.ExampleSubscriptionUrl | cli/commands/utils.js:197 | `https://api.x` gives `wss//https://api.x/subscriptions` |
| LauncherPlan.ZeroSyncerIsSkipped | cli/commands/utils.js:175 | an `ELK_SYNCER` of `0` is falsy, so only the seven services are launched |
| LauncherPlan.Launcher.LogLine | cli/commands/utils.js:17-19 | a log appends exactly one log step |
| LauncherPlan.Launcher.RunCommand | cli/commands/utils.js:45-47 | a launch appends exactly one run step with its command, arguments and environment |
| LauncherPlan.Launcher.WriteFile | cli/commands/utils.js:199 | a file write appends exactly one write step with its path and content |
| LauncherPlan.Launcher.StartBackendServices | cli/commands/utils.js:49-184 | the steps performed are exactly `BackendPlan` |
| LauncherPlan.Launcher.StartUI | cli/commands/utils.js:187-221 | the steps performed and the way it ends are exactly `UiPlan` |
| DimensionResolver.ResolverFor | dashboard-api/controller/controller.js:16-18 | there is no resolver iff no table entry has the dimension's name; otherwise it is the first such entry |
| DimensionResolver.Fetch | dashboard-api/controller/controller.js:29-44 | the lookup succeeds iff `get` resolves with a `_source`; a success is always truthy, and is the document's field when that is truthy, `'unknown'` otherwise |
| DimensionResolver.ResolveRecord | dashboard-api/controller/controller.js:25-47 | no other field changes; a falsy value becomes `'unknown'`; a failed lookup leaves the row unchanged; otherwise the value is the fetched one; afterwards the dimension is always truthy |
| DimensionResolver.Lookups | dashboard-api/controller/controller.js:20-38 | every looked-up identifier is truthy and is a dimension value of some row |
| DimensionResolver.LookedUpOnce | dashboard-api/controller/controller.js:20-38 | an identifier whose lookup succeeds is looked up exactly once if it is truthy and some row has it, and never otherwise (a falsy value is never looked up), however many rows repeat it |
| DimensionResolver.LookedUpEachTime | dashboard-api/controller/controller.js:28-44 | a truthy identifier whose lookup fails is looked up again for every row that has it |
| DimensionResolver.ZeroIsUnknown | dashboard-api/controller/controller.js:28-46 | a dimension value of `0` is falsy: the row gets `'unknown'` and nothing is looked up |
| DimensionResolver.VisitRow | dashboard-api/controller/controller.js:21-47 | one loop turn: the row becomes `ResolveRecord` of it, the memo list grows as `Remember` says, and the index is asked iff the value is truthy and not remembered |
| DimensionResolver.Resolve | dashboard-api/controller/controller.js:15-55 | returns the same array. With no resolver, nothing changes and nothing is looked up. Otherwise: every row becomes `ResolveRecord` of its old self; the lookups are exactly `Lookups` of the old rows; the memo list is sound and covers exactly the successful identifiers; every row whose old value is remembered holds the remembered display value |

## Left out

- `downloadLatesVersion` (`cli/commands/utils.js:25-43`): copying and extracting an archive is file-system I/O only, with no logic to model.
- Process spawning: `execa`, pm2 and `serve` are not run. `runCommand` is recorded as a step with its command, arguments and environment. Piping to stdout and chalk's colouring are left out (the colour is kept as a tag).
- The file write: the outcome of `fs.promises.writeFile` is a parameter (`writeOk`). A failed write ends `startUI` with `WriteFailed`.
- `filePath`: `process.cwd()` is an explicit `cwd`. `path.resolve` normalisation (`..`, duplicate slashes, absolute names) is not modelled; a path is `cwd + "/" + name`.
- Environment handling: Node dropping `undefined` values from a child's environment is not modelled; such a key stays in the model's object with value `undefined`. Children inheriting `process.env` is not modelled either.
- Key insertion order of JavaScript objects is not modelled (objects are maps).
- Numbers are integers only (`Num`): they are truthy iff non-zero, `===` compares them by value and never equals a string, and `${n}` renders them in decimal. Fractional numbers, `NaN`, `-0`, and the exponent form JavaScript uses to render integers of 10^21 or more are not modelled.
- Asynchrony: the un-awaited launches and the awaited lookups are modelled as happening in program order; interleavings are not.
- The Elasticsearch client is a deterministic function of index and identifier during one call. The Cube.js client and `generateReport` (`dashboard-api/controller/controller.js:57-83`) are not part of this model.
- `constants.js`, the resolver table, is not part of this model. The table is a parameter of `Resolve`.
- The calling command that invokes `startBackendServices` and `startUI` is not part of this model.
- DimensionResolver.Resolve: rows are values in the array, so one row object appearing twice in `data` (aliasing) is not modelled.
- `console.log(e)` in the resolver's `catch` is left out; the row is left unchanged.
- Configuration values of other shapes are not modelled:
  - a truthy non-object `configs.UI`, or an override block that is not an object;
  - an `API_DOMAIN` that is an array, which also has `includes` (any non-string domain ends `startUI` with `ApiDomainNotString`);
  - a `_source` that is a non-object value (it is either present as an object or missing).
