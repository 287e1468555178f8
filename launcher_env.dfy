/**
 * Environment composition for the services that the erxes command-line
 * tool starts (cli/commands/utils.js). Every environment is a JavaScript
 * object literal built by spreading layers in order; `m1 + m2` is
 * `{...m1, ...m2}`: the later layer wins on a shared key.
 */
module LauncherEnv {
  import opened Js

  /** The `UI` block of the configuration (`configs.UI || {}`). */
  datatype UiConfig = UiConfig(disableServe: Value, port: Value)

  /** The unified configuration object. Scalar fields are whatever the
      configuration holds (possibly `undefined`); a per-service override block
      that is absent is the empty object, as `configs.X || {}` makes it. */
  datatype Config = Config(
    jwtTokenSecret: Value,
    domain: Value,
    apiDomain: Value,
    widgetsDomain: Value,
    integrationsApiDomain: Value,
    mongoUrl: Value,
    elasticsearchUrl: Value,
    elkSyncer: Value,
    rabbitmqHost: Value,
    redisHost: Value,
    redisPort: Value,
    redisPassword: Value,
    api: Object,
    integrations: Object,
    engages: Object,
    logger: Object,
    emailVerifier: Object,
    widgets: Object,
    ui: UiConfig)

  const RedisKeys: set<string> := {"REDIS_HOST", "REDIS_PORT", "REDIS_PASSWORD"}
  const OptionalKeys: set<string> := {"RABBITMQ_HOST"} + RedisKeys

  /** Every key that some backend environment sets to a fixed value. */
  const FixedKeys: set<string> :=
    {"NODE_ENV", "DEBUG", "JWT_TOKEN_SECRET", "MONGO_URL", "MAIN_APP_DOMAIN", "WIDGETS_DOMAIN",
     "INTEGRATIONS_API_DOMAIN", "PROCESS_NAME", "DOMAIN", "MAIN_API_DOMAIN"}

  lemma OptionalKeysAreNotFixed()
    ensures OptionalKeys !! FixedKeys
  {
  }

  /** Suffixes of the per-service MongoDB locators. */
  const ApiDb := "/erxes"
  const IntegrationsDb := "/erxes_integrations"
  const EngagesDb := "/erxes_engages"
  const LoggerDb := "/erxes_logger"
  const EmailVerifierDb := "/erxes_email_verifier"

  /** The optional infrastructure block: the message broker's host when it is
      configured, and all three cache parameters when the cache host is. */
  function OptionalDbConfigs(c: Config): (r: Object)
    ensures r.Keys <= OptionalKeys
    ensures "RABBITMQ_HOST" in r <==> Truthy(c.rabbitmqHost)
    ensures "RABBITMQ_HOST" in r ==> r["RABBITMQ_HOST"] == c.rabbitmqHost
    ensures forall k :: k in RedisKeys ==> (k in r <==> Truthy(c.redisHost))
    ensures Truthy(c.redisHost) ==>
              r["REDIS_HOST"] == c.redisHost && r["REDIS_PORT"] == c.redisPort &&
              r["REDIS_PASSWORD"] == c.redisPassword
  {
    var broker: Object := if Truthy(c.rabbitmqHost) then map["RABBITMQ_HOST" := c.rabbitmqHost] else map[];
    if Truthy(c.redisHost) then
      broker["REDIS_HOST" := c.redisHost]["REDIS_PORT" := c.redisPort]["REDIS_PASSWORD" := c.redisPassword]
    else broker
  }

  /** `optionalDbConfigs` as the launcher builds it: an empty object that
      receives the broker key and then the three cache keys, each group only
      when its host is truthy. */
  method BuildOptionalDbConfigs(c: Config) returns (r: Object)
    ensures r == OptionalDbConfigs(c)
  {
    r := map[];
    if Truthy(c.rabbitmqHost) {
      r := r["RABBITMQ_HOST" := c.rabbitmqHost];
    }
    if Truthy(c.redisHost) {
      r := r["REDIS_HOST" := c.redisHost];
      r := r["REDIS_PORT" := c.redisPort];
      r := r["REDIS_PASSWORD" := c.redisPassword];
    }
  }

  /** `${MONGO_URL || ''}<suffix>`. */
  function MongoLocator(base: Value, suffix: string): string
  {
    Template(Or(base, Str(""))) + suffix
  }

  /** The suffix is always there, after an empty base when none is
      configured, and after the configured base otherwise. */
  lemma MongoLocatorShape(base: Value, suffix: string)
    ensures var r := MongoLocator(base, suffix);
            && |r| >= |suffix| && r[|r| - |suffix|..] == suffix
            && (!Truthy(base) ==> r == suffix)
            && (Truthy(base) ==> r == Template(base) + suffix)
  {
  }

  /** The literal keys of `commonEnv`, before the `API` block. */
  function CommonBase(c: Config): Object
  {
    map["NODE_ENV" := Str("production"),
        "JWT_TOKEN_SECRET" := Or(c.jwtTokenSecret, Str("")),
        "MONGO_URL" := Str(MongoLocator(c.mongoUrl, ApiDb)),
        "MAIN_APP_DOMAIN" := c.domain,
        "WIDGETS_DOMAIN" := c.widgetsDomain,
        "INTEGRATIONS_API_DOMAIN" := c.integrationsApiDomain]
  }

  /** `commonEnv`: shared by the main api, the cron jobs and the workers,
      with the `API` override block spread last. */
  function CommonEnv(c: Config): Object
  {
    CommonBase(c) + c.api
  }

  /** The main api: `{...commonEnv, ...optionalDbConfigs, DEBUG}`. */
  function ApiEnv(c: Config): Object
  {
    CommonEnv(c) + OptionalDbConfigs(c) + map["DEBUG" := Str("erxes-api:*")]
  }

  /** The cron jobs: a process name between `commonEnv` and the optional
      block. */
  function CronsEnv(c: Config): Object
  {
    CommonEnv(c) + map["PROCESS_NAME" := Str("crons")] + OptionalDbConfigs(c) + map["DEBUG" := Str("erxes-crons:*")]
  }

  /** The workers. */
  function WorkersEnv(c: Config): Object
  {
    CommonEnv(c) + OptionalDbConfigs(c) + map["DEBUG" := Str("erxes-workers:*")]
  }

  /** The literal keys shared by integrations, engages and logger. */
  function GatewayBase(c: Config, debug: string, suffix: string): Object
  {
    map["NODE_ENV" := Str("production"),
        "DEBUG" := Str(debug),
        "DOMAIN" := c.integrationsApiDomain,
        "MAIN_API_DOMAIN" := c.apiDomain,
        "MONGO_URL" := Str(MongoLocator(c.mongoUrl, suffix))]
  }

  /** Integrations also name the main app's domain. */
  function IntegrationsBase(c: Config): Object
  {
    GatewayBase(c, "erxes-integrations:*", IntegrationsDb)["MAIN_APP_DOMAIN" := c.domain]
  }

  /** The integrations gateway: its `INTEGRATIONS` block is spread last. */
  function IntegrationsEnv(c: Config): Object
  {
    IntegrationsBase(c) + OptionalDbConfigs(c) + c.integrations
  }

  /** The engagement (campaign) service: its `ENGAGES` block is spread last. */
  function EngagesEnv(c: Config): Object
  {
    GatewayBase(c, "erxes-engages:*", EngagesDb) + OptionalDbConfigs(c) + c.engages
  }

  /** The logging service: its `LOGGER` block is spread last. */
  function LoggerEnv(c: Config): Object
  {
    GatewayBase(c, "erxes-logs:*", LoggerDb) + OptionalDbConfigs(c) + c.logger
  }

  /** The literal keys of the email verifier. */
  function EmailVerifierBase(c: Config): Object
  {
    map["NODE_ENV" := Str("production"),
        "DEBUG" := Str("erxes-email-verifier:*"),
        "MONGO_URL" := Str(MongoLocator(c.mongoUrl, EmailVerifierDb))]
  }

  /** The email verifier: no optional block, its `EMAIL_VERIFIER` block last. */
  function EmailVerifierEnv(c: Config): Object
  {
    EmailVerifierBase(c) + c.emailVerifier
  }

  /** The search-index syncer: the base MongoDB and Elasticsearch URLs,
      verbatim and without a suffix, and nothing else. */
  function ElkSyncerEnv(c: Config): (env: Object)
    ensures env.Keys == {"MONGO_URL", "ELASTICSEARCH_URL"}
    ensures env["MONGO_URL"] == c.mongoUrl && env["ELASTICSEARCH_URL"] == c.elasticsearchUrl
  {
    map["MONGO_URL" := c.mongoUrl, "ELASTICSEARCH_URL" := c.elasticsearchUrl]
  }

  const WidgetsFixedKeys: set<string> := {"NODE_ENV", "ROOT_URL", "API_URL", "API_SUBSCRIPTIONS_URL"}

  /** The fixed keys of the widgets bundle. */
  function WidgetsFixed(c: Config, apiDomain: string, subscriptionsUrl: string): Object
  {
    map["NODE_ENV" := Str("production"),
        "ROOT_URL" := c.widgetsDomain,
        "API_URL" := Str(apiDomain),
        "API_SUBSCRIPTIONS_URL" := Str(subscriptionsUrl)]
  }

  /** The widgets bundle: here the `WIDGETS` block is spread FIRST. */
  function WidgetsEnv(c: Config, apiDomain: string, subscriptionsUrl: string): Object
  {
    c.widgets + WidgetsFixed(c, apiDomain, subscriptionsUrl)
  }

  /** The websocket subscription URL derived from the API domain: `wss` when
      the domain contains "https", else `ws`, then `//`, the domain verbatim
      and `/subscriptions` (no colon, and the domain's scheme is kept). */
  function SubscriptionsUrl(apiDomain: string): string
  {
    (if Includes(apiDomain, "https") then "wss" else "ws") + "//" + apiDomain + "/subscriptions"
  }

  // ---- Layering facts, proved once for abstract layers ----

  /** In `{...a, ...b}`: `b` wins, `a` fills in the rest. */
  lemma TwoLayers(a: Object, b: Object)
    ensures (a + b).Keys == a.Keys + b.Keys
    ensures forall k :: k in b ==> (a + b)[k] == b[k]
    ensures forall k :: k in a && k !in b ==> (a + b)[k] == a[k]
  {
  }

  /** In `{...a, ...b, ...d}`: each key takes the value of the last layer
      that has it. */
  lemma ThreeLayers(a: Object, b: Object, d: Object)
    ensures forall k :: k in a + b + d <==> k in a || k in b || k in d
    ensures forall k :: k in d ==> (a + b + d)[k] == d[k]
    ensures forall k :: k in b && k !in d ==> (a + b + d)[k] == b[k]
    ensures forall k :: k in a && k !in b && k !in d ==> (a + b + d)[k] == a[k]
  {
  }

  /** In `{...a, ...b, ...d, ...e}`. */
  lemma FourLayers(a: Object, b: Object, d: Object, e: Object)
    ensures forall k :: k in a + b + d + e <==> k in a || k in b || k in d || k in e
    ensures forall k :: k in e ==> (a + b + d + e)[k] == e[k]
    ensures forall k :: k in d && k !in e ==> (a + b + d + e)[k] == d[k]
    ensures forall k :: k in b && k !in d && k !in e ==> (a + b + d + e)[k] == b[k]
    ensures forall k :: k in a && k !in b && k !in d && k !in e ==> (a + b + d + e)[k] == a[k]
  {
  }

  // ---- What each service's environment holds ----

  /** `commonEnv`: the `API` block overrides every literal key. */
  lemma CommonEnvLayers(c: Config)
    ensures CommonEnv(c).Keys == CommonBase(c).Keys + c.api.Keys
    ensures forall k :: k in c.api ==> CommonEnv(c)[k] == c.api[k]
    ensures "MONGO_URL" !in c.api ==> CommonEnv(c)["MONGO_URL"] == Str(MongoLocator(c.mongoUrl, ApiDb))
    ensures "JWT_TOKEN_SECRET" !in c.api && Truthy(c.jwtTokenSecret) ==> CommonEnv(c)["JWT_TOKEN_SECRET"] == c.jwtTokenSecret
    ensures "JWT_TOKEN_SECRET" !in c.api && !Truthy(c.jwtTokenSecret) ==> CommonEnv(c)["JWT_TOKEN_SECRET"] == Str("")
  {
    TwoLayers(CommonBase(c), c.api);
  }

  /** The main api: `DEBUG` is always `erxes-api:*`; the optional block
      overrides the `API` block; the `API` block overrides the literal keys. */
  lemma ApiEnvLayers(c: Config)
    ensures "DEBUG" in ApiEnv(c) && ApiEnv(c)["DEBUG"] == Str("erxes-api:*")
    ensures forall k :: k in OptionalDbConfigs(c) ==> k in ApiEnv(c) && ApiEnv(c)[k] == OptionalDbConfigs(c)[k]
    ensures forall k :: k in c.api && k !in OptionalDbConfigs(c) && k != "DEBUG" ==>
              k in ApiEnv(c) && ApiEnv(c)[k] == c.api[k]
    ensures "MONGO_URL" !in c.api ==>
              "MONGO_URL" in ApiEnv(c) && ApiEnv(c)["MONGO_URL"] == Str(MongoLocator(c.mongoUrl, ApiDb))
  {
    var opt := OptionalDbConfigs(c);
    OptionalKeysAreNotFixed();
    assert "DEBUG" !in opt && "MONGO_URL" !in opt;
    CommonEnvLayers(c);
    ThreeLayers(CommonEnv(c), opt, map["DEBUG" := Str("erxes-api:*")]);
  }

  /** The cron jobs: `DEBUG` and `PROCESS_NAME` are fixed, and the MongoDB
      locator is the main one unless the `API` block overrides it. */
  lemma CronsEnvFixed(c: Config)
    ensures "DEBUG" in CronsEnv(c) && CronsEnv(c)["DEBUG"] == Str("erxes-crons:*")
    ensures "PROCESS_NAME" in CronsEnv(c) && CronsEnv(c)["PROCESS_NAME"] == Str("crons")
    ensures "MONGO_URL" !in c.api ==>
              "MONGO_URL" in CronsEnv(c) && CronsEnv(c)["MONGO_URL"] == Str(MongoLocator(c.mongoUrl, ApiDb))
  {
    var opt := OptionalDbConfigs(c);
    OptionalKeysAreNotFixed();
    assert "PROCESS_NAME" !in opt && "MONGO_URL" !in opt;
    CommonEnvLayers(c);
    FourLayers(CommonEnv(c), map["PROCESS_NAME" := Str("crons")], opt, map["DEBUG" := Str("erxes-crons:*")]);
  }

  /** The cron jobs: the optional block overrides the `API` block, which
      overrides the literal keys of `commonEnv`. */
  lemma CronsEnvLayers(c: Config)
    ensures forall k :: k in OptionalDbConfigs(c) ==> k in CronsEnv(c) && CronsEnv(c)[k] == OptionalDbConfigs(c)[k]
    ensures forall k :: k in c.api && k !in OptionalDbConfigs(c) && k != "DEBUG" && k != "PROCESS_NAME" ==>
              k in CronsEnv(c) && CronsEnv(c)[k] == c.api[k]
  {
    var opt := OptionalDbConfigs(c);
    OptionalKeysAreNotFixed();
    assert "DEBUG" !in opt && "PROCESS_NAME" !in opt;
    CommonEnvLayers(c);
    FourLayers(CommonEnv(c), map["PROCESS_NAME" := Str("crons")], opt, map["DEBUG" := Str("erxes-crons:*")]);
  }

  /** The workers: as the main api, with their own `DEBUG`. */
  lemma WorkersEnvLayers(c: Config)
    ensures "DEBUG" in WorkersEnv(c) && WorkersEnv(c)["DEBUG"] == Str("erxes-workers:*")
    ensures forall k :: k in OptionalDbConfigs(c) ==> k in WorkersEnv(c) && WorkersEnv(c)[k] == OptionalDbConfigs(c)[k]
    ensures forall k :: k in c.api && k !in OptionalDbConfigs(c) && k != "DEBUG" ==>
              k in WorkersEnv(c) && WorkersEnv(c)[k] == c.api[k]
    ensures "MONGO_URL" !in c.api ==>
              "MONGO_URL" in WorkersEnv(c) && WorkersEnv(c)["MONGO_URL"] == Str(MongoLocator(c.mongoUrl, ApiDb))
  {
    var opt := OptionalDbConfigs(c);
    OptionalKeysAreNotFixed();
    assert "DEBUG" !in opt && "MONGO_URL" !in opt;
    CommonEnvLayers(c);
    ThreeLayers(CommonEnv(c), opt, map["DEBUG" := Str("erxes-workers:*")]);
  }

  /** Integrations: the `INTEGRATIONS` block wins over everything, the
      optional block over the literal keys. */
  lemma IntegrationsEnvLayers(c: Config)
    ensures forall k :: k in c.integrations ==> k in IntegrationsEnv(c) && IntegrationsEnv(c)[k] == c.integrations[k]
    ensures forall k :: k in OptionalDbConfigs(c) && k !in c.integrations ==>
              k in IntegrationsEnv(c) && IntegrationsEnv(c)[k] == OptionalDbConfigs(c)[k]
    ensures "MONGO_URL" !in c.integrations ==>
              "MONGO_URL" in IntegrationsEnv(c) && IntegrationsEnv(c)["MONGO_URL"] == Str(MongoLocator(c.mongoUrl, IntegrationsDb))
    ensures "DEBUG" !in c.integrations ==>
              "DEBUG" in IntegrationsEnv(c) && IntegrationsEnv(c)["DEBUG"] == Str("erxes-integrations:*")
  {
    var opt := OptionalDbConfigs(c);
    OptionalKeysAreNotFixed();
    assert "DEBUG" !in opt && "MONGO_URL" !in opt;
    ThreeLayers(IntegrationsBase(c), opt, c.integrations);
  }

  /** Engages: the `ENGAGES` block wins over everything, the optional block
      over the literal keys. */
  lemma EngagesEnvLayers(c: Config)
    ensures forall k :: k in c.engages ==> k in EngagesEnv(c) && EngagesEnv(c)[k] == c.engages[k]
    ensures forall k :: k in OptionalDbConfigs(c) && k !in c.engages ==>
              k in EngagesEnv(c) && EngagesEnv(c)[k] == OptionalDbConfigs(c)[k]
    ensures "MONGO_URL" !in c.engages ==>
              "MONGO_URL" in EngagesEnv(c) && EngagesEnv(c)["MONGO_URL"] == Str(MongoLocator(c.mongoUrl, EngagesDb))
    ensures "DEBUG" !in c.engages ==>
              "DEBUG" in EngagesEnv(c) && EngagesEnv(c)["DEBUG"] == Str("erxes-engages:*")
  {
    var opt := OptionalDbConfigs(c);
    OptionalKeysAreNotFixed();
    assert "DEBUG" !in opt && "MONGO_URL" !in opt;
    ThreeLayers(GatewayBase(c, "erxes-engages:*", EngagesDb), opt, c.engages);
  }

  /** Logger: the `LOGGER` block wins over everything, the optional block
      over the literal keys. */
  lemma LoggerEnvLayers(c: Config)
    ensures forall k :: k in c.logger ==> k in LoggerEnv(c) && LoggerEnv(c)[k] == c.logger[k]
    ensures forall k :: k in OptionalDbConfigs(c) && k !in c.logger ==>
              k in LoggerEnv(c) && LoggerEnv(c)[k] == OptionalDbConfigs(c)[k]
    ensures "MONGO_URL" !in c.logger ==>
              "MONGO_URL" in LoggerEnv(c) && LoggerEnv(c)["MONGO_URL"] == Str(MongoLocator(c.mongoUrl, LoggerDb))
    ensures "DEBUG" !in c.logger ==>
              "DEBUG" in LoggerEnv(c) && LoggerEnv(c)["DEBUG"] == Str("erxes-logs:*")
  {
    var opt := OptionalDbConfigs(c);
    OptionalKeysAreNotFixed();
    assert "DEBUG" !in opt && "MONGO_URL" !in opt;
    ThreeLayers(GatewayBase(c, "erxes-logs:*", LoggerDb), opt, c.logger);
  }

  /** The email verifier: a broker or cache key is there only if its own
      block supplies it, whatever the broker and cache settings are. */
  lemma EmailVerifierEnvLayers(c: Config)
    ensures forall k :: k in OptionalKeys ==> (k in EmailVerifierEnv(c) <==> k in c.emailVerifier)
    ensures forall k :: k in c.emailVerifier ==> EmailVerifierEnv(c)[k] == c.emailVerifier[k]
    ensures "MONGO_URL" !in c.emailVerifier ==>
              "MONGO_URL" in EmailVerifierEnv(c) && EmailVerifierEnv(c)["MONGO_URL"] == Str(MongoLocator(c.mongoUrl, EmailVerifierDb))
    ensures "DEBUG" !in c.emailVerifier ==>
              "DEBUG" in EmailVerifierEnv(c) && EmailVerifierEnv(c)["DEBUG"] == Str("erxes-email-verifier:*")
  {
    OptionalKeysAreNotFixed();
    assert EmailVerifierBase(c).Keys <= FixedKeys;
    TwoLayers(EmailVerifierBase(c), c.emailVerifier);
  }

  /** The widgets bundle: the four fixed keys override the `WIDGETS` block. */
  lemma WidgetsEnvLayers(c: Config, apiDomain: string, subscriptionsUrl: string)
    ensures var env := WidgetsEnv(c, apiDomain, subscriptionsUrl);
            && env.Keys == c.widgets.Keys + WidgetsFixedKeys
            && env["NODE_ENV"] == Str("production") && env["ROOT_URL"] == c.widgetsDomain
            && env["API_URL"] == Str(apiDomain) && env["API_SUBSCRIPTIONS_URL"] == Str(subscriptionsUrl)
            && forall k :: k in c.widgets && k !in WidgetsFixedKeys ==> env[k] == c.widgets[k]
  {
    TwoLayers(c.widgets, WidgetsFixed(c, apiDomain, subscriptionsUrl));
  }

  /** The subscription URL's scheme is `wss` exactly when the domain
      contains "https" somewhere. */
  lemma SubscriptionScheme(apiDomain: string)
    ensures (SubscriptionsUrl(apiDomain) == "wss//" + apiDomain + "/subscriptions") <==>
            (exists i :: OccursAt(apiDomain, "https", i))
    ensures (SubscriptionsUrl(apiDomain) == "ws//" + apiDomain + "/subscriptions") <==>
            !(exists i :: OccursAt(apiDomain, "https", i))
  {
    IncludesIff(apiDomain, "https");
    var secure := "wss//" + apiDomain + "/subscriptions";
    var plain := "ws//" + apiDomain + "/subscriptions";
    assert secure[2] == 's' && plain[2] == '/';
  }

  // ---- Every key of each backend environment ----

  /** In `{...a, ...b, ...opt, ...d}` with `a` and `opt` sharing no key:
      every key of every layer is kept, and a key of `a` that neither `b`
      nor `d` names keeps its value from `a`. */
  lemma LiteralLayers(a: Object, b: Object, opt: Object, d: Object)
    requires a.Keys !! opt.Keys
    ensures (a + b + opt + d).Keys == a.Keys + b.Keys + opt.Keys + d.Keys
    ensures forall k :: k in a && k !in b && k !in d ==> (a + b + opt + d)[k] == a[k]
  {
  }

  /** The same with a fifth layer `p` between `b` and `opt`. */
  lemma LiteralLayersWith(a: Object, b: Object, p: Object, opt: Object, d: Object)
    requires a.Keys !! opt.Keys
    ensures (a + b + p + opt + d).Keys == a.Keys + b.Keys + p.Keys + opt.Keys + d.Keys
    ensures forall k :: k in a && k !in b && k !in p && k !in d ==> (a + b + p + opt + d)[k] == a[k]
  {
  }

  /** No literal key of `commonEnv` is a broker or cache key. */
  lemma CommonBaseNotOptional(c: Config)
    ensures CommonBase(c).Keys !! OptionalDbConfigs(c).Keys
  {
    OptionalKeysAreNotFixed();
    assert CommonBase(c).Keys <= FixedKeys;
  }

  /** The main api holds exactly the keys of `commonEnv`'s literals, the
      `API` block, the optional block and `DEBUG`; a literal key that no
      later layer names keeps its literal value. */
  lemma ApiEnvKeys(c: Config)
    ensures ApiEnv(c).Keys == CommonBase(c).Keys + c.api.Keys + OptionalDbConfigs(c).Keys + {"DEBUG"}
    ensures forall k :: k in CommonBase(c) && k !in c.api && k != "DEBUG" ==> ApiEnv(c)[k] == CommonBase(c)[k]
  {
    var d := map["DEBUG" := Str("erxes-api:*")];
    assert ApiEnv(c) == CommonBase(c) + c.api + OptionalDbConfigs(c) + d;
    CommonBaseNotOptional(c);
    LiteralLayers(CommonBase(c), c.api, OptionalDbConfigs(c), d);
  }

  /** The cron jobs: the same, with `PROCESS_NAME` as well. */
  lemma CronsEnvKeys(c: Config)
    ensures CronsEnv(c).Keys == CommonBase(c).Keys + c.api.Keys + OptionalDbConfigs(c).Keys + {"PROCESS_NAME", "DEBUG"}
    ensures forall k :: k in CommonBase(c) && k !in c.api && k != "DEBUG" && k != "PROCESS_NAME" ==>
              CronsEnv(c)[k] == CommonBase(c)[k]
  {
    var p, d := map["PROCESS_NAME" := Str("crons")], map["DEBUG" := Str("erxes-crons:*")];
    assert CronsEnv(c) == CommonBase(c) + c.api + p + OptionalDbConfigs(c) + d;
    assert p.Keys + d.Keys == {"PROCESS_NAME", "DEBUG"};
    CommonBaseNotOptional(c);
    LiteralLayersWith(CommonBase(c), c.api, p, OptionalDbConfigs(c), d);
  }

  /** The workers: as the main api. */
  lemma WorkersEnvKeys(c: Config)
    ensures WorkersEnv(c).Keys == CommonBase(c).Keys + c.api.Keys + OptionalDbConfigs(c).Keys + {"DEBUG"}
    ensures forall k :: k in CommonBase(c) && k !in c.api && k != "DEBUG" ==> WorkersEnv(c)[k] == CommonBase(c)[k]
  {
    var d := map["DEBUG" := Str("erxes-workers:*")];
    assert WorkersEnv(c) == CommonBase(c) + c.api + OptionalDbConfigs(c) + d;
    CommonBaseNotOptional(c);
    LiteralLayers(CommonBase(c), c.api, OptionalDbConfigs(c), d);
  }

  /** Integrations: its literals, the optional block and its own block; a
      literal key its block does not name keeps its literal value. */
  lemma IntegrationsEnvKeys(c: Config)
    ensures IntegrationsEnv(c).Keys == IntegrationsBase(c).Keys + OptionalDbConfigs(c).Keys + c.integrations.Keys
    ensures forall k :: k in IntegrationsBase(c) && k !in c.integrations ==> IntegrationsEnv(c)[k] == IntegrationsBase(c)[k]
  {
    OptionalKeysAreNotFixed();
    assert IntegrationsBase(c).Keys <= FixedKeys;
    ThreeLayers(IntegrationsBase(c), OptionalDbConfigs(c), c.integrations);
  }

  /** Engages: the same, with the shared gateway literals. */
  lemma EngagesEnvKeys(c: Config)
    ensures var base := GatewayBase(c, "erxes-engages:*", EngagesDb);
            && EngagesEnv(c).Keys == base.Keys + OptionalDbConfigs(c).Keys + c.engages.Keys
            && forall k :: k in base && k !in c.engages ==> EngagesEnv(c)[k] == base[k]
  {
    OptionalKeysAreNotFixed();
    GatewayKeys(c, "erxes-engages:*", EngagesDb);
    ThreeLayers(GatewayBase(c, "erxes-engages:*", EngagesDb), OptionalDbConfigs(c), c.engages);
  }

  /** Logger: the same. */
  lemma LoggerEnvKeys(c: Config)
    ensures var base := GatewayBase(c, "erxes-logs:*", LoggerDb);
            && LoggerEnv(c).Keys == base.Keys + OptionalDbConfigs(c).Keys + c.logger.Keys
            && forall k :: k in base && k !in c.logger ==> LoggerEnv(c)[k] == base[k]
  {
    OptionalKeysAreNotFixed();
    GatewayKeys(c, "erxes-logs:*", LoggerDb);
    ThreeLayers(GatewayBase(c, "erxes-logs:*", LoggerDb), OptionalDbConfigs(c), c.logger);
  }

  /** The email verifier: its literals and its own block. */
  lemma EmailVerifierEnvKeys(c: Config)
    ensures EmailVerifierEnv(c).Keys == EmailVerifierBase(c).Keys + c.emailVerifier.Keys
    ensures forall k :: k in EmailVerifierBase(c) && k !in c.emailVerifier ==>
              EmailVerifierEnv(c)[k] == EmailVerifierBase(c)[k]
  {
    TwoLayers(EmailVerifierBase(c), c.emailVerifier);
  }

  /** A broker or cache key reaches `commonEnv` only through the `API`
      block, and the main api and the workers exactly when the optional
      block or the `API` block has it: no service adds one of its own. */
  lemma OptionalKeysApi(c: Config, k: string)
    requires k in OptionalKeys
    ensures k in CommonEnv(c) <==> k in c.api
    ensures k in ApiEnv(c) <==> k in OptionalDbConfigs(c) || k in c.api
    ensures k in WorkersEnv(c) <==> k in OptionalDbConfigs(c) || k in c.api
  {
    var opt := OptionalDbConfigs(c);
    OptionalKeysAreNotFixed();
    assert k !in FixedKeys;
    assert CommonBase(c).Keys <= FixedKeys;
    CommonEnvLayers(c);
    ThreeLayers(CommonEnv(c), opt, map["DEBUG" := Str("erxes-api:*")]);
    ThreeLayers(CommonEnv(c), opt, map["DEBUG" := Str("erxes-workers:*")]);
  }

  /** The same for the cron jobs, whose process name is no such key. */
  lemma OptionalKeysCrons(c: Config, k: string)
    requires k in OptionalKeys
    ensures k in CronsEnv(c) <==> k in OptionalDbConfigs(c) || k in c.api
  {
    var opt := OptionalDbConfigs(c);
    OptionalKeysAreNotFixed();
    assert k !in FixedKeys;
    assert CommonBase(c).Keys <= FixedKeys;
    CommonEnvLayers(c);
    FourLayers(CommonEnv(c), map["PROCESS_NAME" := Str("crons")], opt, map["DEBUG" := Str("erxes-crons:*")]);
  }

  /** The same for integrations, engages and logger, each with its own
      block. */
  lemma OptionalKeysGateways(c: Config, k: string)
    requires k in OptionalKeys
    ensures k in IntegrationsEnv(c) <==> k in OptionalDbConfigs(c) || k in c.integrations
    ensures k in EngagesEnv(c) <==> k in OptionalDbConfigs(c) || k in c.engages
    ensures k in LoggerEnv(c) <==> k in OptionalDbConfigs(c) || k in c.logger
  {
    var opt := OptionalDbConfigs(c);
    OptionalKeysAreNotFixed();
    assert k !in FixedKeys;
    assert IntegrationsBase(c).Keys <= FixedKeys;
    ThreeLayers(IntegrationsBase(c), opt, c.integrations);
    GatewayKeys(c, "erxes-engages:*", EngagesDb);
    ThreeLayers(GatewayBase(c, "erxes-engages:*", EngagesDb), opt, c.engages);
    GatewayKeys(c, "erxes-logs:*", LoggerDb);
    ThreeLayers(GatewayBase(c, "erxes-logs:*", LoggerDb), opt, c.logger);
  }

  /** With neither a broker host nor a cache host configured, the main api,
      the cron jobs and the workers hold a broker or cache key only when the
      `API` block supplies it: there are no placeholders. */
  lemma NoOptionalInfrastructureApi(c: Config, k: string)
    requires !Truthy(c.rabbitmqHost) && !Truthy(c.redisHost)
    requires k in OptionalKeys
    ensures k in ApiEnv(c) <==> k in c.api
    ensures k in CronsEnv(c) <==> k in c.api
    ensures k in WorkersEnv(c) <==> k in c.api
  {
    assert OptionalDbConfigs(c) == map[];
    OptionalKeysApi(c, k);
    OptionalKeysCrons(c, k);
  }

  /** The same for integrations, engages and logger, whose own blocks are the
      only source of such a key then. */
  lemma NoOptionalInfrastructureGateways(c: Config, k: string)
    requires !Truthy(c.rabbitmqHost) && !Truthy(c.redisHost)
    requires k in OptionalKeys
    ensures k in IntegrationsEnv(c) <==> k in c.integrations
    ensures k in EngagesEnv(c) <==> k in c.engages
    ensures k in LoggerEnv(c) <==> k in c.logger
  {
    assert OptionalDbConfigs(c) == map[];
    OptionalKeysGateways(c, k);
  }

  lemma GatewayKeys(c: Config, debug: string, suffix: string)
    ensures GatewayBase(c, debug, suffix).Keys <= FixedKeys
  {
  }

  /** The email verifier's environment does not depend on the broker or
      the cache settings at all. */
  lemma EmailVerifierIgnoresOptional(c: Config, rabbit: Value, redisHost: Value, redisPort: Value, redisPassword: Value)
    ensures EmailVerifierEnv(c) ==
            EmailVerifierEnv(c.(rabbitmqHost := rabbit, redisHost := redisHost,
                                redisPort := redisPort, redisPassword := redisPassword))
  {
  }
}
