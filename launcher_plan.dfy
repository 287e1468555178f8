/**
 * The launch sequence of the erxes command-line tool
 * (cli/commands/utils.js): `startBackendServices` starts the backend
 * services under pm2 one after the other, and `startUI` writes the UI's
 * runtime configuration file and starts the UI and the widgets bundle.
 *
 * Every effect is a step: a log line, a command launch (command, arguments
 * and the environment passed in its options, if any) or a file write. The
 * plan functions say which steps a call produces; the `Launcher` class
 * performs them by appending each one to its record as it happens.
 */
module LauncherPlan {
  import opened Js
  import opened LauncherEnv

  datatype Color = Green | Yellow

  datatype Step =
    | Log(message: string, color: Color)
    | Run(command: string, args: seq<Value>, env: Option<Object>)
    | Write(path: string, content: string)

  /** `filePath(name)`: `name` resolved against the working directory. */
  function FilePath(cwd: string, name: string): string
  {
    cwd + "/" + name
  }

  /** A backend service as `startBackendServices` starts it: the line it
      logs, its entry point under the build directory and its environment. */
  datatype Service = Service(message: string, entry: string, env: Object)

  /** `pm2 start <entry>` with the service's environment. */
  function Launch(cwd: string, s: Service): Step
  {
    Run("pm2", [Str("start"), Str(FilePath(cwd, s.entry))], Some(s.env))
  }

  /** A service's log line, then its launch. */
  function ServiceSteps(cwd: string, s: Service): seq<Step>
  {
    [Log(s.message, Green), Launch(cwd, s)]
  }

  /** The services started one after the other. */
  function ServicesPlan(cwd: string, ss: seq<Service>): seq<Step>
  {
    if ss == [] then [] else ServiceSteps(cwd, ss[0]) + ServicesPlan(cwd, ss[1..])
  }

  /** The entry points of the seven backend services, in launch order. */
  const BackendEntries: seq<string> :=
    ["build/api", "build/api/cronJobs", "build/api/workers", "build/integrations",
     "build/engages", "build/logger", "build/email-verifier"]

  /** The environments of the seven backend services, in launch order:
      main api, cron jobs, workers, integrations, engages, logger and email
      verifier. */
  function BackendEnvs(c: Config): (envs: seq<Object>)
    ensures |envs| == 7
  {
    [ApiEnv(c), CronsEnv(c), WorkersEnv(c), IntegrationsEnv(c), EngagesEnv(c), LoggerEnv(c), EmailVerifierEnv(c)]
  }

  /** The seven pm2 services, each with its log line, entry point and
      environment. */
  function BackendServices(envs: seq<Object>): (ss: seq<Service>)
    requires |envs| == 7
    ensures |ss| == 7
    ensures forall i :: 0 <= i < 7 ==> ss[i].entry == BackendEntries[i] && ss[i].env == envs[i]
  {
    [Service("Starting main api ...", BackendEntries[0], envs[0]),
     Service("Starting crons ...", BackendEntries[1], envs[1]),
     Service("Starting workers ...", BackendEntries[2], envs[2]),
     Service("Starting integrations ...", BackendEntries[3], envs[3]),
     Service("Starting engages ...", BackendEntries[4], envs[4]),
     Service("Starting logger ...", BackendEntries[5], envs[5]),
     Service("Starting email verifier ...", BackendEntries[6], envs[6])]
  }

  /** The search-index syncer: its Python requirements are installed (with
      no options, so in the inherited environment), then `main.py` is started
      under pm2 with the Python interpreter. */
  function ElkSteps(cwd: string, env: Object): seq<Step>
  {
    [Run("pip", [Str("install"), Str("-r"), Str("build/elkSyncer/requirements.txt")], None),
     Run("pm2", [Str("start"), Str(FilePath(cwd, "build/elkSyncer/main.py")),
                 Str("--interpreter"), Str("/usr/bin/python3")], Some(env))]
  }

  const BackendHeader: Step := Log("Starting backend services using pm2 ...", Green)

  /** The launch sequence for the given service environments, with the
      syncer or without it. */
  function BackendSteps(cwd: string, envs: seq<Object>, elk: bool, elkEnv: Object): seq<Step>
    requires |envs| == 7
  {
    [BackendHeader] + ServicesPlan(cwd, BackendServices(envs)) + (if elk then ElkSteps(cwd, elkEnv) else [])
  }

  /** The steps of `startBackendServices(configs)`. */
  function BackendPlan(cwd: string, c: Config): seq<Step>
  {
    BackendSteps(cwd, BackendEnvs(c), Truthy(c.elkSyncer), ElkSyncerEnv(c))
  }

  /** The command launches among `steps`, in order. */
  function Runs(steps: seq<Step>): (r: seq<Step>)
    ensures forall i :: 0 <= i < |r| ==> r[i].Run?
  {
    if steps == [] then []
    else (if steps[0].Run? then [steps[0]] else []) + Runs(steps[1..])
  }

  /** A step that is no launch contributes nothing to `Runs`; a launch
      contributes itself. */
  lemma {:induction false} RunsConcat(a: seq<Step>, b: seq<Step>)
    ensures Runs(a + b) == Runs(a) + Runs(b)
  {
    if a != [] {
      assert (a + b)[1..] == a[1..] + b;
      RunsConcat(a[1..], b);
    } else {
      assert a + b == b;
    }
  }

  /** `Runs` keeps exactly the launches: a step is among them iff it is a
      launch of `steps`. */
  lemma {:induction false} RunsMembers(steps: seq<Step>, s: Step)
    ensures s in Runs(steps) <==> s in steps && s.Run?
  {
    if steps != [] {
      RunsMembers(steps[1..], s);
      assert steps == [steps[0]] + steps[1..];
    }
  }

  /** Starting services in two runs is starting them all in one. */
  lemma {:induction false} ServicesPlanConcat(cwd: string, a: seq<Service>, b: seq<Service>)
    ensures ServicesPlan(cwd, a + b) == ServicesPlan(cwd, a) + ServicesPlan(cwd, b)
  {
    if a == [] {
      assert a + b == b;
    } else {
      assert (a + b)[1..] == a[1..] + b;
      ServicesPlanConcat(cwd, a[1..], b);
    }
  }

  /** The launches of a run of services are theirs, one each, in order. */
  lemma {:induction false} ServicesRuns(cwd: string, ss: seq<Service>)
    ensures var r := Runs(ServicesPlan(cwd, ss));
            |r| == |ss| && forall i :: 0 <= i < |ss| ==> r[i] == Launch(cwd, ss[i])
  {
    if ss != [] {
      var head := ServiceSteps(cwd, ss[0]);
      RunsConcat(head, ServicesPlan(cwd, ss[1..]));
      assert head[1..][1..] == [];
      ServicesRuns(cwd, ss[1..]);
    }
  }

  /** A log line, a run of services and some further steps: the launches
      are the services', then those of the further steps. */
  lemma HeaderServicesRuns(cwd: string, header: Step, ss: seq<Service>, tail: seq<Step>)
    requires header.Log?
    ensures var r := Runs([header] + ServicesPlan(cwd, ss) + tail);
            && |r| == |ss| + |Runs(tail)|
            && (forall i :: 0 <= i < |ss| ==> r[i] == Launch(cwd, ss[i]))
            && r[|ss|..] == Runs(tail)
  {
    RunsConcat([header], ServicesPlan(cwd, ss));
    RunsConcat([header] + ServicesPlan(cwd, ss), tail);
    ServicesRuns(cwd, ss);
  }

  /** Both syncer steps are launches. */
  lemma ElkRuns(cwd: string, env: Object)
    ensures Runs(ElkSteps(cwd, env)) == ElkSteps(cwd, env)
  {
    var s := ElkSteps(cwd, env);
    assert s[1..] == [s[1]] && [s[1]][1..] == [];
    assert Runs([s[1]]) == [s[1]];
  }

  /** The backend launches: the seven pm2 services in their fixed order,
      each with its own entry point and environment, then the syncer's two
      commands exactly when `ELK_SYNCER` is truthy. */
  lemma BackendLaunchOrder(cwd: string, c: Config)
    ensures var r := Runs(BackendPlan(cwd, c));
            && |r| == (if Truthy(c.elkSyncer) then 9 else 7)
            && (forall i :: 0 <= i < 7 ==>
                  && r[i].command == "pm2"
                  && r[i].args == [Str("start"), Str(FilePath(cwd, BackendEntries[i]))]
                  && r[i].env == Some(BackendEnvs(c)[i]))
            && (Truthy(c.elkSyncer) ==> r[7..] == ElkSteps(cwd, ElkSyncerEnv(c)))
  {
    var e := if Truthy(c.elkSyncer) then ElkSteps(cwd, ElkSyncerEnv(c)) else [];
    HeaderServicesRuns(cwd, BackendHeader, BackendServices(BackendEnvs(c)), e);
    ElkRuns(cwd, ElkSyncerEnv(c));
  }

  // ---- The UI ----

  const DisabledMessage := "Default serve is disabled. Please serve using services like nginx, aws s3 ..."

  /** The runtime configuration file of the UI bundle. */
  const EnvJsPath := "build/ui/js/env.js"

  /** One `key: "value"` property of the configuration object. */
  function Quoted(key: string, value: string): string
  {
    key + ": \"" + value + "\""
  }

  const EnvJsOpen := "\n    window.env = {\n      "
  const ProductionMode := "NODE_ENV: \"production\""
  const EnvJsSeparator := ",\n      "
  const EnvJsHead := EnvJsOpen + ProductionMode + EnvJsSeparator
  const EnvJsTail := "\n    }\n  "

  /** Its text: a `window.env` assignment with the API URL, the subscription
      URL and the CDN host, each inside double quotes. */
  function EnvJs(apiDomain: string, subscriptionsUrl: string, widgetsDomain: Value): string
  {
    EnvJsHead + Quoted("REACT_APP_API_URL", apiDomain) + EnvJsSeparator
    + Quoted("REACT_APP_API_SUBSCRIPTION_URL", subscriptionsUrl) + EnvJsSeparator
    + Quoted("REACT_APP_CDN_HOST", Template(widgetsDomain)) + EnvJsTail
  }

  /** How `startUI` can end early: `API_DOMAIN.includes` throws a TypeError
      when the domain is not a string, and the awaited write can reject. */
  datatype UiError = ApiDomainNotString | WriteFailed

  datatype UiRun = UiRun(steps: seq<Step>, error: Option<UiError>)

  /** The serve launch of the UI bundle: `serve -s -p <PORT> <build/ui>`. */
  function ServeStep(cwd: string, c: Config): Step
  {
    Run("serve", [Str("-s"), Str("-p"), c.ui.port, Str(FilePath(cwd, "build/ui"))], None)
  }

  /** The pm2 launch of the widgets bundle. */
  function WidgetsStep(cwd: string, c: Config, apiDomain: string): Step
  {
    Run("pm2", [Str("--name"), Str("widgets"), Str("start"), Str(FilePath(cwd, "build/widgets/dist"))],
        Some(WidgetsEnv(c, apiDomain, SubscriptionsUrl(apiDomain))))
  }

  /** The steps of `startUI(configs)` and how it ends, given whether the
      write of the configuration file succeeds. */
  function UiPlan(cwd: string, c: Config, writeOk: bool): UiRun
  {
    if Truthy(c.ui.disableServe) then UiRun([Log(DisabledMessage, Yellow)], None)
    else if !c.apiDomain.Str? then UiRun([Log("Starting ui using serve ...", Green)], Some(ApiDomainNotString))
    else
      var apiDomain := c.apiDomain.text;
      var start := [Log("Starting ui using serve ...", Green),
                    Write(FilePath(cwd, EnvJsPath), EnvJs(apiDomain, SubscriptionsUrl(apiDomain), c.widgetsDomain))];
      if !writeOk then UiRun(start, Some(WriteFailed))
      else UiRun(start + [ServeStep(cwd, c), Log("Starting widgets ...", Green), WidgetsStep(cwd, c, apiDomain)], None)
  }

  /** Serving is disabled exactly when `startUI` ends without an error
      having only logged, and then it logs one warning. */
  lemma UiDisabledGate(cwd: string, c: Config, writeOk: bool)
    ensures var u := UiPlan(cwd, c, writeOk);
            Truthy(c.ui.disableServe) <==> u.error.None? && forall i :: 0 <= i < |u.steps| ==> u.steps[i].Log?
    ensures var u := UiPlan(cwd, c, writeOk);
            Truthy(c.ui.disableServe) ==> |u.steps| == 1 && u.steps[0] == Log(DisabledMessage, Yellow)
  {
    if !Truthy(c.ui.disableServe) && c.apiDomain.Str? && writeOk {
      assert UiPlan(cwd, c, writeOk).steps[1].Write?;
    }
  }

  /** The UI writes its configuration file iff serving is enabled and the
      API domain is a string, and launches anything iff moreover the write
      succeeds. */
  lemma UiLaunchGate(cwd: string, c: Config, writeOk: bool)
    ensures var u := UiPlan(cwd, c, writeOk);
            (exists i :: 0 <= i < |u.steps| && u.steps[i].Write?) <==> !Truthy(c.ui.disableServe) && c.apiDomain.Str?
    ensures Runs(UiPlan(cwd, c, writeOk).steps) != [] <==> !Truthy(c.ui.disableServe) && c.apiDomain.Str? && writeOk
  {
    var u := UiPlan(cwd, c, writeOk);
    if !Truthy(c.ui.disableServe) && c.apiDomain.Str? {
      assert u.steps[1].Write?;
    }
    if Runs(u.steps) != [] {
      RunsMembers(u.steps, Runs(u.steps)[0]);
    }
    if !Truthy(c.ui.disableServe) && c.apiDomain.Str? && writeOk {
      RunsMembers(u.steps, u.steps[2]);
    }
  }

  /** When everything succeeds: the configuration file is written first,
      then the UI is served, then the widgets bundle is launched, and these
      two are the only launches. */
  lemma UiOrder(cwd: string, c: Config)
    requires !Truthy(c.ui.disableServe) && c.apiDomain.Str?
    ensures var u := UiPlan(cwd, c, true);
            && u.error.None? && |u.steps| == 5
            && u.steps[1].Write? && u.steps[1].path == FilePath(cwd, EnvJsPath)
            && u.steps[2] == ServeStep(cwd, c) && u.steps[4] == WidgetsStep(cwd, c, c.apiDomain.text)
            && Runs(u.steps) == [u.steps[2], u.steps[4]]
  {
    var s := UiPlan(cwd, c, true).steps;
    assert s == s[..3] + s[3..];
    RunsConcat(s[..3], s[3..]);
    assert s[..3][1..] == s[1..3] && s[1..3][1..] == [s[2]] && [s[2]][1..] == [];
    assert Runs([s[2]]) == [s[2]];
    assert s[3..][1..] == [s[4]] && [s[4]][1..] == [];
    assert Runs([s[4]]) == [s[4]];
  }

  /** The configuration file puts the UI bundle in production mode. */
  lemma EnvJsProductionMode(apiDomain: string, subscriptionsUrl: string, widgetsDomain: Value)
    ensures Includes(EnvJs(apiDomain, subscriptionsUrl, widgetsDomain), ProductionMode)
  {
    var api := Quoted("REACT_APP_API_URL", apiDomain);
    var sub := Quoted("REACT_APP_API_SUBSCRIPTION_URL", subscriptionsUrl);
    var cdn := Quoted("REACT_APP_CDN_HOST", Template(widgetsDomain));
    var h, q, z := EnvJsHead, EnvJsSeparator, EnvJsTail;
    IncludesInfix(EnvJsOpen, ProductionMode, q);
    IncludesExtend(h, ProductionMode, api);
    IncludesExtend(h + api, ProductionMode, q);
    IncludesExtend(h + api + q, ProductionMode, sub);
    IncludesExtend(h + api + q + sub, ProductionMode, q);
    IncludesExtend(h + api + q + sub + q, ProductionMode, cdn);
    IncludesExtend(h + api + q + sub + q + cdn, ProductionMode, z);
  }

  /** The configuration file names the production mode, the API URL, the
      subscription URL and the CDN host, each on its own key. */
  lemma EnvJsMentions(apiDomain: string, subscriptionsUrl: string, widgetsDomain: Value)
    ensures Includes(EnvJs(apiDomain, subscriptionsUrl, widgetsDomain), ProductionMode)
    ensures Includes(EnvJs(apiDomain, subscriptionsUrl, widgetsDomain), Quoted("REACT_APP_API_URL", apiDomain))
    ensures Includes(EnvJs(apiDomain, subscriptionsUrl, widgetsDomain),
                     Quoted("REACT_APP_API_SUBSCRIPTION_URL", subscriptionsUrl))
    ensures Includes(EnvJs(apiDomain, subscriptionsUrl, widgetsDomain),
                     Quoted("REACT_APP_CDN_HOST", Template(widgetsDomain)))
  {
    var api := Quoted("REACT_APP_API_URL", apiDomain);
    var sub := Quoted("REACT_APP_API_SUBSCRIPTION_URL", subscriptionsUrl);
    var cdn := Quoted("REACT_APP_CDN_HOST", Template(widgetsDomain));
    var h, q, z := EnvJsHead, EnvJsSeparator, EnvJsTail;
    EnvJsProductionMode(apiDomain, subscriptionsUrl, widgetsDomain);
    IncludesSuffix(h, api);
    IncludesExtend(h + api, api, q);
    IncludesExtend(h + api + q, api, sub);
    IncludesExtend(h + api + q + sub, api, q);
    IncludesExtend(h + api + q + sub + q, api, cdn);
    IncludesExtend(h + api + q + sub + q + cdn, api, z);
    IncludesSuffix(h + api + q, sub);
    IncludesExtend(h + api + q + sub, sub, q);
    IncludesExtend(h + api + q + sub + q, sub, cdn);
    IncludesExtend(h + api + q + sub + q + cdn, sub, z);
    IncludesSuffix(h + api + q + sub + q, cdn);
    IncludesExtend(h + api + q + sub + q + cdn, cdn, z);
  }

  /** The UI bundle and the widgets bundle are given the same subscription
      URL: it is written into the configuration file and passed to the
      widgets as `API_SUBSCRIPTIONS_URL`. */
  lemma SharedSubscriptionUrl(cwd: string, c: Config)
    requires !Truthy(c.ui.disableServe) && c.apiDomain.Str?
    ensures var u := UiPlan(cwd, c, true);
            var sub := SubscriptionsUrl(c.apiDomain.text);
            && Includes(u.steps[1].content, Quoted("REACT_APP_API_SUBSCRIPTION_URL", sub))
            && u.steps[4].env.Some? && "API_SUBSCRIPTIONS_URL" in u.steps[4].env.value
            && u.steps[4].env.value["API_SUBSCRIPTIONS_URL"] == Str(sub)
  {
    var api := c.apiDomain.text;
    EnvJsMentions(api, SubscriptionsUrl(api), c.widgetsDomain);
    WidgetsEnvLayers(c, api, SubscriptionsUrl(api));
  }

  /** A deployment with an `https` API domain, a MongoDB URL, no optional
      infrastructure, no syncer and an empty `UI` block. */
  const ExampleConfig: Config :=
    Config(Undefined, Str("https://app.x"), Str("https://api.x"), Undefined, Undefined, Str("mongodb://db"),
           Undefined, Undefined, Undefined, Undefined, Undefined, Undefined,
           map[], map[], map[], map[], map[], map[], UiConfig(Undefined, Undefined))

  /** For it, nine launches in all: seven backend services, the UI server
      and the widgets. */
  lemma ExampleLaunchCount(cwd: string)
    ensures |Runs(BackendPlan(cwd, ExampleConfig))| + |Runs(UiPlan(cwd, ExampleConfig, true).steps)| == 9
  {
    BackendLaunchOrder(cwd, ExampleConfig);
    UiOrder(cwd, ExampleConfig);
  }

  /** For it, the subscription URL keeps the domain's scheme:
      `wss//https://api.x/subscriptions`. */
  lemma ExampleSubscriptionUrl()
    ensures SubscriptionsUrl(Template(ExampleConfig.apiDomain)) == "wss//https://api.x/subscriptions"
  {
    assert "https" <= "https://api.x";
  }

  /** A syncer switch of `0` is falsy: only the seven services start. */
  lemma ZeroSyncerIsSkipped(cwd: string, c: Config)
    requires c.elkSyncer == Num(0)
    ensures |Runs(BackendPlan(cwd, c))| == 7
  {
    BackendLaunchOrder(cwd, c);
  }

  /** Starting one more service of a list extends the steps by its own. */
  lemma StartedOneMore(cwd: string, ss: seq<Service>, k: nat)
    requires k < |ss|
    ensures ServicesPlan(cwd, ss[..k + 1]) == ServicesPlan(cwd, ss[..k]) + ServiceSteps(cwd, ss[k])
  {
    assert ss[..k + 1] == ss[..k] + [ss[k]];
    ServicesPlanConcat(cwd, ss[..k], [ss[k]]);
    assert [ss[k]][1..] == [];
  }

  /** The launcher process: its working directory and the effects it has
      performed so far, in order. */
  class Launcher {
    const cwd: string
    var steps: seq<Step>

    constructor (cwd: string)
      ensures this.cwd == cwd && steps == []
    {
      this.cwd := cwd;
      steps := [];
    }

    /** `log(msg, color)`. */
    method LogLine(message: string, color: Color)
      modifies this
      ensures steps == old(steps) + [Log(message, color)]
    {
      steps := steps + [Log(message, color)];
    }

    /** `runCommand(command, args, options)`, with the environment of the
        options when there are any. */
    method RunCommand(command: string, args: seq<Value>, env: Option<Object>)
      modifies this
      ensures steps == old(steps) + [Run(command, args, env)]
    {
      steps := steps + [Run(command, args, env)];
    }

    /** `fs.promises.writeFile(path, content)`. */
    method WriteFile(path: string, content: string)
      modifies this
      ensures steps == old(steps) + [Write(path, content)]
    {
      steps := steps + [Write(path, content)];
    }

    method StartService(s: Service)
      modifies this
      ensures steps == old(steps) + ServiceSteps(cwd, s)
    {
      LogLine(s.message, Green);
      RunCommand("pm2", [Str("start"), Str(FilePath(cwd, s.entry))], Some(s.env));
    }

    /** The next service of `ss`, after the first `k` have been started. */
    method StartNext(ghost before: seq<Step>, ss: seq<Service>, k: nat)
      requires k < |ss| && steps == before + ServicesPlan(cwd, ss[..k])
      modifies this
      ensures steps == before + ServicesPlan(cwd, ss[..k + 1])
    {
      StartService(ss[k]);
      StartedOneMore(cwd, ss, k);
    }

    /** The seven pm2 services, one after the other. */
    method StartServices(ss: seq<Service>)
      requires |ss| == 7
      modifies this
      ensures steps == old(steps) + ServicesPlan(cwd, ss)
    {
      ghost var before := steps;
      assert ss[..0] == [];
      StartNext(before, ss, 0);
      StartNext(before, ss, 1);
      StartNext(before, ss, 2);
      StartNext(before, ss, 3);
      StartNext(before, ss, 4);
      StartNext(before, ss, 5);
      StartNext(before, ss, 6);
      assert ss[..7] == ss;
    }

    /** The search-index syncer's two commands. */
    method StartElkSyncer(env: Object)
      modifies this
      ensures steps == old(steps) + ElkSteps(cwd, env)
    {
      RunCommand("pip", [Str("install"), Str("-r"), Str("build/elkSyncer/requirements.txt")], None);
      RunCommand("pm2", [Str("start"), Str(FilePath(cwd, "build/elkSyncer/main.py")),
                         Str("--interpreter"), Str("/usr/bin/python3")], Some(env));
    }

    /** The launch sequence, once the environments are composed. */
    method StartBackend(envs: seq<Object>, elk: bool, elkEnv: Object)
      requires |envs| == 7
      modifies this
      ensures steps == old(steps) + BackendSteps(cwd, envs, elk, elkEnv)
    {
      ghost var before := steps;
      LogLine("Starting backend services using pm2 ...", Green);
      StartServices(BackendServices(envs));
      if elk {
        StartElkSyncer(elkEnv);
        assert steps == before + ([BackendHeader] + ServicesPlan(cwd, BackendServices(envs)) + ElkSteps(cwd, elkEnv));
      } else {
        assert steps == before + ([BackendHeader] + ServicesPlan(cwd, BackendServices(envs)) + []);
      }
    }

    /** `startBackendServices(configs)`: the environments of the services and
        the syncer gate, then the launches. */
    method StartBackendServices(c: Config)
      modifies this
      ensures steps == old(steps) + BackendPlan(cwd, c)
    {
      StartBackend(BackendEnvs(c), Truthy(c.elkSyncer), ElkSyncerEnv(c));
    }

    /** `startUI(configs)`, given whether the write of the configuration
        file succeeds; `error` is how it ends early, if it does. */
    method StartUI(c: Config, writeOk: bool) returns (error: Option<UiError>)
      modifies this
      ensures steps == old(steps) + UiPlan(cwd, c, writeOk).steps
      ensures error == UiPlan(cwd, c, writeOk).error
    {
      var ui := c.ui;
      if Truthy(ui.disableServe) {
        LogLine(DisabledMessage, Yellow);
        return None;
      }
      LogLine("Starting ui using serve ...", Green);
      if !c.apiDomain.Str? {
        return Some(ApiDomainNotString);
      }
      var apiDomain := c.apiDomain.text;
      var subscriptionsUrl := SubscriptionsUrl(apiDomain);
      WriteFile(FilePath(cwd, EnvJsPath), EnvJs(apiDomain, subscriptionsUrl, c.widgetsDomain));
      if !writeOk {
        return Some(WriteFailed);
      }
      RunCommand("serve", [Str("-s"), Str("-p"), ui.port, Str(FilePath(cwd, "build/ui"))], None);
      LogLine("Starting widgets ...", Green);
      RunCommand("pm2", [Str("--name"), Str("widgets"), Str("start"), Str(FilePath(cwd, "build/widgets/dist"))],
                 Some(WidgetsEnv(c, apiDomain, subscriptionsUrl)));
      error := None;
    }
  }
}
