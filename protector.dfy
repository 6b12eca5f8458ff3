/**
 * GitLabProtector: the run that loads the rules, authenticates, collects the
 * projects and then either reports (dry run) or applies every tag rule and
 * every branch rule to every project (gitlab-protector.py:325-508).
 *
 * The GitLab service is the `Remote` value: what authentication reports, the
 * root group's projects, the recursive subgroup listing, the projects of each
 * subgroup that can be fetched, the projects that cannot be fetched, and the
 * answer to the n-th create call of the run. The create calls the run makes
 * are its observable effect and are returned as a sequence.
 */
module Protector {
  import opened Wrappers
  import opened Yaml
  import opened ConfigValidator
  import opened ProtectionManager
  import opened Collection
  import ExitCodes

  /** Config: the command-line settings of one run. */
  datatype RunConfig = RunConfig(
    url: string,
    token: string,
    namespace: string,
    configFile: string,
    dryRun: bool,
    exclude: Option<string>,
    stopOnError: bool)

  /** What `gitlab.Gitlab(...)` followed by `auth()` does. */
  datatype AuthOutcome =
    | Authenticated
    | ClientFailure      // constructing the client raises
    | AuthRejected       // auth() raises GitlabAuthenticationError
    | AuthFailure        // auth() raises anything else

  /** The remote GitLab service, as the answers it gives to this run. */
  datatype Remote = Remote(
    auth: AuthOutcome,
    rootProjects: Option<seq<Project>>,      // None: the root group cannot be fetched or listed
    subgroups: Option<seq<Stub>>,            // None: the recursive subgroup listing fails
    groupProjects: map<int, seq<Project>>,   // subgroup id -> projects; a missing id cannot be fetched
    unreachable: set<string>,                // project paths whose `projects.get` raises
    respond: nat -> CallOutcome)             // the answer to the n-th create call of the run

  /** The argument a `SystemExit` carries. */
  datatype ExitArg = IntArg(n: int) | OtherArg

  /** How a stage ends: normally, with `SystemExit`, or with any other exception. */
  datatype Status = Ok | SystemExit(arg: ExitArg) | Raised

  /** A create call issued against a project. */
  datatype Call = Call(project: string, payload: Payload)

  /** The create calls issued so far and how the work ended. */
  datatype Progress = Progress(issued: seq<Call>, status: Status)

  /** The value `run` returns and the create calls it made. */
  datatype RunOutcome = RunOutcome(code: int, issued: seq<Call>)

  /** `sys.exit(code)` */
  function ExitStatus(code: int): Status
  {
    SystemExit(IntArg(code))
  }

  /** The except clauses of `run`: an int exit code is returned, anything else becomes 1. */
  function ReturnCode(s: Status): (code: int)
    ensures s.Ok? ==> code == ExitCodes.Success
    ensures s.SystemExit? && s.arg.IntArg? ==> code == s.arg.n
    ensures s == Raised || s == SystemExit(OtherArg) ==> code == ExitCodes.ExecutionError
  {
    match s
    case Ok => ExitCodes.Success
    case SystemExit(arg) => if arg.IntArg? then arg.n else ExitCodes.ExecutionError
    case Raised => ExitCodes.ExecutionError
  }

  /** `_initialize_gitlab_api`: how authentication ends. */
  function AuthStatus(a: AuthOutcome): Status
  {
    match a
    case Authenticated => Ok
    case ClientFailure => ExitStatus(ExitCodes.GitlabError)
    case AuthRejected => ExitStatus(ExitCodes.AuthError)
    case AuthFailure => ExitStatus(ExitCodes.GitlabError)
  }

  /** One `for rule in rules` loop of `_protect_project`: apply each rule in order until one exits. */
  function ApplyRules(kind: RuleKind, path: string, rules: seq<Rule>, stopOnError: bool,
                      respond: nat -> CallOutcome, issued: seq<Call>): Progress
    decreases |rules|
  {
    if rules == [] then Progress(issued, Ok)
    else
      var a := ApplyRule(kind, rules[0], stopOnError, respond(|issued|));
      var issued' := if a.call.Some? then issued + [Call(path, a.call.value)] else issued;
      if a.step.Exit? then Progress(issued', ExitStatus(a.step.code))
      else ApplyRules(kind, path, rules[1..], stopOnError, respond, issued')
  }

  /** `_protect_project`: fetch the project, then all tag rules, then all branch rules. */
  function ProtectSpec(project: Project, cfg: ProtectionConfig, stopOnError: bool, remote: Remote, issued: seq<Call>): Progress
  {
    var path := project.pathWithNamespace;
    if path in remote.unreachable then Progress(issued, Raised)
    else
      var t := ApplyRules(Tags, path, cfg.tags, stopOnError, remote.respond, issued);
      if !t.status.Ok? then t
      else ApplyRules(Branches, path, cfg.branches, stopOnError, remote.respond, t.issued)
  }

  /** `_apply_protections`: protect each project in collection order until one stops the run. */
  function ApplyAll(projects: seq<Project>, cfg: ProtectionConfig, stopOnError: bool, remote: Remote, issued: seq<Call>): Progress
    decreases |projects|
  {
    if projects == [] then Progress(issued, Ok)
    else
      var p := ProtectSpec(projects[0], cfg, stopOnError, remote, issued);
      if !p.status.Ok? then p
      else ApplyAll(projects[1..], cfg, stopOnError, remote, p.issued)
  }

  /** The try-block of `run`: load, authenticate, collect, then dry-run or apply; each stage may end it. */
  function RunProgress(config: RunConfig, source: ConfigSource, remote: Remote, projects0: seq<Project>): Progress
  {
    match Load(source)
    case Failure(e) => Progress([], ExitStatus(ExitCodeOf(e)))
    case Success(cfg) =>
      if !remote.auth.Authenticated? then Progress([], AuthStatus(remote.auth))
      else
        var c := Collect(remote.rootProjects, remote.subgroups, remote.groupProjects, config.exclude);
        if c.failed then Progress([], ExitStatus(ExitCodes.GitlabError))
        else if config.dryRun then Progress([], Ok)
        else ApplyAll(projects0 + c.added, cfg, config.stopOnError, remote, [])
  }

  /** `run()`: the code it returns and the create calls it made. */
  function RunSpec(config: RunConfig, source: ConfigSource, remote: Remote, projects0: seq<Project>): RunOutcome
  {
    var p := RunProgress(config, source, remote, projects0);
    RunOutcome(ReturnCode(p.status), p.issued)
  }

  // ---- The calls a run makes when nothing stops it ----

  /** The calls that the rules make against one project, in file order. */
  function RuleCalls(kind: RuleKind, path: string, rules: seq<Rule>): seq<Call>
    decreases |rules|
  {
    if rules == [] then []
    else
      (match Sent(kind, rules[0]) case Some(payload) => [Call(path, payload)] case None => [])
      + RuleCalls(kind, path, rules[1..])
  }

  /** The calls for every project in order: its tag rules, then its branch rules. */
  function AllCalls(projects: seq<Project>, cfg: ProtectionConfig): seq<Call>
    decreases |projects|
  {
    if projects == [] then []
    else
      var path := projects[0].pathWithNamespace;
      RuleCalls(Tags, path, cfg.tags) + RuleCalls(Branches, path, cfg.branches) + AllCalls(projects[1..], cfg)
  }

  /** No create call is ever answered with an authentication error. */
  ghost predicate NoAuthErrors(remote: Remote)
  {
    forall n: nat :: remote.respond(n) != AuthenticationError
  }

  /** The status an applier loop may end with: an exit 30, or the kind's failure code under stop-on-error. */
  ghost predicate ApplyStatus(s: Status, stopOnError: bool)
  {
    || s.Ok?
    || s == Raised
    || s == ExitStatus(ExitCodes.AuthError)
    || (stopOnError && (s == ExitStatus(ExitCodes.CreateTagError) || s == ExitStatus(ExitCodes.CreateBranchError)))
  }

  /** Applying a list of rules issues a prefix of their calls, in file order; all of them when it ends normally. */
  lemma {:induction false} ApplyRulesPrefix(kind: RuleKind, path: string, rules: seq<Rule>, stopOnError: bool,
                                            respond: nat -> CallOutcome, issued: seq<Call>)
    ensures IssuesPrefix(issued, RuleCalls(kind, path, rules), ApplyRules(kind, path, rules, stopOnError, respond, issued))
    decreases |rules|
  {
    if rules == [] {
      assert issued + [] == issued;
    } else {
      var a := ApplyRule(kind, rules[0], stopOnError, respond(|issued|));
      SentIsFixed(kind, rules[0], stopOnError, respond(|issued|));
      var first := match Sent(kind, rules[0]) case Some(payload) => [Call(path, payload)] case None => [];
      var issued' := if a.call.Some? then issued + [Call(path, a.call.value)] else issued;
      assert issued' == issued + first;
      var rest := RuleCalls(kind, path, rules[1..]);
      assert RuleCalls(kind, path, rules) == first + rest;
      var t := Progress(issued', if a.step.Exit? then ExitStatus(a.step.code) else Ok);
      var b := ApplyRules(kind, path, rules[1..], stopOnError, respond, issued');
      ApplyRulesPrefix(kind, path, rules[1..], stopOnError, respond, issued');
      assert IssuesPrefix(issued, first, t);
      ThenPrefix(issued, first, rest, t, b);
    }
  }

  /**
   * A list of rules ends normally or with an exit: 30, or the kind's failure
   * code under stop-on-error. It ends normally whenever stop-on-error is off
   * and no call meets an authentication error.
   */
  lemma {:induction false} ApplyRulesStatus(kind: RuleKind, path: string, rules: seq<Rule>, stopOnError: bool,
                                            respond: nat -> CallOutcome, issued: seq<Call>)
    ensures var s := ApplyRules(kind, path, rules, stopOnError, respond, issued).status;
            && ApplyStatus(s, stopOnError) && s != Raised
            && (s.SystemExit? && s != ExitStatus(ExitCodes.AuthError) ==> s == ExitStatus(FailureCode(kind)))
            && (!stopOnError && (forall n: nat :: respond(n) != AuthenticationError) ==> s.Ok?)
    decreases |rules|
  {
    if rules != [] {
      var a := ApplyRule(kind, rules[0], stopOnError, respond(|issued|));
      AppliedExitCodes(kind, rules[0], stopOnError, respond(|issued|));
      var issued' := if a.call.Some? then issued + [Call(path, a.call.value)] else issued;
      if !a.step.Exit? {
        ApplyRulesStatus(kind, path, rules[1..], stopOnError, respond, issued');
      }
    }
  }

  /** The same for one project: its tag calls, then its branch calls, cut short only by an exit or an unreachable project. */
  lemma ProtectIssuesPrefix(project: Project, cfg: ProtectionConfig, stopOnError: bool, remote: Remote, issued: seq<Call>)
    ensures var p := ProtectSpec(project, cfg, stopOnError, remote, issued);
            var path := project.pathWithNamespace;
            IssuesPrefix(issued, RuleCalls(Tags, path, cfg.tags) + RuleCalls(Branches, path, cfg.branches), p)
  {
    var path := project.pathWithNamespace;
    var tagCalls, branchCalls := RuleCalls(Tags, path, cfg.tags), RuleCalls(Branches, path, cfg.branches);
    if path in remote.unreachable {
      PrefixOfPrefix(issued, issued, tagCalls + branchCalls);
    } else {
      ApplyRulesPrefix(Tags, path, cfg.tags, stopOnError, remote.respond, issued);
      var t := ApplyRules(Tags, path, cfg.tags, stopOnError, remote.respond, issued);
      ApplyRulesPrefix(Branches, path, cfg.branches, stopOnError, remote.respond, t.issued);
      var b := ApplyRules(Branches, path, cfg.branches, stopOnError, remote.respond, t.issued);
      ThenPrefix(issued, tagCalls, branchCalls, t, b);
    }
  }

  /** `p` issues a prefix of `calls` after `issued`, and all of them when it ends normally. */
  predicate IssuesPrefix(issued: seq<Call>, calls: seq<Call>, p: Progress)
  {
    issued <= p.issued <= issued + calls && (p.status.Ok? ==> p.issued == issued + calls)
  }

  /** Running `t` and, if it ends normally, `b` after it issues a prefix of their calls together. */
  lemma ThenPrefix(issued: seq<Call>, a: seq<Call>, c: seq<Call>, t: Progress, b: Progress)
    requires IssuesPrefix(issued, a, t)
    requires IssuesPrefix(t.issued, c, b)
    ensures IssuesPrefix(issued, a + c, if t.status.Ok? then b else t)
  {
    assert issued + a + c == issued + (a + c);
    if t.status.Ok? {
      assert b.issued[..|issued|] == (issued + a)[..|issued|];
    } else {
      PrefixOfPrefix(t.issued, issued + a, c);
    }
  }

  /** A project ends normally, or with an exit an applier may take, or raises because it cannot be fetched. */
  lemma ProtectStatus(project: Project, cfg: ProtectionConfig, stopOnError: bool, remote: Remote, issued: seq<Call>)
    ensures var p := ProtectSpec(project, cfg, stopOnError, remote, issued);
            && ApplyStatus(p.status, stopOnError)
            && (!stopOnError && NoAuthErrors(remote) && project.pathWithNamespace !in remote.unreachable ==> p.status.Ok?)
            // only fetching the project raises, and it does so before any create call
            && (p.status == Raised <==> project.pathWithNamespace in remote.unreachable)
            && (project.pathWithNamespace in remote.unreachable ==> p.issued == issued)
  {
    var path := project.pathWithNamespace;
    if path !in remote.unreachable {
      ApplyRulesStatus(Tags, path, cfg.tags, stopOnError, remote.respond, issued);
      var t := ApplyRules(Tags, path, cfg.tags, stopOnError, remote.respond, issued);
      if t.status.Ok? {
        ApplyRulesStatus(Branches, path, cfg.branches, stopOnError, remote.respond, t.issued);
      }
    }
  }

  /** A prefix of `a` is a prefix of any extension of `a`. */
  lemma PrefixOfPrefix<T>(p: seq<T>, a: seq<T>, b: seq<T>)
    requires p <= a
    ensures p <= a + b
  {
    assert (a + b)[..|p|] == a[..|p|];
  }

  /**
   * Applying protections issues the calls of every project in collection
   * order, tag rules before branch rules, stopping only at the first exit or
   * unreachable project.
   */
  lemma {:induction false} ApplyAllIssuesPrefix(projects: seq<Project>, cfg: ProtectionConfig, stopOnError: bool,
                                                remote: Remote, issued: seq<Call>)
    ensures IssuesPrefix(issued, AllCalls(projects, cfg), ApplyAll(projects, cfg, stopOnError, remote, issued))
    decreases |projects|
  {
    if projects == [] {
      assert issued + [] == issued;
    } else {
      var path := projects[0].pathWithNamespace;
      var calls := RuleCalls(Tags, path, cfg.tags) + RuleCalls(Branches, path, cfg.branches);
      ProtectIssuesPrefix(projects[0], cfg, stopOnError, remote, issued);
      var p := ProtectSpec(projects[0], cfg, stopOnError, remote, issued);
      ApplyAllIssuesPrefix(projects[1..], cfg, stopOnError, remote, p.issued);
      ThenPrefix(issued, calls, AllCalls(projects[1..], cfg), p, ApplyAll(projects[1..], cfg, stopOnError, remote, p.issued));
    }
  }

  /**
   * Applying protections ends normally, with an exit an applier may take, or
   * raising for an unreachable project; with stop-on-error off, no
   * authentication error and every project reachable, it ends normally.
   */
  lemma {:induction false} ApplyAllStatus(projects: seq<Project>, cfg: ProtectionConfig, stopOnError: bool,
                                          remote: Remote, issued: seq<Call>)
    ensures var p := ApplyAll(projects, cfg, stopOnError, remote, issued);
            && ApplyStatus(p.status, stopOnError)
            && (!stopOnError && NoAuthErrors(remote)
                && (forall i :: 0 <= i < |projects| ==> projects[i].pathWithNamespace !in remote.unreachable)
                ==> p.status.Ok?)
    decreases |projects|
  {
    if projects != [] {
      ProtectStatus(projects[0], cfg, stopOnError, remote, issued);
      var p := ProtectSpec(projects[0], cfg, stopOnError, remote, issued);
      if p.status.Ok? {
        ApplyAllStatus(projects[1..], cfg, stopOnError, remote, p.issued);
        assert forall i :: 0 <= i < |projects[1..]| ==> projects[1..][i] == projects[i + 1];
      }
    }
  }

  /** Validated rules whose names are strings each make exactly one call, in file order. */
  lemma {:induction false} ValidatedRulesAllSent(kind: RuleKind, path: string, rules: seq<Rule>)
    requires forall i :: 0 <= i < |rules| ==> WellFormedRule(Mapping(rules[i])) && rules[i][NameField].Str?
    ensures var calls := RuleCalls(kind, path, rules);
            && |calls| == |rules|
            && forall i :: 0 <= i < |rules| ==>
                 calls[i] == Call(path, if kind == Tags then TagPayloadOf(rules[i]) else BranchPayloadOf(rules[i]))
    decreases |rules|
  {
    if rules != [] {
      ValidatedRuleIsSent(kind, rules[0], false, Created);
      ValidatedRulesAllSent(kind, path, rules[1..]);
      var calls := RuleCalls(kind, path, rules);
      forall i | 0 <= i < |rules|
        ensures calls[i] == Call(path, if kind == Tags then TagPayloadOf(rules[i]) else BranchPayloadOf(rules[i]))
      {
        if i > 0 { assert rules[1..][i - 1] == rules[i]; }
      }
    }
  }

  /** `run` returns one of the exit codes the program defines, and never 2 (that one belongs to argument parsing). */
  lemma RunReturnsDefinedCode(config: RunConfig, source: ConfigSource, remote: Remote, projects0: seq<Project>)
    ensures var r := RunSpec(config, source, remote, projects0);
            ExitCodes.IsDefined(r.code) && r.code != ExitCodes.MissingArguments
    // 21 and 22 only come back under stop-on-error
    ensures var r := RunSpec(config, source, remote, projects0);
            r.code == ExitCodes.CreateTagError || r.code == ExitCodes.CreateBranchError ==> config.stopOnError
  {
    match Load(source)
    case Failure(e) =>
    case Success(cfg) =>
      var c := Collect(remote.rootProjects, remote.subgroups, remote.groupProjects, config.exclude);
      ApplyAllStatus(projects0 + c.added, cfg, config.stopOnError, remote, []);
  }

  /**
   * Stages run strictly in order and a failing stage makes no create call: a
   * missing file gives 10, a bad file 11, a rejected token 30, a client or
   * collection failure 20. A dry run makes no create call and returns 0 once
   * the earlier stages succeed.
   */
  lemma StagesBeforeApplying(config: RunConfig, source: ConfigSource, remote: Remote, projects0: seq<Project>)
    ensures var r := RunSpec(config, source, remote, projects0);
            && (!source.fileExists ==> r == RunOutcome(ExitCodes.ConfigNotFound, []))
            && (source.fileExists && Load(source).Failure? ==> r == RunOutcome(ExitCodes.ConfigParseError, []))
            && (Load(source).Success? && remote.auth == AuthRejected ==> r == RunOutcome(ExitCodes.AuthError, []))
            && (Load(source).Success? && (remote.auth == ClientFailure || remote.auth == AuthFailure) ==>
                  r == RunOutcome(ExitCodes.GitlabError, []))
            && (Load(source).Success? && remote.auth.Authenticated?
                && Collect(remote.rootProjects, remote.subgroups, remote.groupProjects, config.exclude).failed
                ==> r == RunOutcome(ExitCodes.GitlabError, []))
            && (config.dryRun ==> r.issued == [])
            && (config.dryRun && Load(source).Success? && remote.auth.Authenticated?
                && !Collect(remote.rootProjects, remote.subgroups, remote.groupProjects, config.exclude).failed
                ==> r.code == ExitCodes.Success)
  {
  }

  /**
   * `run` returns 1 exactly when a stage raises an exception other than
   * `SystemExit`; every `sys.exit` of the program carries an int code other
   * than 1.
   */
  lemma RunReturnsOneIffRaised(config: RunConfig, source: ConfigSource, remote: Remote, projects0: seq<Project>)
    ensures RunSpec(config, source, remote, projects0).code == ExitCodes.ExecutionError
            <==> RunProgress(config, source, remote, projects0).status == Raised
  {
    match Load(source)
    case Failure(e) =>
    case Success(cfg) =>
      var c := Collect(remote.rootProjects, remote.subgroups, remote.groupProjects, config.exclude);
      ApplyAllStatus(projects0 + c.added, cfg, config.stopOnError, remote, []);
  }

  /**
   * A collected project whose full object cannot be fetched makes `run`
   * return 1: when it is the first project, before any create call.
   */
  lemma UnreachableFirstProjectReturnsOne(config: RunConfig, source: ConfigSource, remote: Remote, projects0: seq<Project>)
    requires Load(source).Success? && remote.auth.Authenticated? && !config.dryRun
    requires var c := Collect(remote.rootProjects, remote.subgroups, remote.groupProjects, config.exclude);
             !c.failed && projects0 + c.added != [] && (projects0 + c.added)[0].pathWithNamespace in remote.unreachable
    ensures RunSpec(config, source, remote, projects0) == RunOutcome(ExitCodes.ExecutionError, [])
  {
  }

  /**
   * In apply mode the calls made are a prefix of "for each collected project
   * in order: its tag rules, then its branch rules"; with stop-on-error off,
   * no authentication error and every project reachable, the run returns 0
   * having made all of them.
   */
  lemma RunAppliesInOrder(config: RunConfig, source: ConfigSource, remote: Remote, projects0: seq<Project>)
    requires Load(source).Success? && remote.auth.Authenticated? && !config.dryRun
    requires !Collect(remote.rootProjects, remote.subgroups, remote.groupProjects, config.exclude).failed
    ensures var projects := projects0 + Collect(remote.rootProjects, remote.subgroups, remote.groupProjects, config.exclude).added;
            var all := AllCalls(projects, Load(source).value);
            var r := RunSpec(config, source, remote, projects0);
            && r.issued <= all
            && (r.code == ExitCodes.Success ==> r.issued == all)
            && (!config.stopOnError && NoAuthErrors(remote)
                && (forall i :: 0 <= i < |projects| ==> projects[i].pathWithNamespace !in remote.unreachable)
                ==> r == RunOutcome(ExitCodes.Success, all))
  {
    var projects := projects0 + Collect(remote.rootProjects, remote.subgroups, remote.groupProjects, config.exclude).added;
    ApplyAllIssuesPrefix(projects, Load(source).value, config.stopOnError, remote, []);
    ApplyAllStatus(projects, Load(source).value, config.stopOnError, remote, []);
    assert [] + AllCalls(projects, Load(source).value) == AllCalls(projects, Load(source).value);
  }

  /** The repository's main class: the settings, the API handle, the collected projects and the loaded rules. */
  class GitLabProtector {
    const config: RunConfig
    var apiReady: bool                            // gitlab_api is not None
    var projects: seq<Project>
    var protectionConfig: Option<ProtectionConfig>

    constructor (config: RunConfig)
      ensures this.config == config
      ensures !apiReady && projects == [] && protectionConfig == None
    {
      this.config := config;
      apiReady := false;
      projects := [];
      protectionConfig := None;
    }

    /** `_load_protection_config` */
    method LoadProtectionConfig(source: ConfigSource) returns (s: Status)
      modifies this`protectionConfig
      ensures Load(source).Success? ==> s == Ok && protectionConfig == Some(Load(source).value)
      ensures Load(source).Failure? ==>
                s == ExitStatus(ExitCodeOf(Load(source).error)) && protectionConfig == old(protectionConfig)
    {
      var r := LoadAndValidateConfig(source);
      if r.Failure? {
        return ExitStatus(ExitCodeOf(r.error));
      }
      protectionConfig := Some(r.value);
      s := Ok;
    }

    /** `_initialize_gitlab_api`: the handle is kept once the client is built, even if auth() then fails. */
    method InitializeGitlabApi(remote: Remote) returns (s: Status)
      modifies this`apiReady
      ensures s == AuthStatus(remote.auth)
      ensures apiReady == if remote.auth == ClientFailure then old(apiReady) else true
    {
      if remote.auth == ClientFailure {
        return ExitStatus(ExitCodes.GitlabError);
      }
      apiReady := true;
      s := AuthStatus(remote.auth);
    }

    /** `_add_projects_from_group`: append the group's projects one by one. */
    method AddProjectsFromGroup(groupProjects: seq<Project>)
      modifies this`projects
      ensures projects == old(projects) + groupProjects
    {
      for i := 0 to |groupProjects|
        invariant projects == old(projects) + groupProjects[..i]
      {
        projects := projects + [groupProjects[i]];
      }
    }

    /** `_process_subgroups`: the FIFO walk over the recursive listing, filled once and never extended. */
    method ProcessSubgroups(remote: Remote) returns (s: Status)
      modifies this`projects
      ensures !apiReady || remote.subgroups.None? ==>
                s == ExitStatus(ExitCodes.GitlabError) && projects == old(projects)
      ensures apiReady && remote.subgroups.Some? ==>
                var w := Walk(remote.subgroups.value, {}, config.exclude, remote.groupProjects);
                && projects == old(projects) + w.added
                && s == if w.failed then ExitStatus(ExitCodes.GitlabError) else Ok
    {
      if !apiReady || remote.subgroups.None? {
        return ExitStatus(ExitCodes.GitlabError);
      }
      var toVisit := remote.subgroups.value;
      var visited: set<int> := {};
      ghost var whole := Walk(toVisit, visited, config.exclude, remote.groupProjects);
      ghost var added: seq<Project> := [];
      while toVisit != []
        invariant projects == old(projects) + added
        invariant var rest := Walk(toVisit, visited, config.exclude, remote.groupProjects);
                  whole == Collected(added + rest.added, rest.failed)
      {
        var subgroup := toVisit[0];
        toVisit := toVisit[1..];
        if subgroup.id.None? || subgroup.id.value in visited {
          continue;
        }
        var subgroupId := subgroup.id.value;
        visited := visited + {subgroupId};
        if Excluded(config.exclude, subgroup.fullPath) {
          continue;
        }
        if subgroupId !in remote.groupProjects {
          return ExitStatus(ExitCodes.GitlabError);
        }
        AddProjectsFromGroup(remote.groupProjects[subgroupId]);
        added := added + remote.groupProjects[subgroupId];
      }
      s := Ok;
    }

    /** `_collect_projects`: the root group's projects, then the subgroups'. */
    method CollectProjects(remote: Remote) returns (s: Status)
      modifies this`projects
      ensures !apiReady ==> s == ExitStatus(ExitCodes.GitlabError) && projects == old(projects)
      ensures apiReady ==>
                var c := Collect(remote.rootProjects, remote.subgroups, remote.groupProjects, config.exclude);
                && projects == old(projects) + c.added
                && s == if c.failed then ExitStatus(ExitCodes.GitlabError) else Ok
    {
      if !apiReady || remote.rootProjects.None? {
        return ExitStatus(ExitCodes.GitlabError);
      }
      AddProjectsFromGroup(remote.rootProjects.value);
      s := ProcessSubgroups(remote);
    }

    /** `_protect_project`: nothing without an API handle and rules; otherwise fetch the project, then tags, then branches. */
    method ProtectProject(project: Project, remote: Remote, issued0: seq<Call>) returns (issued: seq<Call>, s: Status)
      ensures !apiReady || protectionConfig.None? ==> issued == issued0 && s == Ok
      ensures apiReady && protectionConfig.Some? ==>
                Progress(issued, s) == ProtectSpec(project, protectionConfig.value, config.stopOnError, remote, issued0)
    {
      if !apiReady || protectionConfig.None? {
        return issued0, Ok;
      }
      var cfg := protectionConfig.value;
      var path := project.pathWithNamespace;
      if path in remote.unreachable {
        return issued0, Raised;
      }
      issued := issued0;
      for i := 0 to |cfg.tags|
        invariant ApplyRules(Tags, path, cfg.tags, config.stopOnError, remote.respond, issued0)
                  == ApplyRules(Tags, path, cfg.tags[i..], config.stopOnError, remote.respond, issued)
      {
        assert cfg.tags[i..][1..] == cfg.tags[i + 1..];
        var a := ApplyTag(cfg.tags[i], config.stopOnError, remote.respond(|issued|));
        if a.call.Some? {
          issued := issued + [Call(path, a.call.value)];
        }
        if a.step.Exit? {
          return issued, ExitStatus(a.step.code);
        }
      }
      ghost var afterTags := issued;
      for i := 0 to |cfg.branches|
        invariant ApplyRules(Branches, path, cfg.branches, config.stopOnError, remote.respond, afterTags)
                  == ApplyRules(Branches, path, cfg.branches[i..], config.stopOnError, remote.respond, issued)
      {
        assert cfg.branches[i..][1..] == cfg.branches[i + 1..];
        var a := ApplyBranch(cfg.branches[i], config.stopOnError, remote.respond(|issued|));
        if a.call.Some? {
          issued := issued + [Call(path, a.call.value)];
        }
        if a.step.Exit? {
          return issued, ExitStatus(a.step.code);
        }
      }
      s := Ok;
    }

    /** `_apply_protections`: every collected project, in collection order. */
    method ApplyProtections(remote: Remote) returns (issued: seq<Call>, s: Status)
      ensures !apiReady || protectionConfig.None? ==> issued == [] && s == Ok
      ensures apiReady && protectionConfig.Some? ==>
                Progress(issued, s) == ApplyAll(projects, protectionConfig.value, config.stopOnError, remote, [])
    {
      issued, s := [], Ok;
      for i := 0 to |projects|
        invariant !apiReady || protectionConfig.None? ==> issued == [] && s == Ok
        invariant apiReady && protectionConfig.Some? ==>
                    ApplyAll(projects, protectionConfig.value, config.stopOnError, remote, [])
                    == ApplyAll(projects[i..], protectionConfig.value, config.stopOnError, remote, issued)
        invariant s == Ok
      {
        assert projects[i..][0] == projects[i] && projects[i..][1..] == projects[i + 1..];
        issued, s := ProtectProject(projects[i], remote, issued);
        if !s.Ok? {
          return;
        }
      }
    }

    /** `run()`: the stages in sequence; the exit code comes from the first stage that ends the run. */
    method Run(source: ConfigSource, remote: Remote) returns (code: int, issued: seq<Call>)
      modifies this
      ensures RunOutcome(code, issued) == RunSpec(config, source, remote, old(projects))
      // a configuration that does not load leaves the protector as it was
      ensures Load(source).Failure? ==>
                protectionConfig == old(protectionConfig) && apiReady == old(apiReady) && projects == old(projects)
      // otherwise the rules are stored, and the handle is kept once the client is built
      ensures Load(source).Success? ==>
                && protectionConfig == Some(Load(source).value)
                && apiReady == (if remote.auth == ClientFailure then old(apiReady) else true)
      // projects are collected only after authentication succeeds, and kept even when collection then fails
      ensures Load(source).Success? && !remote.auth.Authenticated? ==> projects == old(projects)
      ensures Load(source).Success? && remote.auth.Authenticated? ==>
                projects == old(projects) + Collect(remote.rootProjects, remote.subgroups, remote.groupProjects, config.exclude).added
    {
      var s := LoadProtectionConfig(source);
      if !s.Ok? {
        return ReturnCode(s), [];
      }
      s := InitializeGitlabApi(remote);
      if !s.Ok? {
        return ReturnCode(s), [];
      }
      s := CollectProjects(remote);
      if !s.Ok? {
        return ReturnCode(s), [];
      }
      if config.dryRun {
        return ExitCodes.Success, [];
      }
      issued, s := ApplyProtections(remote);
      code := ReturnCode(s);
    }
  }
}
