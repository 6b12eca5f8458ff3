# gitlab-protector in Dafny

gitlab-protector reads a YAML file of tag and branch protection rules. It
validates every rule, then logs in to GitLab and collects every project of a
namespace and of its subgroups. After that it either only reports (dry run)
or creates the protected tags and protected branches on each project. Every
failure maps to a documented process exit code.

This project models that core and proves what it promises:

- `ConfigValidator` (config_validator.dfy): `load_and_validate_config` and
  `_validate_protection_rules`. The file system and the YAML parser are
  inputs: whether the file exists, and the parsed document or a parse error.
  The document is a `Yaml.Value` (yaml_value.dfy), and `Load` is the
  function that specifies both methods.
- `AccessLevels` (access_levels.dfy): the `ACCESS_LEVELS` table, its eight
  names and the numeric values GitLab receives for them.
- `ProtectionManager` (protection_manager.dfy): `apply_tag_protection` and
  `apply_branch_protection` as functions of the rule, the stop-on-error flag
  and what the create call reports. They return the payload sent, if any,
  the step that follows (go on, or `sys.exit(k)`), and whether the
  "merge level ignored" warning is logged.
- `Collection` (collection.dfy): the specification of `_collect_projects`,
  `_process_subgroups` and `_is_excluded`. It also gives an independent
  description of the subgroup walk: keep the first stub of each id whose
  path is not excluded, then fetch those groups in listing order.
- `Protector` (protector.dfy): the class `GitLabProtector`. Its fields are
  the settings, the API handle, the collected projects and the loaded rules.
  Its methods are `run` and its stages, with the same loops as the Python program.
  GitLab is a `Remote` value holding:
  - the authentication outcome;
  - the root group's projects;
  - the recursive subgroup listing;
  - the projects of each subgroup that can be fetched;
  - the projects that cannot be fetched;
  - the answer to the n-th create call.

  The create calls made are returned as a sequence. `RunSpec` is the
  function that specifies `Run`.
- `ExitCodes` (exit_codes.dfy) holds the exit codes. `Wrappers`
  (wrappers.dfy) holds `Option` and `Result`.

## Model

| member | source | states |
|---|---|---|
| AccessLevels.Parse | gitlab-protector.py:65-74 | a name resolves to a level exactly when it is that level's key; every other string resolves to nothing |
| AccessLevels.ParseName | gitlab-protector.py:44-74 | each of the eight levels is found again under its own name |
| AccessLevels.TestedCodes | tests/test_config.py:248-253 | `reporter`, `developer` and `maintainer` are keys of ACCESS_LEVELS whose values are 20, 30 and 40 |
| ConfigValidator.RuleProblem | gitlab-protector.py:141-166 | a rule is rejected exactly when it is not well formed; the problem reported is the first check failed, in source order: not a mapping, then name, merge, push missing, then merge or push level not a key of ACCESS_LEVELS |
| ConfigValidator.FirstItemError | gitlab-protector.py:141-166 | no error exactly when every rule from the start index is well formed; otherwise the error names the first failing index, and every earlier rule is well formed |
| ConfigValidator.FirstRuleError | gitlab-protector.py:139-166 | validation passes exactly for a list of well-formed rules, an empty string or an empty mapping; a non-empty string or mapping fails at index 0; a scalar or null is not iterable; a list reports its first failing rule; the error carries the kind of rule |
| ConfigValidator.ValidateProtectionRules | gitlab-protector.py:139-166 | the enumerating loop stops at the first failing rule and returns the error of `FirstRuleError` |
| ConfigValidator.RulesOf | gitlab-protector.py:117-129 | the configuration keeps the validated rules as written and in file order; a validated non-list yields no rules |
| ConfigValidator.Load | gitlab-protector.py:102-136 | loading succeeds exactly when the file exists, parses to a mapping and both rule lists validate; a missing file exits 10 and every other failure exits 11; tags are checked before branches; the rules come back in file order |
| ConfigValidator.AbsentKeyYieldsNoRules | gitlab-protector.py:117-118 | an absent `tags` or `branches` key yields no rules |
| ConfigValidator.LoadAndValidateConfig | gitlab-protector.py:102-136 | the step-by-step loader returns exactly `Load`'s result |
| ProtectionManager.ApplyTag | gitlab-protector.py:173-219 | the call is made exactly for a string name, a known push level and a merge level whose membership test does not raise; a call that fails authentication exits 30; 422 and success go on; any other failure exits 21 under stop-on-error, else goes on; without a call it goes on, except that a string name with a known push level and a set, unhashable merge level exits 21 exactly under stop-on-error; the payload names the rule, grants creation at the push level and allows nobody else |
| ProtectionManager.ApplyBranch | gitlab-protector.py:222-274 | the call is made exactly for a string name and two known levels; authentication failure exits 30; 409 and success go on; other failures exit 22 under stop-on-error; a malformed rule makes no call and never exits; the payload carries both levels, no force-push and no code-owner approval; no warning |
| ProtectionManager.SentIsFixed | gitlab-protector.py:178-205 | whether a call is made, and its payload, depend only on the rule, not on stop-on-error or on what the call reports |
| ProtectionManager.AppliedExitCodes | gitlab-protector.py:207-274 | an applier exits only with 30, or with its kind's code (21 or 22) under stop-on-error; without an authentication error and without stop-on-error it always goes on |
| ProtectionManager.ValidatedRuleIsSent | gitlab-protector.py:186-205 | a validated rule with a string name always makes the create call, with the levels looked up in ACCESS_LEVELS, and never logs the tag warning |
| ProtectionManager.NonStringNameIsSkipped | gitlab-protector.py:182-184 | a validated rule whose name is not a string is logged and skipped: no call, no exit |
| ProtectionManager.TagIgnoresMergeLevel | gitlab-protector.py:192-205 | the merge level of a tag rule never changes the payload or the step, as long as testing it does not raise |
| ProtectionManager.TagWarningOnlyForInvalidMerge | gitlab-protector.py:192-195 | the tag warning is logged exactly when a call is made and the merge level is set but not a valid level |
| ProtectionManager.TagUsesPushLevelScenario | tests/test_gitlab_protector.py:231-246 | rule `v*` (merge maintainer, push developer) creates one tag protection at developer's value 30 |
| Collection.ContainsIffOccurs | gitlab-protector.py:458 | the left-to-right scan is substring containment |
| Collection.Excluded | gitlab-protector.py:455-459 | no pattern, or an empty one, excludes nothing; otherwise a path is excluded exactly when the pattern occurs in it |
| Collection.WalkIsFilterThenFetch | gitlab-protector.py:436-449 | the queue-and-visited-set walk equals keeping the first stub of each id whose path is not excluded, then fetching those groups in order |
| Collection.KeptIdsMembers | gitlab-protector.py:439-449 | an id is fetched exactly when some first-seen, non-excluded stub carries it |
| Collection.KeptIdsDistinct | gitlab-protector.py:439-442 | no subgroup id is fetched twice, even when the listing repeats it |
| Collection.FetchAllFails | gitlab-protector.py:448-453 | fetching the kept groups fails exactly when one of them cannot be fetched |
| Collection.CollectIsRootThenKept | gitlab-protector.py:379-453 | the collected projects are the root's, then those of the kept subgroups in listing order; collection fails exactly when a kept subgroup cannot be fetched; the fetched ids are distinct |
| Collection.ExcludedSubgroupNeverFetched | gitlab-protector.py:442-446 | a subgroup whose first listing is excluded is never fetched, not even through a later duplicate |
| Collection.IncludedSubgroupFetched | gitlab-protector.py:442-449 | a subgroup whose first listing is not excluded is fetched |
| Collection.RootThenSubgroupScenario | tests/test_gitlab_protector.py:168-219 | one root project and subgroup 321 with one project yield both projects, root first |
| Protector.ApplyRulesPrefix | gitlab-protector.py:497-508 | one rule loop makes a prefix of its rules' calls in file order, and all of them when it ends normally |
| Protector.ApplyRulesStatus | gitlab-protector.py:497-508 | one rule loop ends normally or exits with 30 or its kind's code, never raises, and ends normally when stop-on-error is off and no call fails authentication |
| Protector.ProtectIssuesPrefix | gitlab-protector.py:486-508 | one project gets a prefix of its tag calls followed by its branch calls, and all of them when it ends normally |
| Protector.ProtectStatus | gitlab-protector.py:486-508 | one project ends normally or exits with an applier's code; it raises exactly when it cannot be fetched, and then before any create call; with stop-on-error off, no authentication error and a reachable project it ends normally |
| Protector.ApplyAllIssuesPrefix | gitlab-protector.py:481-484 | applying protections makes a prefix of every project's calls in collection order, and all of them when it ends normally |
| Protector.ApplyAllStatus | gitlab-protector.py:481-484 | applying protections ends normally when stop-on-error is off, no call fails authentication and every project is reachable |
| Protector.ValidatedRulesAllSent | gitlab-protector.py:497-508 | validated rules with string names make exactly one call each, in file order, with the ACCESS_LEVELS payload |
| Protector.RunReturnsDefinedCode | gitlab-protector.py:335-355 | `run` returns one of the program's exit codes and never 2; 21 and 22 only come back under stop-on-error |
| Protector.StagesBeforeApplying | gitlab-protector.py:335-355 | stages run in order and a failing stage makes no call: missing file 10, bad file 11, rejected token 30, client or collection failure 20; a dry run makes no call and returns 0 once the earlier stages succeed |
| Protector.ReturnCode | gitlab-protector.py:351-355 | a normal end returns 0, a `SystemExit` with an int code returns that code, any other exception or exit argument returns 1 |
| Protector.RunReturnsOneIffRaised | gitlab-protector.py:335-355 | `run` returns 1 exactly when a stage raises an exception other than `SystemExit` |
| Protector.UnreachableFirstProjectReturnsOne | gitlab-protector.py:496 | a first collected project that cannot be fetched makes `run` return 1 before any create call |
| Protector.RunAppliesInOrder | gitlab-protector.py:335-355 | in apply mode the calls made are a prefix of every collected project's tag then branch calls, all of them when `run` returns 0; with stop-on-error off, no authentication error and every project reachable it returns 0 having made all of them |
| Protector.GitLabProtector.constructor | gitlab-protector.py:328-333 | a new protector has no API handle, no projects and no rules |
| Protector.GitLabProtector.LoadProtectionConfig | gitlab-protector.py:357-361 | stores the loaded rules, or exits with the loader's code and keeps the old ones |
| Protector.GitLabProtector.InitializeGitlabApi | gitlab-protector.py:363-377 | ends as the authentication outcome says (30 for a rejected token, 20 otherwise); the handle is kept once the client is built |
| Protector.GitLabProtector.AddProjectsFromGroup | gitlab-protector.py:410-420 | appends the group's projects, in order, to the collected ones |
| Protector.GitLabProtector.ProcessSubgroups | gitlab-protector.py:422-453 | without a handle or a listing it exits 20 and adds nothing; otherwise it appends what the walk specification adds and exits 20 exactly when the walk fails |
| Protector.GitLabProtector.CollectProjects | gitlab-protector.py:379-408 | appends the root's projects and then the subgroups' as `Collect` specifies, and exits 20 exactly when collection fails |
| Protector.GitLabProtector.ProtectProject | gitlab-protector.py:486-508 | without a handle or rules it does nothing; otherwise its calls and status are those of `ProtectSpec` |
| Protector.GitLabProtector.ApplyProtections | gitlab-protector.py:481-484 | protects every collected project in order until one stops the run, as `ApplyAll` specifies |
| Protector.GitLabProtector.Run | gitlab-protector.py:335-355 | the code returned and the calls made are those of `RunSpec`; a configuration that does not load leaves the protector unchanged; otherwise the rules are stored, the handle is kept once the client is built, and the projects are extended by the collected ones only after authentication succeeds |

## Left out

- Logging (`Logger`, the coloured output and every message text) is not modelled. Only the tag warning's presence is kept, as a flag.
- `parse_arguments` and `main` are left out: command-line and environment parsing (exit 2) lie outside the core.
- `_display_protection_summary` only logs, so the dry run is modelled as "no call, return 0".
- File existence and YAML parsing are inputs to the loader. Floats and non-string mapping keys are not part of `Yaml.Value`; no decision of the program depends on them.
- python-gitlab is an oracle (`Remote`). The n-th create call's answer is a function of n alone, not of the project or the payload.
- `Remote.groupProjects` reports a group's listing as all or nothing. A listing that fails part-way is not modelled: in gitlab-protector the projects already appended stay, but the run then exits 20 anyway.
- A root group without a subgroup manager is the same as an empty listing (`Some([])`).
- AccessLevels.Code: only the values 20, 30 and 40 are pinned by the repository; the other five are python-gitlab's constants, which gitlab-protector takes from that library and does not itself state.
- ConfigValidator.RuleProblem: a list or mapping given as an access level makes Python's membership test raise TypeError rather than ValueError. It is modelled as `InvalidLevel`, since both exit 11.
- ConfigValidator.RulesOf: a validated empty string or empty mapping is stored as an empty rule list, where Python keeps the value as parsed. Iterating either yields nothing, so the behaviour is the same.
- Because validation requires a valid merge level, the tag warning of `apply_tag_protection` (and its unhashable-level error branch) cannot occur in a run. `ApplyTag` still models both for arbitrary rules.
