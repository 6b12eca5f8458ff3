/**
 * ProtectionManager: applying one tag rule or one branch rule to one project
 * (gitlab-protector.py:169-274).
 *
 * The create call is not made here: the applier decides whether to make it
 * and with which payload, and classifies the outcome the remote service
 * reports for it. `sys.exit(k)` becomes the step `Exit(k)`.
 */
module ProtectionManager {
  import opened Wrappers
  import opened Yaml
  import opened AccessLevels
  import opened ConfigValidator
  import ExitCodes

  /** HTTP status with which GitLab reports that a tag protection already exists. */
  const TagExistsStatus := 422
  /** HTTP status with which GitLab reports that a branch protection already exists. */
  const BranchExistsStatus := 409

  /** What the remote service answers to a create call. */
  datatype CallOutcome =
    | Created
    | AuthenticationError                 // GitlabAuthenticationError
    | CreateError(responseCode: int)      // GitlabCreateError
    | OtherError                          // any other exception

  /** Whether processing goes on after a rule, or the process exits with a code. */
  datatype Step = Continue | Exit(code: int)

  /** The body of a create call: a protected tag or a protected branch. */
  datatype Payload =
    | TagProtection(name: string, createAccessLevel: AccessLevel, allowedToCreate: seq<Value>)
    | BranchProtection(name: string, mergeAccessLevel: AccessLevel, pushAccessLevel: AccessLevel,
                       allowForcePush: bool, codeOwnerApprovalRequired: bool)

  /**
   * What applying one rule does: the payload of the create call, if one is
   * made; the step that follows; and whether the "merge_access_level ...
   * ignored" warning is logged.
   */
  datatype Applied = Applied(call: Option<Payload>, step: Step, mergeIgnoredWarning: bool)

  /** The failure branch of an applier: exit with `code` under stop-on-error, else go on. */
  function OnFailure(stopOnError: bool, code: int): Step
  {
    if stopOnError then Exit(code) else Continue
  }

  /** The except clauses around a create call, for a resource whose "already exists" status is `existsStatus`. */
  function Classify(outcome: CallOutcome, existsStatus: int, errorCode: int, stopOnError: bool): Step
  {
    match outcome
    case Created => Continue
    case AuthenticationError => Exit(ExitCodes.AuthError)
    case CreateError(status) => if status == existsStatus then Continue else OnFailure(stopOnError, errorCode)
    case OtherError => OnFailure(stopOnError, errorCode)
  }

  /**
   * `apply_tag_protection(project, rule, stop_on_error)`, where `outcome` is
   * what the create call reports if it is made.
   */
  function ApplyTag(rule: Rule, stopOnError: bool, outcome: CallOutcome): (r: Applied)
    // the call is made exactly for a string name, a known push level and a merge level whose test does not raise
    ensures r.call.Some? <==>
              && Get(rule, NameField, Str("")).Str? && IsLevel(Get(rule, PushField, Str("")))
              && (!Truthy(Get(rule, MergeField, Str(""))) || Hashable(Get(rule, MergeField, Str(""))))
    // an authentication error is fatal whatever stop-on-error says
    ensures r.call.Some? && outcome.AuthenticationError? ==> r.step == Exit(ExitCodes.AuthError)
    // "already exists" is swallowed
    ensures r.call.Some? && outcome == CreateError(TagExistsStatus) ==> r.step == Continue
    // a created protection goes on
    ensures r.call.Some? && outcome.Created? ==> r.step == Continue
    // any other failure goes on, unless stop-on-error asks for exit 21
    ensures r.call.Some? && (outcome.OtherError? || (outcome.CreateError? && outcome.responseCode != TagExistsStatus)) ==>
              r.step == (if stopOnError then Exit(ExitCodes.CreateTagError) else Continue)
    // without a create call the outcome plays no part: a malformed rule or an unknown push level goes on;
    // only a set, unhashable merge level raises in the membership test, which exits 21 under stop-on-error
    ensures r.call.None? ==>
              r.step == (if && stopOnError
                            && Get(rule, NameField, Str("")).Str? && IsLevel(Get(rule, PushField, Str("")))
                            && Truthy(Get(rule, MergeField, Str(""))) && !Hashable(Get(rule, MergeField, Str("")))
                         then Exit(ExitCodes.CreateTagError) else Continue)
    // the payload names the rule and grants creation at its push level
    ensures r.call.Some? ==>
              && r.call.value.TagProtection?
              && Get(rule, NameField, Str("")) == Str(r.call.value.name)
              && Get(rule, PushField, Str("")) == Str(Name(r.call.value.createAccessLevel))
              && r.call.value.allowedToCreate == []
  {
    var name := Get(rule, NameField, Str(""));
    var push := Get(rule, PushField, Str(""));
    var merge := Get(rule, MergeField, Str(""));
    if !name.Str? || !push.Str? then
      Applied(None, Continue, false)                      // invalid rule format: logged, no call
    else if Parse(push.s).None? then
      Applied(None, Continue, false)                      // invalid push level: logged, no call
    else if Truthy(merge) && !Hashable(merge) then
      // `merge_level not in ACCESS_LEVELS` raises TypeError: the "unexpected error" branch
      Applied(None, OnFailure(stopOnError, ExitCodes.CreateTagError), false)
    else
      var payload := TagProtection(name.s, Parse(push.s).value, []);
      Applied(Some(payload),
              Classify(outcome, TagExistsStatus, ExitCodes.CreateTagError, stopOnError),
              Truthy(merge) && !IsLevel(merge))
  }

  /**
   * `apply_branch_protection(project, rule, stop_on_error)`, where `outcome`
   * is what the create call reports if it is made.
   */
  function ApplyBranch(rule: Rule, stopOnError: bool, outcome: CallOutcome): (r: Applied)
    // the call is made exactly for a string name and two known levels
    ensures r.call.Some? <==>
              Get(rule, NameField, Str("")).Str? && IsLevel(Get(rule, MergeField, Str(""))) && IsLevel(Get(rule, PushField, Str("")))
    ensures r.call.Some? && outcome.AuthenticationError? ==> r.step == Exit(ExitCodes.AuthError)
    ensures r.call.Some? && outcome == CreateError(BranchExistsStatus) ==> r.step == Continue
    ensures r.call.Some? && outcome.Created? ==> r.step == Continue
    ensures r.call.Some? && (outcome.OtherError? || (outcome.CreateError? && outcome.responseCode != BranchExistsStatus)) ==>
              r.step == (if stopOnError then Exit(ExitCodes.CreateBranchError) else Continue)
    // a malformed rule makes no call and never exits
    ensures r.call.None? ==> r.step == Continue
    ensures !r.mergeIgnoredWarning
    // the payload carries both levels and never allows force-push or requires code-owner approval
    ensures r.call.Some? ==>
              && r.call.value.BranchProtection?
              && Get(rule, NameField, Str("")) == Str(r.call.value.name)
              && Get(rule, MergeField, Str("")) == Str(Name(r.call.value.mergeAccessLevel))
              && Get(rule, PushField, Str("")) == Str(Name(r.call.value.pushAccessLevel))
              && !r.call.value.allowForcePush && !r.call.value.codeOwnerApprovalRequired
  {
    var name := Get(rule, NameField, Str(""));
    var merge := Get(rule, MergeField, Str(""));
    var push := Get(rule, PushField, Str(""));
    if !name.Str? || !merge.Str? || !push.Str? then
      Applied(None, Continue, false)                      // invalid rule format: logged, no call
    else if Parse(merge.s).None? || Parse(push.s).None? then
      Applied(None, Continue, false)                      // invalid access levels: logged, no call
    else
      var payload := BranchProtection(name.s, Parse(merge.s).value, Parse(push.s).value, false, false);
      Applied(Some(payload),
              Classify(outcome, BranchExistsStatus, ExitCodes.CreateBranchError, stopOnError),
              false)
  }

  /** The applier for a rule of the given kind. */
  function ApplyRule(kind: RuleKind, rule: Rule, stopOnError: bool, outcome: CallOutcome): Applied
  {
    match kind
    case Tags => ApplyTag(rule, stopOnError, outcome)
    case Branches => ApplyBranch(rule, stopOnError, outcome)
  }

  /** The payload sent for a rule, if any; it does not depend on stop-on-error or on the outcome. */
  function Sent(kind: RuleKind, rule: Rule): Option<Payload>
  {
    ApplyRule(kind, rule, false, Created).call
  }

  /** The exit code of a non-tolerated failure for each kind of rule. */
  function FailureCode(kind: RuleKind): int
  {
    match kind
    case Tags => ExitCodes.CreateTagError
    case Branches => ExitCodes.CreateBranchError
  }

  /** Whether a call is made, and with what, is decided before the call: neither stop-on-error nor the outcome changes it. */
  lemma SentIsFixed(kind: RuleKind, rule: Rule, stopOnError: bool, outcome: CallOutcome)
    ensures ApplyRule(kind, rule, stopOnError, outcome).call == Sent(kind, rule)
  {
  }

  /** An exit from an applier is 30, or the kind's own code under stop-on-error. */
  lemma AppliedExitCodes(kind: RuleKind, rule: Rule, stopOnError: bool, outcome: CallOutcome)
    ensures var s := ApplyRule(kind, rule, stopOnError, outcome).step;
            s.Exit? ==> s.code == ExitCodes.AuthError || (stopOnError && s.code == FailureCode(kind))
    ensures !outcome.AuthenticationError? && !stopOnError ==> ApplyRule(kind, rule, stopOnError, outcome).step == Continue
  {
  }

  /** The payload a validated tag rule produces: its name and its push level; the merge level plays no part. */
  function TagPayloadOf(rule: Rule): Payload
    requires WellFormedRule(Mapping(rule)) && rule[NameField].Str?
  {
    TagProtection(rule[NameField].s, Parse(rule[PushField].s).value, [])
  }

  /** The payload a validated branch rule produces. */
  function BranchPayloadOf(rule: Rule): Payload
    requires WellFormedRule(Mapping(rule)) && rule[NameField].Str?
  {
    BranchProtection(rule[NameField].s, Parse(rule[MergeField].s).value, Parse(rule[PushField].s).value, false, false)
  }

  /**
   * A rule that passed validation and whose name is a string always makes the
   * create call, with the payload built through ACCESS_LEVELS; a validated tag
   * rule never logs the "ignored" warning, since its merge level is valid.
   */
  lemma ValidatedRuleIsSent(kind: RuleKind, rule: Rule, stopOnError: bool, outcome: CallOutcome)
    requires WellFormedRule(Mapping(rule))
    requires rule[NameField].Str?
    ensures var a := ApplyRule(kind, rule, stopOnError, outcome);
            && a.call == Some(if kind == Tags then TagPayloadOf(rule) else BranchPayloadOf(rule))
            && !a.mergeIgnoredWarning
  {
  }

  /** A rule that passed validation but whose name is not a string is logged and skipped: no call, no exit. */
  lemma NonStringNameIsSkipped(kind: RuleKind, rule: Rule, stopOnError: bool, outcome: CallOutcome)
    requires WellFormedRule(Mapping(rule))
    requires !rule[NameField].Str?
    ensures ApplyRule(kind, rule, stopOnError, outcome) == Applied(None, Continue, false)
  {
  }

  /**
   * The merge level of a tag rule never changes the payload or the step, as
   * long as evaluating it does not raise (it is a string, or any hashable or
   * empty value).
   */
  lemma TagIgnoresMergeLevel(rule: Rule, m1: Value, m2: Value, stopOnError: bool, outcome: CallOutcome)
    requires Hashable(m1) || !Truthy(m1)
    requires Hashable(m2) || !Truthy(m2)
    ensures var a1 := ApplyTag(rule[MergeField := m1], stopOnError, outcome);
            var a2 := ApplyTag(rule[MergeField := m2], stopOnError, outcome);
            a1.call == a2.call && a1.step == a2.step
  {
    var r1, r2 := rule[MergeField := m1], rule[MergeField := m2];
    assert Get(r1, NameField, Str("")) == Get(r2, NameField, Str(""));
    assert Get(r1, PushField, Str("")) == Get(r2, PushField, Str(""));
  }

  /**
   * The repository's tag-applier scenario: rule `v*` with merge level
   * maintainer and push level developer creates one protection whose create
   * level is developer's value, 30.
   */
  lemma TagUsesPushLevelScenario(outcome: CallOutcome)
    ensures var rule := map[NameField := Str("v*"), MergeField := Str("maintainer"), PushField := Str("developer")];
            var a := ApplyTag(rule, false, outcome);
            && a.call == Some(TagProtection("v*", Developer, []))
            && Code(a.call.value.createAccessLevel) == 30
  {
    var rule := map[NameField := Str("v*"), MergeField := Str("maintainer"), PushField := Str("developer")];
    assert Get(rule, NameField, Str("")) == Str("v*");
    assert Get(rule, PushField, Str("")) == Str("developer");
    assert Get(rule, MergeField, Str("")) == Str("maintainer");
  }

  /** The "ignored" warning is logged exactly when a call is made and the merge level is set and not a valid level. */
  lemma TagWarningOnlyForInvalidMerge(rule: Rule, stopOnError: bool, outcome: CallOutcome)
    ensures var a := ApplyTag(rule, stopOnError, outcome);
            var merge := Get(rule, MergeField, Str(""));
            a.mergeIgnoredWarning <==> a.call.Some? && Truthy(merge) && !IsLevel(merge)
  {
  }
}
