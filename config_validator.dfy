/**
 * ConfigValidator: loading the protection rules file and validating every
 * tag rule and branch rule before anything is sent to GitLab
 * (gitlab-protector.py:98-166).
 *
 * The file system and the YAML parser are inputs: a flag saying whether the
 * file exists and the outcome of parsing it.
 */
module ConfigValidator {
  import opened Wrappers
  import opened Yaml
  import AccessLevels
  import ExitCodes

  const NameField := "name"
  const MergeField := "merge_access_level"
  const PushField := "push_access_level"
  const TagsKey := "tags"
  const BranchesKey := "branches"

  /** ProtectionType: which list of the document a rule comes from. */
  datatype RuleKind = Tags | Branches

  /** One rule as it appears in the document: a mapping from field names to values. */
  type Rule = map<string, Value>

  /** The reason a single rule is rejected. */
  datatype Problem =
    | NotAMapping
    | MissingField(field: string)
    | InvalidLevel(field: string, value: Value)

  /** Why loading stops; the first one met is the one reported. */
  datatype ConfigError =
    | FileNotFound
    | Unparsable
    | DocumentNotAMapping
    | RulesNotIterable(kind: RuleKind)
    | InvalidRule(kind: RuleKind, index: nat, problem: Problem)

  /** The outcome of `yaml.safe_load` on the file's text. */
  datatype ParseOutcome = ParseError | Parsed(document: Value)

  /** What the loader is given: whether the path names a file, and what parsing it yields. */
  datatype ConfigSource = ConfigSource(fileExists: bool, parsed: ParseOutcome)

  /** ProtectionConfig: the validated tag and branch rules, in file order. */
  datatype ProtectionConfig = ProtectionConfig(tags: seq<Rule>, branches: seq<Rule>)

  /** The exit code `load_and_validate_config` leaves with for each error. */
  function ExitCodeOf(e: ConfigError): int
  {
    if e.FileNotFound? then ExitCodes.ConfigNotFound else ExitCodes.ConfigParseError
  }

  /** A value that is one of the eight ACCESS_LEVELS keys. */
  predicate IsLevel(v: Value)
  {
    v.Str? && AccessLevels.Parse(v.s).Some?
  }

  /** What a rule must satisfy to pass validation. */
  predicate WellFormedRule(v: Value)
  {
    && v.Mapping?
    && NameField in v.m && MergeField in v.m && PushField in v.m
    && IsLevel(v.m[MergeField]) && IsLevel(v.m[PushField])
  }

  /** The first check of `_validate_protection_rules` that a rule fails, in the order the source makes them. */
  function RuleProblem(v: Value): (p: Option<Problem>)
    ensures p.None? <==> WellFormedRule(v)
    ensures p == Some(NotAMapping) <==> !v.Mapping?
    ensures p.Some? && p.value.MissingField? ==> v.Mapping? && p.value.field !in v.m
    ensures p.Some? && p.value.InvalidLevel? ==>
              v.Mapping? && NameField in v.m && MergeField in v.m && PushField in v.m
              && p.value.field in v.m && p.value.value == v.m[p.value.field] && !IsLevel(p.value.value)
    // the fields are checked for presence in the order name, merge level, push level
    ensures p.Some? && p.value.MissingField? ==>
              && (p.value.field == NameField || p.value.field == MergeField || p.value.field == PushField)
              && (p.value.field != NameField ==> NameField in v.m)
              && (p.value.field == PushField ==> MergeField in v.m)
    // and then for their values, the merge level before the push level
    ensures p.Some? && p.value.InvalidLevel? ==>
              && (p.value.field == MergeField || p.value.field == PushField)
              && (p.value.field == PushField ==> IsLevel(v.m[MergeField]))
  {
    if !v.Mapping? then Some(NotAMapping)
    else if NameField !in v.m then Some(MissingField(NameField))
    else if MergeField !in v.m then Some(MissingField(MergeField))
    else if PushField !in v.m then Some(MissingField(PushField))
    else if !IsLevel(v.m[MergeField]) then Some(InvalidLevel(MergeField, v.m[MergeField]))
    else if !IsLevel(v.m[PushField]) then Some(InvalidLevel(PushField, v.m[PushField]))
    else None
  }

  /**
   * A rules value that passes validation: a list of well-formed rules, or one
   * of the two other iterables that yield nothing (an empty string, an empty
   * mapping).
   */
  predicate ValidRuleList(v: Value)
  {
    match v
    case List(items) => forall i :: 0 <= i < |items| ==> WellFormedRule(items[i])
    case Str(s) => s == ""
    case Mapping(m) => m == map[]
    case _ => false
  }

  /** The first rule at index `from` or later that fails validation. */
  function FirstItemError(items: seq<Value>, kind: RuleKind, from: nat): (e: Option<ConfigError>)
    requires from <= |items|
    decreases |items| - from
    ensures e.None? <==> forall i :: from <= i < |items| ==> WellFormedRule(items[i])
    ensures e.Some? ==>
              && e.value.InvalidRule? && e.value.kind == kind
              && from <= e.value.index < |items|
              && RuleProblem(items[e.value.index]) == Some(e.value.problem)
              && forall i :: from <= i < e.value.index ==> WellFormedRule(items[i])
  {
    if from == |items| then None
    else match RuleProblem(items[from])
      case Some(p) => Some(InvalidRule(kind, from, p))
      case None => FirstItemError(items, kind, from + 1)
  }

  /**
   * `_validate_protection_rules(rules, kind)`: the first error met while
   * enumerating the rules value. Iterating a string yields its characters and
   * iterating a mapping yields its keys, none of which is a mapping, so a
   * non-empty one fails at index 0; a scalar or null cannot be iterated.
   */
  function FirstRuleError(rules: Value, kind: RuleKind): (e: Option<ConfigError>)
    ensures e.None? <==> ValidRuleList(rules)
    ensures e.Some? ==> e.value.RulesNotIterable? || e.value.InvalidRule?
    ensures e.Some? ==> e.value.kind == kind
    // a list reports its first failing rule
    ensures rules.List? ==> e == FirstItemError(rules.items, kind, 0)
    // a non-empty string or mapping yields a first item that is not a mapping
    ensures (rules.Str? || rules.Mapping?) && e.Some? ==> e == Some(InvalidRule(kind, 0, NotAMapping))
    // a scalar or null cannot be iterated
    ensures !(rules.List? || rules.Str? || rules.Mapping?) ==> e == Some(RulesNotIterable(kind))
  {
    match rules
    case List(items) => FirstItemError(items, kind, 0)
    case Str(s) => if s == "" then None else Some(InvalidRule(kind, 0, NotAMapping))
    case Mapping(m) => if m == map[] then None else Some(InvalidRule(kind, 0, NotAMapping))
    case _ => Some(RulesNotIterable(kind))
  }

  /** The rules of a validated rules value, in document order. */
  function RulesOf(v: Value): (rules: seq<Rule>)
    requires ValidRuleList(v)
    ensures v.List? ==> |rules| == |v.items| && forall i :: 0 <= i < |rules| ==> Mapping(rules[i]) == v.items[i]
    ensures !v.List? ==> rules == []
  {
    if v.List? then seq(|v.items|, i requires 0 <= i < |v.items| && ValidRuleList(v) => v.items[i].m) else []
  }

  /** `data.get("tags", [])` */
  function TagsValue(doc: map<string, Value>): Value
  {
    Get(doc, TagsKey, List([]))
  }

  /** `data.get("branches", [])` */
  function BranchesValue(doc: map<string, Value>): Value
  {
    Get(doc, BranchesKey, List([]))
  }

  /** `load_and_validate_config`: the validated configuration, or the first error met. */
  function Load(source: ConfigSource): (r: Result<ProtectionConfig, ConfigError>)
    // loading succeeds exactly when the file exists, parses to a mapping and both rule lists validate
    ensures r.Success? <==>
              && source.fileExists && source.parsed.Parsed? && source.parsed.document.Mapping?
              && ValidRuleList(TagsValue(source.parsed.document.m))
              && ValidRuleList(BranchesValue(source.parsed.document.m))
    // a missing file is reported before anything is parsed; every other failure is a parse error
    ensures r.Failure? ==> ExitCodeOf(r.error) == if source.fileExists then ExitCodes.ConfigParseError else ExitCodes.ConfigNotFound
    // tags are checked before branches
    ensures r.Failure? && (r.error.InvalidRule? || r.error.RulesNotIterable?) && r.error.kind == Branches ==>
              && source.parsed.Parsed? && source.parsed.document.Mapping?
              && ValidRuleList(TagsValue(source.parsed.document.m))
    // the rules come back as written, in file order
    ensures r.Success? ==>
              var doc := source.parsed.document.m;
              && r.value.tags == RulesOf(TagsValue(doc))
              && r.value.branches == RulesOf(BranchesValue(doc))
  {
    if !source.fileExists then Failure(FileNotFound)
    else match source.parsed
      case ParseError => Failure(Unparsable)
      case Parsed(document) =>
        if !document.Mapping? then Failure(DocumentNotAMapping)
        else
          var tags := TagsValue(document.m);
          var branches := BranchesValue(document.m);
          match FirstRuleError(tags, Tags)
          case Some(e) => Failure(e)
          case None =>
            match FirstRuleError(branches, Branches)
            case Some(e) => Failure(e)
            case None => Success(ProtectionConfig(RulesOf(tags), RulesOf(branches)))
  }

  /** An absent `tags` or `branches` key yields an empty list of rules. */
  lemma AbsentKeyYieldsNoRules(source: ConfigSource)
    requires Load(source).Success?
    ensures TagsKey !in source.parsed.document.m ==> Load(source).value.tags == []
    ensures BranchesKey !in source.parsed.document.m ==> Load(source).value.branches == []
  {
  }

  /**
   * `_validate_protection_rules`: enumerates the rules and stops at the first
   * one that fails a check.
   */
  method ValidateProtectionRules(rules: Value, kind: RuleKind) returns (e: Option<ConfigError>)
    ensures e == FirstRuleError(rules, kind)
  {
    match rules {
      case List(items) =>
        var idx := 0;
        while idx < |items|
          invariant 0 <= idx <= |items|
          invariant forall i :: 0 <= i < idx ==> WellFormedRule(items[i])
        {
          var p := RuleProblem(items[idx]);
          if p.Some? {
            e := Some(InvalidRule(kind, idx, p.value));
            ghost var f := FirstItemError(items, kind, 0);
            assert f.Some? && f.value.index == idx;
            return;
          }
          idx := idx + 1;
        }
        e := None;
      case Str(s) =>
        e := if s == "" then None else Some(InvalidRule(kind, 0, NotAMapping));
      case Mapping(m) =>
        e := if m == map[] then None else Some(InvalidRule(kind, 0, NotAMapping));
      case _ =>
        e := Some(RulesNotIterable(kind));
    }
  }

  /** `load_and_validate_config`, step by step: existence, parsing, shape, tags, then branches. */
  method LoadAndValidateConfig(source: ConfigSource) returns (r: Result<ProtectionConfig, ConfigError>)
    ensures r == Load(source)
  {
    if !source.fileExists {
      return Failure(FileNotFound);
    }
    if source.parsed.ParseError? {
      return Failure(Unparsable);
    }
    var document := source.parsed.document;
    if !document.Mapping? {
      return Failure(DocumentNotAMapping);
    }
    var tags := TagsValue(document.m);
    var branches := BranchesValue(document.m);
    var e := ValidateProtectionRules(tags, Tags);
    if e.Some? {
      return Failure(e.value);
    }
    e := ValidateProtectionRules(branches, Branches);
    if e.Some? {
      return Failure(e.value);
    }
    r := Success(ProtectionConfig(RulesOf(tags), RulesOf(branches)));
  }
}
