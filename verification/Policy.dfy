/** Scope and authorization policy: whether a capability may run against a target right now. */
module Policy {
  import opened Wrappers
  import opened Text

  // ----- Inputs and decisions -----

  datatype RuleKind = DomainRule | CidrRule | UrlRule | OtherRule

  datatype ScopeRule = ScopeRule(value: string, kind: RuleKind, excluded: bool)

  datatype Permission = Permission(status: string, windowStart: Option<int>, windowEnd: Option<int>,
                                   capabilities: set<string>)

  datatype Candidate = Candidate(engagementStatus: string, engagementType: string, target: string, capability: string,
                                 now: int,
                                 stopWork: bool, permission: Option<Permission>, rules: seq<ScopeRule>)

  datatype Verdict =
    | Allowed | EngagementNotActive | StopWorkActive | AuthorizationMissing | AuthorizationNotActive
    | OutsideTestingWindow | CapabilityProhibited | TargetExcluded | TargetOutOfScope | ScopeAmbiguous

  datatype HostKind = Ip | Domain

  datatype Host = Host(kind: HostKind, name: string)

  /** What the address library answers: which names are addresses, and which addresses a network holds. */
  datatype Addresses = Addresses(isAddress: string -> bool, inNetwork: (string, string) -> bool)

  // ----- Reading a target -----

  /** The part of a target that names its host, brackets and port removed. */
  function HostPart(remainder: string): Option<string> {
    var host := Before(remainder, '/');
    if StartsWith(host, "[") then
      if ']' in host && IndexOf(host, ']') >= 1 then Some(host[1..IndexOf(host, ']')]) else None
    else if CountOf(host, ':') == 1 then Some(Before(host, ':'))
    else Some(host)
  }

  /** Credentials never take part in a comparison. */
  function WithoutCredentials(remainder: string): string {
    if '@' in Before(remainder, '/') then After(remainder, '@') else remainder
  }

  function Normalize(net: Addresses, target: string): Option<Host> {
    var raw := Strip(target);
    var part := HostPart(WithoutCredentials(AfterScheme(raw)));
    if part.None? then None
    else
      var host := Lower(TrimEnd(part.value, '.'));
      if host == "" then None
      else if net.isAddress(host) then Some(Host(Ip, host))
      else if ' ' in host || '.' !in host then None
      else Some(Host(Domain, host))
  }

  function SchemeOf(target: string): string {
    var raw := Strip(target);
    if SchemeEnd(raw) < |raw| then Lower(raw[..SchemeEnd(raw)]) else ""
  }

  predicate AllDigits(s: string) {
    s != [] && forall i :: 0 <= i < |s| ==> IsDigit(s[i])
  }

  function Number(s: string): nat
    requires forall i :: 0 <= i < |s| ==> IsDigit(s[i])
  {
    if s == [] then 0 else assert IsDigit(s[|s| - 1]); Number(s[..|s| - 1]) * 10 + (s[|s| - 1] as int - '0' as int)
  }

  function Authority(target: string): string {
    var authority := Before(AfterScheme(Strip(target)), '/');
    if '@' in authority then After(authority, '@') else authority
  }

  function WrittenPort(authority: string): Option<nat> {
    if StartsWith(authority, "[") then
      var rest := After(authority, ']');
      if StartsWith(rest, ":") && AllDigits(rest[1..]) then Some(Number(rest[1..])) else None
    else if CountOf(authority, ':') == 1 && AllDigits(After(authority, ':')) then Some(Number(After(authority, ':')))
    else None
  }

  function PortOf(target: string): Option<nat> {
    var written := WrittenPort(Authority(target));
    if written.Some? then written
    else if SchemeOf(target) == "https" then Some(443)
    else if SchemeOf(target) == "http" then Some(80)
    else None
  }

  function PathOf(target: string): string {
    var remainder := AfterScheme(target);
    if '/' !in remainder then "" else "/" + Lower(TrimEnd(Before(After(remainder, '/'), '?'), '/'))
  }

  // ----- Matching -----

  /** Domain matching for inclusion: subdomains only by an explicit wildcard. */
  predicate HostMatches(ruleValue: string, host: string) {
    var rule := Lower(TrimEnd(Strip(ruleValue), '.'));
    if rule == "" then false
    else if StartsWith(rule, "*.") then EndsWith(host, "." + rule[2..])
    else if StartsWith(rule, "*") then host == rule[1..] || EndsWith(host, "." + rule[1..])
    else host == rule
  }

  /** Domain matching for exclusion: a bare rule covers its whole subtree. */
  predicate ExcludesHost(ruleValue: string, host: string) {
    var rule := Lower(TrimEnd(Strip(ruleValue), '.'));
    if rule == "" then false
    else if StartsWith(rule, "*.") then EndsWith(host, "." + rule[2..])
    else
      var suffix := if StartsWith(rule, "*") then rule[1..] else rule;
      host == suffix || EndsWith(host, "." + suffix)
  }

  predicate PathWithin(target: string, rule: string) {
    target == rule || StartsWith(target, if EndsWith(rule, "/") then rule else rule + "/")
  }

  /** A URL rule covers a target: host, scheme, port and path, each only as far as the rule states it. */
  predicate UrlCovers(net: Addresses, ruleValue: string, host: string, target: string) {
    var rule := Lower(Strip(ruleValue));
    && (Normalize(net, rule).Some? ==> Normalize(net, rule).value.name == host)
    && (SchemeOf(rule) != "" ==> SchemeOf(rule) == SchemeOf(target))
    && (PortOf(rule).Some? ==> PortOf(rule) == PortOf(target))
    && (PathOf(rule) != "" ==> PathWithin(PathOf(target), PathOf(rule)))
  }

  predicate RuleMatches(net: Addresses, rule: ScopeRule, host: Host, target: string) {
    var value := Lower(Strip(rule.value));
    if value == "" then false
    else
      match rule.kind
      case CidrRule => host.kind == Ip && net.inNetwork(host.name, value)
      case UrlRule => UrlCovers(net, rule.value, host.name, target)
      case _ =>
        if host.kind == Ip then value == host.name
        else if rule.excluded then ExcludesHost(value, host.name)
        else HostMatches(value, host.name)
  }

  // ----- Deciding -----

  function Gate(c: Candidate): Verdict {
    if c.stopWork then StopWorkActive
    else if c.engagementStatus != "active" then EngagementNotActive
    else if c.permission.None? then if c.engagementType == "bug_bounty" then Allowed else AuthorizationMissing
    else
      var p := c.permission.value;
      if p.status != "active" then AuthorizationNotActive
      else if p.windowStart.Some? && c.now < p.windowStart.value then OutsideTestingWindow
      else if p.windowEnd.Some? && c.now > p.windowEnd.value then OutsideTestingWindow
      else if p.capabilities != {} && c.capability !in p.capabilities then CapabilityProhibited
      else Allowed
  }

  /** The engagement may be worked on now: no brake, active, and either a kind that authorizes itself and says no
      more, or an active permission, inside both ends of its testing window, for this capability. */
  predicate Open(c: Candidate) {
    && !c.stopWork && c.engagementStatus == "active"
    && match c.permission
       case None => c.engagementType == "bug_bounty"
       case Some(p) =>
         && p.status == "active" && InWindow(p, c.now) && (p.capabilities == {} || c.capability in p.capabilities)
  }

  /** An end that is not set does not bind. */
  predicate InWindow(p: Permission, now: int) {
    (p.windowStart.Some? ==> p.windowStart.value <= now) && (p.windowEnd.Some? ==> now <= p.windowEnd.value)
  }

  /** Scan the rules on one side for the first that matches. */
  predicate AnyMatch(net: Addresses, rules: seq<ScopeRule>, excluded: bool, host: Host, target: string) {
    rules != []
    && ((rules[0].excluded == excluded && RuleMatches(net, rules[0], host, target))
        || AnyMatch(net, rules[1..], excluded, host, target))
  }

  function Evaluate(net: Addresses, c: Candidate): Verdict {
    var gate := Gate(c);
    var host := Normalize(net, c.target);
    if gate != Allowed then gate
    else if host.None? then ScopeAmbiguous
    else if AnyMatch(net, c.rules, true, host.value, c.target) then TargetExcluded
    else if AnyMatch(net, c.rules, false, host.value, c.target) then Allowed
    else TargetOutOfScope
  }

  /** The first target that is not allowed decides. */
  function FirstRefusal(net: Addresses, c: Candidate, targets: seq<string>): Verdict {
    if targets == [] then Allowed
    else
      var verdict := Evaluate(net, c.(target := targets[0]));
      if verdict != Allowed then verdict else FirstRefusal(net, c, targets[1..])
  }

  function EvaluateAll(net: Addresses, c: Candidate, targets: seq<string>): Verdict {
    if Gate(c) != Allowed then Gate(c) else FirstRefusal(net, c, targets)
  }

  // ----- Hosts are lists of labels -----

  function Labels(name: string): seq<string> {
    Split(name, '.')
  }

  datatype HostPattern =
    | Nothing | Below(suffix: seq<string>) | AtOrBelow(suffix: seq<string>) | Exactly(labels: seq<string>)

  /** A domain rule read as a pattern over label lists. */
  function PatternOf(ruleValue: string): HostPattern {
    var rule := Lower(TrimEnd(Strip(ruleValue), '.'));
    if rule == "" then Nothing
    else if StartsWith(rule, "*.") then Below(Labels(rule[2..]))
    else if StartsWith(rule, "*") then AtOrBelow(Labels(rule[1..]))
    else Exactly(Labels(rule))
  }

  predicate Includes(p: HostPattern, labels: seq<string>) {
    match p
    case Nothing => false
    case Below(suffix) => |suffix| < |labels| && IsSuffix(suffix, labels)
    case AtOrBelow(suffix) => IsSuffix(suffix, labels)
    case Exactly(own) => own == labels
  }

  predicate Excludes(p: HostPattern, labels: seq<string>) {
    match p
    case Exactly(own) => IsSuffix(own, labels)
    case _ => Includes(p, labels)
  }

  lemma AtOrBelowPieces(host: string, suffix: string)
    ensures host == suffix || EndsWith(host, "." + suffix) <==> IsSuffix(Labels(suffix), Labels(host))
  {
    EndsWithPieces(host, suffix, '.');
    SplitInjective(host, suffix, '.');
    assert |Labels(host)| == |Labels(suffix)| && IsSuffix(Labels(suffix), Labels(host)) ==>
        Labels(host) == Labels(suffix);
  }

  /** The string tests are exactly the label tests: equal, a suffix, or a proper suffix. */
  lemma HostMatchingIsLabelMatching(ruleValue: string, host: string)
    ensures HostMatches(ruleValue, host) <==> Includes(PatternOf(ruleValue), Labels(host))
    ensures ExcludesHost(ruleValue, host) <==> Excludes(PatternOf(ruleValue), Labels(host))
  {
    var rule := Lower(TrimEnd(Strip(ruleValue), '.'));
    if rule != "" {
      if StartsWith(rule, "*.") {
        EndsWithPieces(host, rule[2..], '.');
      } else if StartsWith(rule, "*") {
        AtOrBelowPieces(host, rule[1..]);
      } else {
        AtOrBelowPieces(host, rule);
        SplitInjective(host, rule, '.');
      }
    }
  }

  /** Whatever a rule would include, the same rule as an exclusion excludes. */
  lemma InclusionIsExclusion(net: Addresses, rule: ScopeRule, host: Host, target: string)
    requires RuleMatches(net, rule.(excluded := false), host, target)
    ensures RuleMatches(net, rule.(excluded := true), host, target)
  {
    var value := Lower(Strip(rule.value));
    HostMatchingIsLabelMatching(value, host.name);
    if PatternOf(value).Exactly? { assert IsSuffix(Labels(host.name), Labels(host.name)); }
  }

  // ----- Paths are lists of segments -----

  /** For a rule not ending in a slash, being within it is having its segments as a prefix. */
  lemma PathMatchingIsSegmentMatching(target: string, rule: string)
    requires !EndsWith(rule, "/")
    ensures PathWithin(target, rule) <==> IsPrefix(Split(rule, '/'), Split(target, '/'))
  {
    StartsWithPieces(target, rule, '/');
    SplitInjective(target, rule, '/');
    var a, b := Split(rule, '/'), Split(target, '/');
    assert |a| == |b| && IsPrefix(a, b) ==> a == b;
  }

  /** The path a target is read to have is empty, or one slash, or does not end in one. */
  lemma PathShape(t: string)
    ensures PathOf(t) == "" || PathOf(t) == "/" || (PathOf(t)[0] == '/' && !EndsWith(PathOf(t), "/"))
  {
    var page := Before(After(AfterScheme(t), '/'), '?');
    TrimmedEnd(page, '/');
    var path := TrimEnd(page, '/');
    hide TrimEnd;
    if path != "" { LastKept(path); }
  }

  lemma LastKept(path: string)
    requires path != "" && path[|path| - 1] != '/'
    ensures !EndsWith("/" + Lower(path), "/")
  {
    var whole := "/" + Lower(path);
    assert whole[|path|] == Lower(path)[|path| - 1] == LowerChar(path[|path| - 1]);
    assert whole[|whole| - 1..] == [whole[|path|]];
  }

  lemma {:induction false} TrimmedEnd(s: string, c: char)
    ensures TrimEnd(s, c) != "" ==> TrimEnd(s, c)[|TrimEnd(s, c)| - 1] != c
  {
    if s != "" && s[|s| - 1] == c { TrimmedEnd(s[..|s| - 1], c); }
  }

  /** A URL rule binds host, scheme, port and path segments, each only as far as it states them. */
  predicate UrlMeans(net: Addresses, value: string, host: string, target: string) {
    var own, path := Normalize(net, value), PathOf(value);
    && (own.Some? ==> own.value.name == host)
    && (SchemeOf(value) != "" ==> SchemeOf(target) == SchemeOf(value))
    && (PortOf(value).Some? ==> PortOf(target) == PortOf(value))
    && (path == "/" ==> PathOf(target) != "")
    && (path != "" && path != "/" ==> IsPrefix(Split(path, '/'), Split(PathOf(target), '/')))
  }

  lemma PathsMeet(value: string, target: string)
    requires PathOf(value) != ""
    ensures PathWithin(PathOf(target), PathOf(value)) <==>
            if PathOf(value) == "/" then PathOf(target) != ""
            else IsPrefix(Split(PathOf(value), '/'), Split(PathOf(target), '/'))
  {
    PathShape(value);
    PathShape(target);
    hide PathOf, Split;
    if PathOf(value) != "/" {
      PathMatchingIsSegmentMatching(PathOf(target), PathOf(value));
    } else if PathOf(target) != "" {
      assert PathOf(target)[..1] == "/";
    }
  }

  lemma UrlsMatchAsMeant(net: Addresses, ruleValue: string, host: string, target: string)
    ensures UrlCovers(net, ruleValue, host, target) <==> UrlMeans(net, Lower(Strip(ruleValue)), host, target)
  {
    hide Normalize, SchemeOf, PortOf, PathOf, PathWithin, IsPrefix, Split, Strip, Lower;
    if PathOf(Lower(Strip(ruleValue))) != "" { PathsMeet(Lower(Strip(ruleValue)), target); }
  }

  /** What a rule says of a host and a target: a network holds the address, an address is itself, a name is a
      pattern over labels, wider when it excludes, and a URL means what it states. */
  predicate Means(net: Addresses, rule: ScopeRule, host: Host, target: string) {
    var value := Lower(Strip(rule.value));
    && value != ""
    && match rule.kind
       case CidrRule => host.kind == Ip && net.inNetwork(host.name, value)
       case UrlRule => UrlMeans(net, value, host.name, target)
       case DomainRule | OtherRule =>
         if host.kind == Ip then value == host.name
         else if rule.excluded then Excludes(PatternOf(value), Labels(host.name))
         else Includes(PatternOf(value), Labels(host.name))
  }

  /** Rules match exactly what they mean. */
  lemma RulesMatchAsMeant(net: Addresses, rule: ScopeRule, host: Host, target: string)
    ensures RuleMatches(net, rule, host, target) <==> Means(net, rule, host, target)
  {
    hide UrlCovers, UrlMeans, HostMatches, ExcludesHost, PatternOf, Includes, Excludes, Labels, Strip, Lower;
    HostMatchingIsLabelMatching(Lower(Strip(rule.value)), host.name);
    UrlsMatchAsMeant(net, rule.value, host.name, target);
  }

  lemma PathWithinTransitive(a: string, b: string, c: string)
    requires PathWithin(b, a) && PathWithin(c, b)
    ensures PathWithin(c, a)
  {
    var prefix := if EndsWith(a, "/") then a else a + "/";
    if c != b && b != a {
      assert StartsWith(c, b) by {
        var p := if EndsWith(b, "/") then b else b + "/";
        assert c[..|b|] == c[..|p|][..|b|];
      }
      assert c[..|prefix|] == c[..|b|][..|prefix|];
    }
  }

  // ----- URL rules compose -----

  lemma LowerBracketPort(authority: string)
    ensures var rest, low := After(authority, ']'), After(Lower(authority), ']');
            && (StartsWith(low, ":") <==> StartsWith(rest, ":"))
            && (StartsWith(rest, ":") ==>
                  (AllDigits(low[1..]) <==> AllDigits(rest[1..])) && (AllDigits(rest[1..]) ==> low[1..] == rest[1..]))
  {
    LowerAfter(authority, ']');
    hide After;
    var rest := After(authority, ']');
    if StartsWith(rest, ":") {
      assert Lower(rest)[1..] == Lower(rest[1..]);
      LowerDigits(rest[1..]);
    }
  }

  lemma LowerWritten(authority: string)
    ensures WrittenPort(Lower(authority)) == WrittenPort(authority)
  {
    assert StartsWith(Lower(authority), "[") <==> StartsWith(authority, "[");
    LowerBracketPort(authority);
    LowerAfter(authority, ':');
    LowerCount(authority, ':');
    LowerDigits(After(authority, ':'));
    hide After, CountOf, AllDigits, Number;
  }

  lemma LowerDigits(s: string)
    ensures AllDigits(Lower(s)) <==> AllDigits(s)
    ensures AllDigits(s) ==> Lower(s) == s
  {
    if AllDigits(s) { assert Lower(s) == s; }
    if AllDigits(Lower(s)) {
      forall i | 0 <= i < |s| ensures IsDigit(s[i]) { assert IsDigit(Lower(s)[i]); }
    }
  }

  lemma LowerContains(s: string, c: char)
    requires Caseless(c)
    ensures c in Lower(s) <==> c in s
  {
    LowerIndexOf(s, c);
  }

  /** Reading a lower-cased target gives what reading the target gives. */
  lemma CaseDoesNotMatter(net: Addresses, t: string)
    ensures Normalize(net, Lower(t)) == Normalize(net, t)
    ensures SchemeOf(Lower(t)) == SchemeOf(t) && PortOf(Lower(t)) == PortOf(t) && PathOf(Lower(t)) == PathOf(t)
  {
    LowerHost(net, t);
    LowerScheme(t);
    LowerPort(t);
    LowerPath(t);
  }

  lemma LowerScheme(t: string)
    ensures SchemeOf(Lower(t)) == SchemeOf(t)
  {
    LowerStrip(t);
    LowerSchemeEnd(Strip(t));
    var raw := Strip(t);
    LowerSlice(raw, 0, SchemeEnd(raw));
    LowerTwice(raw[..SchemeEnd(raw)]);
    assert Lower(raw)[..SchemeEnd(raw)] == Lower(raw)[0..SchemeEnd(raw)]
           && raw[..SchemeEnd(raw)] == raw[0..SchemeEnd(raw)];
  }

  lemma LowerPort(t: string)
    ensures PortOf(Lower(t)) == PortOf(t)
  {
    LowerScheme(t);
    LowerStrip(t);
    LowerAfterScheme(Strip(t));
    var remainder := AfterScheme(Strip(t));
    LowerBefore(remainder, '/');
    var authority := Before(remainder, '/');
    LowerContains(authority, '@');
    LowerAfter(authority, '@');
    LowerWritten(Authority(t));
  }

  lemma LowerPath(t: string)
    ensures PathOf(Lower(t)) == PathOf(t)
  {
    LowerAfterScheme(t);
    var remainder := AfterScheme(t);
    LowerContains(remainder, '/');
    LowerAfter(remainder, '/');
    LowerBefore(After(remainder, '/'), '?');
    LowerTrimEnd(Before(After(remainder, '/'), '?'), '/');
    LowerTwice(TrimEnd(Before(After(remainder, '/'), '?'), '/'));
  }

  lemma LowerHostPart(remainder: string)
    ensures HostPart(Lower(remainder)) == match HostPart(remainder) { case None => None case Some(h) => Some(Lower(h)) }
  {
    LowerBefore(remainder, '/');
    var host := Before(remainder, '/');
    LowerContains(host, ']');
    LowerIndexOf(host, ']');
    LowerCount(host, ':');
    LowerBefore(host, ':');
    assert StartsWith(Lower(host), "[") <==> StartsWith(host, "[");
    if ']' in host && IndexOf(host, ']') >= 1 { LowerSlice(host, 1, IndexOf(host, ']')); }
  }

  lemma LowerWithoutCredentials(remainder: string)
    ensures WithoutCredentials(Lower(remainder)) == Lower(WithoutCredentials(remainder))
  {
    LowerBefore(remainder, '/');
    LowerContains(Before(remainder, '/'), '@');
    LowerAfter(remainder, '@');
  }

  lemma LowerHost(net: Addresses, t: string)
    ensures Normalize(net, Lower(t)) == Normalize(net, t)
  {
    LowerStrip(t);
    LowerAfterScheme(Strip(t));
    var remainder := AfterScheme(Strip(t));
    LowerWithoutCredentials(remainder);
    LowerHostPart(WithoutCredentials(remainder));
    var part := HostPart(WithoutCredentials(remainder));
    if part.Some? {
      LowerTrimEnd(part.value, '.');
      LowerTwice(TrimEnd(part.value, '.'));
    }
    hide HostPart, WithoutCredentials, TrimEnd, Strip, AfterScheme, Lower;
  }

  /** A rule read from another URL, as a target of a third: if a covers b and b covers c then a covers c,
      whenever b carries no surrounding whitespace. */
  lemma UrlCoverageComposes(net: Addresses, a: string, b: string, c: string)
    requires Strip(b) == b && Normalize(net, b).Some? && Normalize(net, c).Some?
    requires UrlCovers(net, a, Normalize(net, b).value.name, b)
    requires UrlCovers(net, b, Normalize(net, c).value.name, c)
    ensures UrlCovers(net, a, Normalize(net, c).value.name, c)
  {
    CaseDoesNotMatter(net, b);
    hide Normalize, SchemeOf, PortOf, PathOf, PathWithin;
    var rule := Lower(Strip(a));
    if PathOf(rule) != "" {
      NothingIsNotWithin(PathOf(rule));
      PathWithinTransitive(PathOf(rule), PathOf(b), PathOf(c));
    }
  }

  lemma NothingIsNotWithin(rule: string)
    requires rule != ""
    ensures !PathWithin("", rule)
  {
  }

  // ----- Exclusions dominate -----

  lemma {:induction false} AnyMatchIsExists(net: Addresses, rules: seq<ScopeRule>, excluded: bool, host: Host,
                                            target: string)
    ensures AnyMatch(net, rules, excluded, host, target)
       <==> exists rule ::
              rule in multiset(rules) && rule.excluded == excluded && RuleMatches(net, rule, host, target)
  {
    if rules != [] {
      AnyMatchIsExists(net, rules[1..], excluded, host, target);
      assert rules == [rules[0]] + rules[1..];
      hide RuleMatches;
    }
  }

  lemma MatchGrows(net: Addresses, few: seq<ScopeRule>, many: seq<ScopeRule>, excluded: bool, host: Host,
                   target: string)
    requires forall rule :: rule in few && rule.excluded == excluded ==> rule in many
    requires AnyMatch(net, few, excluded, host, target)
    ensures AnyMatch(net, many, excluded, host, target)
  {
    AnyMatchIsExists(net, few, excluded, host, target);
    AnyMatchIsExists(net, many, excluded, host, target);
    hide AnyMatch, RuleMatches;
  }

  /** Only which rules are listed matters, to the answer and to the reason. */
  lemma SameRulesSameAnswer(net: Addresses, c: Candidate, rules: seq<ScopeRule>)
    requires forall rule :: rule in rules <==> rule in c.rules
    ensures Evaluate(net, c.(rules := rules)) == Evaluate(net, c)
  {
    hide AnyMatch, Normalize;
    var host := Normalize(net, c.target);
    if host.Some? {
      SameRulesSameMatch(net, rules, c.rules, true, host.value, c.target);
      SameRulesSameMatch(net, rules, c.rules, false, host.value, c.target);
    }
  }

  lemma SameRulesSameMatch(net: Addresses, rules: seq<ScopeRule>, others: seq<ScopeRule>, excluded: bool, host: Host,
                           target: string)
    requires forall rule :: rule in rules <==> rule in others
    ensures AnyMatch(net, rules, excluded, host, target) == AnyMatch(net, others, excluded, host, target)
  {
    hide AnyMatch;
    if AnyMatch(net, rules, excluded, host, target) { MatchGrows(net, rules, others, excluded, host, target); }
    if AnyMatch(net, others, excluded, host, target) { MatchGrows(net, others, rules, excluded, host, target); }
  }

  /** The order of the scope rows never matters, to the answer or to the reason. */
  lemma OrderDoesNotMatter(net: Addresses, c: Candidate, rules: seq<ScopeRule>)
    requires multiset(rules) == multiset(c.rules)
    ensures Evaluate(net, c.(rules := rules)) == Evaluate(net, c)
  {
    hide Evaluate;
    assert forall rule :: rule in rules <==> rule in multiset(rules);
    assert forall rule :: rule in c.rules <==> rule in multiset(c.rules);
    SameRulesSameAnswer(net, c, rules);
  }

  /** One matching exclusion denies, whatever else the rows say; nothing but the engagement gate comes before it. */
  lemma ExclusionDominates(net: Addresses, c: Candidate, rule: ScopeRule)
    requires rule in c.rules && rule.excluded && Normalize(net, c.target).Some?
    requires RuleMatches(net, rule, Normalize(net, c.target).value, c.target)
    ensures Evaluate(net, c) == if Gate(c) != Allowed then Gate(c) else TargetExcluded
  {
    AnyMatchIsExists(net, c.rules, true, Normalize(net, c.target).value, c.target);
    assert rule in multiset(c.rules);
  }

  /** Adding exclusions anywhere, in any number, never turns a denial into an allow. */
  lemma MoreExclusionsNeverAllow(net: Addresses, c: Candidate, rules: seq<ScopeRule>)
    requires forall rule :: rule in c.rules ==> rule in rules
    requires forall rule :: rule in rules && rule !in c.rules ==> rule.excluded
    ensures Evaluate(net, c.(rules := rules)) == Allowed ==> Evaluate(net, c) == Allowed
  {
    var host := Normalize(net, c.target);
    hide AnyMatch, Normalize;
    if host.Some? {
      if AnyMatch(net, c.rules, true, host.value, c.target) {
        MatchGrows(net, c.rules, rules, true, host.value, c.target);
      }
      if AnyMatch(net, rules, false, host.value, c.target) {
        MatchGrows(net, rules, c.rules, false, host.value, c.target);
      }
    }
  }

  /** The engagement-level checks pass exactly when the engagement is open. */
  lemma GateExactly(c: Candidate)
    ensures Gate(c) == Allowed <==> Open(c)
  {
  }

  /** Under one permission everything is allowed at exactly the instants of one closed interval, or at none. */
  lemma AllowedInstants(net: Addresses, c: Candidate, targets: seq<string>, now: int)
    requires c.permission.Some? && EvaluateAll(net, c, targets) == Allowed
    ensures EvaluateAll(net, c.(now := now), targets) == Allowed <==> InWindow(c.permission.value, now)
  {
    GateExactly(c);
    GateExactly(c.(now := now));
    hide Gate, Evaluate;
    if InWindow(c.permission.value, now) { SameTargetsSameRefusal(net, c, now, targets); }
  }

  lemma {:induction false} SameTargetsSameRefusal(net: Addresses, c: Candidate, now: int, targets: seq<string>)
    requires Gate(c) == Allowed && Gate(c.(now := now)) == Allowed
    ensures FirstRefusal(net, c.(now := now), targets) == FirstRefusal(net, c, targets)
  {
    hide Normalize, AnyMatch;
    if targets != [] {
      SameTargetsSameRefusal(net, c, now, targets[1..]);
      var t := c.(target := targets[0]);
      assert c.(now := now).(target := targets[0]) == t.(now := now);
    }
  }

  /** A target is allowed exactly when its engagement is open, its host can be read, no exclusion matches it
      and some inclusion does. */
  lemma AllowedExactly(net: Addresses, c: Candidate)
    ensures Evaluate(net, c) == Allowed
       <==> Open(c) && Normalize(net, c.target).Some?
                 && InsideRules(net, c.rules, Normalize(net, c.target).value, c.target)
  {
    GateExactly(c);
    var host := Normalize(net, c.target);
    if host.Some? {
      AnyMatchIsExists(net, c.rules, true, host.value, c.target);
      AnyMatchIsExists(net, c.rules, false, host.value, c.target);
    }
    hide AnyMatch, Normalize, RuleMatches, Gate, Open;
    assert forall rule :: rule in c.rules <==> rule in multiset(c.rules);
  }

  /** No exclusion among the rules matches, and some inclusion does. */
  ghost predicate InsideRules(net: Addresses, rules: seq<ScopeRule>, host: Host, target: string) {
    && (forall rule :: rule in rules && rule.excluded ==> !RuleMatches(net, rule, host, target))
    && (exists rule :: rule in rules && !rule.excluded && RuleMatches(net, rule, host, target))
  }

  /** Every target is allowed by itself. */
  predicate EachAllowed(net: Addresses, c: Candidate, targets: seq<string>) {
    forall i :: 0 <= i < |targets| ==> Evaluate(net, c.(target := targets[i])) == Allowed
  }

  lemma NoneToAllow(net: Addresses, c: Candidate)
    ensures EachAllowed(net, c, [])
  {
  }

  lemma EachStep(net: Addresses, c: Candidate, targets: seq<string>)
    requires targets != []
    ensures EachAllowed(net, c, targets)
       <==> Evaluate(net, c.(target := targets[0])) == Allowed && EachAllowed(net, c, targets[1..])
  {
    hide Evaluate;
    if EachAllowed(net, c, targets) {
      forall i | 0 <= i < |targets| - 1 ensures Evaluate(net, c.(target := targets[1..][i])) == Allowed {
        assert targets[1..][i] == targets[i + 1];
      }
    }
    if Evaluate(net, c.(target := targets[0])) == Allowed && EachAllowed(net, c, targets[1..]) {
      forall i | 0 < i < |targets| ensures Evaluate(net, c.(target := targets[i])) == Allowed {
        assert targets[i] == targets[1..][i - 1];
      }
    }
  }

  /** A job is allowed exactly when its engagement is open and each of its targets is allowed. */
  lemma {:induction false} AllMeansEach(net: Addresses, c: Candidate, targets: seq<string>)
    ensures EvaluateAll(net, c, targets) == Allowed <==> Open(c) && EachAllowed(net, c, targets)
  {
    GateExactly(c);
    hide Evaluate, EachAllowed, Open;
    if targets == [] {
      assert EachAllowed(net, c, targets) by { NoneToAllow(net, c); }
    } else if Gate(c) == Allowed {
      AllMeansEach(net, c, targets[1..]);
      EachStep(net, c, targets);
    }
  }
}
