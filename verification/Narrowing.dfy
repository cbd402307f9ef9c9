/** Whether a plan's requests are all inside the recorded scope, and why one revision gives one answer. */
module Narrowing {
  import opened Wrappers
  import opened Records
  import opened Budgets
  import opened AuthorityEdits
  import opened JobSteps
  import opened ManagedSteps
  import opened Protocol
  import opened Guarantees
  import P = Policy
  import T = Text
  import U = UrlRules

  function KindOf(kind: string): P.RuleKind {
    if kind == "cidr" then P.CidrRule
    else if kind == "url" || kind == "api" then P.UrlRule
    else if kind == "" || kind == "domain" then P.DomainRule
    else P.OtherRule
  }

  function RuleOf(row: ScopeRow): P.ScopeRule {
    P.ScopeRule(row.value, KindOf(row.kind), row.excluded)
  }

  /** The rules are the scope rows, in whatever order and however often each was listed. */
  ghost predicate Lists(rules: seq<P.ScopeRule>, scope: map<ScopeId, ScopeRow>) {
    && (forall rule :: rule in rules ==> exists id :: id in scope && RuleOf(scope[id]) == rule)
    && (forall id :: id in scope ==> RuleOf(scope[id]) in rules)
  }

  /** The policy question asked about one planned request. */
  function Asked(a: Authority, grant: Grant, rules: seq<P.ScopeRule>, url: string, now: Instant): P.Candidate {
    P.Candidate(a.status, a.kind, url, "vardrgate_api_test", now, false,
                Some(P.Permission(grant.status, grant.windowStart, grant.windowEnd, {})), rules)
  }

  /** One request of an execution plan. */
  datatype Planned = Planned(url: string, verb: string)

  predicate PlanAllowed(net: P.Addresses, a: Authority, grant: Grant, rules: seq<P.ScopeRule>, plan: seq<Planned>,
                        now: Instant) {
    plan != [] && forall i :: 0 <= i < |plan| ==> P.Evaluate(net, Asked(a, grant, rules, plan[i].url, now)) == P.Allowed
  }

  // ----- The narrowed entries -----

  /** What the URL library reads from a URL. */
  datatype Split = Split(scheme: string, hostname: string, port: Option<nat>, path: string)

  /** One entry of the scope an approval is narrowed to. */
  datatype Entry = Entry(origin: string, path: string, verb: string)

  function Decimal(n: nat): (s: string)
    ensures s != [] && forall i :: 0 <= i < |s| ==> T.IsDigit(s[i])
  {
    var last := [('0' as int + n % 10) as char];
    if n < 10 then last else Decimal(n / 10) + last
  }

  /** A port that is absent or zero is the scheme's own. */
  function PortOr(s: Split): nat {
    if s.port.Some? && s.port.value != 0 then s.port.value else if s.scheme == "https" then 443 else 80
  }

  function EntryFor(s: Split, verb: string): Entry {
    var host := if ':' in s.hostname then "[" + s.hostname + "]" else s.hostname;
    Entry(s.scheme + "://" + host + ":" + Decimal(PortOr(s)), if s.path == "" then "/" else s.path, verb)
  }

  function Entries(split: string -> Split, plan: seq<Planned>): seq<Entry> {
    seq(|plan|, i requires 0 <= i < |plan| => EntryFor(split(plan[i].url), plan[i].verb))
  }

  /** The written port reads back as the number it stands for. */
  lemma {:induction false} DecimalReadsBack(n: nat)
    ensures P.Number(Decimal(n)) == n
  {
    var s := Decimal(n);
    assert P.Number(s[..|s| - 1]) == n / 10 by {
      if n >= 10 {
        DecimalReadsBack(n / 10);
        assert s[..|s| - 1] == Decimal(n / 10);
      }
    }
  }

  /** A rule is about a network, about URLs, or about names, as its row says. */
  lemma KindsExactly(row: ScopeRow)
    ensures RuleOf(row).kind == P.CidrRule <==> row.kind == "cidr"
    ensures RuleOf(row).kind == P.UrlRule <==> row.kind == "url" || row.kind == "api"
    ensures RuleOf(row).value == row.value && RuleOf(row).excluded == row.excluded
  {
  }

  /** The entry of a plain request, read again as an address, is its scheme, its host, the port it named or else its
      scheme's own, and its path. */
  lemma EntriesReadBack(net: P.Addresses, s: Split, page: string, verb: string)
    requires U.PlainUrl(U.Url(s.scheme, None, s.hostname, None, page)) && s.path == "/" + page
    ensures var entry := EntryFor(s, verb); var text := entry.origin + entry.path;
            && entry.verb == verb && P.SchemeOf(text) == s.scheme && P.PathOf(text) == s.path
            && P.PortOf(text) == Some(if s.port.Some? && s.port != Some(0) then s.port.value
                                      else if s.scheme == "https" then 443 else 80)
            && P.Normalize(net, text) == (if net.isAddress(s.hostname) then Some(P.Host(P.Ip, s.hostname))
                                          else if '.' !in s.hostname then None else Some(P.Host(P.Domain, s.hostname)))
  {
    hide P.SchemeOf, P.PathOf, P.PortOf, P.Normalize, U.PlainName, Decimal, P.Number, U.UrlText, EntryFor;
    EntryIsUrl(s, page, verb);
    DecimalReadsBack(PortOr(s));
    U.UrlsReadBack(net, U.Url(s.scheme, None, s.hostname, Some(Decimal(PortOr(s))), page));
  }

  lemma EntryIsUrl(s: Split, page: string, verb: string)
    requires U.PlainUrl(U.Url(s.scheme, None, s.hostname, None, page)) && s.path == "/" + page
    ensures var entry := EntryFor(s, verb);
            entry.verb == verb && entry.path == s.path
            && entry.origin + entry.path == U.UrlText(U.Url(s.scheme, None, s.hostname, Some(Decimal(PortOr(s))), page))
  {
    U.PlainLacks(s.hostname, ':');
    hide U.PlainName, Decimal;
    var digits := Decimal(PortOr(s));
    var left, right := s.scheme + "://" + s.hostname + ":" + digits + s.path,
                       s.scheme + "://" + (s.hostname + (":" + digits) + "/" + page);
    assert left == right;
    assert "" + s.hostname == s.hostname;
  }

  /** A host with colons, an address, is put in brackets, and an empty path is the root. */
  lemma EntriesOfAddresses(s: Split, verb: string)
    ensures ':' in s.hostname ==>
              EntryFor(s, verb).origin == s.scheme + "://[" + s.hostname + "]:" + Decimal(PortOr(s))
    ensures s.path == "" ==> EntryFor(s, verb).path == "/"
  {
    if ':' in s.hostname {
      assert s.scheme + "://" + ("[" + s.hostname + "]") + ":" + Decimal(PortOr(s)) ==
          s.scheme + "://[" + s.hostname + "]:" + Decimal(PortOr(s));
    }
  }

  /** Check each planned request in turn and narrow the scope to it; one refusal, or an empty plan, refuses all. */
  method NarrowScope(net: P.Addresses, split: string -> Split, a: Authority, grant: Grant, rules: seq<P.ScopeRule>,
                     plan: seq<Planned>, now: Instant)
    returns (narrowed: Result<seq<Entry>, Reason>)
    ensures narrowed == if PlanAllowed(net, a, grant, rules, plan, now) then Success(Entries(split, plan))
                        else Failure(ScopeDenied)
  {
    hide P.Evaluate, EntryFor;
    var collected: seq<Entry> := [];
    for i := 0 to |plan|
      invariant |collected| == i
      invariant forall k :: 0 <= k < i ==> collected[k] == EntryFor(split(plan[k].url), plan[k].verb)
      invariant forall k :: 0 <= k < i ==> P.Evaluate(net, Asked(a, grant, rules, plan[k].url, now)) == P.Allowed
    {
      if P.Evaluate(net, Asked(a, grant, rules, plan[i].url, now)) != P.Allowed { return Failure(ScopeDenied); }
      collected := collected + [EntryFor(split(plan[i].url), plan[i].verb)];
    }
    assert collected == Entries(split, plan);
    return if collected == [] then Failure(ScopeDenied) else Success(collected);
  }

  // ----- What the scope answer means for a run -----

  /** Two listings of the same rows, and so any repetition or order of them, decide alike. */
  lemma SameRowsSameAnswer(net: P.Addresses, a: Authority, grant: Grant, rules: seq<P.ScopeRule>,
                           others: seq<P.ScopeRule>, url: string, now: Instant)
    requires Lists(rules, a.scope) && Lists(others, a.scope)
    ensures P.Evaluate(net, Asked(a, grant, rules, url, now)) == P.Evaluate(net, Asked(a, grant, others, url, now))
  {
    hide P.Evaluate;
    assert forall rule :: rule in rules <==> rule in others;
    P.SameRulesSameAnswer(net, Asked(a, grant, rules, url, now), others);
  }

  /** Over any run, while an engagement's revision has not moved, the same plan gets the same scope
      answer at the same instant, however the rows are listed: what was signed is what is in force. */
  lemma RevisionFixesScope(w: World, v: World, e: EngagementId, id: AuthorizationId, net: P.Addresses,
                           rules: seq<P.ScopeRule>, others: seq<P.ScopeRule>, plan: seq<Planned>, now: Instant)
    requires Reachable(w) && Leads(w, v) && e in w.engagements && e in v.engagements
    requires v.engagements[e].revision == w.engagements[e].revision && id in w.engagements[e].authority.grants
    requires Lists(rules, w.engagements[e].authority.scope) && Lists(others, v.engagements[e].authority.scope)
    ensures id in v.engagements[e].authority.grants
    ensures var a, b := w.engagements[e].authority, v.engagements[e].authority;
            PlanAllowed(net, a, a.grants[id], rules, plan, now) == PlanAllowed(net, b, b.grants[id], others, plan, now)
  {
    hide Reachable, Leads;
    RevisionStandsForFacts(w, v, e);
    hide P.Evaluate, Lists;
    var a := w.engagements[e].authority;
    forall i | 0 <= i < |plan|
      ensures P.Evaluate(net, Asked(a, a.grants[id], rules, plan[i].url, now))
           == P.Evaluate(net, Asked(a, a.grants[id], others, plan[i].url, now))
    {
      SameRowsSameAnswer(net, a, a.grants[id], rules, others, plan[i].url, now);
    }
  }

  /** Recording an exclusion that matches a planned request denies the plan from then on, whatever else is
      in scope, and makes every approval of the engagement stale. */
  lemma NewExclusionBites(w: World, e: EngagementId, id: ScopeId, row: ScopeRow, net: P.Addresses, grant: Grant,
                          rules: seq<P.ScopeRule>, plan: seq<Planned>, i: nat, now: Instant)
    requires Reachable(w) && e in w.engagements && row.excluded && EditEngagement(w, e, AddScope(id, row)).Success?
    requires var v := EditEngagement(w, e, AddScope(id, row)).value.world;
             Lists(rules, v.engagements[e].authority.scope)
    requires i < |plan| && P.Normalize(net, plan[i].url).Some?
             && P.RuleMatches(net, RuleOf(row), P.Normalize(net, plan[i].url).value, plan[i].url)
    ensures var v := EditEngagement(w, e, AddScope(id, row)).value.world;
            && !PlanAllowed(net, v.engagements[e].authority, grant, rules, plan, now)
            && forall approval :: approval in v.approvals && v.approvals[approval].engagement == e ==>
                                    Stale(v, approval)
  {
    hide Reachable, Leads;
    var v := EditEngagement(w, e, AddScope(id, row)).value.world;
    var a := v.engagements[e].authority;
    ReachableInv(w);
    assert a.scope[id] == row;
    P.ExclusionDominates(net, Asked(a, grant, rules, plan[i].url, now), RuleOf(row));
    forall approval | approval in v.approvals && v.approvals[approval].engagement == e ensures Stale(v, approval) {
      assert ApprovalOk(w, approval);
    }
  }

  /** Every planned request is inside the recorded rows: no excluding row matches it and some including row does. */
  ghost predicate PlanInside(net: P.Addresses, scope: map<ScopeId, ScopeRow>, plan: seq<Planned>) {
    && plan != []
    && forall i :: 0 <= i < |plan| ==> RequestInside(net, scope, plan[i].url)
  }

  ghost predicate RequestInside(net: P.Addresses, scope: map<ScopeId, ScopeRow>, url: string) {
    var host := P.Normalize(net, url);
    && host.Some?
    && (forall id :: id in scope && scope[id].excluded ==> !P.RuleMatches(net, RuleOf(scope[id]), host.value, url))
    && (exists id :: id in scope && !scope[id].excluded && P.RuleMatches(net, RuleOf(scope[id]), host.value, url))
  }

  lemma AllowedRequestInside(net: P.Addresses, a: Authority, grant: Grant, rules: seq<P.ScopeRule>, url: string,
                             now: Instant)
    requires Lists(rules, a.scope) && P.Evaluate(net, Asked(a, grant, rules, url, now)) == P.Allowed
    ensures RequestInside(net, a.scope, url)
  {
    P.AllowedExactly(net, Asked(a, grant, rules, url, now));
    hide P.Evaluate, P.RuleMatches, P.Normalize;
    var host := P.Normalize(net, url).value;
    var rule :| rule in rules && !rule.excluded && P.RuleMatches(net, rule, host, url);
    var id :| id in a.scope && RuleOf(a.scope[id]) == rule;
  }

  /** The scope fact an event carries is the policy answer over the rows stored at that moment. */
  ghost predicate ScopeAnswered(w: World, j: JobId, facts: Facts, net: P.Addresses, rules: seq<P.ScopeRule>,
                                plan: seq<Planned>, now: Instant)
    requires Known(w, j) && w.jobs[j].approval.Some? && w.jobs[j].approval.value in w.approvals
  {
    var a, id := w.engagements[w.jobs[j].engagement].authority, w.approvals[w.jobs[j].approval.value].authorization;
    && Lists(rules, a.scope)
    && (facts.inScope <==> id in a.grants && PlanAllowed(net, a, a.grants[id], rules, plan, now))
  }

  /** Answered from the stored rows, every claim, check, renewal, launch and success commits only if every
      request of the plan is inside the scope now stored, which is the scope that was signed, and only on an active
      engagement, under an active authorization, inside its testing window. */
  lemma ActionInsideScope(w: World, ev: Event, j: JobId, net: P.Addresses, rules: seq<P.ScopeRule>,
                          plan: seq<Planned>, now: Instant)
    requires ActsOn(ev) == Some(j) && Transact(w, ev).Success? && !Repeats(w, ev)
    requires Known(w, j) && w.jobs[j].approval.Some? && w.jobs[j].approval.value in w.approvals
    requires ScopeAnswered(w, j, FactsOf(ev), net, rules, plan, now)
    ensures var a, id := w.engagements[w.jobs[j].engagement].authority,
                         w.approvals[w.jobs[j].approval.value].authorization;
            && PlanInside(net, a.scope, plan)
            && w.approvals[w.jobs[j].approval.value].envelope.context.authority == a
            && a.status == "active" && id in a.grants && a.grants[id].status == "active"
            && (a.grants[id].windowStart.Some? ==> a.grants[id].windowStart.value <= now)
            && (a.grants[id].windowEnd.Some? ==> now <= a.grants[id].windowEnd.value)
  {
    hide Transact, P.Evaluate, Lists, RequestInside;
    ActionsNeedForce(w, ev, j);
    var a := w.engagements[w.jobs[j].engagement].authority;
    var grant := a.grants[w.approvals[w.jobs[j].approval.value].authorization];
    forall i | 0 <= i < |plan| ensures RequestInside(net, a.scope, plan[i].url) {
      AllowedRequestInside(net, a, grant, rules, plan[i].url, now);
    }
    P.AllowedExactly(net, Asked(a, grant, rules, plan[0].url, now));
  }
}
