/** Which hosts a URL rule confines its targets to, and the rules that confine them to none. */
module UrlRules {
  import opened Wrappers
  import opened Text
  import opened Policy

  /** The host a URL rule is about, if its value names one. */
  function RuleHost(net: Addresses, rule: ScopeRule): Option<Host> {
    Normalize(net, Lower(Strip(rule.value)))
  }

  /** A URL rule whose host can be read matches that host alone; one whose host cannot be read matches every
      host alike. */
  lemma UrlRuleHosts(net: Addresses, rule: ScopeRule, host: Host, other: Host, target: string)
    requires rule.kind == UrlRule
    ensures RuleHost(net, rule).Some? && RuleMatches(net, rule, host, target) ==>
              host.name == RuleHost(net, rule).value.name
    ensures RuleHost(net, rule).None? ==> RuleMatches(net, rule, host, target) == RuleMatches(net, rule, other, target)
  {
    hide Normalize, SchemeOf, PortOf, PathOf, PathWithin;
  }

  /** So a URL rule that matches confines the target to one host exactly when its own host can be read. */
  lemma UrlRuleConfinesExactly(net: Addresses, rule: ScopeRule, host: Host, target: string)
    requires rule.kind == UrlRule && RuleMatches(net, rule, host, target)
    ensures RuleHost(net, rule).Some?
       <==> forall other: Host :: RuleMatches(net, rule, other, target) ==> other.name == host.name
  {
    hide RuleMatches, RuleHost;
    if RuleHost(net, rule).Some? {
      forall other: Host | RuleMatches(net, rule, other, target) ensures other.name == host.name {
        UrlRuleHosts(net, rule, host, other, target);
        UrlRuleHosts(net, rule, other, host, target);
      }
    } else {
      var foreign := Host(Domain, host.name + ".");
      UrlRuleHosts(net, rule, host, foreign, target);
      assert foreign.name != host.name;
    }
  }

  // ----- The rules that confine to no host -----

  /** Lower-case letters, digits, hyphens and inner dots. */
  predicate PlainName(s: string) {
    && s != "" && s[|s| - 1] != '.'
    && forall i :: 0 <= i < |s| ==> 'a' <= s[i] <= 'z' || IsDigit(s[i]) || s[i] == '-' || s[i] == '.'
  }

  /** An address with every part written out, or with the port or the credentials left out. */
  datatype Url = Url(scheme: string, user: Option<string>, host: string, port: Option<string>, page: string)

  function AuthorityText(u: Url): string {
    (if u.user.Some? then u.user.value + "@" else "") + u.host + (if u.port.Some? then ":" + u.port.value else "")
  }

  function UrlText(u: Url): string {
    u.scheme + "://" + (AuthorityText(u) + "/" + u.page)
  }

  predicate PlainUrl(u: Url) {
    && (u.scheme == "http" || u.scheme == "https") && PlainName(u.host) && PlainName(u.page)
    && (u.user.Some? ==> PlainName(u.user.value)) && (u.port.Some? ==> AllDigits(u.port.value))
  }

  function Https(host: string, page: string): string {
    UrlText(Url("https", None, host, None, page))
  }

  lemma PlainLacks(s: string, c: char)
    requires PlainName(s) && !('a' <= c <= 'z') && !IsDigit(c) && c != '-' && c != '.'
    ensures c !in s
  {
  }

  lemma DigitsLack(s: string, c: char)
    requires AllDigits(s) && !IsDigit(c)
    ensures c !in s
  {
  }

  lemma {:induction false} CountConcat(a: string, b: string, c: char)
    ensures CountOf(a + b, c) == CountOf(a, c) + CountOf(b, c)
  {
    if a == "" {
      assert a + b == b;
    } else {
      assert (a + b)[1..] == a[1..] + b;
      CountConcat(a[1..], b, c);
    }
  }

  lemma {:induction false} NoneToCount(s: string, c: char)
    requires c !in s
    ensures CountOf(s, c) == 0
  {
    if s != "" { NoneToCount(s[1..], c); }
  }

  lemma NothingToTrim(s: string, c: char)
    requires s != "" && s[|s| - 1] != c
    ensures TrimEnd(s, c) == s
  {
  }

  lemma NothingToFind(s: string, c: char)
    requires c !in s
    ensures Before(s, c) == s
  {
  }

  // ----- A plain address, part by part -----

  /** No capital letter anywhere. */
  predicate Small(s: string) {
    forall i :: 0 <= i < |s| ==> !('A' <= s[i] <= 'Z')
  }

  lemma SmallLower(s: string)
    requires Small(s)
    ensures Lower(s) == s
  {
  }

  lemma SmallConcat(a: string, b: string)
    requires Small(a) && Small(b)
    ensures Small(a + b)
  {
  }

  lemma AuthorityIsSmall(u: Url)
    requires PlainUrl(u)
    ensures Small(AuthorityText(u)) && Small(u.host) && Small(u.page) && Small(u.scheme) && '/' !in AuthorityText(u)
  {
  }

  /** It is already trimmed and in lower case. */
  lemma UrlIsClean(u: Url)
    requires PlainUrl(u)
    ensures var t := UrlText(u); Strip(t) == t && Lower(t) == t && |t| > 5
  {
    var t := UrlText(u);
    AuthorityIsSmall(u);
    assert Small("://") && Small("/");
    hide PlainName;
    SmallConcat(AuthorityText(u), "/");
    SmallConcat(AuthorityText(u) + "/", u.page);
    SmallConcat(u.scheme, "://");
    SmallConcat(u.scheme + "://", AuthorityText(u) + "/" + u.page);
    assert t == u.scheme + "://" + (AuthorityText(u) + "/" + u.page);
    SmallLower(t);
    Untrimmed(u);
  }

  lemma Untrimmed(u: Url)
    requires PlainUrl(u)
    ensures Strip(UrlText(u)) == UrlText(u)
  {
    var t := UrlText(u);
    assert t[0] == u.scheme[0] == 'h' && t[|t| - 1] == u.page[|u.page| - 1];
    hide AuthorityText;
  }

  lemma UrlParts(u: Url)
    requires PlainUrl(u)
    ensures var t, rest := UrlText(u), AuthorityText(u) + "/" + u.page;
            && SchemeEnd(t) == |u.scheme| < |t| && t[..|u.scheme|] == u.scheme && AfterScheme(t) == rest
            && '/' in rest && Before(rest, '/') == AuthorityText(u) && After(rest, '/') == u.page
  {
    AuthorityIsSmall(u);
    assert ':' !in u.scheme;
    hide AuthorityText, PlainName;
    PartsOf(u.scheme, AuthorityText(u), u.page);
  }

  lemma PartsOf(scheme: string, authority: string, page: string)
    requires ':' !in scheme && '/' !in authority
    ensures var t, rest := scheme + "://" + (authority + "/" + page), authority + "/" + page;
            && SchemeEnd(t) == |scheme| < |t| && t[..|scheme|] == scheme && AfterScheme(t) == rest
            && '/' in rest && Before(rest, '/') == authority && After(rest, '/') == page
  {
    hide SchemeEnd, AfterScheme, IndexOf;
    var rest := authority + "/" + page;
    SchemeEndAt(scheme, rest);
    AfterSchemeOf(scheme, rest);
    AroundSeparator(authority, page, '/');
    assert rest[|authority|] == '/';
    assert (scheme + "://" + rest)[..|scheme|] == scheme;
  }

  lemma SchemeIsRead(u: Url)
    requires PlainUrl(u)
    ensures SchemeOf(UrlText(u)) == u.scheme
  {
    UrlIsClean(u);
    UrlParts(u);
    AuthorityIsSmall(u);
    SmallLower(u.scheme);
    hide UrlText, AuthorityText, SchemeEnd, Strip, Lower, PlainName;
  }

  lemma PathIsRead(u: Url)
    requires PlainUrl(u)
    ensures PathOf(UrlText(u)) == "/" + u.page
  {
    UrlParts(u);
    PlainLacks(u.page, '?');
    PlainLacks(u.page, '/');
    NothingToFind(u.page, '?');
    NothingToTrim(u.page, '/') by { assert u.page[|u.page| - 1] in u.page; }
    AuthorityIsSmall(u);
    SmallLower(u.page);
    hide UrlText, AuthorityText, AfterScheme, IndexOf, Before, After, TrimEnd, Lower, PlainName;
  }

  /** What is left once the credentials are gone: the host and, if written, the port. */
  function HostAndPort(u: Url): string {
    u.host + if u.port.Some? then ":" + u.port.value else ""
  }

  lemma CredentialsGone(u: Url)
    requires PlainUrl(u)
    ensures var a := AuthorityText(u);
            && (if '@' in a then After(a, '@') else a) == HostAndPort(u)
            && '@' !in HostAndPort(u) && ('@' in a <==> u.user.Some?)
  {
    hide AuthorityText, PlainName, AllDigits, IndexOf;
    TextOfAuthority(u);
    HostAndPortLacksAt(u);
    if u.user.Some? {
      PlainLacks(u.user.value, '@');
      AroundSeparator(u.user.value, HostAndPort(u), '@');
      assert (u.user.value + "@" + HostAndPort(u))[|u.user.value|] == '@';
    }
  }

  lemma HostAndPortLacksAt(u: Url)
    requires PlainUrl(u)
    ensures '@' !in HostAndPort(u)
  {
    PlainLacks(u.host, '@');
    if u.port.Some? { DigitsLack(u.port.value, '@'); }
  }

  lemma TextOfAuthority(u: Url)
    ensures AuthorityText(u) == if u.user.Some? then u.user.value + "@" + HostAndPort(u) else HostAndPort(u)
  {
    if u.user.Some? {
      assert AuthorityText(u) == u.user.value + "@" + HostAndPort(u);
    } else {
      assert AuthorityText(u) == HostAndPort(u);
    }
  }

  lemma HostAndPortParts(u: Url)
    requires PlainUrl(u)
    ensures var a := HostAndPort(u);
            && !StartsWith(a, "[") && CountOf(a, ':') == (if u.port.Some? then 1 else 0)
            && (if u.port.Some? then Before(a, ':') == u.host && After(a, ':') == u.port.value else a == u.host)
  {
    PlainLacks(u.host, ':');
    NoneToCount(u.host, ':');
    assert u.host[0] != '[';
    if u.port.Some? {
      DigitsLack(u.port.value, ':');
      NoneToCount(u.port.value, ':');
      CountConcat(u.host, ":" + u.port.value, ':');
      CountConcat(":", u.port.value, ':');
      AroundSeparator(u.host, u.port.value, ':');
      assert HostAndPort(u) == u.host + ":" + u.port.value == u.host + (":" + u.port.value);
      assert CountOf(":", ':') == 1;
    } else {
      assert HostAndPort(u) == u.host;
    }
    hide PlainName, AllDigits, IndexOf;
  }

  lemma PortIsRead(u: Url)
    requires PlainUrl(u)
    ensures PortOf(UrlText(u)) == if u.port.Some? then Some(Number(u.port.value))
                                  else Some(if u.scheme == "https" then 443 else 80)
  {
    UrlIsClean(u);
    UrlParts(u);
    SchemeIsRead(u);
    CredentialsGone(u);
    HostAndPortParts(u);
    hide UrlText, AuthorityText, HostAndPort, AfterScheme, Strip, Lower, SchemeOf, CountOf, IndexOf, Before, After;
    hide PlainName, StartsWith, Number;
  }

  lemma HostIsRead(net: Addresses, u: Url)
    requires PlainUrl(u)
    ensures Normalize(net, UrlText(u))
         == if net.isAddress(u.host) then Some(Host(Ip, u.host))
            else if '.' !in u.host then None else Some(Host(Domain, u.host))
  {
    hide UrlText, AuthorityText, AfterScheme, Strip, HostPart, WithoutCredentials, TrimEnd, Lower, Normalize;
    UrlIsClean(u);
    UrlParts(u);
    PartIsRead(u);
    AuthorityIsSmall(u);
    SmallLower(u.host);
    NothingToTrim(u.host, '.');
    PlainLacks(u.host, ' ');
    NameIsRead(net, UrlText(u), u.host);
  }

  lemma NameIsRead(net: Addresses, t: string, host: string)
    requires HostPart(WithoutCredentials(AfterScheme(Strip(t)))) == Some(host)
    requires TrimEnd(host, '.') == host && Lower(host) == host && host != "" && ' ' !in host
    ensures Normalize(net, t) == if net.isAddress(host) then Some(Host(Ip, host))
                                 else if '.' !in host then None else Some(Host(Domain, host))
  {
    hide AfterScheme, Strip, HostPart, WithoutCredentials, TrimEnd, Lower;
  }

  /** Credentials gone, the part that names the host is the host. */
  lemma PartIsRead(u: Url)
    requires PlainUrl(u)
    ensures HostPart(WithoutCredentials(AuthorityText(u) + "/" + u.page)) == Some(u.host)
  {
    UrlParts(u);
    CredentialsGone(u);
    HostAndPortParts(u);
    AuthorityIsSmall(u);
    var rest := AuthorityText(u) + "/" + u.page;
    RestWithoutCredentials(u);
    assert '/' !in HostAndPort(u) by { HostHasNoSlash(u); }
    AroundSeparator(HostAndPort(u), u.page, '/');
    hide AuthorityText, HostAndPort, CountOf, IndexOf, StartsWith, PlainName, WithoutCredentials, Before, After;
  }

  lemma HostHasNoSlash(u: Url)
    requires PlainUrl(u)
    ensures '/' !in HostAndPort(u)
  {
    PlainLacks(u.host, '/');
    if u.port.Some? { DigitsLack(u.port.value, '/'); }
  }

  lemma RestWithoutCredentials(u: Url)
    requires PlainUrl(u)
    ensures WithoutCredentials(AuthorityText(u) + "/" + u.page) == HostAndPort(u) + "/" + u.page
  {
    UrlParts(u);
    CredentialsGone(u);
    if u.user.Some? { AfterUser(u.user.value, HostAndPort(u), u.page) by { PlainLacks(u.user.value, '@'); } }
    TextOfAuthority(u);
    hide AuthorityText, HostAndPort, PlainName, IndexOf, Before, After;
  }

  lemma AfterUser(user: string, x: string, page: string)
    requires '@' !in user
    ensures After(user + "@" + x + "/" + page, '@') == x + "/" + page
  {
    hide IndexOf;
    AroundSeparator(user, x + "/" + page, '@');
    assert user + "@" + x + "/" + page == user + "@" + (x + "/" + page);
  }

  /** Reading an address written out gives back its parts: the scheme, the host without its credentials, the written
      port or the scheme's own, and the path. */
  lemma UrlsReadBack(net: Addresses, u: Url)
    requires PlainUrl(u)
    ensures var t := UrlText(u);
            && SchemeOf(t) == u.scheme && PathOf(t) == "/" + u.page
            && PortOf(t) == Some(if u.port.Some? then Number(u.port.value) else if u.scheme == "https" then 443 else 80)
            && Normalize(net, t) == (if net.isAddress(u.host) then Some(Host(Ip, u.host))
                                     else if '.' !in u.host then None else Some(Host(Domain, u.host)))
  {
    SchemeIsRead(u);
    PathIsRead(u);
    PortIsRead(u);
    HostIsRead(net, u);
    hide UrlText, SchemeOf, PathOf, PortOf, Normalize, PlainName;
  }

  /** A name by itself, with or without a port, has no scheme and no path, and no port but the one written. */
  lemma NamesReadBack(u: Url)
    requires PlainUrl(u)
    ensures var t := HostAndPort(u);
            && SchemeOf(t) == "" && PathOf(t) == ""
            && PortOf(t) == if u.port.Some? then Some(Number(u.port.value)) else None
  {
    NameIsClean(u);
    HostAndPortParts(u);
    CredentialsGone(u);
    HostHasNoSlash(u);
    NoSlashNoScheme(HostAndPort(u));
    NothingToFind(HostAndPort(u), '/');
    hide HostAndPort, SchemeEnd, Strip, CountOf, IndexOf, Before, After, PlainName, StartsWith, Number;
  }

  lemma NameIsClean(u: Url)
    requires PlainUrl(u)
    ensures Strip(HostAndPort(u)) == HostAndPort(u)
  {
    var t := HostAndPort(u);
    assert t[0] == u.host[0];
    assert t[|t| - 1] == if u.port.Some? then u.port.value[|u.port.value| - 1] else u.host[|u.host| - 1];
  }

  lemma {:induction false} NoSlashNoScheme(s: string)
    requires '/' !in s
    ensures SchemeEnd(s) == |s|
  {
    if |s| >= 3 { NoSlashNoScheme(s[1..]); }
  }

  function HttpsRule(host: string, page: string): ScopeRule {
    ScopeRule(Https(host, page), UrlRule, false)
  }

  /** A rule for a single-label host matches the same page of every host with a dotted name. */
  lemma SingleLabelMatchesAny(net: Addresses, single: string, page: string, host: string)
    requires PlainName(single) && '.' !in single && !net.isAddress(single) && PlainName(page)
    requires PlainName(host) && '.' in host && !net.isAddress(host)
    ensures RuleHost(net, HttpsRule(single, page)).None?
    ensures Normalize(net, Https(host, page)) == Some(Host(Domain, host))
    ensures RuleMatches(net, HttpsRule(single, page), Host(Domain, host), Https(host, page))
  {
    UrlsReadBack(net, Url("https", None, single, None, page));
    UrlsReadBack(net, Url("https", None, host, None, page));
    UrlIsClean(Url("https", None, single, None, page));
    SilentRuleMatches(net, Https(single, page), Host(Domain, host), Https(host, page));
    hide Https, Normalize, SchemeOf, PortOf, PathOf, RuleMatches, Strip, Lower, PlainName;
  }

  /** Scheme, port and page agree, so a rule that is silent about the host matches. */
  lemma SilentRuleMatches(net: Addresses, value: string, host: Host, target: string)
    requires Strip(value) == value && Lower(value) == value && value != "" && Normalize(net, value).None?
    requires SchemeOf(value) == SchemeOf(target) && PortOf(value) == PortOf(target) && PathOf(value) == PathOf(target)
    ensures RuleMatches(net, ScopeRule(value, UrlRule, false), host, target)
  {
    SamePathWithin(PathOf(value));
    hide Normalize, SchemeOf, PortOf, PathOf, PathWithin, Strip, Lower;
  }

  lemma SamePathWithin(path: string)
    ensures PathWithin(path, path)
  {
  }

  const NO_ADDRESSES := Addresses(_ => false, (_, _) => false)

  /** One such rule: https://intranet/admin matches https://www.example.com/admin. */
  lemma IntranetRuleMatchesForeign()
    ensures RuleHost(NO_ADDRESSES, HttpsRule("intranet", "admin")).None?
    ensures Normalize(NO_ADDRESSES, Https("www.example.com", "admin")) == Some(Host(Domain, "www.example.com"))
    ensures RuleMatches(NO_ADDRESSES, HttpsRule("intranet", "admin"), Host(Domain, "www.example.com"),
                        Https("www.example.com", "admin"))
  {
    assert "www.example.com"[3] == '.';
    SingleLabelMatchesAny(NO_ADDRESSES, "intranet", "admin", "www.example.com");
  }
}
