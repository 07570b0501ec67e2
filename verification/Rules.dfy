/** The blocking rules: what they hold, what they block, and the manager that
    changes them in place. */
module Rules {
  import opened Types
  import AppSignatures
  import IpText

  const STAR: char := '*'

  /** Blocked domains without a star are a set; those with one are kept in the
      order in which they came. */
  datatype RuleSet = RuleSet(
    ips: set<uint32>, apps: set<AppType>, domains: set<string>, patterns: seq<string>, ports: set<uint16>)

  const NO_RULES := RuleSet({}, {}, {}, [], {})

  datatype BlockReason = ByIp(text: string) | ByPort(text: string) | ByApp(text: string) | ByDomain(text: string)

  predicate EndsWith(s: string, suffix: string) {
    |suffix| <= |s| && s[|s| - |suffix|..] == suffix
  }

  /** A star in front matches any beginning; anywhere else it is an ordinary
      character. */
  predicate DomainMatches(domain: string, pattern: string) {
    if pattern == "" then false
    else if pattern[0] == STAR then |pattern| == 1 || EndsWith(domain, pattern[1..])
    else domain == pattern
  }

  predicate IsDomainBlocked(r: RuleSet, domain: string) {
    && domain != ""
    && (domain in r.domains || exists i :: 0 <= i < |r.patterns| && DomainMatches(domain, r.patterns[i]))
  }

  predicate IsAppBlocked(r: RuleSet, app: AppType) {
    app != Unknown && app in r.apps
  }

  /** Source address first, then destination port, application and domain. */
  function ShouldBlock(r: RuleSet, srcIp: uint32, dstPort: uint16, app: AppType, domain: string): Option<BlockReason> {
    if srcIp in r.ips then Some(ByIp(IpText.IpToString(srcIp)))
    else if dstPort in r.ports then Some(ByPort(IpText.Digits(dstPort)))
    else if IsAppBlocked(r, app) then Some(ByApp(AppSignatures.AppName(app)))
    else if IsDomainBlocked(r, domain) then Some(ByDomain(domain))
    else None
  }

  function WithDomain(r: RuleSet, domain: string): RuleSet {
    if STAR in domain then r.(patterns := r.patterns + [domain]) else r.(domains := r.domains + {domain})
  }

  function EraseAll(patterns: seq<string>, domain: string): seq<string> {
    if patterns == [] then []
    else if patterns[0] == domain then EraseAll(patterns[1..], domain)
    else [patterns[0]] + EraseAll(patterns[1..], domain)
  }

  function WithoutDomain(r: RuleSet, domain: string): RuleSet {
    r.(domains := r.domains - {domain}, patterns := EraseAll(r.patterns, domain))
  }

  /** Which of the two collections a domain is in is decided by its star. */
  predicate Sorted(r: RuleSet) {
    && (forall d :: d in r.domains ==> STAR !in d)
    && (forall i :: 0 <= i < |r.patterns| ==> STAR in r.patterns[i])
  }

  /** `RuleManager`. Its four locks are not modelled: each method is one step. */
  class RuleManager {
    var blockedIps: set<uint32>
    var blockedApps: set<AppType>
    var blockedDomains: set<string>
    var domainPatterns: seq<string>
    var blockedPorts: set<uint16>

    function View(): RuleSet
      reads this
    {
      RuleSet(blockedIps, blockedApps, blockedDomains, domainPatterns, blockedPorts)
    }

    ghost predicate Valid()
      reads this
    {
      Sorted(View())
    }

    constructor ()
      ensures View() == NO_RULES && Valid()
    {
      blockedIps, blockedApps, blockedDomains, domainPatterns, blockedPorts := {}, {}, {}, [], {};
    }

    method BlockIp(ip: uint32)
      requires Valid()
      modifies this
      ensures Valid() && View() == old(View()).(ips := old(blockedIps) + {ip})
    {
      blockedIps := blockedIps + {ip};
    }

    method BlockIpText(ip: string)
      requires Valid()
      modifies this
      ensures Valid() && View() == old(View()).(ips := old(blockedIps) + {IpText.ParseIp(ip)})
    {
      var parsed := IpText.ParseIpLoop(ip);
      BlockIp(parsed);
    }

    method UnblockIp(ip: uint32)
      requires Valid()
      modifies this
      ensures Valid() && View() == old(View()).(ips := old(blockedIps) - {ip})
    {
      blockedIps := blockedIps - {ip};
    }

    method BlockApp(app: AppType)
      requires Valid()
      modifies this
      ensures Valid() && View() == old(View()).(apps := old(blockedApps) + {app})
    {
      blockedApps := blockedApps + {app};
    }

    method UnblockApp(app: AppType)
      requires Valid()
      modifies this
      ensures Valid() && View() == old(View()).(apps := old(blockedApps) - {app})
    {
      blockedApps := blockedApps - {app};
    }

    method BlockDomain(domain: string)
      requires Valid()
      modifies this
      ensures Valid() && View() == WithDomain(old(View()), domain)
    {
      if STAR in domain {
        domainPatterns := domainPatterns + [domain];
      } else {
        blockedDomains := blockedDomains + {domain};
      }
    }

    /** Removes every copy of the pattern with one pass of an iterator. */
    method UnblockDomain(domain: string)
      requires Valid()
      modifies this
      ensures Valid() && View() == WithoutDomain(old(View()), domain)
    {
      blockedDomains := blockedDomains - {domain};
      ghost var before := domainPatterns;
      var i := 0;
      while i < |domainPatterns|
        invariant 0 <= i <= |domainPatterns|
        invariant domainPatterns[..i] + EraseAll(domainPatterns[i..], domain) == EraseAll(before, domain)
        invariant forall k :: 0 <= k < |domainPatterns| ==> STAR in domainPatterns[k]
        invariant blockedDomains == old(blockedDomains) - {domain}
        invariant blockedIps == old(blockedIps) && blockedApps == old(blockedApps) && blockedPorts == old(blockedPorts)
        decreases |domainPatterns| - i
      {
        ghost var now := domainPatterns;
        EraseStep(now, i, domain);
        if domainPatterns[i] == domain {
          domainPatterns := domainPatterns[..i] + domainPatterns[i + 1..];
          assert domainPatterns[..i] == now[..i] && domainPatterns[i..] == now[i + 1..];
        } else {
          i := i + 1;
        }
      }
      assert domainPatterns[..i] == domainPatterns;
    }

    method BlockPort(port: uint16)
      requires Valid()
      modifies this
      ensures Valid() && View() == old(View()).(ports := old(blockedPorts) + {port})
    {
      blockedPorts := blockedPorts + {port};
    }

    method UnblockPort(port: uint16)
      requires Valid()
      modifies this
      ensures Valid() && View() == old(View()).(ports := old(blockedPorts) - {port})
    {
      blockedPorts := blockedPorts - {port};
    }

    method ClearAll()
      modifies this
      ensures Valid() && View() == NO_RULES
    {
      blockedIps := {};
      blockedApps := {};
      blockedDomains, domainPatterns := {}, [];
      blockedPorts := {};
    }

    method DomainBlocked(domain: string) returns (blocked: bool)
      ensures blocked == IsDomainBlocked(View(), domain)
    {
      if domain == "" { return false; }
      if domain in blockedDomains { return true; }
      for i := 0 to |domainPatterns|
        invariant forall k :: 0 <= k < i ==> !DomainMatches(domain, domainPatterns[k])
      {
        if DomainMatches(domain, domainPatterns[i]) { return true; }
      }
      return false;
    }

    method Decide(srcIp: uint32, dstPort: uint16, app: AppType, domain: string) returns (reason: Option<BlockReason>)
      ensures reason == ShouldBlock(View(), srcIp, dstPort, app, domain)
    {
      if srcIp in blockedIps { return Some(ByIp(IpText.IpToString(srcIp))); }
      if dstPort in blockedPorts { return Some(ByPort(IpText.Digits(dstPort))); }
      if app != Unknown && app in blockedApps { return Some(ByApp(AppSignatures.AppName(app))); }
      var domainBlocked := DomainBlocked(domain);
      if domainBlocked { return Some(ByDomain(domain)); }
      return None;
    }
  }

  lemma EraseStep(patterns: seq<string>, i: nat, domain: string)
    requires i < |patterns|
    ensures patterns[i] == domain ==>
      patterns[..i] + EraseAll(patterns[i..], domain) == patterns[..i] + EraseAll(patterns[i + 1..], domain)
    ensures patterns[i] != domain ==>
      patterns[..i] + EraseAll(patterns[i..], domain) == patterns[..i + 1] + EraseAll(patterns[i + 1..], domain)
  {
    assert patterns[i..][0] == patterns[i] && patterns[i..][1..] == patterns[i + 1..];
    assert patterns[..i + 1] == patterns[..i] + [patterns[i]];
  }

  // ---------------------------------------------------------------- laws

  lemma {:induction false} EraseAppended(patterns: seq<string>, domain: string)
    ensures EraseAll(patterns + [domain], domain) == EraseAll(patterns, domain)
    ensures domain !in patterns ==> EraseAll(patterns, domain) == patterns
  {
    if patterns == [] {
      assert patterns + [domain] == [domain];
    } else {
      assert (patterns + [domain])[1..] == patterns[1..] + [domain];
      EraseAppended(patterns[1..], domain);
    }
  }

  /** Unblocking a domain undoes blocking it exactly when it was not there. */
  lemma UnblockUndoesBlock(r: RuleSet, domain: string)
    requires Sorted(r)
    ensures WithoutDomain(WithDomain(r, domain), domain) == r <==> domain !in r.domains && domain !in r.patterns
  {
    EraseAppended(r.patterns, domain);
    EraseRemoves(r.patterns, domain);
    if STAR !in domain {
      assert domain !in r.patterns;
      assert domain !in r.domains ==> r.domains + {domain} - {domain} == r.domains;
    } else {
      assert domain !in r.domains;
      assert r.domains - {domain} == r.domains;
    }
  }

  lemma {:induction false} EraseRemoves(patterns: seq<string>, domain: string)
    ensures domain !in EraseAll(patterns, domain)
  {
    if patterns == [] {
    } else {
      EraseRemoves(patterns[1..], domain);
    }
  }

  /** Unblocking takes out every copy of the name and keeps the others in their order. */
  lemma {:induction false} ErasedInOrder(a: seq<string>, pattern: string, b: seq<string>, domain: string)
    ensures EraseAll(a + [pattern] + b, domain) ==
      EraseAll(a, domain) + (if pattern == domain then [] else [pattern]) + EraseAll(b, domain)
  {
    if a == [] {
      assert a + [pattern] + b == [pattern] + b;
      assert ([pattern] + b)[1..] == b;
    } else {
      assert (a + [pattern] + b)[0] == a[0] && (a + [pattern] + b)[1..] == a[1..] + [pattern] + b;
      ErasedInOrder(a[1..], pattern, b, domain);
    }
  }

  /** A pattern with a star in front matches exactly the names that end in the rest. */
  lemma StarPatternIff(domain: string, suffix: string)
    ensures DomainMatches(domain, [STAR] + suffix) <==> exists front: string :: domain == front + suffix
  {
    assert ([STAR] + suffix)[1..] == suffix;
    if DomainMatches(domain, [STAR] + suffix) {
      var front := domain[..|domain| - |suffix|];
      assert domain == front + suffix;
    }
    if front: string :| domain == front + suffix {
      assert domain[|domain| - |suffix|..] == suffix;
    }
  }

  /** A new domain rule blocks what it matches and changes nothing else. */
  lemma RuleBlocksWhatItMatches(r: RuleSet, rule: string, domain: string)
    requires Sorted(r)
    ensures IsDomainBlocked(WithDomain(r, rule), domain) <==>
      IsDomainBlocked(r, domain) || (domain != "" && DomainMatches(domain, rule))
  {
    var after := WithDomain(r, rule);
    if STAR in rule {
      assert after.patterns[|r.patterns|] == rule;
      assert forall i :: 0 <= i < |r.patterns| ==> after.patterns[i] == r.patterns[i];
    }
  }

  // ---------------------------------------------------------------- what the rules block

  /** A rule as it is given to the manager. */
  datatype Rule =
    | BlockAddress(ip: uint32) | BlockPort(port: uint16) | BlockApp(app: AppType) | BlockDomain(text: string)

  function With(r: RuleSet, rule: Rule): RuleSet {
    match rule
    case BlockAddress(ip) => r.(ips := r.ips + {ip})
    case BlockPort(port) => r.(ports := r.ports + {port})
    case BlockApp(app) => r.(apps := r.apps + {app})
    case BlockDomain(text) => WithDomain(r, text)
  }

  /** The rules given one after the other, to a manager that has none. */
  function Given(rules: seq<Rule>): RuleSet {
    if rules == [] then NO_RULES else With(Given(rules[..|rules| - 1]), rules[|rules| - 1])
  }

  ghost predicate Ends(domain: string, suffix: string) {
    exists front: string :: domain == front + suffix
  }

  /** What a rule names: a source address, a destination port, an application that is known, or a
      domain, and with a star in front all names that end in the rest. */
  ghost predicate Names(rule: Rule, srcIp: uint32, dstPort: uint16, app: AppType, domain: string) {
    match rule
    case BlockAddress(ip) => srcIp == ip
    case BlockPort(port) => dstPort == port
    case BlockApp(blocked) => app == blocked && app != Unknown
    case BlockDomain(text) =>
      domain != "" && (domain == text || (text != "" && text[0] == '*' && Ends(domain, text[1..])))
  }

  lemma SortedKept(r: RuleSet, rule: Rule)
    requires Sorted(r)
    ensures Sorted(With(r, rule))
  {
  }

  lemma DomainNamedIff(text: string, domain: string)
    ensures domain != "" && DomainMatches(domain, text) <==> Names(BlockDomain(text), 0, 0, Unknown, domain)
  {
    if text != "" && text[0] == STAR {
      assert text == [STAR] + text[1..];
      StarPatternIff(domain, text[1..]);
      if domain == text {
        assert domain == [STAR] + text[1..];
      }
    }
  }

  /** No rules block nothing. */
  lemma NothingIsBlocked(srcIp: uint32, dstPort: uint16, app: AppType, domain: string)
    ensures ShouldBlock(NO_RULES, srcIp, dstPort, app, domain) == None
  {
  }

  /** A new rule blocks what was blocked before and what it names, and nothing else. */
  lemma NewRuleIff(r: RuleSet, rule: Rule, srcIp: uint32, dstPort: uint16, app: AppType, domain: string)
    requires Sorted(r)
    ensures ShouldBlock(With(r, rule), srcIp, dstPort, app, domain).Some? <==>
      ShouldBlock(r, srcIp, dstPort, app, domain).Some? || Names(rule, srcIp, dstPort, app, domain)
  {
    match rule
    case BlockDomain(text) =>
      RuleBlocksWhatItMatches(r, text, domain);
      DomainNamedIff(text, domain);
    case _ =>
  }

  /** Some domain rule other than one names the domain. */
  ghost predicate OtherNames(r: RuleSet, text: string, domain: string) {
    || (exists d :: d in r.domains && d != text && Names(BlockDomain(d), 0, 0, Unknown, domain))
    || (exists p :: p in r.patterns && p != text && Names(BlockDomain(p), 0, 0, Unknown, domain))
  }

  lemma PlainNames(d: string, domain: string)
    requires STAR !in d
    ensures Names(BlockDomain(d), 0, 0, Unknown, domain) <==> domain != "" && domain == d
  {
  }

  lemma {:induction false} ErasedIff(patterns: seq<string>, text: string, p: string)
    ensures p in EraseAll(patterns, text) <==> p in patterns && p != text
  {
    if patterns == [] {
    } else {
      ErasedIff(patterns[1..], text, p);
      assert patterns == [patterns[0]] + patterns[1..];
    }
  }

  lemma BlockedByPattern(patterns: seq<string>, domain: string)
    ensures (domain != "" && exists i :: 0 <= i < |patterns| && DomainMatches(domain, patterns[i])) <==>
      exists p :: p in patterns && Names(BlockDomain(p), 0, 0, Unknown, domain)
  {
    forall p: string
      ensures domain != "" && DomainMatches(domain, p) <==> Names(BlockDomain(p), 0, 0, Unknown, domain)
    {
      DomainNamedIff(p, domain);
    }
  }

  /** After unblocking a domain exactly those names are blocked that another domain rule names. */
  lemma UnblockLeaves(r: RuleSet, text: string, domain: string)
    requires Sorted(r)
    ensures IsDomainBlocked(WithoutDomain(r, text), domain) <==> OtherNames(r, text, domain)
  {
    var after := EraseAll(r.patterns, text);
    BlockedByPattern(after, domain);
    forall p: string
      ensures p in after <==> p in r.patterns && p != text
    {
      ErasedIff(r.patterns, text, p);
    }
    forall d: string | STAR !in d
      ensures Names(BlockDomain(d), 0, 0, Unknown, domain) <==> domain != "" && domain == d
    {
      PlainNames(d, domain);
    }
  }

  /** Whatever the rules were and in whatever order they came: blocked is exactly what one of them
      names. */
  lemma {:induction false} BlockedIffNamed(rules: seq<Rule>, srcIp: uint32, dstPort: uint16, app: AppType,
          domain: string)
    ensures Sorted(Given(rules))
    ensures ShouldBlock(Given(rules), srcIp, dstPort, app, domain).Some? <==>
      exists k :: 0 <= k < |rules| && Names(rules[k], srcIp, dstPort, app, domain)
  {
    if rules == [] {
      NothingIsBlocked(srcIp, dstPort, app, domain);
    } else {
      var front, last := rules[..|rules| - 1], rules[|rules| - 1];
      BlockedIffNamed(front, srcIp, dstPort, app, domain);
      SortedKept(Given(front), last);
      NewRuleIff(Given(front), last, srcIp, dstPort, app, domain);
      assert forall k :: 0 <= k < |front| ==> front[k] == rules[k];
    }
  }

  lemma {:induction false} GivenHolds(rules: seq<Rule>)
    ensures forall ip :: ip in Given(rules).ips <==> BlockAddress(ip) in rules
    ensures forall port :: port in Given(rules).ports <==> BlockPort(port) in rules
    ensures forall app :: app in Given(rules).apps <==> BlockApp(app) in rules
  {
    if rules == [] {
    } else {
      var front, last := rules[..|rules| - 1], rules[|rules| - 1];
      GivenHolds(front);
      assert rules == front + [last];
    }
  }

  /** And the reason given: a rule for the address comes first, then one for the port, one for the
      application, and one for the domain. */
  lemma ReasonGiven(rules: seq<Rule>, srcIp: uint32, dstPort: uint16, app: AppType, domain: string)
    ensures ShouldBlock(Given(rules), srcIp, dstPort, app, domain) ==
      if BlockAddress(srcIp) in rules then Some(ByIp(IpText.IpToString(srcIp)))
      else if BlockPort(dstPort) in rules then Some(ByPort(IpText.Digits(dstPort)))
      else if app != Unknown && BlockApp(app) in rules then Some(ByApp(AppSignatures.AppName(app)))
      else if exists k :: 0 <= k < |rules| && Names(rules[k], srcIp, dstPort, app, domain) then Some(ByDomain(domain))
      else None
  {
    GivenHolds(rules);
    BlockedIffNamed(rules, srcIp, dstPort, app, domain);
  }

  predicate StandsAt(s: string, part: string, i: nat) {
    i + |part| <= |s| && s[i..i + |part|] == part
  }

  predicate Substring(s: string, part: string) {
    exists i :: 0 <= i <= |s| && StandsAt(s, part, i)
  }

  /** Every domain that has the rule in it is blocked by it. */
  ghost predicate BlocksBySubstring(rule: string) {
    forall domain :: Substring(domain, rule) ==> IsDomainBlocked(WithDomain(NO_RULES, rule), domain)
  }

  lemma NotSuffix(s: string, suffix: string)
    requires s != ""
    ensures suffix != "" && suffix[|suffix| - 1] != s[|s| - 1] ==> !EndsWith(s, suffix)
  {
    assert |suffix| <= |s| && suffix != "" ==> s[|s| - |suffix|..][|suffix| - 1] == s[|s| - 1];
  }

  /** The usage text offers domain rules as a substring match. The only rule for
      which that is what happens is the lone star. */
  lemma SubstringRuleIff(rule: string)
    ensures BlocksBySubstring(rule) <==> rule == "*"
  {
    var r := WithDomain(NO_RULES, rule);
    if rule == "*" {
      forall domain | Substring(domain, rule)
        ensures IsDomainBlocked(r, domain)
      {
        assert DomainMatches(domain, r.patterns[0]);
      }
    } else {
      var c := if rule != "" && rule[|rule| - 1] == 'a' then 'b' else 'a';
      var domain := if rule == "" then "" else rule + [c];
      assert StandsAt(domain, rule, 0);
      assert Substring(domain, rule);
      if rule != "" {
        NotSuffix(domain, rule[1..]);
      }
      assert !IsDomainBlocked(r, domain);
    }
  }
}
