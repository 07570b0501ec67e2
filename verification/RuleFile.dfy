/** The text form of the rules: what saving writes, what loading makes of any
    text, and exactly which rule sets survive both. */
module RuleFile {
  import opened Types
  import opened Rules
  import AppSignatures
  import IpText

  const NEWLINE: char := '\n'

  predicate IsSpace(c: char) {
    c == ' ' || c == '\t' || c == '\n' || c == '\r' || c as int == 11 || c as int == 12
  }

  // ---------------------------------------------------------------- text

  /** The part of a text in front of the first character that stops it. */
  function Until(s: string, stop: char -> bool): (n: nat)
    ensures n <= |s|
    ensures forall i :: 0 <= i < n ==> !stop(s[i])
    ensures n < |s| ==> stop(s[n])
  {
    if s == "" || stop(s[0]) then 0 else 1 + Until(s[1..], stop)
  }

  /** The lines that `getline` delivers one after the other. */
  function Lines(text: string): seq<string>
    decreases |text|
  {
    if text == "" then []
    else
      var n := Until(text, c => c == NEWLINE);
      if n == |text| then [text] else [text[..n]] + Lines(text[n + 1..])
  }

  /** One `>>` into a string: blanks are skipped, then everything up to the next
      blank is taken. The result is empty when nothing is left. */
  function Token(s: string): (string, string) {
    var start := Until(s, c => !IsSpace(c));
    var rest := s[start..];
    var n := Until(rest, IsSpace);
    (rest[..n], rest[n..])
  }

  /** `std::stoi`: an optional sign and as many digits as there are; anything
      after them is ignored. None stands for the exception. */
  function Stoi(s: string): Option<int> {
    var signed := s != "" && (s[0] == '+' || s[0] == '-');
    var body := if signed then s[1..] else s;
    var digits := body[..Until(body, c => !IpText.IsDigit(c))];
    if digits == "" then None
    else
      var v: int := Value(digits);
      var n: int := if signed && s[0] == '-' then -v else v;
      if -0x8000_0000 <= n < 0x8000_0000 then Some(n) else None
  }

  function DigitValue(c: char): (d: nat)
    requires IpText.IsDigit(c)
    ensures d < 10
  {
    c as int - '0' as int
  }

  function Value(digits: string): nat
    requires forall i :: 0 <= i < |digits| ==> IpText.IsDigit(digits[i])
  {
    if digits == "" then 0
    else Value(digits[..|digits| - 1]) * 10 + DigitValue(digits[|digits| - 1])
  }

  // ---------------------------------------------------------------- loading

  const APPS: seq<AppType> := [
    Unknown, Http, Https, Dns, Tls, Quic, Google, Facebook, YouTube, Twitter, Instagram, Netflix,
    Amazon, Microsoft, Apple, WhatsApp, Telegram, TikTok, Spotify, Zoom, Discord, GitHub, Cloudflare]

  /** The first application with a name, in the order of the enumeration. */
  function FindApp(apps: seq<AppType>, name: string): Option<AppType> {
    if apps == [] then None
    else if AppSignatures.AppName(apps[0]) == name then Some(apps[0])
    else FindApp(apps[1..], name)
  }

  /** What one line does to the rules. None stands for the exception that a
      malformed port throws out of the loader. */
  function LoadLine(r: RuleSet, line: string): Option<RuleSet> {
    if line == "" || line[0] == '#' then Some(r)
    else
      var (kind, rest) := Token(line);
      var (value, _) := Token(rest);
      if kind == "" || value == "" then Some(r) else LoadEntry(r, kind, value)
  }

  function LoadEntry(r: RuleSet, kind: string, value: string): Option<RuleSet> {
    if kind == "IP" then Some(r.(ips := r.ips + {IpText.ParseIp(value)}))
    else if kind == "APP" then
      match FindApp(APPS, value)
      case Some(app) => Some(r.(apps := r.apps + {app}))
      case None => Some(r)
    else if kind == "DOMAIN" then Some(WithDomain(r, value))
    else if kind == "PORT" then
      match Stoi(value)
      case Some(n) => Some(r.(ports := r.ports + {n % 0x1_0000}))
      case None => None
    else Some(r)
  }

  /** How far the loading of some lines gets: all of them, or those before the first
      that throws. */
  function LoadPrefix(r: RuleSet, lines: seq<string>): RuleSet
    decreases |lines|
  {
    if lines == [] then r
    else match LoadLine(r, lines[0])
      case None => r
      case Some(next) => LoadPrefix(next, lines[1..])
  }

  function LoadLines(r: RuleSet, lines: seq<string>): Option<RuleSet>
    decreases |lines|
  {
    if lines == [] then Some(r)
    else match LoadLine(r, lines[0])
      case None => None
      case Some(next) => LoadLines(next, lines[1..])
  }

  /** `loadRules` on the text of a file. */
  function Load(text: string): Option<RuleSet> {
    LoadLines(NO_RULES, Lines(text))
  }

  // ---------------------------------------------------------------- saving

  function IpLine(ip: uint32): string { "IP" + " " + IpText.IpToString(ip) }

  function AppLine(app: AppType): string { "APP" + " " + AppSignatures.AppName(app) }

  function DomainLine(domain: string): string { "DOMAIN" + " " + domain }

  function PortLine(port: uint16): string { "PORT" + " " + IpText.Digits(port) }

  function Render(lines: seq<string>): string {
    if lines == [] then "" else lines[0] + [NEWLINE] + Render(lines[1..])
  }

  /** The sequence lists the set, in some order. */
  predicate Lists<T(==)>(order: seq<T>, items: set<T>) {
    && (forall i :: 0 <= i < |order| ==> order[i] in items)
    && (forall x :: x in items ==> x in order)
  }

  function Map<T>(f: T -> string, order: seq<T>): (lines: seq<string>)
    ensures |lines| == |order|
    ensures forall i :: 0 <= i < |order| ==> lines[i] == f(order[i])
  {
    seq(|order|, i requires 0 <= i < |order| => f(order[i]))
  }

  /** The orders in which the hash sets were walked. */
  datatype Walk = Walk(ips: seq<uint32>, apps: seq<AppType>, domains: seq<string>, ports: seq<uint16>)

  predicate WalkOf(w: Walk, r: RuleSet) {
    Lists(w.ips, r.ips) && Lists(w.apps, r.apps) && Lists(w.domains, r.domains) && Lists(w.ports, r.ports)
  }

  function SavedLines(w: Walk, patterns: seq<string>): seq<string> {
    Map(IpLine, w.ips) + Map(AppLine, w.apps) + Map(DomainLine, w.domains + patterns) + Map(PortLine, w.ports)
  }

  /** `saveRules` writes one of these texts, depending on the order of the walk. */
  ghost predicate IsSaved(text: string, r: RuleSet) {
    exists w: Walk :: WalkOf(w, r) && text == Render(SavedLines(w, r.patterns))
  }

  // ---------------------------------------------------------------- laws

  predicate Storable(d: string) {
    d != "" && forall i :: 0 <= i < |d| ==> !IsSpace(d[i])
  }

  /** Every domain and pattern is one non-empty word. */
  predicate StorableRules(r: RuleSet) {
    && (forall d :: d in r.domains ==> Storable(d))
    && (forall i :: 0 <= i < |r.patterns| ==> Storable(r.patterns[i]))
  }

  predicate OneLine(line: string) {
    '\n' !in line
  }

  predicate AreLines(lines: seq<string>) {
    forall i :: 0 <= i < |lines| ==> OneLine(lines[i])
  }

  lemma FirstLine(first: string, rest: string)
    requires OneLine(first)
    ensures Lines(first + "\n" + rest) == [first] + Lines(rest)
  {
    var text := first + "\n" + rest;
    var n := Until(text, c => c == NEWLINE);
    assert text[|first|] == '\n';
    assert forall i :: 0 <= i < |first| ==> text[i] == first[i];
    assert n == |first|;
    assert text[..n] == first && text[n + 1..] == rest;
  }

  lemma LastLine(last: string)
    requires OneLine(last)
    ensures Lines(last) == if last == "" then [] else [last]
  {
  }

  lemma RenderedFirst(lines: seq<string>, last: string)
    requires lines != []
    ensures Render(lines) + last == lines[0] + "\n" + (Render(lines[1..]) + last)
  {
    var first, more := lines[0], Render(lines[1..]);
    assert Render(lines) == first + "\n" + more;
    assert first + "\n" + more + last == first + "\n" + (more + last);
  }

  /** The lines of a text, and what stands behind the last line break: that is one more line, unless
      it is empty. */
  lemma {:induction false} LinesOfRendered(lines: seq<string>, last: string)
    requires AreLines(lines) && OneLine(last)
    ensures Lines(Render(lines) + last) == lines + Lines(last)
    ensures Lines(last) == if last == "" then [] else [last]
  {
    LastLine(last);
    if lines == [] {
      assert Render(lines) + last == last;
    } else {
      LinesOfRendered(lines[1..], last);
      RenderedFirst(lines, last);
      FirstLine(lines[0], Render(lines[1..]) + last);
      assert [lines[0]] + (lines[1..] + Lines(last)) == lines + Lines(last);
    }
  }

  lemma OneMoreLine(line: string, more: seq<string>, last: string)
    requires OneLine(line) && AreLines(more)
    ensures AreLines([line] + more)
    ensures Render([line] + more) + last == line + "\n" + (Render(more) + last)
  {
    RenderedFirst([line] + more, last);
    assert ([line] + more)[1..] == more;
  }

  lemma CutAtBreak(text: string) returns (line: string, rest: string)
    requires '\n' in text
    ensures text == line + "\n" + rest && OneLine(line)
  {
    var n := Until(text, c => c == NEWLINE);
    line, rest := text[..n], text[n + 1..];
    assert text == text[..n] + [text[n]] + text[n + 1..];
  }

  /** Every text is of that form. */
  lemma {:induction false} TextHasLines(text: string) returns (lines: seq<string>, last: string)
    ensures text == Render(lines) + last && AreLines(lines) && OneLine(last)
    decreases |text|
  {
    if '\n' in text {
      var line, rest := CutAtBreak(text);
      var more;
      more, last := TextHasLines(rest);
      lines := [line] + more;
      OneMoreLine(line, more, last);
    } else {
      lines, last := [], text;
    }
  }

  lemma EmptyLineAtEnd(lines: seq<string>)
    ensures LoadLines(NO_RULES, lines + [""]) == LoadLines(NO_RULES, lines)
  {
    LoadAppend(NO_RULES, lines, [""]);
    if LoadLines(NO_RULES, lines).Some? {
      EmptyLineIsSkipped(LoadLines(NO_RULES, lines).value);
    }
  }

  lemma NoMoreLines(lines: seq<string>)
    ensures lines + [] == lines
  {
  }

  /** A last line without a line break is loaded like one with it. */
  lemma LastBreakIsOptional(text: string)
    ensures Load(text + "\n") == Load(text)
  {
    var lines, last := TextHasLines(text);
    LinesOfRendered(lines, last);
    OneMoreBreak(lines, last);
    LinesOfRendered(lines + [last], "");
    NoMoreLines(lines + [last]);
    NoMoreLines(lines);
    EmptyLineAtEnd(lines);
    assert Lines(text + "\n") == lines + [last];
    assert Lines(text) == lines + (if last == "" then [] else [last]);
  }

  lemma OneMoreBreak(lines: seq<string>, last: string)
    ensures Render(lines) + last + "\n" == Render(lines + [last]) + ""
  {
    RenderAppend(lines, [last]);
    assert Render([last]) == last + "\n" + Render([]);
    assert Render(lines) + (last + "\n" + "") == Render(lines) + last + "\n";
  }

  lemma EmptyLineIsSkipped(r: RuleSet)
    ensures LoadLines(r, [""]) == Some(r)
  {
    assert [""][1..] == [];
  }

  /** A word in front of a blank or the end is taken whole. */
  lemma TokenIsWord(word: string, rest: string)
    requires Storable(word) && (rest == "" || IsSpace(rest[0]))
    ensures Token(word + rest) == (word, rest)
  {
    var s := word + rest;
    var start := Until(s, c => !IsSpace(c));
    assert s[0] == word[0];
    assert start == 0;
    assert s[start..] == s;
    var n := Until(s, IsSpace);
    assert forall i :: 0 <= i < |word| ==> s[i] == word[i];
    if rest != "" {
      assert s[|word|] == rest[0];
    }
    assert n == |word|;
    assert s[..n] == word && s[n..] == rest;
  }

  lemma TokenSkipsBlank(s: string)
    ensures Token(" " + s) == Token(s)
  {
    var t := " " + s;
    assert t[1..] == s;
    var k := Until(s, c => !IsSpace(c));
    assert Until(t, c => !IsSpace(c)) == 1 + k;
    assert t[1 + k..] == s[k..];
  }

  /** A saved line splits into its keyword and its value. */
  lemma SavedLineSplits(kind: string, value: string)
    requires Storable(kind) && Storable(value)
    ensures Token(kind + " " + value).0 == kind
    ensures Token(Token(kind + " " + value).1).0 == value
  {
    var rest := " " + value;
    assert kind + " " + value == kind + rest;
    TokenIsWord(kind, rest);
    TokenSkipsBlank(value);
    TokenOfWord(value);
  }

  lemma TokenOfWord(word: string)
    requires Storable(word)
    ensures Token(word).0 == word
  {
    assert word + "" == word;
    TokenIsWord(word, "");
  }

  /** Tokens never hold blanks. */
  lemma TokenIsStorable(s: string)
    ensures Token(s).0 == "" || Storable(Token(s).0)
  {
  }

  lemma {:induction false} ValueOfDigits(n: nat)
    ensures Value(IpText.Digits(n)) == n
  {
    if n >= 10 {
      ValueOfDigits(n / 10);
      var s := IpText.Digits(n);
      assert s[..|s| - 1] == IpText.Digits(n / 10);
    } else {
      assert IpText.Digits(n)[..0] == "";
    }
  }

  lemma StoiOfDigits(n: uint16)
    ensures Stoi(IpText.Digits(n)) == Some(n)
  {
    var s := IpText.Digits(n);
    assert IpText.IsDigit(s[0]);
    assert Until(s, c => !IpText.IsDigit(c)) == |s|;
    assert s[..|s|] == s;
    ValueOfDigits(n);
  }

  /** A number that tells all application names apart. */
  function NameKey(name: string): nat {
    if |name| < 2 then 0 else |name| * 0x1000 + (name[0] as int) * 8 + (if name[1] == 'i' then 1 else 0)
  }

  function AppKey(app: AppType): nat {
    match app
    case Unknown => 0x72a8 case Http => 0x4240 case Https => 0x5240 case Dns => 0x3220 case Tls => 0x32a0
    case Quic => 0x4288 case Google => 0x6238 case Facebook => 0x8230 case YouTube => 0x72c8
    case Twitter => 0x92a0 case Instagram => 0x9248 case Netflix => 0x7270 case Amazon => 0x6208
    case Microsoft => 0x9269 case Apple => 0x5208 case WhatsApp => 0x82b8 case Telegram => 0x82a0
    case TikTok => 0x62a1 case Spotify => 0x7298 case Zoom => 0x42d0 case Discord => 0x7221
    case GitHub => 0x6239 case Cloudflare => 0xa218
  }

  lemma NameKeys(app: AppType)
    ensures NameKey(AppSignatures.AppName(app)) == AppKey(app)
  {
  }

  lemma AppNamesDistinct(a: AppType, b: AppType)
    ensures AppSignatures.AppName(a) == AppSignatures.AppName(b) ==> a == b
  {
    NameKeys(a);
    NameKeys(b);
  }

  lemma {:induction false} FindAppByName(apps: seq<AppType>, app: AppType)
    requires app in apps
    ensures FindApp(apps, AppSignatures.AppName(app)) == Some(app)
  {
    AppNamesDistinct(apps[0], app);
    if apps[0] == app {
    } else {
      FindAppByName(apps[1..], app);
    }
  }

  function AppIndex(app: AppType): nat {
    match app
    case Unknown => 0 case Http => 1 case Https => 2 case Dns => 3 case Tls => 4 case Quic => 5 case Google => 6
    case Facebook => 7 case YouTube => 8 case Twitter => 9 case Instagram => 10 case Netflix => 11 case Amazon => 12
    case Microsoft => 13 case Apple => 14 case WhatsApp => 15 case Telegram => 16 case TikTok => 17 case Spotify => 18
    case Zoom => 19 case Discord => 20 case GitHub => 21 case Cloudflare => 22
  }

  lemma AppListed(app: AppType)
    ensures app in APPS
  {
    assert APPS[AppIndex(app)] == app;
  }

  lemma EarlyAppNameIsWord(app: AppType)
    requires AppIndex(app) < 12
    ensures Storable(AppSignatures.AppName(app))
  {
  }

  lemma LateAppNameIsWord(app: AppType)
    requires AppIndex(app) >= 12
    ensures Storable(AppSignatures.AppName(app))
  {
  }

  lemma AppNameIsWord(app: AppType)
    ensures Storable(AppSignatures.AppName(app))
  {
    if AppIndex(app) < 12 {
      EarlyAppNameIsWord(app);
    } else {
      LateAppNameIsWord(app);
    }
  }

  lemma {:induction false} DigitsAreWord(n: nat)
    ensures Storable(IpText.Digits(n))
  {
    var s := IpText.Digits(n);
    assert forall i :: 0 <= i < |s| ==> IpText.IsDigit(s[i]);
  }

  lemma WordJoin(a: string, b: string)
    requires Storable(a) && Storable(b)
    ensures Storable(a + "." + b)
  {
  }

  lemma IpIsWord(ip: uint32)
    ensures Storable(IpText.IpToString(ip))
  {
    var a, b, c, d := IpText.Digits(IpText.Octet(ip, 0)), IpText.Digits(IpText.Octet(ip, 1)),
      IpText.Digits(IpText.Octet(ip, 2)), IpText.Digits(IpText.Octet(ip, 3));
    DigitsAreWord(IpText.Octet(ip, 0));
    DigitsAreWord(IpText.Octet(ip, 1));
    DigitsAreWord(IpText.Octet(ip, 2));
    DigitsAreWord(IpText.Octet(ip, 3));
    WordJoin(a, b);
    WordJoin(a + "." + b, c);
    WordJoin(a + "." + b + "." + c, d);
  }

  /** A saved line is read back as the entry that was saved. */
  lemma LoadSavedLine(r: RuleSet, kind: string, value: string, line: string)
    requires Storable(kind) && Storable(value) && kind[0] != '#' && line == kind + " " + value
    ensures LoadLine(r, line) == LoadEntry(r, kind, value)
  {
    SavedLineSplits(kind, value);
    assert line[0] == kind[0];
  }

  lemma LoadIpLine(r: RuleSet, ip: uint32)
    ensures LoadLine(r, IpLine(ip)) == Some(r.(ips := r.ips + {ip}))
  {
    IpIsWord(ip);
    LoadSavedLine(r, "IP", IpText.IpToString(ip), IpLine(ip));
    IpText.ParsePrinted(ip);
  }

  lemma LoadAppLine(r: RuleSet, app: AppType)
    ensures LoadLine(r, AppLine(app)) == Some(r.(apps := r.apps + {app}))
  {
    AppNameIsWord(app);
    LoadSavedLine(r, "APP", AppSignatures.AppName(app), AppLine(app));
    AppListed(app);
    FindAppByName(APPS, app);
  }

  lemma LoadDomainLine(r: RuleSet, domain: string)
    requires Storable(domain)
    ensures LoadLine(r, DomainLine(domain)) == Some(WithDomain(r, domain))
  {
    LoadSavedLine(r, "DOMAIN", domain, DomainLine(domain));
  }

  lemma PortEntry(r: RuleSet, value: string, port: uint16)
    requires Stoi(value) == Some(port)
    ensures LoadEntry(r, "PORT", value) == Some(r.(ports := r.ports + {port}))
  {
  }

  lemma LoadPortLine(r: RuleSet, port: uint16)
    ensures LoadLine(r, PortLine(port)) == Some(r.(ports := r.ports + {port}))
  {
    DigitsAreWord(port);
    LoadSavedLine(r, "PORT", IpText.Digits(port), PortLine(port));
    StoiOfDigits(port);
    PortEntry(r, IpText.Digits(port), port);
  }

  // ---------------------------------------------------------------- lines

  /** White space of the C locale: a blank, or one of the five characters from the tab on. */
  predicate White(c: char) {
    c == ' ' || 9 <= c as int <= 13
  }

  predicate AllWhite(s: string) {
    forall i :: 0 <= i < |s| ==> White(s[i])
  }

  predicate Word(s: string) {
    s != "" && forall i :: 0 <= i < |s| ==> !White(s[i])
  }

  /** A line with at least two words; what follows them is ignored. */
  datatype EntryLine = EntryLine(lead: string, kind: string, gap: string, value: string, rest: string)

  predicate Reads(e: EntryLine, line: string) {
    && line == e.lead + e.kind + e.gap + e.value + e.rest
    && AllWhite(e.lead) && Word(e.kind) && e.gap != "" && AllWhite(e.gap) && Word(e.value)
    && (e.rest == "" || White(e.rest[0]))
  }

  lemma {:induction false} TokenSkipsWhite(lead: string, s: string)
    requires AllWhite(lead)
    ensures Token(lead + s) == Token(s)
  {
    if lead == "" {
      assert lead + s == s;
    } else {
      var t := lead + s;
      assert t[1..] == lead[1..] + s;
      TokenSkipsWhite(lead[1..], s);
      var k := Until(t[1..], c => !IsSpace(c));
      assert Until(t, c => !IsSpace(c)) == 1 + k;
      assert t[1 + k..] == t[1..][k..];
    }
  }

  /** One word is read with what goes before it. */
  lemma TokenIs(lead: string, word: string, rest: string)
    requires AllWhite(lead) && Word(word) && (rest == "" || White(rest[0]))
    ensures Token(lead + word + rest) == (word, rest)
  {
    assert lead + word + rest == lead + (word + rest);
    TokenSkipsWhite(lead, word + rest);
    TokenIsWord(word, rest);
  }

  lemma Regrouped(a: string, b: string, c: string, d: string, e: string)
    ensures a + b + c + d + e == a + b + (c + d + e)
  {
  }

  lemma ReadsTokens(e: EntryLine, line: string)
    requires Reads(e, line)
    ensures Token(line).0 == e.kind && Token(Token(line).1).0 == e.value
  {
    var more := e.gap + e.value + e.rest;
    Regrouped(e.lead, e.kind, e.gap, e.value, e.rest);
    assert more[0] == e.gap[0];
    TokenIs(e.lead, e.kind, more);
    TokenIs(e.gap, e.value, e.rest);
  }

  lemma LeadIsWhite(s: string) returns (lead: string, rest: string)
    ensures s == lead + rest && AllWhite(lead) && (rest == "" || !White(rest[0]))
    ensures rest == s[Until(s, c => !IsSpace(c))..]
  {
    var start := Until(s, c => !IsSpace(c));
    lead, rest := s[..start], s[start..];
  }

  lemma WordIsTaken(rest: string) returns (word: string, after: string)
    requires rest == "" || !White(rest[0])
    ensures rest == word + after && (word == "" || Word(word)) && (after == "" || White(after[0]))
    ensures word == rest[..Until(rest, IsSpace)] && after == rest[Until(rest, IsSpace)..]
  {
    var n := Until(rest, IsSpace);
    word, after := rest[..n], rest[n..];
  }

  lemma Joined(s: string, lead: string, rest: string, word: string, after: string)
    requires s == lead + rest && rest == word + after
    ensures s == lead + word + after
  {
  }

  lemma TokenParts(s: string) returns (lead: string, word: string, after: string)
    ensures Token(s) == (word, after)
    ensures s == lead + word + after && AllWhite(lead)
    ensures (word == "" || Word(word)) && (after == "" || White(after[0]))
  {
    var rest;
    lead, rest := LeadIsWhite(s);
    word, after := WordIsTaken(rest);
    Joined(s, lead, rest, word, after);
  }

  lemma GapIsThere(gap: string, value: string, after: string)
    requires value != "" && !White(value[0]) && White((gap + value + after)[0])
    ensures gap != ""
  {
    assert (gap + value + after)[|gap|] == value[0];
  }

  lemma TokensRead(line: string) returns (e: EntryLine)
    requires Token(line).0 != "" && Token(Token(line).1).0 != ""
    ensures Reads(e, line) && e.kind == Token(line).0 && e.value == Token(Token(line).1).0
  {
    var lead, kind, rest := TokenParts(line);
    var gap, value, after := TokenParts(rest);
    e := EntryLine(lead, kind, gap, value, after);
    GapIsThere(gap, value, after);
    Regrouped(lead, kind, gap, value, after);
  }

  /** What a line is read as, exactly: a line with two words or more that does not start with a hash
      is the entry of its first two words, and any other line is nothing. */
  lemma LineIff(r: RuleSet, line: string)
    ensures forall e :: Reads(e, line) && line[0] != '#' ==> LoadLine(r, line) == LoadEntry(r, e.kind, e.value)
    ensures (forall e :: !Reads(e, line)) || line[0] == '#' ==> LoadLine(r, line) == Some(r)
  {
    forall e | Reads(e, line) && line[0] != '#'
      ensures LoadLine(r, line) == LoadEntry(r, e.kind, e.value)
    {
      ReadsTokens(e, line);
    }
    if line != "" && Token(line).0 != "" && Token(Token(line).1).0 != "" {
      var e := TokensRead(line);
    }
  }

  lemma {:induction false} UnknownName(apps: seq<AppType>, name: string)
    ensures (forall a: AppType :: AppSignatures.AppName(a) != name) ==> FindApp(apps, name) == None
  {
    if apps == [] {
    } else {
      UnknownName(apps[1..], name);
    }
  }

  lemma TypedLine(r: RuleSet, kind: string, word: string)
    requires Word(kind) && Word(word) && kind[0] != '#'
    ensures LoadLine(r, kind + " " + word) == LoadEntry(r, kind, word)
  {
    LoadSavedLine(r, kind, word, kind + " " + word);
  }

  /** The entries as they are typed. */
  lemma TypedAddress(r: RuleSet, word: string)
    requires Word(word)
    ensures LoadLine(r, "IP" + " " + word) == Some(r.(ips := r.ips + {IpText.ParseIp(word)}))
  {
    TypedLine(r, "IP", word);
  }

  lemma TypedDomain(r: RuleSet, word: string)
    requires Word(word)
    ensures LoadLine(r, "DOMAIN" + " " + word) == Some(WithDomain(r, word))
  {
    TypedLine(r, "DOMAIN", word);
  }

  /** A name that no application has is ignored. */
  lemma TypedApp(r: RuleSet, word: string)
    requires Word(word)
    ensures forall app :: AppSignatures.AppName(app) == word ==>
      LoadLine(r, "APP" + " " + word) == Some(r.(apps := r.apps + {app}))
    ensures (forall app :: AppSignatures.AppName(app) != word) ==> LoadLine(r, "APP" + " " + word) == Some(r)
  {
    TypedLine(r, "APP", word);
    UnknownName(APPS, word);
    forall app | AppSignatures.AppName(app) == word
      ensures FindApp(APPS, word) == Some(app)
    {
      AppListed(app);
      FindAppByName(APPS, app);
    }
  }

  lemma TypedPort(r: RuleSet, word: string)
    requires Word(word)
    ensures LoadLine(r, "PORT" + " " + word) ==
      match Stoi(word) case Some(n) => Some(r.(ports := r.ports + {n % 65536})) case None => None
  {
    TypedLine(r, "PORT", word);
  }

  lemma StoiOfNumber(n: nat)
    ensures Stoi(IpText.Digits(n)) == if n < 0x8000_0000 then Some(n) else None
  {
    var digits := IpText.Digits(n);
    ValueOfDigits(n);
    assert IpText.IsDigit(digits[0]);
    assert Until(digits, c => !IpText.IsDigit(c)) == |digits|;
    assert digits[..|digits|] == digits;
  }

  lemma StoiOfNegative(n: nat)
    ensures Stoi("-" + IpText.Digits(n)) == if n <= 0x8000_0000 then Some(0 - n) else None
  {
    var digits := IpText.Digits(n);
    ValueOfDigits(n);
    assert ("-" + digits)[1..] == digits;
    assert Until(digits, c => !IpText.IsDigit(c)) == |digits|;
    assert digits[..|digits|] == digits;
  }

  lemma NegativeIsWord(n: nat)
    ensures Word("-" + IpText.Digits(n))
  {
    DigitsAreWord(n);
  }

  /** Ports are taken modulo 2^16, negative ones as well, and a number that does not fit 32 bits
      throws. */
  lemma TypedPorts(r: RuleSet, n: nat, word: string, negative: bool)
    requires word == if negative then "-" + IpText.Digits(n) else IpText.Digits(n)
    ensures var value: int := if negative then 0 - n else n;
      LoadLine(r, "PORT" + " " + word) ==
      if -0x8000_0000 <= value < 0x8000_0000 then Some(r.(ports := r.ports + {value % 65536})) else None
  {
    DigitsAreWord(n);
    NegativeIsWord(n);
    TypedPort(r, word);
    StoiOfNumber(n);
    StoiOfNegative(n);
  }

  /** Each name belongs to one application. */
  lemma FoundByName(app: AppType, name: string)
    ensures FindApp(APPS, name) == Some(app) <==> AppSignatures.AppName(app) == name
  {
    AppListed(app);
    if AppSignatures.AppName(app) == name {
      FindAppByName(APPS, app);
    } else {
      FoundHasName(APPS, name);
    }
  }

  /** The applications by the names that the rules and the command line use. */
  lemma ProtocolsByName(app: AppType, name: string)
    ensures app == Unknown ==> (FindApp(APPS, name) == Some(app) <==> name == "Unknown")
    ensures app == Http ==> (FindApp(APPS, name) == Some(app) <==> name == "HTTP")
    ensures app == Https ==> (FindApp(APPS, name) == Some(app) <==> name == "HTTPS")
    ensures app == Dns ==> (FindApp(APPS, name) == Some(app) <==> name == "DNS")
    ensures app == Tls ==> (FindApp(APPS, name) == Some(app) <==> name == "TLS")
    ensures app == Quic ==> (FindApp(APPS, name) == Some(app) <==> name == "QUIC")
  {
    FoundByName(app, name);
  }

  lemma FirstAppsByName(app: AppType, name: string)
    ensures app == Google ==> (FindApp(APPS, name) == Some(app) <==> name == "Google")
    ensures app == Facebook ==> (FindApp(APPS, name) == Some(app) <==> name == "Facebook")
    ensures app == YouTube ==> (FindApp(APPS, name) == Some(app) <==> name == "YouTube")
    ensures app == Twitter ==> (FindApp(APPS, name) == Some(app) <==> name == "Twitter/X")
    ensures app == Instagram ==> (FindApp(APPS, name) == Some(app) <==> name == "Instagram")
    ensures app == Netflix ==> (FindApp(APPS, name) == Some(app) <==> name == "Netflix")
  {
    FoundByName(app, name);
  }

  lemma MoreAppsByName(app: AppType, name: string)
    ensures app == Amazon ==> (FindApp(APPS, name) == Some(app) <==> name == "Amazon")
    ensures app == Microsoft ==> (FindApp(APPS, name) == Some(app) <==> name == "Microsoft")
    ensures app == Apple ==> (FindApp(APPS, name) == Some(app) <==> name == "Apple")
    ensures app == WhatsApp ==> (FindApp(APPS, name) == Some(app) <==> name == "WhatsApp")
    ensures app == Telegram ==> (FindApp(APPS, name) == Some(app) <==> name == "Telegram")
    ensures app == TikTok ==> (FindApp(APPS, name) == Some(app) <==> name == "TikTok")
  {
    FoundByName(app, name);
  }

  lemma LastAppsByName(app: AppType, name: string)
    ensures app == Spotify ==> (FindApp(APPS, name) == Some(app) <==> name == "Spotify")
    ensures app == Zoom ==> (FindApp(APPS, name) == Some(app) <==> name == "Zoom")
    ensures app == Discord ==> (FindApp(APPS, name) == Some(app) <==> name == "Discord")
    ensures app == GitHub ==> (FindApp(APPS, name) == Some(app) <==> name == "GitHub")
    ensures app == Cloudflare ==> (FindApp(APPS, name) == Some(app) <==> name == "Cloudflare")
  {
    FoundByName(app, name);
  }

  lemma {:induction false} FoundHasName(apps: seq<AppType>, name: string)
    ensures FindApp(apps, name).Some? ==> AppSignatures.AppName(FindApp(apps, name).value) == name
  {
    if apps == [] {
    } else {
      FoundHasName(apps[1..], name);
    }
  }

  /** What is in the rules after a load that throws: all lines in front of the one that throws. */
  lemma {:induction false} LoadedUpTo(r: RuleSet, lines: seq<string>) returns (k: nat)
    ensures k <= |lines| && LoadLines(r, lines[..k]) == Some(LoadPrefix(r, lines))
    ensures k < |lines| ==> LoadLine(LoadPrefix(r, lines), lines[k]) == None
    ensures LoadLines(r, lines).Some? <==> k == |lines|
    decreases |lines|
  {
    if lines == [] || LoadLine(r, lines[0]) == None {
      k := 0;
    } else {
      var next := LoadLine(r, lines[0]).value;
      k := LoadedUpTo(next, lines[1..]);
      assert lines[..k + 1][0] == lines[0] && lines[..k + 1][1..] == lines[1..][..k];
      k := k + 1;
    }
  }

  function Elems<T(==)>(order: seq<T>): set<T> {
    set x | x in order
  }

  lemma {:induction false} LoadAppend(r: RuleSet, a: seq<string>, b: seq<string>)
    ensures LoadLines(r, a + b) == match LoadLines(r, a) case None => None case Some(mid) => LoadLines(mid, b)
    decreases |a|
  {
    if a == [] {
      assert a + b == b;
    } else {
      assert (a + b)[1..] == a[1..] + b;
      match LoadLine(r, a[0])
      case None =>
      case Some(next) => LoadAppend(next, a[1..], b);
    }
  }

  lemma MapRest<T>(f: T -> string, order: seq<T>)
    requires order != []
    ensures Map(f, order)[0] == f(order[0]) && Map(f, order)[1..] == Map(f, order[1..])
  {
  }

  lemma ElemsRest<T>(order: seq<T>)
    requires order != []
    ensures Elems(order) == {order[0]} + Elems(order[1..])
  {
    assert order == [order[0]] + order[1..];
  }

  lemma {:induction false} LoadIps(r: RuleSet, order: seq<uint32>)
    ensures LoadLines(r, Map(IpLine, order)) == Some(r.(ips := r.ips + Elems(order)))
    decreases |order|
  {
    if order == [] {
      assert r.ips + Elems(order) == r.ips;
    } else {
      MapRest(IpLine, order);
      ElemsRest(order);
      LoadIpLine(r, order[0]);
      LoadIps(r.(ips := r.ips + {order[0]}), order[1..]);
      assert r.ips + {order[0]} + Elems(order[1..]) == r.ips + Elems(order);
    }
  }

  lemma {:induction false} LoadApps(r: RuleSet, order: seq<AppType>)
    ensures LoadLines(r, Map(AppLine, order)) == Some(r.(apps := r.apps + Elems(order)))
    decreases |order|
  {
    if order == [] {
      assert r.apps + Elems(order) == r.apps;
    } else {
      MapRest(AppLine, order);
      ElemsRest(order);
      LoadAppLine(r, order[0]);
      LoadApps(r.(apps := r.apps + {order[0]}), order[1..]);
      assert r.apps + {order[0]} + Elems(order[1..]) == r.apps + Elems(order);
    }
  }

  lemma {:induction false} LoadPorts(r: RuleSet, order: seq<uint16>)
    ensures LoadLines(r, Map(PortLine, order)) == Some(r.(ports := r.ports + Elems(order)))
    decreases |order|
  {
    if order == [] {
      assert r.ports + Elems(order) == r.ports;
    } else {
      MapRest(PortLine, order);
      ElemsRest(order);
      LoadPortLine(r, order[0]);
      LoadPorts(r.(ports := r.ports + {order[0]}), order[1..]);
      assert r.ports + {order[0]} + Elems(order[1..]) == r.ports + Elems(order);
    }
  }

  lemma {:induction false} LoadDomains(r: RuleSet, order: seq<string>)
    requires forall i :: 0 <= i < |order| ==> Storable(order[i]) && STAR !in order[i]
    ensures LoadLines(r, Map(DomainLine, order)) == Some(r.(domains := r.domains + Elems(order)))
    decreases |order|
  {
    if order == [] {
      assert r.domains + Elems(order) == r.domains;
    } else {
      MapRest(DomainLine, order);
      ElemsRest(order);
      LoadDomainLine(r, order[0]);
      LoadDomains(r.(domains := r.domains + {order[0]}), order[1..]);
      assert r.domains + {order[0]} + Elems(order[1..]) == r.domains + Elems(order);
    }
  }

  lemma PatternsGrow(patterns: seq<string>, order: seq<string>)
    requires order != []
    ensures patterns + [order[0]] + order[1..] == patterns + order
  {
  }

  lemma {:induction false} LoadPatterns(r: RuleSet, order: seq<string>)
    requires forall i :: 0 <= i < |order| ==> Storable(order[i]) && STAR in order[i]
    ensures LoadLines(r, Map(DomainLine, order)) == Some(r.(patterns := r.patterns + order))
    decreases |order|
  {
    if order == [] {
      assert r.patterns + order == r.patterns;
    } else {
      MapRest(DomainLine, order);
      LoadDomainLine(r, order[0]);
      var next := r.(patterns := r.patterns + [order[0]]);
      assert WithDomain(r, order[0]) == next;
      LoadPatterns(next, order[1..]);
      PatternsGrow(r.patterns, order);
    }
  }

  lemma ListsAll<T>(order: seq<T>, items: set<T>)
    requires Lists(order, items)
    ensures Elems(order) == items && {} + items == items
  {
  }

  lemma Chain(r: RuleSet, a: seq<string>, r1: RuleSet, b: seq<string>, r2: RuleSet)
    requires LoadLines(r, a) == Some(r1) && LoadLines(r1, b) == Some(r2)
    ensures LoadLines(r, a + b) == Some(r2)
  {
    LoadAppend(r, a, b);
  }

  lemma MapJoin<T>(f: T -> string, a: seq<T>, b: seq<T>)
    ensures Map(f, a + b) == Map(f, a) + Map(f, b)
  {
  }

  lemma WalkedDomains(order: seq<string>, r: RuleSet)
    requires Lists(order, r.domains) && Sorted(r) && StorableRules(r)
    ensures forall i :: 0 <= i < |order| ==> Storable(order[i]) && STAR !in order[i]
    ensures forall i :: 0 <= i < |r.patterns| ==> Storable(r.patterns[i]) && STAR in r.patterns[i]
  {
  }

  lemma LoadBoth(order: seq<string>, patterns: seq<string>, start: RuleSet, mid: RuleSet, end: RuleSet)
    requires LoadLines(start, Map(DomainLine, order)) == Some(mid)
    requires LoadLines(mid, Map(DomainLine, patterns)) == Some(end)
    ensures LoadLines(start, Map(DomainLine, order + patterns)) == Some(end)
  {
    MapJoin(DomainLine, order, patterns);
    Chain(start, Map(DomainLine, order), mid, Map(DomainLine, patterns), end);
  }

  lemma LoadAllDomains(order: seq<string>, domains: set<string>, start: RuleSet)
    requires Lists(order, domains) && start.domains == {}
    requires forall i :: 0 <= i < |order| ==> Storable(order[i]) && STAR !in order[i]
    ensures LoadLines(start, Map(DomainLine, order)) == Some(start.(domains := domains))
  {
    ListsAll(order, domains);
    LoadDomains(start, order);
  }

  lemma LoadAllPatterns(patterns: seq<string>, start: RuleSet)
    requires start.patterns == []
    requires forall i :: 0 <= i < |patterns| ==> Storable(patterns[i]) && STAR in patterns[i]
    ensures LoadLines(start, Map(DomainLine, patterns)) == Some(start.(patterns := patterns))
  {
    LoadPatterns(start, patterns);
    assert [] + patterns == patterns;
  }

  lemma LoadSavedDomains(order: seq<string>, r: RuleSet, start: RuleSet)
    requires Lists(order, r.domains) && Sorted(r) && StorableRules(r)
    requires start.domains == {} && start.patterns == []
    ensures LoadLines(start, Map(DomainLine, order + r.patterns)) ==
      Some(start.(domains := r.domains, patterns := r.patterns))
  {
    var mid := start.(domains := r.domains);
    WalkedDomains(order, r);
    LoadAllDomains(order, r.domains, start);
    LoadAllPatterns(r.patterns, mid);
    LoadBoth(order, r.patterns, start, mid, mid.(patterns := r.patterns));
  }

  lemma LoadSaved(w: Walk, r: RuleSet)
    requires WalkOf(w, r) && Sorted(r) && StorableRules(r)
    ensures LoadLines(NO_RULES, SavedLines(w, r.patterns)) == Some(r)
  {
    var a, b, c, d := Map(IpLine, w.ips), Map(AppLine, w.apps), Map(DomainLine, w.domains + r.patterns),
        Map(PortLine, w.ports);
    var r1 := RuleSet(r.ips, {}, {}, [], {});
    var r2 := RuleSet(r.ips, r.apps, {}, [], {});
    var r3 := RuleSet(r.ips, r.apps, r.domains, r.patterns, {});
    ListsAll(w.ips, r.ips);
    ListsAll(w.apps, r.apps);
    ListsAll(w.ports, r.ports);
    LoadIps(NO_RULES, w.ips);
    LoadApps(r1, w.apps);
    LoadSavedDomains(w.domains, r, r2);
    LoadPorts(r3, w.ports);
    Chain(NO_RULES, a, r1, b, r2);
    Chain(NO_RULES, a + b, r2, c, r3);
    Chain(NO_RULES, a + b + c, r3, d, r);
  }

  lemma NoNewline(w: Walk, r: RuleSet)
    requires WalkOf(w, r) && StorableRules(r)
    ensures forall i :: 0 <= i < |SavedLines(w, r.patterns)| ==> NEWLINE !in SavedLines(w, r.patterns)[i]
  {
    forall ip: uint32 ensures NEWLINE !in IpLine(ip) { IpIsWord(ip); }
    forall app: AppType ensures NEWLINE !in AppLine(app) { AppNameIsWord(app); }
    forall port: uint16 ensures NEWLINE !in PortLine(port) { DigitsAreWord(port); }
    var all := w.domains + r.patterns;
    assert forall i :: 0 <= i < |all| ==> Storable(all[i]);
    assert forall i :: 0 <= i < |all| ==> NEWLINE !in DomainLine(all[i]);
  }

  lemma EntryIsStorable(r: RuleSet, kind: string, value: string)
    requires StorableRules(r) && Storable(value)
    ensures LoadEntry(r, kind, value).Some? ==> StorableRules(LoadEntry(r, kind, value).value)
  {
  }

  lemma LoadedEntryIsStorable(r: RuleSet, line: string)
    requires StorableRules(r)
    ensures LoadLine(r, line).Some? ==> StorableRules(LoadLine(r, line).value)
  {
    if line != "" && line[0] != '#' {
      TokenIsStorable(Token(line).1);
      var (kind, rest) := Token(line);
      var value := Token(rest).0;
      if kind != "" && value != "" {
        EntryIsStorable(r, kind, value);
      }
    }
  }

  /** Whatever the text, the domains that are loaded are non-empty words. */
  lemma {:induction false} LoadedIsStorable(r: RuleSet, lines: seq<string>)
    requires StorableRules(r)
    ensures LoadLines(r, lines).Some? ==> StorableRules(LoadLines(r, lines).value)
    decreases |lines|
  {
    if lines == [] || LoadLine(r, lines[0]).None? {
    } else {
      LoadedEntryIsStorable(r, lines[0]);
      LoadedIsStorable(LoadLine(r, lines[0]).value, lines[1..]);
    }
  }

  /** Loading a saved file restores the rules, whatever the order in which they
      were walked, exactly when all domains and patterns are non-empty and free
      of white space. */
  lemma RestoredIff(text: string, r: RuleSet)
    requires Sorted(r) && IsSaved(text, r)
    ensures Load(text) == Some(r) <==> StorableRules(r)
  {
    if StorableRules(r) {
      var w: Walk :| WalkOf(w, r) && text == Render(SavedLines(w, r.patterns));
      NoNewline(w, r);
      LinesOfRendered(SavedLines(w, r.patterns), "");
      assert text + "" == text && SavedLines(w, r.patterns) + [] == SavedLines(w, r.patterns);
      LoadSaved(w, r);
    } else {
      LoadedIsStorable(NO_RULES, Lines(text));
    }
  }

  // ---------------------------------------------------------------- manager

  method WalkSet<T(==)>(items: set<T>) returns (order: seq<T>)
    ensures Lists(order, items)
  {
    order := [];
    var rest := items;
    while rest != {}
      invariant rest <= items
      invariant forall i :: 0 <= i < |order| ==> order[i] in items
      invariant forall x :: x in items ==> x in order || x in rest
      decreases rest
    {
      var x :| x in rest;
      order := order + [x];
      rest := rest - {x};
    }
  }

  lemma {:induction false} RenderAppend(a: seq<string>, b: seq<string>)
    ensures Render(a + b) == Render(a) + Render(b)
  {
    if a == [] {
      assert a + b == b;
    } else {
      assert (a + b)[1..] == a[1..] + b;
      RenderAppend(a[1..], b);
    }
  }

  /** One `for` loop of `saveRules`. */
  method WriteLines<T>(f: T -> string, order: seq<T>, file: string) returns (text: string)
    ensures text == file + Render(Map(f, order))
  {
    text := file;
    for i := 0 to |order|
      invariant text == file + Render(Map(f, order[..i]))
    {
      var line := f(order[i]) + [NEWLINE];
      text := text + line;
      assert Map(f, order[..i + 1]) == Map(f, order[..i]) + [f(order[i])];
      RenderAppend(Map(f, order[..i]), [f(order[i])]);
      assert Render([f(order[i])]) == line + Render([]);
    }
    assert order[..|order|] == order;
  }

  lemma SavedIs(w: Walk, r: RuleSet, text: string)
    requires WalkOf(w, r)
    requires text == "" + Render(Map(IpLine, w.ips)) + Render(Map(AppLine, w.apps)) +
      Render(Map(DomainLine, w.domains + r.patterns)) + Render(Map(PortLine, w.ports))
    ensures IsSaved(text, r)
  {
    var a, b, c, d := Map(IpLine, w.ips), Map(AppLine, w.apps), Map(DomainLine, w.domains + r.patterns),
        Map(PortLine, w.ports);
    RenderAppend(a, b);
    RenderAppend(a + b, c);
    RenderAppend(a + b + c, d);
    assert "" + Render(a) == Render(a);
    assert text == Render(SavedLines(w, r.patterns));
  }

  /** `saveRules`: addresses, applications, domains with the patterns behind them,
      ports. */
  method SaveRules(m: RuleManager) returns (text: string)
    ensures IsSaved(text, m.View())
  {
    var ips := WalkSet(m.blockedIps);
    var apps := WalkSet(m.blockedApps);
    var domains := WalkSet(m.blockedDomains);
    var ports := WalkSet(m.blockedPorts);
    text := WriteLines(IpLine, ips, "");
    text := WriteLines(AppLine, apps, text);
    text := WriteLines(DomainLine, domains + m.domainPatterns, text);
    text := WriteLines(PortLine, ports, text);
    SavedIs(Walk(ips, apps, domains, ports), m.View(), text);
  }

  /** `loadRules` over the lines of a file; `file` is None when it cannot be
      opened, and then nothing changes. A malformed port throws out of the loop
      and leaves what was loaded before it. */
  method LoadRules(m: RuleManager, file: Option<string>) returns (ok: bool, threw: bool)
    requires m.Valid()
    modifies m
    ensures m.Valid()
    ensures file.None? ==> !ok && !threw && m.View() == old(m.View())
    ensures file.Some? ==> threw == Load(file.value).None? && ok == !threw
    ensures file.Some? ==> m.View() == LoadPrefix(NO_RULES, Lines(file.value))
    ensures file.Some? && !threw ==> Load(file.value) == Some(m.View())
  {
    if file.None? { return false, false; }
    m.ClearAll();
    var lines := Lines(file.value);
    for i := 0 to |lines|
      invariant m.Valid()
      invariant LoadLines(NO_RULES, lines) == LoadLines(m.View(), lines[i..])
      invariant LoadPrefix(NO_RULES, lines) == LoadPrefix(m.View(), lines[i..])
    {
      var line := lines[i];
      assert lines[i..][0] == line && lines[i..][1..] == lines[i + 1..];
      if line != "" && line[0] != '#' {
        var (kind, rest) := Token(line);
        var (value, _) := Token(rest);
        if kind != "" && value != "" {
          threw := LoadEntryInto(m, kind, value);
          if threw { return false, true; }
        }
      }
    }
    return true, false;
  }

  method LoadEntryInto(m: RuleManager, kind: string, value: string) returns (threw: bool)
    requires m.Valid()
    modifies m
    ensures m.Valid()
    ensures LoadEntry(old(m.View()), kind, value) == if threw then None else Some(m.View())
    ensures threw ==> m.View() == old(m.View())
  {
    threw := false;
    if kind == "IP" {
      m.BlockIpText(value);
    } else if kind == "APP" {
      var found := FindAppLoop(value);
      if found.Some? { m.BlockApp(found.value); }
    } else if kind == "DOMAIN" {
      m.BlockDomain(value);
    } else if kind == "PORT" {
      var n := Stoi(value);
      if n.None? { return true; }
      m.BlockPort(n.value % 0x1_0000);
    }
  }

  method FindAppLoop(name: string) returns (found: Option<AppType>)
    ensures found == FindApp(APPS, name)
  {
    for i := 0 to |APPS|
      invariant FindApp(APPS, name) == FindApp(APPS[i..], name)
    {
      assert APPS[i..][0] == APPS[i] && APPS[i..][1..] == APPS[i + 1..];
      if AppSignatures.AppName(APPS[i]) == name { return Some(APPS[i]); }
    }
    return None;
  }
}
