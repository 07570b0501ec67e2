/** The application of a host name: an ordered table of signatures, searched for
    the first one that the name contains, ignoring ASCII case. */
module AppSignatures {
  import opened Types

  datatype Signature = Signature(text: string, app: AppType)

  const TABLE: seq<Signature> := [
    Signature("google", Google), Signature("gstatic", Google), Signature("googleapis", Google),
    Signature("ggpht", Google), Signature("gvt1", Google), Signature("youtube", YouTube),
    Signature("ytimg", YouTube), Signature("youtu.be", YouTube), Signature("yt3.ggpht", YouTube),
    Signature("facebook", Facebook), Signature("fbcdn", Facebook), Signature("fb.com", Facebook),
    Signature("fbsbx", Facebook), Signature("meta.com", Facebook), Signature("instagram", Instagram),
    Signature("cdninstagram", Instagram), Signature("whatsapp", WhatsApp), Signature("wa.me", WhatsApp),
    Signature("twitter", Twitter), Signature("twimg", Twitter), Signature("x.com", Twitter),
    Signature("t.co", Twitter), Signature("netflix", Netflix), Signature("nflxvideo", Netflix),
    Signature("nflximg", Netflix), Signature("amazon", Amazon), Signature("amazonaws", Amazon),
    Signature("cloudfront", Amazon), Signature("aws", Amazon), Signature("microsoft", Microsoft),
    Signature("msn.com", Microsoft), Signature("office", Microsoft), Signature("azure", Microsoft),
    Signature("live.com", Microsoft), Signature("outlook", Microsoft), Signature("bing", Microsoft),
    Signature("apple", Apple), Signature("icloud", Apple), Signature("itunes", Apple)]

  /** `std::tolower` in the C locale. */
  function Lower(c: char): char {
    if 'A' <= c <= 'Z' then (c as int + 32) as char else c
  }

  predicate ContainsAt(host: string, text: string, i: nat) {
    i + |text| <= |host| && forall j :: 0 <= j < |text| ==> Lower(host[i + j]) == Lower(text[j])
  }

  predicate Contains(host: string, text: string) {
    exists i :: 0 <= i <= |host| - |text| && ContainsAt(host, text, i)
  }

  function FirstMatch(table: seq<Signature>, host: string): Option<AppType> {
    if table == [] then None
    else if Contains(host, table[0].text) then Some(table[0].app)
    else FirstMatch(table[1..], host)
  }

  /** The names looked for after the table. */
  function OtherApp(host: string): AppType {
    if Contains(host, "telegram") || Contains(host, "t.me") then Telegram
    else if Contains(host, "tiktok") || Contains(host, "bytedance") then TikTok
    else if Contains(host, "spotify") || Contains(host, "scdn.co") then Spotify
    else if Contains(host, "zoom") then Zoom
    else if Contains(host, "discord") then Discord
    else if Contains(host, "github") then GitHub
    else if Contains(host, "cloudflare") || Contains(host, "cf-") then Cloudflare
    else Https
  }

  function AppUnder(table: seq<Signature>, host: string): AppType {
    if host == "" then Unknown
    else match FirstMatch(table, host)
      case Some(app) => app
      case None => OtherApp(host)
  }

  /** `sniToAppType` as a function of the host. */
  function AppOf(host: string): AppType {
    AppUnder(TABLE, host)
  }

  /** The search lambda as it runs, with its `match` flag. */
  method Search(host: string, text: string) returns (found: bool)
    ensures found == Contains(host, text)
  {
    if |text| > |host| { return false; }
    var i := 0;
    while i <= |host| - |text|
      invariant 0 <= i <= |host| - |text| + 1
      invariant forall k :: 0 <= k < i ==> !ContainsAt(host, text, k)
    {
      var isMatch := true;
      var j := 0;
      while j < |text|
        invariant 0 <= j <= |text| && isMatch
        invariant forall k :: 0 <= k < j ==> Lower(host[i + k]) == Lower(text[k])
      {
        if Lower(host[i + j]) != Lower(text[j]) {
          isMatch := false;
          break;
        }
        j := j + 1;
      }
      if isMatch {
        assert ContainsAt(host, text, i);
        return true;
      }
      i := i + 1;
    }
    return false;
  }

  /** `sniToAppType` as it runs. */
  method SniToAppType(sni: string) returns (app: AppType)
    ensures app == AppOf(sni)
  {
    if sni == "" { return Unknown; }
    for k := 0 to |TABLE|
      invariant FirstMatch(TABLE, sni) == FirstMatch(TABLE[k..], sni)
    {
      var found := Search(sni, TABLE[k].text);
      assert TABLE[k..][0] == TABLE[k] && TABLE[k..][1..] == TABLE[k + 1..];
      if found { return TABLE[k].app; }
    }
    app := OtherApp(sni);
  }

  // ---------------------------------------------------------------- laws

  /** Containment ignoring case is transitive. */
  lemma ContainsTransitive(host: string, mid: string, text: string)
    requires Contains(host, mid) && Contains(mid, text)
    ensures Contains(host, text)
  {
    var i :| 0 <= i <= |host| - |mid| && ContainsAt(host, mid, i);
    var j :| 0 <= j <= |mid| - |text| && ContainsAt(mid, text, j);
    forall k | 0 <= k < |text|
      ensures Lower(host[i + j + k]) == Lower(text[k])
    {
      assert Lower(host[i + (j + k)]) == Lower(mid[j + k]);
    }
    assert ContainsAt(host, text, i + j);
  }

  lemma {:induction false} FirstMatchSplit(a: seq<Signature>, b: seq<Signature>, host: string)
    ensures FirstMatch(a + b, host) == if FirstMatch(a, host).Some? then FirstMatch(a, host) else FirstMatch(b, host)
  {
    if a == [] {
      assert a + b == b;
    } else {
      assert (a + b)[1..] == a[1..] + b;
      FirstMatchSplit(a[1..], b, host);
    }
  }

  /** The result is the application of the first entry contained, if any. */
  lemma {:induction false} FirstMatchIsFirst(table: seq<Signature>, host: string)
    ensures FirstMatch(table, host).None? <==> forall k :: 0 <= k < |table| ==> !Contains(host, table[k].text)
    ensures FirstMatch(table, host).Some? ==> exists k ::
      && 0 <= k < |table| && Contains(host, table[k].text) && FirstMatch(table, host) == Some(table[k].app)
      && forall i :: 0 <= i < k ==> !Contains(host, table[i].text)
  {
    if table == [] {
    } else {
      if Contains(host, table[0].text) {
        assert FirstMatch(table, host) == Some(table[0].app);
      } else {
        FirstMatchIsFirst(table[1..], host);
        assert forall k :: 1 <= k < |table| ==> table[k] == table[1..][k - 1];
        if FirstMatch(table[1..], host).Some? {
          var k :| 0 <= k < |table[1..]| && Contains(host, table[1..][k].text)
            && FirstMatch(table[1..], host) == Some(table[1..][k].app)
            && forall i :: 0 <= i < k ==> !Contains(host, table[1..][i].text);
          assert Contains(host, table[k + 1].text);
        }
      }
    }
  }

  predicate SameIgnoringCase(a: string, b: string) {
    |a| == |b| && forall i :: 0 <= i < |a| ==> Lower(a[i]) == Lower(b[i])
  }

  lemma ContainsIgnoresCase(a: string, b: string, text: string)
    requires SameIgnoringCase(a, b)
    ensures Contains(a, text) == Contains(b, text)
  {
    if Contains(a, text) {
      var i :| 0 <= i <= |a| - |text| && ContainsAt(a, text, i);
      assert ContainsAt(b, text, i);
    } else if Contains(b, text) {
      var i :| 0 <= i <= |b| - |text| && ContainsAt(b, text, i);
      assert ContainsAt(a, text, i);
    }
  }

  const OTHER_TEXTS: seq<string> := [
    "telegram", "t.me", "tiktok", "bytedance", "spotify", "scdn.co", "zoom", "discord", "github", "cloudflare", "cf-"]

  lemma OtherIgnoresCase(a: string, b: string)
    requires SameIgnoringCase(a, b)
    ensures OtherApp(a) == OtherApp(b)
  {
    forall k | 0 <= k < |OTHER_TEXTS|
      ensures Contains(a, OTHER_TEXTS[k]) == Contains(b, OTHER_TEXTS[k])
    {
      ContainsIgnoresCase(a, b, OTHER_TEXTS[k]);
    }
    var t := OTHER_TEXTS;
    assert t[0] == "telegram" && t[1] == "t.me" && t[2] == "tiktok" && t[3] == "bytedance" && t[4] == "spotify"
        && t[5] == "scdn.co" && t[6] == "zoom" && t[7] == "discord" && t[8] == "github"
        && t[9] == "cloudflare" && t[10] == "cf-";
  }

  lemma {:induction false} FirstMatchIgnoresCase(table: seq<Signature>, a: string, b: string)
    requires SameIgnoringCase(a, b)
    ensures FirstMatch(table, a) == FirstMatch(table, b)
  {
    if table == [] {
    } else {
      ContainsIgnoresCase(a, b, table[0].text);
      FirstMatchIgnoresCase(table[1..], a, b);
    }
  }

  /** Changing the ASCII case of a host never changes its application. */
  lemma AppIgnoresCase(a: string, b: string)
    requires SameIgnoringCase(a, b)
    ensures AppOf(a) == AppOf(b)
  {
    FirstMatchIgnoresCase(TABLE, a, b);
    OtherIgnoresCase(a, b);
  }

  function Without(table: seq<Signature>, j: nat): seq<Signature>
    requires j < |table|
  {
    table[..j] + table[j + 1..]
  }

  /** In any table, an entry that contains an earlier entry can be deleted without
      changing any result. */
  lemma ShadowedEntryIsDead(table: seq<Signature>, i: nat, j: nat, host: string)
    requires i < j < |table| && Contains(table[j].text, table[i].text)
    ensures FirstMatch(Without(table, j), host) == FirstMatch(table, host)
  {
    var front, back := table[..j], table[j + 1..];
    assert table == front + ([table[j]] + back);
    FirstMatchSplit(front, [table[j]] + back, host);
    FirstMatchSplit(front, back, host);
    FirstMatchIsFirst(front, host);
    assert front[i] == table[i];
    if Contains(host, table[j].text) {
      ContainsTransitive(host, table[j].text, table[i].text);
    } else {
      assert ([table[j]] + back)[1..] == back;
    }
  }

  /** The four such entries of the table, deleted from the last to the first. */
  const REDUCED: seq<Signature> := Without(Without(Without(Without(TABLE, 26), 15), 8), 2)

  /** An entry of the table and an earlier one that it contains. */
  predicate Shadows(earlier: nat, later: nat) {
    earlier < later < |TABLE| && Contains(TABLE[later].text, TABLE[earlier].text)
  }

  lemma AmazonShadows()
    ensures Shadows(25, 26)
  {
    assert TABLE[26].text == "amazonaws" && TABLE[25].text == "amazon";
    AmazonInAmazonaws();
  }

  lemma InstagramShadows()
    ensures Shadows(14, 15)
  {
    assert TABLE[15].text == "cdninstagram" && TABLE[14].text == "instagram";
    InstagramInCdninstagram();
  }

  lemma GgphtShadows()
    ensures Shadows(3, 8)
  {
    assert TABLE[8].text == "yt3.ggpht" && TABLE[3].text == "ggpht";
    GgphtInYt3();
  }

  lemma GoogleShadows()
    ensures Shadows(0, 2)
  {
    assert TABLE[2].text == "googleapis" && TABLE[0].text == "google";
    GoogleInGoogleapis();
  }

  lemma AmazonInAmazonaws()
    ensures Contains("amazonaws", "amazon")
  {
    assert ContainsAt("amazonaws", "amazon", 0);
  }

  lemma InstagramInCdninstagram()
    ensures Contains("cdninstagram", "instagram")
  {
    assert ContainsAt("cdninstagram", "instagram", 3);
  }

  lemma GgphtInYt3()
    ensures Contains("yt3.ggpht", "ggpht")
  {
    assert ContainsAt("yt3.ggpht", "ggpht", 4);
  }

  lemma GoogleInGoogleapis()
    ensures Contains("googleapis", "google")
  {
    assert ContainsAt("googleapis", "google", 0);
  }

  lemma XComInNetflixDotCom()
    ensures Contains("netflix.com", "x.com")
  {
    assert ContainsAt("netflix.com", "x.com", 6);
  }

  lemma TCoInMicrosoftDotCom()
    ensures Contains("microsoft.com", "t.co")
  {
    assert ContainsAt("microsoft.com", "t.co", 8);
  }

  lemma GoogleInGoogleVideo()
    ensures Contains(".googlevideo.", "google")
  {
    assert ContainsAt(".googlevideo.", "google", 1);
  }

  /** "googleapis", "yt3.ggpht", "cdninstagram" and "amazonaws" decide nothing. */
  lemma ReducedTableDecidesAlike(host: string)
    ensures AppUnder(REDUCED, host) == AppOf(host)
  {
    AmazonShadows();
    InstagramShadows();
    GgphtShadows();
    GoogleShadows();
    var t1 := Without(TABLE, 26);
    var t2 := Without(t1, 15);
    var t3 := Without(t2, 8);
    ShadowedEntryIsDead(TABLE, 25, 26, host);
    assert t1[14] == TABLE[14] && t1[15] == TABLE[15];
    ShadowedEntryIsDead(t1, 14, 15, host);
    assert t2[3] == TABLE[3] && t2[8] == TABLE[8];
    ShadowedEntryIsDead(t2, 3, 8, host);
    assert t3[0] == TABLE[0] && t3[2] == TABLE[2];
    ShadowedEntryIsDead(t3, 0, 2, host);
  }

  // ---------------------------------------------------------------- every application

  /** An application and its signatures. */
  datatype Group = Group(app: AppType, texts: seq<string>)

  /** The signatures as the source lists them: those of its table, and those looked for after it. */
  const SIGNATURES: seq<Group> := [
    Group(Google, ["google", "gstatic", "googleapis", "ggpht", "gvt1"]),
    Group(YouTube, ["youtube", "ytimg", "youtu.be", "yt3.ggpht"]),
    Group(Facebook, ["facebook", "fbcdn", "fb.com", "fbsbx", "meta.com"]),
    Group(Instagram, ["instagram", "cdninstagram"]),
    Group(WhatsApp, ["whatsapp", "wa.me"]),
    Group(Twitter, ["twitter", "twimg", "x.com", "t.co"]),
    Group(Netflix, ["netflix", "nflxvideo", "nflximg"]),
    Group(Amazon, ["amazon", "amazonaws", "cloudfront", "aws"]),
    Group(Microsoft, ["microsoft", "msn.com", "office", "azure", "live.com", "outlook", "bing"]),
    Group(Apple, ["apple", "icloud", "itunes"]),
    Group(Telegram, ["telegram", "t.me"]),
    Group(TikTok, ["tiktok", "bytedance"]),
    Group(Spotify, ["spotify", "scdn.co"]),
    Group(Zoom, ["zoom"]),
    Group(Discord, ["discord"]),
    Group(GitHub, ["github"]),
    Group(Cloudflare, ["cloudflare", "cf-"])]

  predicate Holds(host: string, texts: seq<string>) {
    exists k :: 0 <= k < |texts| && Contains(host, texts[k])
  }

  lemma HoldsFirst(host: string, texts: seq<string>)
    requires texts != []
    ensures Holds(host, texts) <==> Contains(host, texts[0]) || Holds(host, texts[1..])
  {
    if Holds(host, texts) {
      var k :| 0 <= k < |texts| && Contains(host, texts[k]);
      assert k > 0 ==> texts[1..][k - 1] == texts[k];
    }
    if Holds(host, texts[1..]) {
      var k :| 0 <= k < |texts[1..]| && Contains(host, texts[1..][k]);
      assert texts[k + 1] == texts[1..][k];
    }
  }

  /** The first group of which the name holds a signature. */
  function FirstGroup(groups: seq<Group>, host: string): Option<AppType> {
    if groups == [] then None
    else if Holds(host, groups[0].texts) then Some(groups[0].app)
    else FirstGroup(groups[1..], host)
  }

  predicate GroupAt(table: seq<Signature>, i: nat, group: Group) {
    && i + |group.texts| <= |table|
    && forall k :: 0 <= k < |group.texts| ==> table[i + k] == Signature(group.texts[k], group.app)
  }

  /** The table consists of the groups, one after the other. */
  predicate Laid(table: seq<Signature>, i: nat, groups: seq<Group>)
    decreases |groups|
  {
    if groups == [] then i == |table|
    else GroupAt(table, i, groups[0]) && Laid(table, i + |groups[0].texts|, groups[1..])
  }

  lemma {:induction false} StretchDecides(table: seq<Signature>, i: nat, group: Group, host: string)
    requires GroupAt(table, i, group)
    ensures FirstMatch(table[i..], host) ==
      if Holds(host, group.texts) then Some(group.app) else FirstMatch(table[i + |group.texts|..], host)
    decreases |group.texts|
  {
    if group.texts == [] {
    } else {
      var rest := Group(group.app, group.texts[1..]);
      assert table[i + 0] == Signature(group.texts[0], group.app);
      assert forall k :: 0 <= k < |rest.texts| ==> rest.texts[k] == group.texts[k + 1];
      StretchDecides(table, i + 1, rest, host);
      HoldsFirst(host, group.texts);
      assert table[i..][0] == table[i] && table[i..][1..] == table[i + 1..];
    }
  }

  lemma {:induction false} GroupsDecide(table: seq<Signature>, i: nat, groups: seq<Group>, host: string)
    requires i <= |table| && Laid(table, i, groups)
    ensures FirstMatch(table[i..], host) == FirstGroup(groups, host)
    decreases |groups|
  {
    if groups == [] {
      assert table[i..] == [];
    } else {
      StretchDecides(table, i, groups[0], host);
      GroupsDecide(table, i + |groups[0].texts|, groups[1..], host);
    }
  }

  predicate Different(groups: seq<Group>) {
    forall i, j :: 0 <= i < j < |groups| ==> groups[i].app != groups[j].app
  }

  lemma {:induction false} FirstGroupNone(groups: seq<Group>, host: string)
    ensures FirstGroup(groups, host) == None <==> forall i :: 0 <= i < |groups| ==> !Holds(host, groups[i].texts)
  {
    if groups == [] {
    } else {
      FirstGroupNone(groups[1..], host);
      assert forall i :: 1 <= i < |groups| ==> groups[i] == groups[1..][i - 1];
      assert forall i :: 0 <= i < |groups[1..]| ==> groups[1..][i] == groups[i + 1];
    }
  }

  /** The name holds a signature of this group and of none before it. */
  predicate HoldsOnly(groups: seq<Group>, i: nat, host: string)
    requires i < |groups|
  {
    Holds(host, groups[i].texts) && forall j :: 0 <= j < i ==> !Holds(host, groups[j].texts)
  }

  lemma HoldsOnlyLater(groups: seq<Group>, i: nat, host: string)
    requires 0 < i < |groups|
    ensures HoldsOnly(groups, i, host) <==> !Holds(host, groups[0].texts) && HoldsOnly(groups[1..], i - 1, host)
  {
    assert forall j :: 1 <= j < |groups| ==> groups[j] == groups[1..][j - 1];
    if HoldsOnly(groups[1..], i - 1, host) && !Holds(host, groups[0].texts) {
      forall j | 0 <= j < i
        ensures !Holds(host, groups[j].texts)
      {
        assert j > 0 ==> !Holds(host, groups[1..][j - 1].texts);
      }
    }
  }

  lemma {:induction false} FirstGroupSome(groups: seq<Group>, i: nat, host: string)
    requires i < |groups| && Different(groups)
    ensures FirstGroup(groups, host) == Some(groups[i].app) <==> HoldsOnly(groups, i, host)
    decreases |groups|
  {
    if i == 0 {
      NoOtherHasIt(groups, host);
    } else {
      HoldsOnlyLater(groups, i, host);
      FirstGroupSome(groups[1..], i - 1, host);
    }
  }

  lemma {:induction false} FirstGroupIsListed(groups: seq<Group>, host: string) returns (i: nat)
    requires FirstGroup(groups, host).Some?
    ensures i < |groups| && FirstGroup(groups, host) == Some(groups[i].app)
  {
    if Holds(host, groups[0].texts) {
      i := 0;
    } else {
      i := FirstGroupIsListed(groups[1..], host);
      i := i + 1;
    }
  }

  lemma NoOtherHasIt(groups: seq<Group>, host: string)
    requires groups != [] && Different(groups)
    ensures FirstGroup(groups, host) == Some(groups[0].app) <==> Holds(host, groups[0].texts)
  {
    if !Holds(host, groups[0].texts) && FirstGroup(groups[1..], host).Some? {
      var j := FirstGroupIsListed(groups[1..], host);
      assert groups[1..][j] == groups[j + 1];
    }
  }

  lemma GoogleAt()
    ensures GroupAt(TABLE, 0, SIGNATURES[0]) && |SIGNATURES[0].texts| == 5
  {
  }

  lemma YouTubeAt()
    ensures GroupAt(TABLE, 5, SIGNATURES[1]) && |SIGNATURES[1].texts| == 4
  {
  }

  lemma FacebookAt()
    ensures GroupAt(TABLE, 9, SIGNATURES[2]) && |SIGNATURES[2].texts| == 5
  {
  }

  lemma InstagramAt()
    ensures GroupAt(TABLE, 14, SIGNATURES[3]) && |SIGNATURES[3].texts| == 2
  {
  }

  lemma WhatsAppAt()
    ensures GroupAt(TABLE, 16, SIGNATURES[4]) && |SIGNATURES[4].texts| == 2
  {
  }

  lemma TwitterAt()
    ensures GroupAt(TABLE, 18, SIGNATURES[5]) && |SIGNATURES[5].texts| == 4
  {
  }

  lemma NetflixAt()
    ensures GroupAt(TABLE, 22, SIGNATURES[6]) && |SIGNATURES[6].texts| == 3
  {
  }

  lemma AmazonAt()
    ensures GroupAt(TABLE, 25, SIGNATURES[7]) && |SIGNATURES[7].texts| == 4
  {
  }

  lemma MicrosoftAt()
    ensures GroupAt(TABLE, 29, SIGNATURES[8]) && |SIGNATURES[8].texts| == 7
  {
  }

  lemma AppleAt()
    ensures GroupAt(TABLE, 36, SIGNATURES[9]) && |SIGNATURES[9].texts| == 3
  {
  }

  /** Where the groups of the table start. */
  const STARTS: seq<nat> := [0, 5, 9, 14, 16, 18, 22, 25, 29, 36, 39]

  lemma EachAt(g: nat)
    requires g < 10
    ensures GroupAt(TABLE, STARTS[g], SIGNATURES[g]) && STARTS[g] + |SIGNATURES[g].texts| == STARTS[g + 1]
  {
    match g
    case 0 => GoogleAt();
    case 1 => YouTubeAt();
    case 2 => FacebookAt();
    case 3 => InstagramAt();
    case 4 => WhatsAppAt();
    case 5 => TwitterAt();
    case 6 => NetflixAt();
    case 7 => AmazonAt();
    case 8 => MicrosoftAt();
    case _ => AppleAt();
  }

  lemma {:induction false} LaidFrom(g: nat)
    requires g <= 10
    ensures Laid(TABLE, STARTS[g], SIGNATURES[g..10])
    decreases 10 - g
  {
    if g == 10 {
    } else {
      EachAt(g);
      LaidFrom(g + 1);
      assert SIGNATURES[g..10][0] == SIGNATURES[g] && SIGNATURES[g..10][1..] == SIGNATURES[g + 1..10];
    }
  }

  /** The search goes on after so many groups. */
  lemma NextGroup(g: nat, host: string)
    requires g < |SIGNATURES|
    ensures FirstGroup(SIGNATURES[g..], host) ==
      if Holds(host, SIGNATURES[g].texts) then Some(SIGNATURES[g].app) else FirstGroup(SIGNATURES[g + 1..], host)
  {
    assert SIGNATURES[g..][0] == SIGNATURES[g] && SIGNATURES[g..][1..] == SIGNATURES[g + 1..];
  }

  lemma OneText(g: nat, host: string, app: AppType, text: string)
    requires g < |SIGNATURES| && SIGNATURES[g] == Group(app, [text])
    ensures FirstGroup(SIGNATURES[g..], host) ==
      if Contains(host, text) then Some(app) else FirstGroup(SIGNATURES[g + 1..], host)
  {
    NextGroup(g, host);
    assert SIGNATURES[g].texts[0] == text;
  }

  lemma TwoTexts(g: nat, host: string, app: AppType, text: string, other: string)
    requires g < |SIGNATURES| && SIGNATURES[g] == Group(app, [text, other])
    ensures FirstGroup(SIGNATURES[g..], host) ==
      if Contains(host, text) || Contains(host, other) then Some(app) else FirstGroup(SIGNATURES[g + 1..], host)
  {
    NextGroup(g, host);
    assert SIGNATURES[g].texts[0] == text && SIGNATURES[g].texts[1] == other;
  }

  function Default(found: Option<AppType>): AppType {
    match found
    case Some(app) => app
    case None => Https
  }

  lemma LateGroups(host: string)
    ensures Default(FirstGroup(SIGNATURES[13..], host)) ==
      if Contains(host, "zoom") then Zoom
      else if Contains(host, "discord") then Discord
      else if Contains(host, "github") then GitHub
      else if Contains(host, "cloudflare") || Contains(host, "cf-") then Cloudflare
      else Https
  {
    OneText(13, host, Zoom, "zoom");
    OneText(14, host, Discord, "discord");
    OneText(15, host, GitHub, "github");
    TwoTexts(16, host, Cloudflare, "cloudflare", "cf-");
    assert SIGNATURES[17..] == [];
  }

  lemma MiddleGroups(host: string)
    ensures Default(FirstGroup(SIGNATURES[11..], host)) ==
      if Contains(host, "tiktok") || Contains(host, "bytedance") then TikTok
      else if Contains(host, "spotify") || Contains(host, "scdn.co") then Spotify
      else Default(FirstGroup(SIGNATURES[13..], host))
  {
    TwoTexts(11, host, TikTok, "tiktok", "bytedance");
    TwoTexts(12, host, Spotify, "spotify", "scdn.co");
  }

  lemma OthersAreGroups(host: string)
    ensures OtherApp(host) == Default(FirstGroup(SIGNATURES[10..], host))
  {
    TwoTexts(10, host, Telegram, "telegram", "t.me");
    MiddleGroups(host);
    LateGroups(host);
  }

  lemma {:induction false} FirstGroupJoin(a: seq<Group>, b: seq<Group>, host: string)
    ensures FirstGroup(a + b, host) == if FirstGroup(a, host).Some? then FirstGroup(a, host) else FirstGroup(b, host)
  {
    if a == [] {
      assert a + b == b;
    } else {
      assert (a + b)[1..] == a[1..] + b;
      FirstGroupJoin(a[1..], b, host);
    }
  }

  lemma TableIsFirstGroup(host: string)
    ensures FirstMatch(TABLE, host) == FirstGroup(SIGNATURES[..10], host)
  {
    LaidFrom(0);
    assert SIGNATURES[0..10] == SIGNATURES[..10];
    GroupsDecide(TABLE, 0, SIGNATURES[..10], host);
    assert TABLE[0..] == TABLE;
  }

  lemma FirstGroupParts(groups: seq<Group>, i: nat, host: string)
    requires i <= |groups|
    ensures FirstGroup(groups, host) ==
      if FirstGroup(groups[..i], host).Some? then FirstGroup(groups[..i], host) else FirstGroup(groups[i..], host)
  {
    assert groups == groups[..i] + groups[i..];
    FirstGroupJoin(groups[..i], groups[i..], host);
  }

  lemma AppIsFirstGroup(host: string)
    requires host != ""
    ensures AppOf(host) == Default(FirstGroup(SIGNATURES, host))
  {
    TableIsFirstGroup(host);
    FirstGroupParts(SIGNATURES, 10, host);
    OthersAreGroups(host);
  }

  function Place(app: AppType): int {
    match app
    case Google => 0 case YouTube => 1 case Facebook => 2 case Instagram => 3 case WhatsApp => 4 case Twitter => 5
    case Netflix => 6 case Amazon => 7 case Microsoft => 8 case Apple => 9 case Telegram => 10 case TikTok => 11
    case Spotify => 12 case Zoom => 13 case Discord => 14 case GitHub => 15 case Cloudflare => 16
    case Unknown | Http | Https | Dns | Tls | Quic => -1
  }

  lemma PlaceOfGroup(i: nat)
    requires i < |SIGNATURES|
    ensures Place(SIGNATURES[i].app) == i
  {
  }

  lemma AppsDiffer()
    ensures Different(SIGNATURES)
    ensures forall i :: 0 <= i < |SIGNATURES| ==> Place(SIGNATURES[i].app) >= 0
  {
    forall i | 0 <= i < |SIGNATURES|
      ensures Place(SIGNATURES[i].app) == i
    {
      PlaceOfGroup(i);
    }
  }

  lemma EmptyHoldsNothing(i: nat)
    requires i < |SIGNATURES|
    ensures !Holds("", SIGNATURES[i].texts)
  {
    assert forall k :: 0 <= k < |SIGNATURES[i].texts| ==> SIGNATURES[i].texts[k] != "";
  }

  /** Every application, exactly: a name is taken for it if and only if the name holds one of its
      signatures and none of those of the applications in front of it. */
  lemma AppIff(host: string, i: nat)
    requires i < |SIGNATURES|
    ensures AppOf(host) == SIGNATURES[i].app <==> HoldsOnly(SIGNATURES, i, host)
  {
    AppsDiffer();
    if host == "" {
      EmptyHoldsNothing(i);
    } else {
      AppIsFirstGroup(host);
      FirstGroupSome(SIGNATURES, i, host);
    }
  }

  /** A signature that comes first rules out all applications behind its own. */
  lemma EarlierDecides(host: string, i: nat, j: nat, k: nat)
    requires j < i < |SIGNATURES| && k < |SIGNATURES[j].texts| && Contains(host, SIGNATURES[j].texts[k])
    ensures AppOf(host) != SIGNATURES[i].app
  {
    AppIff(host, i);
  }

  /** Every other answer: Unknown for the empty name, and HTTPS for a name without any
      signature. */
  lemma NoAppIff(host: string)
    ensures AppOf(host) == Unknown <==> host == ""
    ensures AppOf(host) == Https <==>
      host != "" && forall i :: 0 <= i < |SIGNATURES| ==> !Holds(host, SIGNATURES[i].texts)
    ensures AppOf(host) !in {Http, Dns, Tls, Quic}
  {
    AppsDiffer();
    if host != "" {
      AppIsFirstGroup(host);
      FirstGroupNone(SIGNATURES, host);
      if FirstGroup(SIGNATURES, host).Some? {
        var i := FirstGroupIsListed(SIGNATURES, host);
      }
    }
  }

  lemma XComDecides(host: string, i: nat)
    requires Contains(host, "x.com") && 5 < i < |SIGNATURES|
    ensures AppOf(host) != SIGNATURES[i].app
  {
    EarlierDecides(host, i, 5, 2);
  }

  lemma TCoDecides(host: string, i: nat)
    requires Contains(host, "t.co") && 5 < i < |SIGNATURES|
    ensures AppOf(host) != SIGNATURES[i].app
  {
    EarlierDecides(host, i, 5, 3);
  }

  /** No name that contains "netflix.com" is Netflix: "x.com" comes first. */
  lemma NetflixDotComIsNotNetflix(host: string)
    requires Contains(host, "netflix.com")
    ensures AppOf(host) != Netflix
  {
    XComInNetflixDotCom();
    ContainsTransitive(host, "netflix.com", "x.com");
    XComDecides(host, 6);
  }

  /** Nor is any name that contains "microsoft.com" Microsoft: "t.co" comes first. */
  lemma MicrosoftDotComIsNotMicrosoft(host: string)
    requires Contains(host, "microsoft.com")
    ensures AppOf(host) != Microsoft
  {
    TCoInMicrosoftDotCom();
    ContainsTransitive(host, "microsoft.com", "t.co");
    TCoDecides(host, 8);
  }

  /** Video hosts of YouTube are taken for Google. */
  lemma GoogleVideoIsGoogle(host: string)
    requires Contains(host, ".googlevideo.")
    ensures AppOf(host) == Google
  {
    GoogleInGoogleVideo();
    ContainsTransitive(host, ".googlevideo.", "google");
    assert SIGNATURES[0].texts[0] == "google";
    AppIff(host, 0);
  }

  /** `appTypeToString`. */
  function AppName(app: AppType): string {
    match app
    case Unknown => "Unknown" case Http => "HTTP" case Https => "HTTPS" case Dns => "DNS" case Tls => "TLS"
    case Quic => "QUIC" case Google => "Google" case Facebook => "Facebook" case YouTube => "YouTube"
    case Twitter => "Twitter/X" case Instagram => "Instagram" case Netflix => "Netflix" case Amazon => "Amazon"
    case Microsoft => "Microsoft" case Apple => "Apple" case WhatsApp => "WhatsApp" case Telegram => "Telegram"
    case TikTok => "TikTok" case Spotify => "Spotify" case Zoom => "Zoom" case Discord => "Discord"
    case GitHub => "GitHub" case Cloudflare => "Cloudflare"
  }
}
