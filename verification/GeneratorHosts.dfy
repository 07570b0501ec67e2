/** The hosts that the packet generator uses, as the signatures see them. That a host holds no
    signature of an application is shown by letters that it lacks. */
module GeneratorHosts {
  import opened Types
  import opened AppSignatures

  predicate Has(host: string, c: char) {
    exists i :: 0 <= i < |host| && Lower(host[i]) == c
  }

  /** All characters of a text are in the host. */
  ghost predicate HasAll(host: string, text: string) {
    forall c {:trigger Has(host, c)} :: c in text && Lower(c) == c ==> Has(host, c)
  }

  lemma HeldIsThere(host: string, texts: seq<string>) returns (k: nat)
    requires Holds(host, texts)
    ensures k < |texts| && Contains(host, texts[k]) && HasAll(host, texts[k])
  {
    k :| 0 <= k < |texts| && Contains(host, texts[k]);
    var i :| 0 <= i <= |host| - |texts[k]| && ContainsAt(host, texts[k], i);
    forall c | c in texts[k] && Lower(c) == c
      ensures Has(host, c)
    {
      var j :| 0 <= j < |texts[k]| && texts[k][j] == c;
      assert Lower(host[i + j]) == c;
    }
  }

  /** No place of the host holds two neighbours of the text. */
  predicate LacksPair(host: string, text: string, j: nat)
    requires j + 1 < |text|
  {
    forall i :: 0 <= i < |host| - 1 && Lower(host[i]) == Lower(text[j]) ==> Lower(host[i + 1]) != Lower(text[j + 1])
  }

  lemma PairMissing(host: string, text: string, j: nat)
    requires j + 1 < |text| && LacksPair(host, text, j)
    ensures !Contains(host, text)
  {
    if i :| 0 <= i <= |host| - |text| && ContainsAt(host, text, i) {
      assert Lower(host[i + j]) == Lower(text[j]) && Lower(host[i + (j + 1)]) == Lower(text[j + 1]);
    }
  }

  lemma GoogleNeeds(host: string)
    ensures Holds(host, SIGNATURES[0].texts) ==>
      Has(host, 'g') && ((Has(host, 'l') && Contains(host, "google")) || (Has(host, 'l') && Has(host, 'p')) ||
      (Has(host, 's') && Contains(host, "gstatic")) || (Has(host, 'p') && Contains(host, "ggpht")) || Has(host, 'v'))
  {
    if Holds(host, SIGNATURES[0].texts) {
      var k := HeldIsThere(host, SIGNATURES[0].texts);
    }
  }

  lemma YouTubeNeeds(host: string)
    ensures Holds(host, SIGNATURES[1].texts) ==> Has(host, 'y') && (Has(host, 'u') || Has(host, 'g'))
  {
    if Holds(host, SIGNATURES[1].texts) {
      var k := HeldIsThere(host, SIGNATURES[1].texts);
    }
  }

  lemma FacebookNeeds(host: string)
    ensures Holds(host, SIGNATURES[2].texts) ==>
      (Has(host, 'b') && Has(host, 'f')) || (Has(host, 'a') && Has(host, 'e') && Has(host, 't') && Has(host, 'c'))
  {
    if Holds(host, SIGNATURES[2].texts) {
      var k := HeldIsThere(host, SIGNATURES[2].texts);
    }
  }

  lemma InstagramNeeds(host: string)
    ensures Holds(host, SIGNATURES[3].texts) ==> Has(host, 'a') && Has(host, 'g') && Has(host, 'n')
  {
    if Holds(host, SIGNATURES[3].texts) {
      var k := HeldIsThere(host, SIGNATURES[3].texts);
    }
  }

  lemma WhatsAppNeeds(host: string)
    ensures Holds(host, SIGNATURES[4].texts) ==>
      Has(host, 'w') && Has(host, 'a') && (Has(host, 'h') || (Has(host, 'e') && Contains(host, "wa.me")))
  {
    if Holds(host, SIGNATURES[4].texts) {
      var k := HeldIsThere(host, SIGNATURES[4].texts);
    }
  }

  lemma TwitterNeeds(host: string)
    ensures Holds(host, SIGNATURES[5].texts) ==>
      (Has(host, 't') && Has(host, 'w') && Has(host, 'i') && (Has(host, 'e') || Has(host, 'g'))) ||
      (Has(host, 'x') && Contains(host, "x.com")) || (Has(host, 't') && Has(host, 'c') && Contains(host, "t.co"))
  {
    if Holds(host, SIGNATURES[5].texts) {
      var k := HeldIsThere(host, SIGNATURES[5].texts);
    }
  }

  lemma NetflixNeeds(host: string)
    ensures Holds(host, SIGNATURES[6].texts) ==> Has(host, 'f') && Has(host, 'l') && Has(host, 'x')
  {
    if Holds(host, SIGNATURES[6].texts) {
      var k := HeldIsThere(host, SIGNATURES[6].texts);
    }
  }

  lemma AmazonNeeds(host: string)
    ensures Holds(host, SIGNATURES[7].texts) ==>
      (Has(host, 'a') && Has(host, 'z')) || (Has(host, 'd') && Has(host, 'n')) || (Has(host, 'a') && Has(host, 's'))
  {
    if Holds(host, SIGNATURES[7].texts) {
      var k := HeldIsThere(host, SIGNATURES[7].texts);
    }
  }

  lemma MicrosoftNeeds(host: string)
    ensures Holds(host, SIGNATURES[8].texts) ==>
      (Has(host, 'f') && Has(host, 's') && Has(host, 'r')) || (Has(host, 'n') && Has(host, 's') &&
      Contains(host, "msn.com")) || (Has(host, 'f') && Has(host, 'i') && Contains(host, "office")) ||
      (Has(host, 'a') && Has(host, 'z')) || Has(host, 'v') || (Has(host, 'k') && Has(host, 'l')) ||
      (Has(host, 'b') && Has(host, 'n') && Contains(host, "bing"))
  {
    if Holds(host, SIGNATURES[8].texts) {
      var k := HeldIsThere(host, SIGNATURES[8].texts);
    }
  }

  lemma AppleNeeds(host: string)
    ensures Holds(host, SIGNATURES[9].texts) ==>
      (Has(host, 'p') && Has(host, 'l') && Contains(host, "apple")) || (Has(host, 'd') && Has(host, 'l') &&
      Has(host, 'i')) || (Has(host, 'u') && Has(host, 'n'))
  {
    if Holds(host, SIGNATURES[9].texts) {
      var k := HeldIsThere(host, SIGNATURES[9].texts);
    }
  }

  lemma TelegramNeeds(host: string)
    ensures Holds(host, SIGNATURES[10].texts) ==>
      Has(host, 'e') && Has(host, 't') && (Has(host, 'a') || Contains(host, "t.me"))
  {
    if Holds(host, SIGNATURES[10].texts) {
      var k := HeldIsThere(host, SIGNATURES[10].texts);
    }
  }

  lemma TikTokNeeds(host: string)
    ensures Holds(host, SIGNATURES[11].texts) ==> Has(host, 't') && (Has(host, 'k') || Has(host, 'd'))
  {
    if Holds(host, SIGNATURES[11].texts) {
      var k := HeldIsThere(host, SIGNATURES[11].texts);
    }
  }

  lemma SpotifyNeeds(host: string)
    ensures Holds(host, SIGNATURES[12].texts) ==> Has(host, 's') && (Has(host, 'f') || Has(host, 'n'))
  {
    if Holds(host, SIGNATURES[12].texts) {
      var k := HeldIsThere(host, SIGNATURES[12].texts);
    }
  }

  lemma ZoomNeeds(host: string)
    ensures Holds(host, SIGNATURES[13].texts) ==> Has(host, 'z')
  {
    if Holds(host, SIGNATURES[13].texts) {
      var k := HeldIsThere(host, SIGNATURES[13].texts);
    }
  }

  lemma DiscordNeeds(host: string)
    ensures Holds(host, SIGNATURES[14].texts) ==> Has(host, 'd') && Has(host, 's')
  {
    if Holds(host, SIGNATURES[14].texts) {
      var k := HeldIsThere(host, SIGNATURES[14].texts);
    }
  }

  lemma GitHubNeeds(host: string)
    ensures Holds(host, SIGNATURES[15].texts) ==> Has(host, 'g') && Has(host, 'u')
  {
    if Holds(host, SIGNATURES[15].texts) {
      var k := HeldIsThere(host, SIGNATURES[15].texts);
    }
  }

  lemma CloudflareNeeds(host: string)
    ensures Holds(host, SIGNATURES[16].texts) ==> Has(host, 'c') && Has(host, 'f')
  {
    if Holds(host, SIGNATURES[16].texts) {
      var k := HeldIsThere(host, SIGNATURES[16].texts);
    }
  }

  /** The host holds no signature of the first so many applications. */
  predicate HoldsNone(host: string, n: nat)
    requires n <= |SIGNATURES|
  {
    forall j :: 0 <= j < n ==> !Holds(host, SIGNATURES[j].texts)
  }

  lemma OneMoreNot(host: string, n: nat)
    requires n < |SIGNATURES| && HoldsNone(host, n) && !Holds(host, SIGNATURES[n].texts)
    ensures HoldsNone(host, n + 1)
  {
  }

  lemma Decides(host: string, i: nat, k: nat, at: nat)
    requires i < |SIGNATURES| && k < |SIGNATURES[i].texts| && ContainsAt(host, SIGNATURES[i].texts[k], at)
    requires HoldsNone(host, i)
    ensures AppOf(host) == SIGNATURES[i].app
  {
    assert Contains(host, SIGNATURES[i].texts[k]);
    AppIff(host, i);
  }

  /** The host has none of these letters. */
  ghost predicate Lacks(host: string, letters: string) {
    forall c {:trigger Has(host, c)} :: c in letters ==> !Has(host, c)
  }

  lemma LettersApart(host: string, letters: string)
    requires forall i, k :: 0 <= i < |host| && 0 <= k < |letters| ==> Lower(host[i]) != letters[k]
    ensures Lacks(host, letters)
  {
  }

  /** A host without these letters holds no signature of the first so many applications, if each
      of those signatures has one of them or is not contained for another reason. */
  lemma NoneOfFirst(host: string, letters: string, n: nat)
    requires n <= 17 && Lacks(host, letters)
    requires n > 0 ==>
      !('g' !in letters && (('l' !in letters && Contains(host, "google")) || ('l' !in letters && 'p' !in letters) ||
      ('s' !in letters && Contains(host, "gstatic")) || ('p' !in letters && Contains(host, "ggpht")) ||
      'v' !in letters))
    requires n > 1 ==> !('y' !in letters && ('u' !in letters || 'g' !in letters))
    requires n > 2 ==>
      !(('b' !in letters && 'f' !in letters) || ('a' !in letters && 'e' !in letters && 't' !in letters &&
      'c' !in letters))
    requires n > 3 ==> !('a' !in letters && 'g' !in letters && 'n' !in letters)
    requires n > 4 ==>
      !('w' !in letters && 'a' !in letters && ('h' !in letters || ('e' !in letters && Contains(host, "wa.me"))))
    requires n > 5 ==>
      !(('t' !in letters && 'w' !in letters && 'i' !in letters && ('e' !in letters || 'g' !in letters)) ||
      ('x' !in letters && Contains(host, "x.com")) || ('t' !in letters && 'c' !in letters && Contains(host, "t.co")))
    requires n > 6 ==> !('f' !in letters && 'l' !in letters && 'x' !in letters)
    requires n > 7 ==>
      !(('a' !in letters && 'z' !in letters) || ('d' !in letters && 'n' !in letters) || ('a' !in letters &&
      's' !in letters))
    requires n > 8 ==>
      !(('f' !in letters && 's' !in letters && 'r' !in letters) || ('n' !in letters && 's' !in letters &&
      Contains(host, "msn.com")) || ('f' !in letters && 'i' !in letters && Contains(host, "office")) ||
      ('a' !in letters && 'z' !in letters) || 'v' !in letters || ('k' !in letters && 'l' !in letters) ||
      ('b' !in letters && 'n' !in letters && Contains(host, "bing")))
    requires n > 9 ==>
      !(('p' !in letters && 'l' !in letters && Contains(host, "apple")) || ('d' !in letters && 'l' !in letters &&
      'i' !in letters) || ('u' !in letters && 'n' !in letters))
    requires n > 10 ==> !('e' !in letters && 't' !in letters && ('a' !in letters || Contains(host, "t.me")))
    requires n > 11 ==> !('t' !in letters && ('k' !in letters || 'd' !in letters))
    requires n > 12 ==> !('s' !in letters && ('f' !in letters || 'n' !in letters))
    requires n > 13 ==> !('z' !in letters)
    requires n > 14 ==> !('d' !in letters && 's' !in letters)
    requires n > 15 ==> !('g' !in letters && 'u' !in letters)
    requires n > 16 ==> !('c' !in letters && 'f' !in letters)
    ensures HoldsNone(host, n)
  {
    forall j | 0 <= j < n
      ensures !Holds(host, SIGNATURES[j].texts)
    {
      match j
      case 0 => GoogleNeeds(host);
      case 1 => YouTubeNeeds(host);
      case 2 => FacebookNeeds(host);
      case 3 => InstagramNeeds(host);
      case 4 => WhatsAppNeeds(host);
      case 5 => TwitterNeeds(host);
      case 6 => NetflixNeeds(host);
      case 7 => AmazonNeeds(host);
      case 8 => MicrosoftNeeds(host);
      case 9 => AppleNeeds(host);
      case 10 => TelegramNeeds(host);
      case 11 => TikTokNeeds(host);
      case 12 => SpotifyNeeds(host);
      case 13 => ZoomNeeds(host);
      case 14 => DiscordNeeds(host);
      case 15 => GitHubNeeds(host);
      case _ => CloudflareNeeds(host);
    }
  }

  lemma GoogleHost()
    ensures AppOf("www.google.com") == Google
  {
    Decides("www.google.com", 0, 0, 4);
  }

  lemma YoutubeNone()
    ensures HoldsNone("www.youtube.com", 1)
  {
    LettersApart("www.youtube.com", "lpsv");
    NoneOfFirst("www.youtube.com", "lpsv", 1);
  }

  lemma YoutubeHost()
    ensures AppOf("www.youtube.com") == YouTube
  {
    YoutubeNone();
    Decides("www.youtube.com", 1, 0, 4);
  }

  lemma FacebookNone()
    ensures HoldsNone("www.facebook.com", 2)
  {
    LettersApart("www.facebook.com", "lpsvy");
    NoneOfFirst("www.facebook.com", "lpsvy", 2);
  }

  lemma FacebookHost()
    ensures AppOf("www.facebook.com") == Facebook
  {
    FacebookNone();
    Decides("www.facebook.com", 2, 0, 4);
  }

  lemma InstagramLacksGstatic()
    ensures !Contains("www.instagram.com", "gstatic")
  {
    PairMissing("www.instagram.com", "gstatic", 0);
  }

  lemma InstagramNone()
    ensures HoldsNone("www.instagram.com", 3)
  {
    LettersApart("www.instagram.com", "eflpvy");
    InstagramLacksGstatic();
    NoneOfFirst("www.instagram.com", "eflpvy", 3);
  }

  lemma InstagramHost()
    ensures AppOf("www.instagram.com") == Instagram
  {
    InstagramNone();
    Decides("www.instagram.com", 3, 0, 4);
  }

  lemma TwitterNone()
    ensures HoldsNone("twitter.com", 5)
  {
    LettersApart("twitter.com", "aflpsvy");
    NoneOfFirst("twitter.com", "aflpsvy", 5);
  }

  lemma TwitterHost()
    ensures AppOf("twitter.com") == Twitter
  {
    TwitterNone();
    Decides("twitter.com", 5, 0, 0);
  }

  lemma AmazonNone()
    ensures HoldsNone("www.amazon.com", 7)
  {
    LettersApart("www.amazon.com", "efghtxy");
    NoneOfFirst("www.amazon.com", "efghtxy", 7);
  }

  lemma AmazonHost()
    ensures AppOf("www.amazon.com") == Amazon
  {
    AmazonNone();
    Decides("www.amazon.com", 7, 0, 4);
  }

  lemma NetflixNone()
    ensures HoldsNone("www.netflix.com", 5)
  {
    LettersApart("www.netflix.com", "abgy");
    NoneOfFirst("www.netflix.com", "abgy", 5);
  }

  lemma NetflixHost()
    ensures AppOf("www.netflix.com") == Twitter
  {
    NetflixNone();
    Decides("www.netflix.com", 5, 2, 10);
  }

  lemma GithubLacksTCo()
    ensures !Contains("github.com", "t.co")
  {
    PairMissing("github.com", "t.co", 0);
  }

  lemma GithubNone()
    ensures HoldsNone("github.com", 15)
  {
    LettersApart("github.com", "defklnpsvwxyz");
    GithubLacksTCo();
    NoneOfFirst("github.com", "defklnpsvwxyz", 15);
  }

  lemma GithubHost()
    ensures AppOf("github.com") == GitHub
  {
    GithubNone();
    Decides("github.com", 15, 0, 0);
  }

  lemma DiscordNone()
    ensures HoldsNone("discord.com", 14)
  {
    LettersApart("discord.com", "afglntvxyz");
    NoneOfFirst("discord.com", "afglntvxyz", 14);
  }

  lemma DiscordHost()
    ensures AppOf("discord.com") == Discord
  {
    DiscordNone();
    Decides("discord.com", 14, 0, 0);
  }

  lemma ZoomNone()
    ensures HoldsNone("zoom.us", 13)
  {
    LettersApart("zoom.us", "afglntvxy");
    NoneOfFirst("zoom.us", "afglntvxy", 13);
  }

  lemma ZoomHost()
    ensures AppOf("zoom.us") == Zoom
  {
    ZoomNone();
    Decides("zoom.us", 13, 0, 0);
  }

  lemma TelegramLacksGoogle()
    ensures !Contains("web.telegram.org", "google")
  {
    PairMissing("web.telegram.org", "google", 0);
  }

  lemma TelegramLacksWaMe()
    ensures !Contains("web.telegram.org", "wa.me")
  {
    PairMissing("web.telegram.org", "wa.me", 0);
  }

  lemma TelegramNone()
    ensures HoldsNone("web.telegram.org", 10)
  {
    LettersApart("web.telegram.org", "cfhiknpsvxyz");
    TelegramLacksGoogle();
    TelegramLacksWaMe();
    NoneOfFirst("web.telegram.org", "cfhiknpsvxyz", 10);
  }

  lemma TelegramHost()
    ensures AppOf("web.telegram.org") == Telegram
  {
    TelegramNone();
    Decides("web.telegram.org", 10, 0, 4);
  }

  lemma TiktokLacksTCo()
    ensures !Contains("www.tiktok.com", "t.co")
  {
    PairMissing("www.tiktok.com", "t.co", 0);
  }

  lemma TiktokNone()
    ensures HoldsNone("www.tiktok.com", 11)
  {
    LettersApart("www.tiktok.com", "efghlnsvxyz");
    TiktokLacksTCo();
    NoneOfFirst("www.tiktok.com", "efghlnsvxyz", 11);
  }

  lemma TiktokHost()
    ensures AppOf("www.tiktok.com") == TikTok
  {
    TiktokNone();
    Decides("www.tiktok.com", 11, 0, 4);
  }

  lemma SpotifyLacksTCo()
    ensures !Contains("open.spotify.com", "t.co")
  {
    PairMissing("open.spotify.com", "t.co", 0);
  }

  lemma SpotifyLacksMsnCom()
    ensures !Contains("open.spotify.com", "msn.com")
  {
    PairMissing("open.spotify.com", "msn.com", 0);
  }

  lemma SpotifyLacksOffice()
    ensures !Contains("open.spotify.com", "office")
  {
    PairMissing("open.spotify.com", "office", 0);
  }

  lemma SpotifyLacksTMe()
    ensures !Contains("open.spotify.com", "t.me")
  {
    PairMissing("open.spotify.com", "t.me", 0);
  }

  lemma SpotifyNone()
    ensures HoldsNone("open.spotify.com", 12)
  {
    LettersApart("open.spotify.com", "abdgklruvwx");
    SpotifyLacksTCo();
    SpotifyLacksMsnCom();
    SpotifyLacksOffice();
    SpotifyLacksTMe();
    NoneOfFirst("open.spotify.com", "abdgklruvwx", 12);
  }

  lemma SpotifyHost()
    ensures AppOf("open.spotify.com") == Spotify
  {
    SpotifyNone();
    Decides("open.spotify.com", 12, 0, 5);
  }

  lemma CloudflareLacksWaMe()
    ensures !Contains("www.cloudflare.com", "wa.me")
  {
    PairMissing("www.cloudflare.com", "wa.me", 0);
  }

  lemma CloudflareNone()
    ensures HoldsNone("www.cloudflare.com", 16)
  {
    LettersApart("www.cloudflare.com", "bghiknpstvxyz");
    CloudflareLacksWaMe();
    NoneOfFirst("www.cloudflare.com", "bghiknpstvxyz", 16);
  }

  lemma CloudflareHost()
    ensures AppOf("www.cloudflare.com") == Cloudflare
  {
    CloudflareNone();
    Decides("www.cloudflare.com", 16, 0, 4);
  }

  lemma MicrosoftNone()
    ensures HoldsNone("www.microsoft.com", 5)
  {
    LettersApart("www.microsoft.com", "beghy");
    NoneOfFirst("www.microsoft.com", "beghy", 5);
  }

  lemma MicrosoftHost()
    ensures AppOf("www.microsoft.com") == Twitter
  {
    MicrosoftNone();
    Decides("www.microsoft.com", 5, 3, 12);
  }

  lemma AppleLacksWaMe()
    ensures !Contains("www.apple.com", "wa.me")
  {
    PairMissing("www.apple.com", "wa.me", 0);
  }

  lemma AppleNone()
    ensures HoldsNone("www.apple.com", 9)
  {
    LettersApart("www.apple.com", "fghknstvxyz");
    AppleLacksWaMe();
    NoneOfFirst("www.apple.com", "fghknstvxyz", 9);
  }

  lemma AppleHost()
    ensures AppOf("www.apple.com") == Apple
  {
    AppleNone();
    Decides("www.apple.com", 9, 0, 4);
  }

  lemma ExampleLacksXCom()
    ensures !Contains("example.com", "x.com")
  {
    PairMissing("example.com", "x.com", 0);
  }

  lemma ExampleLacksApple()
    ensures !Contains("example.com", "apple")
  {
    PairMissing("example.com", "apple", 0);
  }

  lemma ExampleNone()
    ensures HoldsNone("example.com", 17)
  {
    LettersApart("example.com", "fgiknstvwyz");
    ExampleLacksXCom();
    ExampleLacksApple();
    NoneOfFirst("example.com", "fgiknstvwyz", 17);
  }

  lemma ExampleHost()
    ensures AppOf("example.com") == Https
  {
    ExampleNone();
    NoAppIff("example.com");
  }

  lemma HttpbinLacksGgpht()
    ensures !Contains("httpbin.org", "ggpht")
  {
    PairMissing("httpbin.org", "ggpht", 0);
  }

  lemma HttpbinLacksBing()
    ensures !Contains("httpbin.org", "bing")
  {
    PairMissing("httpbin.org", "bing", 2);
  }

  lemma HttpbinNone()
    ensures HoldsNone("httpbin.org", 17)
  {
    LettersApart("httpbin.org", "acdefklsuvwxyz");
    HttpbinLacksGgpht();
    HttpbinLacksBing();
    NoneOfFirst("httpbin.org", "acdefklsuvwxyz", 17);
  }

  lemma HttpbinHost()
    ensures AppOf("httpbin.org") == Https
  {
    HttpbinNone();
    NoAppIff("httpbin.org");
  }

  /** The hosts of the generator. Those of Netflix and Microsoft are taken for Twitter. */
  lemma GeneratorHosts()
    ensures AppOf("www.google.com") == Google
    ensures AppOf("www.youtube.com") == YouTube
    ensures AppOf("www.facebook.com") == Facebook
    ensures AppOf("www.instagram.com") == Instagram
    ensures AppOf("twitter.com") == Twitter
    ensures AppOf("www.amazon.com") == Amazon
    ensures AppOf("www.netflix.com") == Twitter
    ensures AppOf("github.com") == GitHub
    ensures AppOf("discord.com") == Discord
    ensures AppOf("zoom.us") == Zoom
    ensures AppOf("web.telegram.org") == Telegram
    ensures AppOf("www.tiktok.com") == TikTok
    ensures AppOf("open.spotify.com") == Spotify
    ensures AppOf("www.cloudflare.com") == Cloudflare
    ensures AppOf("www.microsoft.com") == Twitter
    ensures AppOf("www.apple.com") == Apple
    ensures AppOf("example.com") == Https
    ensures AppOf("httpbin.org") == Https
  {
    GoogleHost();
    YoutubeHost();
    FacebookHost();
    InstagramHost();
    TwitterHost();
    AmazonHost();
    NetflixHost();
    GithubHost();
    DiscordHost();
    ZoomHost();
    TelegramHost();
    TiktokHost();
    SpotifyHost();
    CloudflareHost();
    MicrosoftHost();
    AppleHost();
    ExampleHost();
    HttpbinHost();
  }
}
