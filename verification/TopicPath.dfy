/** Base paths, topic paths and the addresses the command-line client builds. */
module TopicPath {
  import opened Common

  const DEFAULT_BASE_PATH := "/mads"

  /** `path` without its trailing slashes, but never shorter than one character. */
  function DropTrailingSlashes(path: string): string {
    if |path| > 1 && path[|path| - 1] == '/' then DropTrailingSlashes(path[..|path| - 1]) else path
  }

  function Rooted(path: string): string {
    if path != "" && path[0] == '/' then path else "/" + path
  }

  function NormalizeBasePath(path: string): string {
    if path == "" then DEFAULT_BASE_PATH else DropTrailingSlashes(Rooted(path))
  }

  predicate IsNormal(path: string) {
    path != "" && path[0] == '/' && (|path| == 1 || path[|path| - 1] != '/')
  }

  predicate AllSlashes(s: string) {
    forall i :: 0 <= i < |s| ==> s[i] == '/'
  }

  lemma {:induction false} DropTrailingSlashesFactors(path: string)
    requires path != ""
    ensures var r := DropTrailingSlashes(path);
            && r != "" && r <= path && AllSlashes(path[|r|..])
            && (|r| == 1 || r[|r| - 1] != '/')
  {
    if |path| > 1 && path[|path| - 1] == '/' {
      var shorter := path[..|path| - 1];
      DropTrailingSlashesFactors(shorter);
      var r := DropTrailingSlashes(path);
      assert path[|r|..] == shorter[|r|..] + "/";
    }
  }

  /** The result is normal, and is the rooted input up to trailing slashes. */
  lemma NormalizeBasePathMeaning(path: string)
    ensures var r := NormalizeBasePath(path);
            && IsNormal(r)
            && (path == "" ==> r == "/mads")
            && (path != "" ==>
                  var rooted := if path[0] == '/' then path else "/" + path;
                  r <= rooted && AllSlashes(rooted[|r|..]))
  {
    if path != "" {
      DropTrailingSlashesFactors(Rooted(path));
    }
  }

  lemma NormalizeIsIdempotent(path: string)
    ensures NormalizeBasePath(NormalizeBasePath(path)) == NormalizeBasePath(path)
  {
    NormalizeBasePathMeaning(path);
  }

  method ComputeNormalizedBasePath(input: string) returns (path: string)
    ensures path == NormalizeBasePath(input)
  {
    path := input;
    if path == "" {
      return DEFAULT_BASE_PATH;
    }
    if path[0] != '/' {
      path := "/" + path;
    }
    while |path| > 1 && path[|path| - 1] == '/'
      invariant path != ""
      invariant DropTrailingSlashes(path) == NormalizeBasePath(input)
      decreases |path|
    {
      path := path[..|path| - 1];
    }
  }

  // ---- Topics -------------------------------------------------------------

  predicate IsCut(c: char) {
    c == '?' || c == '#'
  }

  /** Everything before the first `?` or `#`. */
  function BeforeCut(s: string): string {
    if s == "" || IsCut(s[0]) then "" else [s[0]] + BeforeCut(s[1..])
  }

  function TopicFromUri(uri: string, base: string): Option<string> {
    if uri == "" then None
    else if !(base <= uri) then None
    else if |uri| <= |base| || uri[|base|] != '/' then None
    else
      var topic := uri[|base| + 1..];
      if topic == "" || BeforeCut(topic) == "" then None else Some(BeforeCut(topic))
  }

  predicate NoCut(s: string) {
    forall i :: 0 <= i < |s| ==> s[i] != '?' && s[i] != '#'
  }

  /** `rest` is empty, or a query or fragment. */
  predicate IsTail(rest: string) {
    rest == "" || rest[0] == '?' || rest[0] == '#'
  }

  lemma {:induction false} BeforeCutFactors(s: string)
    ensures var t := BeforeCut(s); t <= s && NoCut(t) && IsTail(s[|t|..])
  {
    if s != "" && !IsCut(s[0]) {
      BeforeCutFactors(s[1..]);
      var t := BeforeCut(s[1..]);
      assert s == [s[0]] + s[1..];
      assert s[|BeforeCut(s)|..] == s[1..][|t|..];
    }
  }

  lemma {:induction false} BeforeCutOfTopic(t: string, rest: string)
    requires NoCut(t) && IsTail(rest)
    ensures BeforeCut(t + rest) == t
  {
    if t == "" {
      assert t + rest == rest;
    } else {
      assert (t + rest)[1..] == t[1..] + rest;
      BeforeCutOfTopic(t[1..], rest);
      assert t == [t[0]] + t[1..];
    }
  }

  lemma TopicIsFactor(uri: string, base: string, t: string) returns (rest: string)
    requires TopicFromUri(uri, base) == Some(t)
    ensures t != "" && NoCut(t) && IsTail(rest) && uri == base + "/" + t + rest
  {
    var path := uri[|base| + 1..];
    BeforeCutFactors(path);
    rest := path[|t|..];
    assert path == t + rest;
    assert uri == base + "/" + path;
  }

  lemma FactorIsTopic(base: string, t: string, rest: string)
    requires t != "" && NoCut(t) && IsTail(rest)
    ensures TopicFromUri(base + "/" + t + rest, base) == Some(t)
  {
    var uri := base + "/" + t + rest;
    BeforeCutOfTopic(t, rest);
    assert uri[|base| + 1..] == t + rest;
    assert base <= uri;
  }

  /** A URI names topic `t` exactly when it is base, slash, `t` and an optional query or fragment. */
  lemma TopicFromUriFactors(uri: string, base: string, t: string)
    ensures TopicFromUri(uri, base) == Some(t) <==>
            t != "" && NoCut(t) &&
            exists rest :: IsTail(rest) && uri == base + "/" + t + rest
  {
    if TopicFromUri(uri, base) == Some(t) {
      var rest := TopicIsFactor(uri, base, t);
    } else if t != "" && NoCut(t) {
      forall rest | IsTail(rest) ensures uri != base + "/" + t + rest {
        FactorIsTopic(base, t, rest);
      }
    }
  }

  lemma TopicRoundTrip(base: string, t: string)
    requires t != "" && NoCut(t)
    ensures TopicFromUri(base + "/" + t, base) == Some(t)
  {
    assert base + "/" + t == base + "/" + t + "";
    FactorIsTopic(base, t, "");
  }

  // ---- The command-line client's addresses --------------------------------

  const TOPIC_ROOT := "/mads"

  function DropLeadingSlashes(s: string): string {
    if s != "" && s[0] == '/' then DropLeadingSlashes(s[1..]) else s
  }

  function DropAllTrailingSlashes(s: string): string {
    if s != "" && s[|s| - 1] == '/' then DropAllTrailingSlashes(s[..|s| - 1]) else s
  }

  function BuildAddress(base: string, topic: string): string {
    DropAllTrailingSlashes(base) + TOPIC_ROOT + "/" + DropLeadingSlashes(topic)
  }

  method ComputeAddress(baseAddress: string, topicArg: string) returns (address: string)
    ensures address == BuildAddress(baseAddress, topicArg)
  {
    var base, topic := baseAddress, topicArg;
    while base != "" && base[|base| - 1] == '/'
      invariant DropAllTrailingSlashes(base) == DropAllTrailingSlashes(baseAddress)
      decreases |base|
    {
      base := base[..|base| - 1];
    }
    while topic != "" && topic[0] == '/'
      invariant DropLeadingSlashes(topic) == DropLeadingSlashes(topicArg)
      decreases |topic|
    {
      topic := topic[1..];
    }
    address := base + TOPIC_ROOT + "/" + topic;
  }

  lemma {:induction false} DropLeadingSlashesMeaning(s: string)
    ensures var r := DropLeadingSlashes(s);
            && |r| <= |s| && r == s[|s| - |r|..] && AllSlashes(s[..|s| - |r|])
            && (r == "" || r[0] != '/')
  {
    if s != "" && s[0] == '/' {
      DropLeadingSlashesMeaning(s[1..]);
      var r := DropLeadingSlashes(s);
      assert s[..|s| - |r|] == "/" + s[1..][..|s| - 1 - |r|];
    }
  }

  lemma {:induction false} DropAllTrailingSlashesMeaning(s: string)
    ensures var r := DropAllTrailingSlashes(s);
            r <= s && AllSlashes(s[|r|..]) && (r == "" || r[|r| - 1] != '/')
  {
    if s != "" && s[|s| - 1] == '/' {
      DropAllTrailingSlashesMeaning(s[..|s| - 1]);
      var r := DropAllTrailingSlashes(s);
      assert s[|r|..] == s[..|s| - 1][|r|..] + "/";
    }
  }

  /** Whatever slashes surround the two arguments, a built address is the server part without its
      trailing slashes, the topic root, and the topic without its leading ones; and a server with the
      default base path reads from that path the typed topic up to the first `?` or `#`. */
  lemma ClientReachesTopic(base: string, topic: string)
    ensures var host, t := DropAllTrailingSlashes(base), DropLeadingSlashes(topic);
            && host <= base && AllSlashes(base[|host|..]) && (host == "" || host[|host| - 1] != '/')
            && |t| <= |topic| && t == topic[|topic| - |t|..] && AllSlashes(topic[..|topic| - |t|])
            && (t == "" || t[0] != '/')
            && BuildAddress(base, topic) == host + "/mads/" + t
            && TopicFromUri("/mads/" + t, NormalizeBasePath(""))
               == if BeforeCut(t) == "" then None else Some(BeforeCut(t))
  {
    DropAllTrailingSlashesMeaning(base);
    DropLeadingSlashesMeaning(topic);
    var host, t := DropAllTrailingSlashes(base), DropLeadingSlashes(topic);
    assert TOPIC_ROOT + "/" == "/mads/";
    assert BuildAddress(base, topic) == host + (TOPIC_ROOT + "/") + t;
    assert ("/mads/" + t)[|TOPIC_ROOT| + 1..] == t;
  }

  // ---- The browser's view of the base path --------------------------------

  /** White space as `String.prototype.trim` sees it. */
  predicate IsSpace(c: char): (r: bool)
    ensures r <==> c as int in {9, 10, 11, 12, 13, 32, 160, 0x1680, 0x2000, 0x2001, 0x2002, 0x2003, 0x2004, 0x2005, 0x2006,
                                0x2007, 0x2008, 0x2009, 0x200A, 0x2028, 0x2029, 0x202F, 0x205F, 0x3000, 0xFEFF}
  {
    || '\t' <= c <= '\r' || c == ' '
    || c in {'\U{00A0}', '\U{1680}', '\U{2028}', '\U{2029}', '\U{202F}', '\U{205F}', '\U{3000}', '\U{FEFF}'}
    || '\U{2000}' <= c <= '\U{200A}'
  }

  predicate IsBlank(s: string) {
    forall i :: 0 <= i < |s| ==> IsSpace(s[i])
  }

  function BrowserNormalizePath(path: string): string {
    if path == "" || IsBlank(path) then DEFAULT_BASE_PATH
    else
      var stripped := DropAllTrailingSlashes(Rooted(path));
      if stripped == "" then DEFAULT_BASE_PATH else stripped
  }

  /** What the page makes of any path: the default where there is nothing but white space or slashes, and
      otherwise the rooted path without its trailing slashes. */
  lemma BrowserNormalizePathMeaning(path: string)
    ensures var r := BrowserNormalizePath(path);
            if IsBlank(path) || AllSlashes(path) then r == "/mads"
            else
              var rooted := if path[0] == '/' then path else "/" + path;
              r != "" && r[|r| - 1] != '/' && r <= rooted && AllSlashes(rooted[|r|..])
  {
    var rooted := Rooted(path);
    DropAllTrailingSlashesMeaning(rooted);
    if DropAllTrailingSlashes(rooted) == "" {
      forall i | 0 <= i < |path| ensures path[i] == '/' {
        assert if rooted == path then path[i] == rooted[i] else path[i] == rooted[i + 1];
      }
    }
  }

  lemma {:induction false} TrailingSlashVariantsAgree(path: string)
    requires path != ""
    ensures DropTrailingSlashes(path) == DropAllTrailingSlashes(path) || DropTrailingSlashes(path) == "/"
  {
    if |path| > 1 && path[|path| - 1] == '/' {
      TrailingSlashVariantsAgree(path[..|path| - 1]);
    }
  }

  lemma RootPathComesFromSlashes(path: string)
    requires path != "" && NormalizeBasePath(path) == "/"
    ensures AllSlashes(path)
  {
    var rooted := Rooted(path);
    DropTrailingSlashesFactors(rooted);
    assert rooted == "/" + rooted[1..];
    forall i | 0 <= i < |path| ensures path[i] == '/' {
      assert path[i] == rooted[i] || path[i] == rooted[1..][i];
    }
  }

  /** The page normalises the base path the server announces. It ends up with the server's own path
      exactly when the configured path is empty or has a character that is not a slash. */
  lemma BrowserAgreesWithServer(configured: string)
    ensures BrowserNormalizePath(NormalizeBasePath(configured)) == NormalizeBasePath(configured)
            <==> configured == "" || !AllSlashes(configured)
  {
    var server := NormalizeBasePath(configured);
    NormalizeBasePathMeaning(configured);
    assert !IsBlank(server) by { assert server[0] == '/' && !IsSpace('/'); }
    if configured != "" && AllSlashes(configured) {
      assert server == "/" && server[..0] == "";
      assert DropAllTrailingSlashes(server) == "";
    } else if server == "/" {
      RootPathComesFromSlashes(configured);
      assert false;
    } else {
      assert DropAllTrailingSlashes(server) == server;
    }
  }
}
