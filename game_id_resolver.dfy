/** A URL after `urlparse`: the parts the archiver looks at. */
module Urls {

  /**
   * Scheme, network location, path and query string, already split apart.
   * Ports, user information and fragments are not distinguished.
   */
  datatype Url = Url(scheme: string, netloc: string, path: string, query: string)
}

/**
 * `GameJoltArchiver.extract_game_id_from_url`: the numeric game id of a
 * `https://gamejolt.com/games/<slug>/<id>` page address.
 */
module GameIdResolver {
  import opened Wrappers
  import opened Text
  import opened Urls

  const ServiceHost: string := "gamejolt.com"
  const GamesPrefix: string := "/games/"

  /** The host test: a plain suffix test on the network location. */
  predicate HostAccepted(u: Url) {
    EndsWith(u.netloc, ServiceHost)
  }

  /** `path.strip('/').split('/')` */
  function PathSegments(path: string): (segments: seq<string>)
    ensures |segments| >= 1
  {
    Split(Strip(path, '/'), '/')
  }

  /** At least three segments, the first being `games`. */
  predicate GamePathShape(segments: seq<string>) {
    |segments| >= 3 && segments[0] == "games"
  }

  function Last(segments: seq<string>): string
    requires |segments| >= 1
  {
    segments[|segments| - 1]
  }

  // ---------------------------------------------------------------------------
  // The regular expression  /games/[^/]+/(\d+)/?  searched for in the raw path

  /**
   * The match of the expression anchored at position `i`, as the regular
   * expression engine finds it: `[^/]+` can only end just before the next
   * slash, and `\d+` takes the longest run of digits.
   */
  function MatchAt(p: string, i: nat): Option<nat>
    requires i <= |p|
  {
    if !StartsWith(p[i..], GamesPrefix) then None
    else
      var k := IndexFrom(p, '/', i + |GamesPrefix|);
      if k == i + |GamesPrefix| || k == |p| then None
      else
        var d := DigitRunEnd(p, k + 1);
        if d == k + 1 then None else Some(DigitsValue(p[k + 1..d]))
  }

  /** The leftmost match at or after `i`, as `re.search` scans. */
  function SearchFrom(p: string, i: nat): Option<nat>
    requires i <= |p|
    decreases |p| - i
  {
    if i == |p| then MatchAt(p, i)
    else if MatchAt(p, i).Some? then MatchAt(p, i)
    else SearchFrom(p, i + 1)
  }

  /** `re.search(r'/games/[^/]+/(\d+)/?', path)`, converted with `int(group(1))`. */
  function SearchGameId(p: string): Option<nat> {
    SearchFrom(p, 0)
  }

  /**
   * The text of a match, stated on positions: `/games/` at `i`, a non-empty
   * slug `p[i+7..k]` free of slashes, a slash at `k`, and the maximal
   * non-empty run of digits `p[k+1..d]`.
   */
  ghost predicate MatchSpan(p: string, i: nat, k: nat, d: nat) {
    && i + |GamesPrefix| < k
    && k + 1 < d <= |p|
    && p[i..i + |GamesPrefix|] == GamesPrefix
    && (forall m :: i + |GamesPrefix| <= m < k ==> p[m] != '/')
    && p[k] == '/'
    && (forall m :: k < m < d ==> IsDigit(p[m]))
    && (d == |p| || !IsDigit(p[d]))
  }

  lemma MatchAtSound(p: string, i: nat) returns (k: nat, d: nat)
    requires i <= |p| && MatchAt(p, i).Some?
    ensures MatchSpan(p, i, k, d)
    ensures MatchAt(p, i) == Some(DigitsValue(p[k + 1..d]))
  {
    k := IndexFrom(p, '/', i + |GamesPrefix|);
    d := DigitRunEnd(p, k + 1);
    assert p[i..][..|GamesPrefix|] == p[i..i + |GamesPrefix|];
  }

  lemma MatchAtComplete(p: string, i: nat, k: nat, d: nat)
    requires MatchSpan(p, i, k, d)
    ensures MatchAt(p, i) == Some(DigitsValue(p[k + 1..d]))
  {
    assert p[i..][..|GamesPrefix|] == p[i..i + |GamesPrefix|];
    assert IndexFrom(p, '/', i + |GamesPrefix|) == k;
    assert DigitRunEnd(p, k + 1) == d;
  }

  /** The regular expression has a match at position `i` exactly when `MatchSpan` holds there. */
  lemma MatchAtIff(p: string, i: nat)
    requires i <= |p|
    ensures MatchAt(p, i).Some? <==> exists k: nat, d: nat :: MatchSpan(p, i, k, d)
  {
    if MatchAt(p, i).Some? {
      var k, d := MatchAtSound(p, i);
    } else if exists k: nat, d: nat :: MatchSpan(p, i, k, d) {
      var k: nat, d: nat :| MatchSpan(p, i, k, d);
      MatchAtComplete(p, i, k, d);
    }
  }

  lemma {:induction false} SearchFromIsLeftmost(p: string, i: nat, n: nat)
    requires i <= |p|
    ensures SearchFrom(p, i) == Some(n) <==>
      exists j :: i <= j <= |p| && MatchAt(p, j) == Some(n) && forall m :: i <= m < j ==> MatchAt(p, m) == None
    decreases |p| - i
  {
    if i < |p| && MatchAt(p, i).None? {
      SearchFromIsLeftmost(p, i + 1, n);
      if SearchFrom(p, i) == Some(n) {
        var j :| i + 1 <= j <= |p| && MatchAt(p, j) == Some(n) && forall m :: i + 1 <= m < j ==> MatchAt(p, m) == None;
        assert forall m :: i <= m < j ==> MatchAt(p, m) == None;
      }
    } else {
      if SearchFrom(p, i) == Some(n) {
        assert MatchAt(p, i) == Some(n);
      }
    }
  }

  /** `re.search` finds the leftmost position where the expression matches. */
  lemma SearchGameIdIsLeftmost(p: string, n: nat)
    ensures SearchGameId(p) == Some(n) <==>
      exists j :: 0 <= j <= |p| && MatchAt(p, j) == Some(n) && forall m :: 0 <= m < j ==> MatchAt(p, m) == None
  {
    SearchFromIsLeftmost(p, 0, n);
  }

  // ---------------------------------------------------------------------------
  // extract_game_id_from_url

  /** The game id named by a URL, or None. */
  function ExtractGameId(u: Url): Option<nat> {
    if !HostAccepted(u) then None
    else
      var segments := PathSegments(u.path);
      if GamePathShape(segments) then
        if IsDigitString(Last(segments)) then Some(DigitsValue(Last(segments)))
        else SearchGameId(u.path)
      else None
  }

  /**
   * Every outcome of the extraction: an id comes only from an accepted host
   * and a `games/<slug>/...` path, and it is the value of an all-digit last
   * segment, or else the digits the regular expression finds first.
   */
  lemma ExtractGameIdCases(u: Url, n: nat)
    ensures ExtractGameId(u) == Some(n) <==>
      && HostAccepted(u)
      && GamePathShape(PathSegments(u.path))
      && (if IsDigitString(Last(PathSegments(u.path))) then n == DigitsValue(Last(PathSegments(u.path)))
          else exists j :: 0 <= j <= |u.path| && MatchAt(u.path, j) == Some(n)
                 && forall m :: 0 <= m < j ==> MatchAt(u.path, m) == None)
  {
    SearchGameIdIsLeftmost(u.path, n);
  }

  lemma NoSlashInDigits(digits: string)
    requires AllDigits(digits)
    ensures '/' !in digits
  {
  }

  /** Stripping slashes from `/games/<slug>/<digits>` removes only the leading one. */
  lemma {:induction false} StripGamePath(rest: string, digits: string)
    requires IsDigitString(digits)
    ensures Strip(GamesPrefix + rest + digits, '/') == "games/" + rest + digits
  {
    var body := "games/" + rest + digits;
    var path := GamesPrefix + rest + digits;
    assert path == ['/'] + body;
    assert path[0] == '/' && path[1..] == body;
    assert body[0] == 'g';
    assert TrimStart(body, '/') == body;
    assert TrimStart(path, '/') == body;
    assert body[|body| - 1] == digits[|digits| - 1];
    assert TrimEnd(body, '/') == body;
  }

  /** The segments of `/games/<slug>/<digits>` are exactly `games`, the slug and the digits. */
  lemma {:induction false} GamePathSegments(slug: string, digits: string)
    requires '/' !in slug && IsDigitString(digits)
    ensures PathSegments(GamesPrefix + slug + "/" + digits) == ["games", slug, digits]
  {
    var rest := slug + "/";
    assert GamesPrefix + slug + "/" + digits == GamesPrefix + rest + digits;
    StripGamePath(rest, digits);
    var tail := slug + ['/'] + digits;
    assert "games/" + rest + digits == "games" + ['/'] + tail;
    NoSlashInDigits(digits);
    SplitAtSeparator("games", tail, '/');
    SplitAtSeparator(slug, digits, '/');
    SplitWithoutSeparator(digits, '/');
  }

  /**
   * A page address `/games/<slug>/<n>` on an accepted host resolves to `n`,
   * whatever the query.
   */
  lemma GameUrlResolves(scheme: string, netloc: string, slug: string, n: nat, query: string)
    requires EndsWith(netloc, ServiceHost)
    requires '/' !in slug
    ensures ExtractGameId(Url(scheme, netloc, GamesPrefix + slug + "/" + DecimalString(n), query)) == Some(n)
  {
    GamePathSegments(slug, DecimalString(n));
    DigitsValueOfDecimal(n);
  }

  /** A host that merely ends in `gamejolt.com` is accepted. */
  lemma LookalikeHostAccepted(n: nat)
    ensures ExtractGameId(Url("https", "evilgamejolt.com", "/games/slug/" + DecimalString(n), "")) == Some(n)
  {
    assert GamesPrefix + "slug" + "/" + DecimalString(n) == "/games/slug/" + DecimalString(n);
    assert "evilgamejolt.com"[|"evilgamejolt.com"| - |ServiceHost|..] == ServiceHost;
    GameUrlResolves("https", "evilgamejolt.com", "slug", n, "");
  }

  /**
   * When the last segment is not all digits, the digits right after
   * `/games/<slug>/` at the start of the path are the id.
   */
  lemma {:induction false} LeadingMatchResolves(u: Url, k: nat, d: nat)
    requires HostAccepted(u) && GamePathShape(PathSegments(u.path))
    requires !IsDigitString(Last(PathSegments(u.path)))
    requires MatchSpan(u.path, 0, k, d)
    ensures ExtractGameId(u) == Some(DigitsValue(u.path[k + 1..d]))
  {
    MatchAtComplete(u.path, 0, k, d);
  }
}
