/** The shape test the push subscriber applies to `repository.url`: the
    pattern `https?://([^/]+)/([^/]+)/([^/]+)` used with `Matcher.matches()`,
    which succeeds only when the pattern covers the whole string. */
module RepositoryUrl {
  import opened JavaText

  /** What a successful match determines: the scheme (`https` or `http`) and
      the three groups, host, owner and repository name. */
  datatype UrlParts = UrlParts(secure: bool, host: string, owner: string, name: string)

  /** What `[^/]+` accepts: a non-empty run of characters other than `/`. */
  predicate IsSegment(s: string)
  {
    |s| > 0 && '/' !in s
  }

  predicate ValidParts(p: UrlParts)
  {
    IsSegment(p.host) && IsSegment(p.owner) && IsSegment(p.name)
  }

  function Scheme(secure: bool): string
  {
    if secure then "https" else "http"
  }

  /** The URL a match describes: the pattern with its groups filled in. */
  function Format(p: UrlParts): string
  {
    Scheme(p.secure) + "://" + p.host + "/" + p.owner + "/" + p.name
  }

  /** The pieces of `s` between slashes, empty pieces included. */
  function Split(s: string): (pieces: seq<string>)
    ensures |pieces| >= 1
    ensures forall i :: 0 <= i < |pieces| ==> '/' !in pieces[i]
  {
    if s == [] then [[]]
    else
      var rest := Split(s[1..]);
      if s[0] == '/' then [[]] + rest
      else [[s[0]] + rest[0]] + rest[1..]
  }

  /** The pieces glued back together with slashes. */
  function Join(pieces: seq<string>): string
    requires |pieces| >= 1
  {
    if |pieces| == 1 then pieces[0] else pieces[0] + "/" + Join(pieces[1..])
  }

  lemma {:induction false} JoinSplit(s: string)
    ensures Join(Split(s)) == s
  {
    if s != [] {
      var rest := Split(s[1..]);
      JoinSplit(s[1..]);
      if s[0] == '/' {
        assert ([[]] + rest)[1..] == rest;
      } else if |rest| > 1 {
        var pieces := [[s[0]] + rest[0]] + rest[1..];
        assert pieces[1..] == rest[1..];
        assert Join(rest) == rest[0] + "/" + Join(rest[1..]);
      }
    }
  }

  lemma {:induction false} SplitSegment(a: string)
    requires '/' !in a
    ensures Split(a) == [a]
  {
    if a != [] {
      SplitSegment(a[1..]);
      assert [a[0]] + a[1..] == a;
    }
  }

  lemma {:induction false} SplitAfterSegment(a: string, rest: string)
    requires '/' !in a
    ensures Split(a + "/" + rest) == [a] + Split(rest)
  {
    var s := a + "/" + rest;
    if a == [] {
      assert s[1..] == rest;
    } else {
      assert s[1..] == a[1..] + "/" + rest;
      SplitAfterSegment(a[1..], rest);
      assert [a[0]] + a[1..] == a;
    }
  }

  lemma {:induction false} SplitJoin(pieces: seq<string>)
    requires |pieces| >= 1
    requires forall i :: 0 <= i < |pieces| ==> '/' !in pieces[i]
    ensures Split(Join(pieces)) == pieces
  {
    if |pieces| == 1 {
      SplitSegment(pieces[0]);
    } else {
      SplitJoin(pieces[1..]);
      SplitAfterSegment(pieces[0], Join(pieces[1..]));
      assert [pieces[0]] + pieces[1..] == pieces;
    }
  }

  /** `REPOSITORY_NAME_PATTERN.matcher(url).matches()` together with its groups. */
  function Match(url: string): (r: Option<UrlParts>)
    ensures r.Some? ==> ValidParts(r.value)
  {
    if StartsWith(url, "https://") then MatchAfterScheme(true, url[8..])
    else if StartsWith(url, "http://") then MatchAfterScheme(false, url[7..])
    else None
  }

  /** The part of the pattern after `://`: exactly three non-empty pieces. */
  function MatchAfterScheme(secure: bool, rest: string): Option<UrlParts>
  {
    var pieces := Split(rest);
    if |pieces| == 3 && pieces[0] != [] && pieces[1] != [] && pieces[2] != [] then
      Some(UrlParts(secure, pieces[0], pieces[1], pieces[2]))
    else None
  }

  predicate Matches(url: string)
  {
    Match(url).Some?
  }

  lemma FormatAfterScheme(p: UrlParts)
    ensures Format(p) == Scheme(p.secure) + "://" + Join([p.host, p.owner, p.name])
  {
    var pieces := [p.host, p.owner, p.name];
    assert pieces[1..] == [p.owner, p.name];
    assert [p.owner, p.name][1..] == [p.name];
    assert Join([p.owner, p.name]) == p.owner + "/" + p.name;
    assert Join(pieces) == p.host + "/" + (p.owner + "/" + p.name);
  }

  /** `url` after its scheme, when it starts with `http://` or `https://`. */
  lemma SchemePrefix(secure: bool, rest: string)
    ensures var url := Scheme(secure) + "://" + rest;
            StartsWith(url, "https://") == secure
            && (secure ==> url[8..] == rest)
            && (!secure ==> StartsWith(url, "http://") && url[7..] == rest)
  {
    var url := Scheme(secure) + "://" + rest;
    if !secure {
      assert url[4] == ':';
    }
  }

  /** Every URL of the shape `http(s)://host/owner/name`, with slash-free,
      non-empty pieces, matches, and the groups give back its pieces. */
  lemma MatchFormat(p: UrlParts)
    requires ValidParts(p)
    ensures Match(Format(p)) == Some(p)
  {
    var rest := Join([p.host, p.owner, p.name]);
    FormatAfterScheme(p);
    SchemePrefix(p.secure, rest);
    SplitJoin([p.host, p.owner, p.name]);
  }

  /** Every URL that matches is exactly the pattern filled with its groups,
      and the groups are non-empty and slash-free. */
  lemma FormatMatch(url: string)
    requires Matches(url)
    ensures ValidParts(Match(url).value)
    ensures Format(Match(url).value) == url
  {
    var p := Match(url).value;
    var n := if StartsWith(url, "https://") then 8 else 7;
    var rest := url[n..];
    assert Match(url) == MatchAfterScheme(n == 8, rest);
    assert p.secure == (n == 8);
    var pieces := Split(rest);
    assert pieces == [p.host, p.owner, p.name];
    assert '/' !in pieces[0] && '/' !in pieces[1] && '/' !in pieces[2];
    JoinSplit(rest);
    FormatAfterScheme(p);
    assert url[..n] == Scheme(p.secure) + "://";
    assert url == url[..n] + rest;
  }

  /** A URL of the right shape followed by a slash and anything else, be it
      nothing (a trailing slash) or a fourth segment, does not match. */
  lemma ExtraSegmentRejected(p: UrlParts, extra: string)
    requires ValidParts(p)
    ensures !Matches(Format(p) + "/" + extra)
  {
    var tail := p.name + "/" + extra;
    var middle := p.owner + "/" + tail;
    var rest := p.host + "/" + middle;
    SplitAfterSegment(p.name, extra);
    SplitAfterSegment(p.owner, tail);
    SplitAfterSegment(p.host, middle);
    assert |Split(rest)| >= 4;
    FormatExtended(p, extra);
    SchemePrefix(p.secure, rest);
  }

  /** `Format(p)` followed by `/extra`, regrouped after the scheme. */
  lemma FormatExtended(p: UrlParts, extra: string)
    ensures Format(p) + "/" + extra
            == Scheme(p.secure) + "://" + (p.host + "/" + (p.owner + "/" + (p.name + "/" + extra)))
  {
  }

  /** Only the `http` and `https` schemes can match. */
  lemma OtherSchemeRejected(url: string)
    requires !StartsWith(url, "http://") && !StartsWith(url, "https://")
    ensures !Matches(url)
  {
  }

  /** A typical delivery URL matches, with its host, owner and name as groups. */
  lemma GitHubUrlMatches()
    ensures Match("https://github.com/acme/widgets") == Some(UrlParts(true, "github.com", "acme", "widgets"))
  {
    var p := UrlParts(true, "github.com", "acme", "widgets");
    MatchFormat(p);
    GitHubUrlFormat();
  }

  /** The delivery URL of `GitHubUrlMatches`, spelled as the pattern's groups. */
  lemma GitHubUrlFormat()
    ensures Format(UrlParts(true, "github.com", "acme", "widgets")) == "https://github.com/acme/widgets"
  {
    assert Scheme(true) + "://" == "https://";
    assert "https://" + "github.com" == "https://github.com";
    assert "https://github.com" + "/" + "acme" == "https://github.com/acme";
    assert "https://github.com/acme" + "/" + "widgets" == "https://github.com/acme/widgets";
  }

  /** A `.git` suffix is not stripped by the pattern: it stays part of the
      name group. */
  lemma GitSuffixKeptInName()
    ensures Match("https://github.com/acme/widgets.git") == Some(UrlParts(true, "github.com", "acme", "widgets.git"))
  {
    var p := UrlParts(true, "github.com", "acme", "widgets.git");
    MatchFormat(p);
    GitSuffixUrlFormat();
  }

  /** The `.git` URL of `GitSuffixKeptInName`, spelled as the pattern's groups. */
  lemma GitSuffixUrlFormat()
    ensures Format(UrlParts(true, "github.com", "acme", "widgets.git")) == "https://github.com/acme/widgets.git"
  {
    assert Scheme(true) + "://" == "https://";
    assert "https://" + "github.com" == "https://github.com";
    assert "https://github.com" + "/" + "acme" == "https://github.com/acme";
    assert "https://github.com/acme" + "/" + "widgets.git" == "https://github.com/acme/widgets.git";
  }

  /** A URL without a scheme does not match. */
  lemma SchemelessUrlRejected()
    ensures !Matches("not-a-url")
  {
    var url := "not-a-url";
    assert !StartsWith(url, "http://") by { assert url[0] != 'h'; }
    assert !StartsWith(url, "https://") by { assert url[0] != 'h'; }
    OtherSchemeRejected(url);
  }
}
