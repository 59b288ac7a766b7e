/** The path-segment part of `parseGitHubUrl` (App.tsx): the owner and the
    repository name are the first two non-empty `/`-separated segments of the
    URL's path, on host `github.com` only. The host and the path are the
    values `new URL(url)` would report; that parser is not part of this model. */
module RepoUrl {
  import opened Wrappers
  import opened Strings

  /** `{ owner, repo }`: both present or both `null`. */
  datatype RepoRef = RepoRef(owner: Option<string>, repo: Option<string>)

  const NoRepo: RepoRef := RepoRef(None, None)

  /** `parts.filter(part => part.length > 0)`. */
  function NonEmptyParts(parts: seq<string>): (r: seq<string>)
    ensures |r| <= |parts|
    ensures forall k :: 0 <= k < |r| ==> r[k] != ""
    ensures forall p :: p in r ==> p in parts
    ensures forall p :: p in parts && p != "" ==> p in r
    ensures |parts| == 1 ==> r == (if parts[0] != "" then parts else [])
  {
    if parts == [] then []
    else (if parts[0] != "" then [parts[0]] else []) + NonEmptyParts(parts[1..])
  }

  /** The filter works piece by piece: with the one-piece case above, this
      fixes the order and the multiplicity of the segments it keeps. */
  lemma {:induction false} NonEmptyPartsAppend(a: seq<string>, b: seq<string>)
    ensures NonEmptyParts(a + b) == NonEmptyParts(a) + NonEmptyParts(b)
  {
    if a == [] {
      assert a + b == b;
    } else {
      assert (a + b)[0] == a[0];
      assert (a + b)[1..] == a[1..] + b;
      NonEmptyPartsAppend(a[1..], b);
    }
  }

  /** The first kept segment is the first non-empty piece. */
  lemma {:induction false} FirstNonEmpty(parts: seq<string>)
    requires |NonEmptyParts(parts)| >= 1
    ensures exists i :: 0 <= i < |parts| && parts[i] == NonEmptyParts(parts)[0]
                        && forall k :: 0 <= k < i ==> parts[k] == ""
  {
    if parts[0] == "" {
      FirstNonEmpty(parts[1..]);
      var i :| 0 <= i < |parts[1..]| && parts[1..][i] == NonEmptyParts(parts[1..])[0]
               && forall k :: 0 <= k < i ==> parts[1..][k] == "";
      assert parts[i + 1] == NonEmptyParts(parts)[0];
      assert forall k :: 0 <= k < i + 1 ==> parts[k] == "" by {
        forall k | 0 < k < i + 1 ensures parts[k] == "" { assert parts[k] == parts[1..][k - 1]; }
      }
    } else {
      assert parts[0] == NonEmptyParts(parts)[0];
    }
  }

  /** The first two kept segments are the first two non-empty pieces, with
      only empty pieces before the second one besides the first. */
  lemma {:induction false} FirstTwoNonEmpty(parts: seq<string>)
    requires |NonEmptyParts(parts)| >= 2
    ensures exists i, j :: 0 <= i < j < |parts| && parts[i] == NonEmptyParts(parts)[0]
                           && parts[j] == NonEmptyParts(parts)[1]
                           && forall k :: 0 <= k < j && k != i ==> parts[k] == ""
  {
    var t := parts[1..];
    if parts[0] == "" {
      FirstTwoNonEmpty(t);
      var i, j :| 0 <= i < j < |t| && t[i] == NonEmptyParts(t)[0] && t[j] == NonEmptyParts(t)[1]
                  && forall k :: 0 <= k < j && k != i ==> t[k] == "";
      assert parts[i + 1] == t[i] && parts[j + 1] == t[j];
      forall k | 0 <= k < j + 1 && k != i + 1 ensures parts[k] == "" {
        if k > 0 { assert parts[k] == t[k - 1]; }
      }
    } else {
      assert NonEmptyParts(parts) == [parts[0]] + NonEmptyParts(t);
      FirstNonEmpty(t);
      var j :| 0 <= j < |t| && t[j] == NonEmptyParts(t)[0] && forall k :: 0 <= k < j ==> t[k] == "";
      assert parts[j + 1] == NonEmptyParts(parts)[1];
      forall k | 0 <= k < j + 1 && k != 0 ensures parts[k] == "" { assert parts[k] == t[k - 1]; }
    }
  }

  function PathSegments(pathname: string): seq<string> {
    NonEmptyParts(Split(pathname, '/'))
  }

  /** `s.replace(p, r)` with a string pattern: only the first occurrence is replaced. */
  function ReplaceFirst(s: string, p: string, r: string): (t: string)
    ensures IndexOf(s, p).None? ==> t == s
  {
    match IndexOf(s, p)
    case None => s
    case Some(i) => s[..i] + r + s[i + |p|..]
  }

  /** The repository name without a trailing `.git`. */
  function StripGitSuffix(s: string): (r: string)
    ensures |s| >= 4 && s[|s| - 4..] == ".git" ==> r + ".git" == s
    ensures !(|s| >= 4 && s[|s| - 4..] == ".git") ==> r == s
  {
    if |s| >= 4 && s[|s| - 4..] == ".git" then s[..|s| - 4] else s
  }

  /** The segment rule as written: `pathParts[1].replace('.git', '')`, which
      removes the first `.git` wherever it stands in the name. */
  function ParseGitHubUrlAsWritten(hostname: string, pathname: string): (r: RepoRef)
    ensures r.owner.Some? <==> r.repo.Some?
    ensures hostname != "github.com" || |PathSegments(pathname)| < 2 ==> r == NoRepo
    ensures hostname == "github.com" && |PathSegments(pathname)| >= 2 ==>
              var parts := PathSegments(pathname);
              r == RepoRef(Some(parts[0]), Some(ReplaceFirst(parts[1], ".git", "")))
  {
    if hostname != "github.com" then NoRepo
    else
      var parts := PathSegments(pathname);
      if |parts| >= 2 then RepoRef(Some(parts[0]), Some(ReplaceFirst(parts[1], ".git", ""))) else NoRepo
  }

  /** The segment rule with only a trailing `.git` removed. */
  function ParseGitHubUrl(hostname: string, pathname: string): (r: RepoRef)
    ensures r.owner.Some? <==> r.repo.Some?
    ensures hostname != "github.com" || |PathSegments(pathname)| < 2 ==> r == NoRepo
    ensures hostname == "github.com" && |PathSegments(pathname)| >= 2 ==>
              var parts := PathSegments(pathname);
              r == RepoRef(Some(parts[0]), Some(StripGitSuffix(parts[1])))
  {
    if hostname != "github.com" then NoRepo
    else
      var parts := PathSegments(pathname);
      if |parts| >= 2 then RepoRef(Some(parts[0]), Some(StripGitSuffix(parts[1]))) else NoRepo
  }

  /** The repository `handleFetchRepo` goes on to fetch: none when the owner
      or the name is missing or empty (`if (!owner || !repo) throw`). */
  function FetchRequest(hostname: string, pathname: string): (r: Option<RepoRef>)
    ensures r.Some? <==> var ref := ParseGitHubUrl(hostname, pathname);
                         ref.owner.Some? && ref.owner.value != "" && ref.repo.value != ""
    ensures r.Some? ==> r.value == ParseGitHubUrl(hostname, pathname)
  {
    var ref := ParseGitHubUrl(hostname, pathname);
    if ref.owner.Some? && ref.owner.value != "" && ref.repo.value != "" then Some(ref) else None
  }

  /** The owner is the first non-empty piece of the path and the repository
    name, before its suffix is removed, the second; every other piece before
    the name is empty, and neither value contains '/'. */
  lemma SegmentsAreWhole(hostname: string, pathname: string)
    ensures var r := ParseGitHubUrl(hostname, pathname);
            r.owner.Some? ==>
              hostname == "github.com" && r.owner.value != "" && '/' !in r.owner.value && '/' !in r.repo.value
    ensures ParseGitHubUrl(hostname, pathname).owner.Some? ==>
              exists i, j :: 0 <= i < j < |Split(pathname, '/')|
                             && Split(pathname, '/')[i] == ParseGitHubUrl(hostname, pathname).owner.value
                             && Split(pathname, '/')[j] != ""
                             && StripGitSuffix(Split(pathname, '/')[j]) == ParseGitHubUrl(hostname, pathname).repo.value
                             && forall k :: 0 <= k < j && k != i ==> Split(pathname, '/')[k] == ""
  {
    var pieces := Split(pathname, '/');
    var parts := PathSegments(pathname);
    if hostname == "github.com" && |parts| >= 2 {
      FirstTwoNonEmpty(pieces);
      var i, j :| 0 <= i < j < |pieces| && pieces[i] == parts[0] && pieces[j] == parts[1]
                  && forall k :: 0 <= k < j && k != i ==> pieces[k] == "";
      assert parts[1] != "";
      assert '/' !in parts[0] && '/' !in parts[1];
    }
  }

  /** Removing the suffix of `name + ".git"` gives back `name`. */
  lemma StripGitSuffixAppended(name: string)
    ensures StripGitSuffix(name + ".git") == name
  {
    var s := name + ".git";
    assert s[|s| - 4..] == ".git";
    assert s[..|s| - 4] == name;
  }

  /** The pieces of `/owner/x`: an empty piece, the owner, then the pieces of `x`. */
  lemma SplitOwnerPath(owner: string, x: string)
    requires '/' !in owner
    ensures Split("/" + owner + "/" + x, '/') == ["", owner] + Split(x, '/')
  {
    var p := "/" + owner + "/" + x;
    assert p == [] + ['/'] + (owner + ['/'] + x);
    SplitCons([], '/', owner + ['/'] + x);
    SplitCons(owner, '/', x);
  }

  /** The first piece of `repo + rest`, where `rest` is empty or starts a new segment. */
  lemma SplitRepoHead(repo: string, rest: string)
    requires '/' !in repo
    requires rest == "" || rest[0] == '/'
    ensures Split(repo + rest, '/')[0] == repo
  {
    if rest == "" {
      assert repo + rest == repo;
      SplitNone(repo, '/');
    } else {
      assert repo + rest == repo + ['/'] + rest[1..];
      SplitCons(repo, '/', rest[1..]);
    }
  }

  lemma NonEmptyPartsCons(a: string, t: seq<string>)
    ensures NonEmptyParts([a] + t) == (if a != "" then [a] else []) + NonEmptyParts(t)
  {
    assert ([a] + t)[1..] == t;
  }

  /** The segments of `/owner/repo` followed by nothing or by more path start
      with the owner and the repository. */
  lemma CanonicalSegments(owner: string, repo: string, rest: string)
    requires owner != "" && repo != "" && '/' !in owner && '/' !in repo
    requires rest == "" || rest[0] == '/'
    ensures var parts := PathSegments("/" + owner + "/" + repo + rest);
            |parts| >= 2 && parts[0] == owner && parts[1] == repo
  {
    var tail := Split(repo + rest, '/');
    SplitRepoHead(repo, rest);
    assert "/" + owner + "/" + repo + rest == "/" + owner + "/" + (repo + rest);
    SplitOwnerPath(owner, repo + rest);
    assert ["", owner] + tail == [""] + ([owner] + tail);
    NonEmptyPartsCons("", [owner] + tail);
    NonEmptyPartsCons(owner, tail);
    assert tail == [repo] + tail[1..];
    NonEmptyPartsCons(repo, tail[1..]);
  }

  /** The path of a canonical repository URL, `/owner/repo` followed by nothing
      or by more path, gives that owner and that repository. */
  lemma CanonicalPath(owner: string, repo: string, rest: string)
    requires owner != "" && repo != "" && '/' !in owner && '/' !in repo
    requires rest == "" || rest[0] == '/'
    ensures ParseGitHubUrl("github.com", "/" + owner + "/" + repo + rest)
            == RepoRef(Some(owner), Some(StripGitSuffix(repo)))
  {
    CanonicalSegments(owner, repo, rest);
  }

  /** A path with fewer than two non-empty segments names no repository. */
  lemma TooFewSegments(hostname: string, pathname: string)
    requires |PathSegments(pathname)| < 2
    ensures ParseGitHubUrl(hostname, pathname) == NoRepo
  {
  }

  /** Where the name holds `.git` only as its suffix, or not at all, the rule
      as written and the corrected rule agree. */
  lemma AgreeWithoutInnerGit(hostname: string, pathname: string)
    requires var parts := PathSegments(pathname);
             |parts| >= 2 ==> IndexOf(parts[1], ".git").None?
                              || (|parts[1]| >= 4 && IndexOf(parts[1], ".git") == Some(|parts[1]| - 4))
    ensures ParseGitHubUrlAsWritten(hostname, pathname) == ParseGitHubUrl(hostname, pathname)
  {
    var parts := PathSegments(pathname);
    if hostname == "github.com" && |parts| >= 2 {
      var s := parts[1];
      if IndexOf(s, ".git").None? {
        assert !OccursAt(s, ".git", |s| - 4);
      } else {
        assert OccursAt(s, ".git", |s| - 4);
        assert s[|s| - 4..] == ".git";
        assert ReplaceFirst(s, ".git", "") == s[..|s| - 4] + "" + s[|s|..];
        assert s[..|s| - 4] + "" + s[|s|..] == s[..|s| - 4];
      }
    }
  }

  lemma PagesNameReplaced()
    ensures StripGitSuffix("alice.github.io") == "alice.github.io"
    ensures ReplaceFirst("alice.github.io", ".git", "") == "alicehub.io"
  {
    var s := "alice.github.io";
    forall j | 0 <= j < 5
      ensures !OccursAt(s, ".git", j)
    {
      assert s[j..j + 4][0] == s[j] != '.';
    }
    assert OccursAt(s, ".git", 5);
    assert IndexOf(s, ".git") == Some(5);
  }

  /** A GitHub Pages repository, `alice/alice.github.io`: the rule as written
      turns its name into `alicehub.io`; the corrected rule keeps it. */
  lemma PagesRepositoryName()
    ensures ParseGitHubUrlAsWritten("github.com", "/alice/alice.github.io")
            == RepoRef(Some("alice"), Some("alicehub.io"))
    ensures ParseGitHubUrl("github.com", "/alice/alice.github.io")
            == RepoRef(Some("alice"), Some("alice.github.io"))
  {
    assert "/alice/alice.github.io" == "/" + "alice" + "/" + "alice.github.io" + "";
    CanonicalSegments("alice", "alice.github.io", "");
    PagesNameReplaced();
  }
}
