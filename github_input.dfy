/** The submit handler of the repository form (components/GithubInput.tsx):
    a blank field is refused, then the text must be the address of a GitHub
    repository, and only then is it handed to `onFetch`, unchanged. */
module GithubInput {
  import opened Wrappers
  import opened Strings

  /** A character of `[a-zA-Z0-9_-]`, the owner's alphabet. */
  predicate OwnerChar(c: char) {
    'a' <= c <= 'z' || 'A' <= c <= 'Z' || '0' <= c <= '9' || c == '_' || c == '-'
  }

  /** A character of `[a-zA-Z0-9_.-]`, the repository's alphabet. */
  predicate RepoChar(c: char) {
    OwnerChar(c) || c == '.'
  }

  predicate OwnerName(s: string) {
    |s| > 0 && forall i :: 0 <= i < |s| ==> OwnerChar(s[i])
  }

  predicate RepoName(s: string) {
    |s| > 0 && forall i :: 0 <= i < |s| ==> RepoChar(s[i])
  }

  const Host: string := "://github.com/"

  /** `url` is spelled by the pattern's pieces: a scheme, the host, an
      owner, a slash, a repository and an optional final slash. */
  predicate Spells(url: string, scheme: string, owner: string, repo: string, slash: string) {
    (scheme == "https" || scheme == "http") && OwnerName(owner) && RepoName(repo)
    && (slash == "" || slash == "/")
    && url == scheme + Host + Path(owner, repo, slash)
  }

  /** The part of the address after the host. */
  function Path(owner: string, repo: string, slash: string): string {
    owner + "/" + (repo + slash)
  }

  /** The language of
      `/^(https|http):\/\/github\.com\/[a-zA-Z0-9_-]+\/[a-zA-Z0-9_.-]+(\/)?$/`:
      both anchors hold, so a match is a spelling of the whole text. */
  ghost predicate InPattern(url: string) {
    exists scheme, owner, repo, slash :: Spells(url, scheme, owner, repo, slash)
  }

  /** The text after `https://github.com/` or `http://github.com/`. */
  function AfterHost(url: string): Option<string> {
    if |url| >= 19 && url[..19] == "https" + Host then Some(url[19..])
    else if |url| >= 18 && url[..18] == "http" + Host then Some(url[18..])
    else None
  }

  /** The repository part with its optional final slash taken off. */
  function DropSlash(t: string): string {
    if |t| > 0 && t[|t| - 1] == '/' then t[..|t| - 1] else t
  }

  /** The pattern's test, read left to right: the owner is everything up to
      the first slash after the host, since the owner's alphabet has none. */
  predicate MatchesPattern(url: string) {
    match AfterHost(url)
    case None => false
    case Some(rest) =>
      match IndexOf(rest, "/")
      case None => false
      case Some(i) => OwnerName(rest[..i]) && RepoName(DropSlash(rest[i + 1..]))
  }

  /** The host test reads the scheme off and leaves the rest of the text. */
  lemma HostRead(scheme: string, rest: string)
    requires scheme == "https" || scheme == "http"
    ensures AfterHost(scheme + Host + rest) == Some(rest)
  {
    var url := scheme + Host + rest;
    if scheme == "https" {
      assert url[..19] == "https" + Host;
      assert url[19..] == rest;
    } else {
      assert url[..18] == "http" + Host;
      assert url[18..] == rest;
      assert url[4] == ':';
    }
  }

  /** Every text the host test accepts is one of the two schemes and the host. */
  lemma HostSpelled(url: string)
    requires AfterHost(url).Some?
    ensures exists scheme :: (scheme == "https" || scheme == "http") && url == scheme + Host + AfterHost(url).value
  {
    var scheme := if |url| >= 19 && url[..19] == "https" + Host then "https" else "http";
    assert url == scheme + Host + AfterHost(url).value;
  }

  /** The first slash after a name from the owner's alphabet ends the owner. */
  lemma OwnerRead(owner: string, tail: string)
    requires OwnerName(owner)
    ensures var rest := owner + "/" + tail;
            IndexOf(rest, "/") == Some(|owner|) && rest[..|owner|] == owner && rest[|owner| + 1..] == tail
  {
    var rest := owner + "/" + tail;
    assert rest[..|owner|] == owner;
    IndexOfCharAt(rest, '/', |owner|);
  }

  /** A repository name and an optional final slash are told apart. */
  lemma SlashRead(repo: string, slash: string)
    requires RepoName(repo) && (slash == "" || slash == "/")
    ensures DropSlash(repo + slash) == repo
  {
    if slash == "" {
      assert repo + slash == repo;
      assert RepoChar(repo[|repo| - 1]);
    } else {
      assert (repo + slash)[..|repo|] == repo;
    }
  }

  /** The repository part is a name followed by what `DropSlash` took off. */
  lemma SlashSplit(tail: string)
    ensures var repo := DropSlash(tail);
            |repo| <= |tail| && tail == repo + tail[|repo|..] && (tail[|repo|..] == "" || tail[|repo|..] == "/")
  {
    var repo := DropSlash(tail);
    if |tail| > 0 && tail[|tail| - 1] == '/' {
      assert tail[|repo|..] == "/";
    } else {
      assert tail[|repo|..] == "";
    }
  }

  /** The text around a slash. */
  lemma AroundSlash(rest: string, i: nat)
    requires OccursAt(rest, "/", i)
    ensures rest == rest[..i] + "/" + rest[i + 1..]
  {
    assert rest[i..i + 1] == "/";
  }

  /** What the left-to-right test accepts is in the pattern's language. */
  lemma PatternSound(url: string)
    requires MatchesPattern(url)
    ensures InPattern(url)
  {
    var rest := AfterHost(url).value;
    var i := IndexOf(rest, "/").value;
    var owner, tail := rest[..i], rest[i + 1..];
    var repo := DropSlash(tail);
    SlashSplit(tail);
    AroundSlash(rest, i);
    HostSpelled(url);
    var scheme :| (scheme == "https" || scheme == "http") && url == scheme + Host + rest;
    assert Spells(url, scheme, owner, repo, tail[|repo|..]);
  }

  /** Everything in the pattern's language passes the left-to-right test. */
  lemma PatternComplete(url: string, scheme: string, owner: string, repo: string, slash: string)
    requires Spells(url, scheme, owner, repo, slash)
    ensures MatchesPattern(url)
  {
    var rest := Path(owner, repo, slash);
    HostRead(scheme, rest);
    OwnerRead(owner, repo + slash);
    SlashRead(repo, slash);
  }

  /** The left-to-right test accepts exactly the pattern's language. */
  lemma PatternTest(url: string)
    ensures MatchesPattern(url) <==> InPattern(url)
  {
    if MatchesPattern(url) {
      PatternSound(url);
    }
    if InPattern(url) {
      var scheme, owner, repo, slash :| Spells(url, scheme, owner, repo, slash);
      PatternComplete(url, scheme, owner, repo, slash);
    }
  }

  const BlankError: string := "Please enter a GitHub " + "repository URL."
  const InvalidError: string := "Invalid GitHub URL. Example: " + "https://github.com/owner/repo"

  /** What a submit leaves behind: the error shown under the field, and the
      texts handed to `onFetch`, in order. */
  datatype Submitted = Submitted(error: Option<string>, fetched: seq<string>)

  /** `handleSubmit`: the error shown before, `shown`, is cleared first; a
      blank field and a text outside the pattern each set their error, and
      otherwise `onFetch` is called once with the text as typed. */
  function HandleSubmit(shown: Option<string>, url: string): (r: Submitted)
    ensures r.fetched == [] || r.fetched == [url]
    ensures r.fetched == [url] <==> Trim(url) != "" && InPattern(url)
    ensures r.error.None? <==> r.fetched == [url]
    ensures Trim(url) == "" ==> r.error == Some(BlankError)
    ensures Trim(url) != "" && !InPattern(url) ==> r.error == Some(InvalidError)
  {
    PatternTest(url);
    var cleared := Submitted(None, []);
    if Trim(url) == "" then cleared.(error := Some(BlankError))
    else if !MatchesPattern(url) then cleared.(error := Some(InvalidError))
    else cleared.(fetched := [url])
  }

  /** Text that starts with a visible character is not blank. */
  lemma {:induction false} NotBlank(s: string)
    requires |s| > 0 && !IsSpace(s[0])
    ensures Trim(s) != ""
  {
    assert TrimStart(s) == s;
    TrimEndKeepsFirst(s);
  }

  lemma {:induction false} TrimEndKeepsFirst(s: string)
    requires |s| > 0 && !IsSpace(s[0])
    ensures TrimEnd(s) != ""
    decreases |s|
  {
    if IsSpace(s[|s| - 1]) {
      assert |s| > 1;
      TrimEndKeepsFirst(s[..|s| - 1]);
    }
  }

  /** A repository address followed by one more path segment is refused
      with the invalid-address error, and nothing is fetched. */
  lemma FurtherSegmentRejected(shown: Option<string>, scheme: string, owner: string, repo: string, segment: string)
    requires scheme == "https" || scheme == "http"
    requires OwnerName(owner) && RepoName(repo) && segment != ""
    ensures var r := HandleSubmit(shown, scheme + Host + owner + "/" + repo + "/" + segment);
            r.error == Some(InvalidError) && r.fetched == []
  {
    var url := scheme + Host + owner + "/" + repo + "/" + segment;
    var tail := repo + "/" + segment;
    assert url == scheme + Host + (owner + "/" + tail);
    assert url[0] == 'h';
    NotBlank(url);
    HostRead(scheme, owner + "/" + tail);
    OwnerRead(owner, tail);
    assert DropSlash(tail)[|repo|] == '/';
    assert !MatchesPattern(url);
    PatternTest(url);
  }

  /** Every repository address, with or without a final slash, is fetched
      as typed: the blank test never refuses one. */
  lemma AddressAccepted(shown: Option<string>, url: string, scheme: string, owner: string, repo: string, slash: string)
    requires Spells(url, scheme, owner, repo, slash)
    ensures HandleSubmit(shown, url) == Submitted(None, [url])
  {
    assert url[0] == 'h';
    NotBlank(url);
    assert InPattern(url);
  }
}
