/** The pure fragments of the repository fetch (services/githubService.ts):
    the mapping of GitHub's JSON records to the application's records, the
    error text for a failed repository request, and the rewrite of that text
    by the fetch's `catch`. An optional JSON field is an `Option`; `x || y`
    falls through on an absent or empty string. */
module GithubMappers {
  import opened Wrappers
  import opened Strings
  import opened FileTree

  /** `mapGitHubTreeToRepoFile(item, currentPath)`: the item's path joined
      under `currentPath`, or alone when `currentPath` is empty; no children
      key. */
  function MapTreeItem(item: TreeItem, currentPath: string): (r: RepoFile)
    ensures r.name == item.path && !r.hasChildren && r.children == []
    ensures r.kind == Dir <==> item.itemType == "tree"
    ensures r.sha == item.sha && r.size == item.size
    ensures currentPath == "" ==> r.path == item.path
    ensures currentPath != "" ==> |r.path| == |currentPath| + 1 + |item.path|
                                  && r.path[..|currentPath|] == currentPath
                                  && r.path[|currentPath|] == '/'
                                  && r.path[|currentPath| + 1..] == item.path
  {
    var fullPath := if currentPath != "" then currentPath + "/" + item.path else item.path;
    RepoFile(item.path, fullPath, if item.itemType == "tree" then Dir else File, false, [], item.sha, item.size)
  }

  /** An entry of the repository's top-level contents, the listing used when
      the recursive tree cannot be fetched. `itemType` is `"dir"` or `"file"`. */
  datatype ContentsItem = ContentsItem(name: string, path: string, itemType: string, sha: Option<string>, size: Option<nat>)

  /** The fallback listing's mapping: name, path and kind are kept, and no
      children are attached. */
  function MapContentsItem(item: ContentsItem): (r: RepoFile)
    ensures r.name == item.name && r.path == item.path
    ensures r.kind == Dir <==> item.itemType == "dir"
    ensures !r.hasChildren && r.sha == item.sha && r.size == item.size
  {
    RepoFile(item.name, item.path, if item.itemType == "dir" then Dir else File, false, [], item.sha, item.size)
  }

  /** `x || fallback` for an optional string. */
  function OrElse(x: Option<string>, fallback: string): (r: string)
    ensures Truthy(x) ==> r == x.value
    ensures !Truthy(x) ==> r == fallback
  {
    if Truthy(x) then x.value else fallback
  }

  /** A commit's author: the git author's name, else the GitHub login, else
      `'Unknown'`. */
  function CommitAuthor(authorName: Option<string>, authorLogin: Option<string>): (r: string)
    ensures r != ""
    ensures Truthy(authorName) ==> r == authorName.value
    ensures !Truthy(authorName) && Truthy(authorLogin) ==> r == authorLogin.value
    ensures !Truthy(authorName) && !Truthy(authorLogin) ==> r == "Unknown"
  {
    OrElse(authorName, OrElse(authorLogin, "Unknown"))
  }

  /** A commit's date: the git author's date, else the time of the fetch
      (`new Date().toISOString()`, passed in). */
  function CommitDate(authorDate: Option<string>, nowIso: string): (r: string)
    ensures Truthy(authorDate) ==> r == authorDate.value
    ensures !Truthy(authorDate) ==> r == nowIso
  {
    OrElse(authorDate, nowIso)
  }

  /** The user of an issue or a pull request: the login, else `'Unknown'`. */
  function UserLogin(login: Option<string>): (r: string)
    ensures r != ""
    ensures Truthy(login) ==> r == login.value
    ensures !Truthy(login) ==> r == "Unknown"
  {
    OrElse(login, "Unknown")
  }

  /** A pull request is `'merged'` when it has a merge time, and otherwise
      has the state GitHub reports (`'open'` or `'closed'`). */
  function PullRequestState(mergedAt: Option<string>, state: string): (r: string)
    ensures Truthy(mergedAt) ==> r == "merged"
    ensures !Truthy(mergedAt) ==> r == state
    ensures state in {"open", "closed"} ==> (r == "merged" <==> Truthy(mergedAt))
  {
    if Truthy(mergedAt) then "merged" else state
  }

  const ForbiddenMessage: string :=
    "GitHub API rate limit exceeded " + "or access forbidden. If this is a "
    + "private repo, ensure a token with " + "'repo' scope is configured."
  const RateLimitMessage: string :=
    "GitHub API rate limit exceeded. " + "Please try again later or configure an API token."
  const AnalyzeFailedPrefix: string := "Failed to analyze repository: "

  function NotFoundMessage(owner: string, repo: string): string {
    "Repository " + owner + "/" + repo + " not found."
  }

  /** The error the repository request throws: none for a 2xx status, a
      not-found text for 404, the forbidden text for 403, and the status and
      its text otherwise. */
  function RepoResponseError(owner: string, repo: string, status: nat, statusText: string): (r: Option<string>)
    ensures r.None? <==> 200 <= status <= 299
    ensures status == 404 ==> r == Some(NotFoundMessage(owner, repo))
    ensures status == 403 ==> r == Some(ForbiddenMessage)
    ensures r.Some? && status != 404 && status != 403
            ==> r.value == "Failed to fetch repository data: " + NatToDecimal(status) + " " + statusText
  {
    if 200 <= status <= 299 then None
    else if status == 404 then Some(NotFoundMessage(owner, repo))
    else if status == 403 then Some(ForbiddenMessage)
    else Some("Failed to fetch repository data: " + NatToDecimal(status) + " " + statusText)
  }

  /** The fetch's `catch`: a message that mentions the rate limit becomes the
      rate-limit message, and any other is prefixed, so it can be read back. */
  function Rethrown(message: string): (r: string)
    ensures r == RateLimitMessage <==> Contains(message, "rate limit exceeded")
    ensures !Contains(message, "rate limit exceeded") ==> r == AnalyzeFailedPrefix + message
  {
    if Contains(message, "rate limit exceeded") then RateLimitMessage
    else
      var r := AnalyzeFailedPrefix + message;
      assert r[0] == AnalyzeFailedPrefix[0] == 'F';
      assert RateLimitMessage[0] == 'G';
      r
  }

  /** A 403 reaches the caller as the rate-limit message, not as the
      forbidden text the request produced. */
  lemma ForbiddenReportedAsRateLimit(owner: string, repo: string, statusText: string)
    ensures Rethrown(RepoResponseError(owner, repo, 403, statusText).value) == RateLimitMessage
  {
    assert OccursAt(ForbiddenMessage, "rate limit exceeded", 11) by {
      var head := "GitHub API rate limit exceeded ";
      assert ForbiddenMessage[..|head|] == head;
      assert head[11..30] == "rate limit exceeded";
    }
    ContainsAt(ForbiddenMessage, "rate limit exceeded", 11);
  }
}
