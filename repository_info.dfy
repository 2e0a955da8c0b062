/** The repository view: `fetchData` and its state, the render order of its screens, and the
    slices and substrings it shows. */
module RepositoryInfo {
  import opened Wrappers
  import opened JsText
  import opened GitHubTypes
  import opened UseGitHub

  function Min(a: nat, b: nat): nat
  {
    if a <= b then a else b
  }

  const ListedLimit := 5
  const CommitLimit := 5
  const ShortShaLength := 7

  /** `commitData.slice(0, 5)`: the first five commits fetched, in the order fetched. */
  function RecentCommits(cs: seq<Commit>): (r: seq<Commit>)
    ensures |r| == Min(CommitLimit, |cs|)
    ensures r <= cs
  {
    cs[..Min(CommitLimit, |cs|)]
  }

  /** `branches.slice(0, 5)`. */
  function ListedBranches(bs: seq<Branch>): (r: seq<Branch>)
    ensures |r| == Min(ListedLimit, |bs|)
    ensures r <= bs
  {
    bs[..Min(ListedLimit, |bs|)]
  }

  /** The count in "And N more branches...", shown only when some branches are not listed. */
  function MoreBranches(bs: seq<Branch>): (n: Option<nat>)
    ensures n.Some? <==> |bs| > ListedLimit
    ensures n.Some? ==> n.value > 0 && |ListedBranches(bs)| + n.value == |bs|
    ensures n.None? ==> ListedBranches(bs) == bs
  {
    if |bs| > ListedLimit then Some(|bs| - ListedLimit) else None
  }

  /** `sha.substring(0, 7)`. */
  function ShortSha(sha: string): (r: string)
    ensures r <= sha
    ensures |r| == Min(ShortShaLength, |sha|)
  {
    sha[..Min(ShortShaLength, |sha|)]
  }

  /** `message.split('\n')[0]`: the text before the first line break, or all of it. */
  function Headline(message: string): (r: string)
    ensures r <= message
    ensures '\n' !in r
    ensures |r| == |message| || message[|r|] == '\n'
  {
    SplitHead(message, '\n');
    Split(message, '\n')[0]
  }

  /** `login[0].toUpperCase()`; an empty login has no first character, and the source throws. */
  function AvatarFallback(login: string): (r: string)
    requires login != ""
    ensures |r| == 1
    ensures LowerChar(r[0]) == LowerChar(login[0])
    ensures !('a' <= r[0] <= 'z')
  {
    [UpperChar(login[0])]
  }

  /** What the view holds besides `loading`. */
  datatype Contents = Contents(repository: Option<Repository>, branches: seq<Branch>, commits: seq<Commit>,
                               error: Option<string>)

  /** Where `fetchData` leaves the view after `setError(null)`, from what it held and the
      results of the three calls; the first failure, in argument order, is the error shown. */
  function FetchOutcome(prev: Contents, repository: Result<Repository>, branches: Result<seq<Branch>>,
                        commits: Result<seq<Commit>>): (next: Contents)
    ensures next.error.None? <==> repository.Success? && branches.Success? && commits.Success?
    ensures next.error.None? ==>
      next == Contents(Some(repository.value), branches.value, RecentCommits(commits.value), None)
    ensures next.error.Some? ==>
      next.repository == prev.repository && next.branches == prev.branches && next.commits == prev.commits
    ensures repository.Failure? ==> next.error == Some(repository.error)
    ensures repository.Success? && branches.Failure? ==> next.error == Some(branches.error)
    ensures repository.Success? && branches.Success? && commits.Failure? ==> next.error == Some(commits.error)
  {
    if repository.Failure? then prev.(error := Some(repository.error))
    else if branches.Failure? then prev.(error := Some(branches.error))
    else if commits.Failure? then prev.(error := Some(commits.error))
    else Contents(Some(repository.value), branches.value, RecentCommits(commits.value), None)
  }

  /** The requests a call sent, in order. */
  function SentBy<A, B, C>(a: Call<A>, b: Call<B>, c: Call<C>): seq<FetchRequest>
  {
    (if a.sent.Some? then [a.sent.value] else []) +
    (if b.sent.Some? then [b.sent.value] else []) +
    (if c.sent.Some? then [c.sent.value] else [])
  }

  /** The screen the view shows. */
  datatype Screen =
    | Spinner
    | ErrorAlert(message: string)
    | NotFound
    | Overview(repository: Repository, branchCount: nat, listed: seq<Branch>, more: Option<nat>, commits: seq<Commit>)

  /** Loading first, then a truthy error, then a missing repository, then the content. */
  function Render(loading: bool, c: Contents): (s: Screen)
    ensures s.Spinner? <==> loading
    ensures s.ErrorAlert? <==> !loading && Given(c.error)
    ensures s.ErrorAlert? ==> s.message == c.error.value
    ensures s.NotFound? <==> !loading && !Given(c.error) && c.repository.None?
    ensures s.Overview? ==>
      s.repository == c.repository.value && s.branchCount == |c.branches| &&
      s.listed == ListedBranches(c.branches) && s.more == MoreBranches(c.branches) && s.commits == c.commits
  {
    if loading then Spinner
    else if Given(c.error) then ErrorAlert(c.error.value)
    else if c.repository.None? then NotFound
    else Overview(c.repository.value, |c.branches|, ListedBranches(c.branches), MoreBranches(c.branches), c.commits)
  }

  /** The session the view's own `useGitHub()` call creates: hook state is per component, and
      nothing ever connects this one, so its `config` stays `null`. */
  const OwnSession: Option<ConnectionConfig> := None

  /** As written, the view fetches through its own never-connected session: whatever GitHub
      would answer, no request is sent and the view ends on 'No token configured'. */
  lemma OwnSessionAlwaysFails(prev: Contents, owner: string, repo: string, ra: Answer<Repository>,
                              ba: Answer<seq<Branch>>, ca: Answer<seq<Commit>>)
    ensures var r := GetRepository(OwnSession, owner, repo, ra);
      var b := GetBranches(OwnSession, owner, repo, ba);
      var c := GetCommits(OwnSession, owner, repo, None, ca);
      SentBy(r, b, c) == [] &&
      Render(false, FetchOutcome(prev, r.result, b.result, c.result)) == ErrorAlert(NoToken)
  {
  }

  /** Fetching through the connected session instead: with its token and three good answers
      the view sends the three requests and shows the repository with its first five commits. */
  lemma ConnectedSessionLoads(prev: Contents, session: ConnectionConfig, owner: string, repo: string,
                              repository: Repository, branches: seq<Branch>, commits: seq<Commit>)
    requires session.token != ""
    ensures var config := Some(session);
      var r := GetRepository(config, owner, repo, Answered(Json(repository)));
      var b := GetBranches(config, owner, repo, Answered(Json(branches)));
      var c := GetCommits(config, owner, repo, None, Answered(Json(commits)));
      |SentBy(r, b, c)| == 3 &&
      Render(false, FetchOutcome(prev, r.result, b.result, c.result)) ==
        Overview(repository, |branches|, ListedBranches(branches), MoreBranches(branches), RecentCommits(commits))
  {
  }

  class RepositoryView {
    const owner: string
    const repo: string
    var repository: Option<Repository>
    var branches: seq<Branch>
    var commits: seq<Commit>
    var loading: bool
    var error: Option<string>

    function State(): Contents
      reads this
    {
      Contents(repository, branches, commits, error)
    }

    /** `useState(null)`, `useState([])`, `useState([])`, `useState(true)`, `useState(null)`. */
    constructor (owner: string, repo: string)
      ensures this.owner == owner && this.repo == repo
      ensures State() == Contents(None, [], [], None) && loading
    {
      this.owner := owner;
      this.repo := repo;
      repository := None;
      branches := [];
      commits := [];
      loading := true;
      error := None;
    }

    /** The start of `fetchData`, before its first `await`: the spinner shows. */
    method StartFetch()
      modifies this`loading, this`error
      ensures loading && State() == old(State()).(error := None)
      ensures Render(loading, State()).Spinner?
    {
      loading := true;
      error := None;
    }

    /** The rest of `fetchData` (after `setError(null)`), through the session `config`, when GitHub does `ra`, `ba` and
        `ca`; the calls run one after another. The result is the requests sent. */
    method FinishFetch(config: Option<ConnectionConfig>, ra: Answer<Repository>, ba: Answer<seq<Branch>>,
                       ca: Answer<seq<Commit>>) returns (sent: seq<FetchRequest>)
      requires error.None?
      modifies this`repository, this`branches, this`commits, this`loading, this`error
      ensures !loading
      ensures var r := GetRepository(config, owner, repo, ra);
        var b := GetBranches(config, owner, repo, ba);
        var c := GetCommits(config, owner, repo, None, ca);
        State() == FetchOutcome(old(State()), r.result, b.result, c.result) && sent == SentBy(r, b, c)
    {
      var r := GetRepository(config, owner, repo, ra);
      var b := GetBranches(config, owner, repo, ba);
      var c := GetCommits(config, owner, repo, None, ca);
      sent := SentBy(r, b, c);
      if r.result.Failure? {
        error := Some(r.result.error);
      } else if b.result.Failure? {
        error := Some(b.result.error);
      } else if c.result.Failure? {
        error := Some(c.result.error);
      } else {
        repository := Some(r.result.value);
        branches := b.result.value;
        commits := RecentCommits(c.result.value);
      }
      loading := false;
    }

    /** `fetchData`, as the mount effect and the retry and refresh buttons run it. */
    method FetchData(config: Option<ConnectionConfig>, ra: Answer<Repository>, ba: Answer<seq<Branch>>,
                     ca: Answer<seq<Commit>>) returns (sent: seq<FetchRequest>)
      modifies this`repository, this`branches, this`commits, this`loading, this`error
      ensures !loading
      ensures var r := GetRepository(config, owner, repo, ra);
        var b := GetBranches(config, owner, repo, ba);
        var c := GetCommits(config, owner, repo, None, ca);
        State() == FetchOutcome(old(State()).(error := None), r.result, b.result, c.result) &&
        sent == SentBy(r, b, c)
    {
      StartFetch();
      sent := FinishFetch(config, ra, ba, ca);
    }
  }
}
