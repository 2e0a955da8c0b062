/** The connected dashboard: the `owner`/`repo` pair it hands to the repository view, and the
    GitHub links and shell commands it shows for the configured repository. */
module ConnectedDashboard {
  import opened JsText
  import opened GitHubTypes

  /** The first piece of a split is a prefix of the string, followed by the separator unless it
      is all of it. */
  lemma SplitFirst(s: string, sep: char)
    ensures Split(s, sep)[0] <= s
    ensures |Split(s, sep)[0]| == |s| || s[|Split(s, sep)[0]|] == sep
  {
    if sep in s {
      SplitUnfold(s, sep);
      ConsIndex(s[..IndexOf(s, sep)], Split(s[IndexOf(s, sep) + 1..], sep));
    }
  }

  /** `[owner, repo]`: with a '/' in the repository name, its first two '/'-separated pieces
      (anything after a second '/' is dropped); without one, the account's login and the name. */
  function OwnerAndRepo(config: ConnectionConfig): (r: (string, string))
    ensures '/' !in config.repository ==> r == (config.username, config.repository)
    ensures '/' in config.repository ==>
      '/' !in r.0 && '/' !in r.1 &&
      r.0 + "/" + r.1 <= config.repository &&
      (|r.0| + 1 + |r.1| == |config.repository| || config.repository[|r.0| + 1 + |r.1|] == '/')
  {
    var s := config.repository;
    if '/' in s then
      SlashSplit(s);
      var parts := Split(s, '/');
      (parts[0], parts[1])
    else (config.username, config.repository)
  }

  /** The first two pieces of a name with a '/' in it, and how they sit in the name. */
  lemma SlashSplit(s: string)
    requires '/' in s
    ensures var parts := Split(s, '/');
      |parts| >= 2 && '/' !in parts[0] && '/' !in parts[1] &&
      parts[0] + "/" + parts[1] <= s &&
      (|parts[0]| + 1 + |parts[1]| == |s| || s[|parts[0]| + 1 + |parts[1]|] == '/')
  {
    var i := IndexOf(s, '/');
    var p1 := Split(s[i + 1..], '/')[0];
    assert |Split(s, '/')| >= 2 && Split(s, '/')[0] == s[..i] && Split(s, '/')[1] == p1 by {
      SplitUnfold(s, '/');
      ConsIndex(s[..i], Split(s[i + 1..], '/'));
    }
    assert p1 <= s[i + 1..] && (|p1| == |s[i + 1..]| || s[i + 1..][|p1|] == '/') by {
      SplitFirst(s[i + 1..], '/');
    }
    PiecesAroundSlash(s, i, p1);
  }

  /** The text before a '/' at `i`, that '/', and a prefix of what follows it that ends at a '/'
      or at the end, together form a prefix of `s` ending at a '/' or at the end. */
  lemma PiecesAroundSlash(s: string, i: nat, p: string)
    requires i < |s| && s[i] == '/'
    requires p <= s[i + 1..]
    requires |p| == |s[i + 1..]| || s[i + 1..][|p|] == '/'
    ensures s[..i] + "/" + p <= s
    ensures |s[..i]| + 1 + |p| == |s| || s[|s[..i]| + 1 + |p|] == '/'
  {
    assert s[..i] + "/" + p == s[..i + 1 + |p|];
  }

  /** An `owner/repo` name splits back into its owner and its repository. */
  lemma OwnerAndRepoRoundTrip(token: string, username: string, owner: string, repo: string)
    requires '/' !in owner && '/' !in repo
    ensures OwnerAndRepo(ConnectionConfig(token, username, owner + "/" + repo)) == (owner, repo)
  {
    var s := owner + "/" + repo;
    assert Join([owner, repo], '/') == s by {
      assert Join([owner, repo][1..], '/') == repo;
    }
    SplitJoin([owner, repo], '/');
    assert s[|owner|] == '/';
  }

  /** The pages of the repository the dashboard links to. */
  datatype Page = Home | NewIssue | Compare | NewRelease

  const GitHubSite := "https://github.com/"

  function PagePath(p: Page): string
  {
    match p
    case Home => ""
    case NewIssue => "/issues/new"
    case Compare => "/compare"
    case NewRelease => "/releases/new"
  }

  /** The link to page `p` of the configured repository, built from the name as typed. */
  function PageLink(repository: string, p: Page): (url: string)
    ensures |url| == |GitHubSite| + |repository| + |PagePath(p)|
    ensures GitHubSite <= url
    ensures url[|GitHubSite|..|GitHubSite| + |repository|] == repository
    ensures url[|GitHubSite| + |repository|..] == PagePath(p)
  {
    GitHubSite + repository + PagePath(p)
  }

  /** The four links of one repository are four different addresses. */
  lemma PageLinksDiffer(repository: string, p: Page, q: Page)
    requires p != q
    ensures PageLink(repository, p) != PageLink(repository, q)
  {
    assert |PageLink(repository, p)| - |PageLink(repository, q)| == |PagePath(p)| - |PagePath(q)|;
  }

  /** A link names its repository: two repositories never share a link to the same page. */
  lemma PageLinkDeterminesRepository(r1: string, r2: string, p: Page)
    requires PageLink(r1, p) == PageLink(r2, p)
    ensures r1 == r2
  {
    assert |r1| == |r2|;
  }

  /** `git clone https://github.com/<repository>.git`. */
  function CloneCommand(repository: string): string
  {
    "git clone " + GitHubSite + repository + ".git"
  }

  /** `cd <repo>`. */
  function CdCommand(repo: string): string
  {
    "cd " + repo
  }

  /** The fixed front of a clone command is the pieces "git clone https:", "" and "github.com"
      joined by '/'. */
  lemma CloneFront(x: string)
    ensures "git clone https:" + "/" + ("" + "/" + ("github.com" + "/" + x)) == "git clone " + GitHubSite + x
  {
    assert "git clone https:" + "/" + ("" + "/" + ("github.com" + "/" + x)) ==
      ("git clone https:" + "/" + "" + "/" + "github.com" + "/") + x;
    assert "git clone https:" + "/" + "" + "/" + "github.com" + "/" == "git clone " + GitHubSite;
  }

  /** The '/'-separated pieces of a clone command. */
  lemma CloneCommandJoins(owner: string, repo: string)
    ensures Join(["git clone https:", "", "github.com", owner, repo + ".git"], '/') == CloneCommand(owner + "/" + repo)
  {
    var r := repo + ".git";
    var tail := owner + "/" + r;
    assert Join([owner, r], '/') == tail by {
      JoinCons(owner, [r], '/');
      assert [owner] + [r] == [owner, r];
    }
    assert Join(["github.com", owner, r], '/') == "github.com" + "/" + tail by {
      JoinCons("github.com", [owner, r], '/');
      assert ["github.com"] + [owner, r] == ["github.com", owner, r];
    }
    assert Join(["", "github.com", owner, r], '/') == "" + "/" + ("github.com" + "/" + tail) by {
      JoinCons("", ["github.com", owner, r], '/');
      assert [""] + ["github.com", owner, r] == ["", "github.com", owner, r];
    }
    assert Join(["git clone https:", "", "github.com", owner, r], '/') ==
      "git clone https:" + "/" + ("" + "/" + ("github.com" + "/" + tail)) by {
      JoinCons("git clone https:", ["", "github.com", owner, r], '/');
      assert ["git clone https:"] + ["", "github.com", owner, r] == ["git clone https:", "", "github.com", owner, r];
    }
    CloneFront(tail);
    assert tail == (owner + "/" + repo) + ".git";
  }

  /** For an `owner/repo` name the clone address ends in the path segment `repo.git`, the
      directory `git clone` creates, and the `cd` command enters that `repo`. */
  lemma CloneThenCd(token: string, username: string, owner: string, repo: string)
    requires '/' !in owner && '/' !in repo
    ensures Split(CloneCommand(owner + "/" + repo), '/') == ["git clone https:", "", "github.com", owner, repo + ".git"]
    ensures CdCommand(OwnerAndRepo(ConnectionConfig(token, username, owner + "/" + repo)).1) == "cd " + repo
  {
    var parts := ["git clone https:", "", "github.com", owner, repo + ".git"];
    CloneCommandJoins(owner, repo);
    assert '/' !in "git clone https:" && '/' !in "github.com" && '/' !in repo + ".git";
    assert forall k :: 0 <= k < |parts| ==> '/' !in parts[k] by {
      forall k | 0 <= k < |parts| ensures '/' !in parts[k] {
        if k == 0 { assert parts[k] == "git clone https:"; }
        else if k == 1 { assert parts[k] == ""; }
        else if k == 2 { assert parts[k] == "github.com"; }
        else if k == 3 { assert parts[k] == owner; }
        else { assert parts[k] == repo + ".git"; }
      }
    }
    SplitJoin(parts, '/');
    OwnerAndRepoRoundTrip(token, username, owner, repo);
  }
}
