/** The GitHub REST shapes the connector reads, as `types/github.ts` declares them. */
module GitHubTypes {
  import opened Wrappers

  datatype Owner = Owner(login: string, avatarUrl: string, htmlUrl: string)

  datatype Repository = Repository(
    id: int,
    name: string,
    fullName: string,
    description: Option<string>,
    htmlUrl: string,
    cloneUrl: string,
    sshUrl: string,
    stargazersCount: nat,
    forksCount: nat,
    language: Option<string>,
    defaultBranch: string,
    createdAt: string,
    updatedAt: string,
    pushedAt: string,
    isPrivate: bool,
    owner: Owner)

  datatype BranchHead = BranchHead(sha: string, url: string)

  datatype Branch = Branch(name: string, commit: BranchHead, isProtected: bool)

  datatype Signature = Signature(name: string, email: string, date: string)

  datatype CommitDetail = CommitDetail(author: Signature, message: string)

  datatype CommitAuthor = CommitAuthor(login: string, avatarUrl: string)

  /** A commit; `author` is `null` when GitHub cannot match the commit to an account. */
  datatype Commit = Commit(sha: string, commit: CommitDetail, author: Option<CommitAuthor>, htmlUrl: string)

  /** What the connection form collects and `connect` completes with the account's login. */
  datatype ConnectionConfig = ConnectionConfig(token: string, username: string, repository: string)
}
