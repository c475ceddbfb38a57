/** The `pr` subcommands: the request filters of `pr list`, the positional
    words of `pr checkout` and `pr show`, the head lookup of `pr show`
    (tracking information, push target, exactly one open pull request), and
    the placeholder map used to format a pull request. */
module Pr {
  import opened Base
  import opened Strconv
  import opened GitHub
  import opened CommandArgs

  /** The format `pr list` uses when --format is not given. */
  const DefaultListFormat: string := "%pC%>(8)%i%Creset  %t%  l%n"

  /** A head without an owner gets `<owner>:` in front; one with a `:` is used
      as it is. */
  function QualifyHead(owner: string, head: string): (r: string)
    ensures ':' in r
    ensures HasSuffix(r, head)
    ensures ':' in head ==> r == head
    ensures ':' !in head ==> r[..|r| - |head|] == owner + ":"
  {
    if ':' in head then head else owner + ":" + head
  }

  /** Qualifying a head twice changes nothing, whatever owner the second time. */
  lemma QualifyHeadIdempotent(owner: string, owner': string, head: string)
    ensures QualifyHead(owner', QualifyHead(owner, head)) == QualifyHead(owner, head)
  {
  }

  // ---------------------------------------------------------------- pr list

  /** The flags of `pr list`; None when the flag was not received. */
  datatype ListOptions = ListOptions(
    state: Option<string>,
    sort: Option<string>,
    base: Option<string>,
    head: Option<string>,
    sortAscending: bool,
    limit: int,
    format: Option<string>)

  /** What the request filters of `pr list` are, given its flags. */
  ghost predicate ListFiltersFor(opts: ListOptions, owner: string, filters: map<string, string>, onlyMerged: bool) {
    && filters.Keys <= {"state", "sort", "base", "head", "direction"}
    && ("state" in filters <==> opts.state.Some?)
    && (opts.state.Some? ==>
          filters["state"] == if opts.state.value == "merged" then "closed" else opts.state.value)
    && (onlyMerged <==> opts.state == Some("merged"))
    && ("sort" in filters <==> opts.sort.Some?)
    && (opts.sort.Some? ==> filters["sort"] == opts.sort.value)
    && ("base" in filters <==> opts.base.Some?)
    && (opts.base.Some? ==> filters["base"] == opts.base.value)
    && ("head" in filters <==> opts.head.Some?)
    && (opts.head.Some? ==> filters["head"] == QualifyHead(owner, opts.head.value))
    && "direction" in filters
    && filters["direction"] == if opts.sortAscending then "asc" else "desc"
  }

  /** Builds the filters of `pr list` step by step, as listPulls does. */
  method ListFilters(opts: ListOptions, owner: string) returns (filters: map<string, string>, onlyMerged: bool)
    ensures ListFiltersFor(opts, owner, filters, onlyMerged)
  {
    filters := map[];
    if opts.state.Some? {
      filters := filters["state" := opts.state.value];
    }
    if opts.sort.Some? {
      filters := filters["sort" := opts.sort.value];
    }
    if opts.base.Some? {
      filters := filters["base" := opts.base.value];
    }
    if opts.head.Some? {
      var head := opts.head.value;
      if ':' !in head {
        head := owner + ":" + head;
      }
      filters := filters["head" := head];
    }
    if opts.sortAscending {
      filters := filters["direction" := "asc"];
    } else {
      filters := filters["direction" := "desc"];
    }
    onlyMerged := false;
    if "state" in filters && filters["state"] == "merged" {
      filters := filters["state" := "closed"];
      onlyMerged := true;
    }
  }

  /** The post-filter handed to the fetch: a pull request is dropped only
      when merged pull requests were asked for and it was never merged. */
  function KeepPull(onlyMerged: bool, pr: PullRequest): (keep: bool)
    ensures !onlyMerged ==> keep
    ensures onlyMerged ==> (keep <==> pr.mergedAt.Some?)
  {
    !(onlyMerged && pr.mergedAt.None?)
  }

  /** What `pr list` does once the repository is known. */
  datatype ListPlan =
    | DryRun(project: Project)
    | Fetch(project: Project, filters: map<string, string>, limit: int, onlyMerged: bool, format: string)

  /** listPulls up to the fetch: `project` is the main project of the local
      repository or the error finding it. */
  method ListPulls(args: Args, project: Result<Project, string>, opts: ListOptions) returns (r: Result<ListPlan, Error>)
    modifies args
    ensures project.Err? ==> r == Err(Message(project.error)) && args.noForward == old(args.noForward)
    ensures project.Ok? ==> args.noForward
    ensures project.Ok? && args.noop ==> r == Ok(DryRun(project.value))
    ensures project.Ok? && !args.noop ==>
      r.Ok? && r.value.Fetch? && r.value.project == project.value && r.value.limit == opts.limit &&
      ListFiltersFor(opts, project.value.owner, r.value.filters, r.value.onlyMerged) &&
      r.value.format == (if opts.format.Some? then opts.format.value else DefaultListFormat)
    ensures args.params == old(args.params) && args.command == old(args.command)
    ensures args.executable == old(args.executable) && args.noop == old(args.noop)
  {
    if project.Err? {
      return Err(Message(project.error));
    }
    args.NoForward();
    if args.noop {
      return Ok(DryRun(project.value));
    }
    var filters, onlyMerged := ListFilters(opts, project.value.owner);
    var format := if opts.format.Some? then opts.format.value else DefaultListFormat;
    r := Ok(Fetch(project.value, filters, opts.limit, onlyMerged, format));
  }

  /** With any state but `merged`, the post-filter keeps every pull request. */
  lemma OnlyMergedStateFilters(opts: ListOptions, owner: string, filters: map<string, string>, onlyMerged: bool, pr: PullRequest)
    requires ListFiltersFor(opts, owner, filters, onlyMerged)
    ensures opts.state != Some("merged") ==> KeepPull(onlyMerged, pr)
    ensures opts.state == Some("merged") ==> filters["state"] == "closed" && (KeepPull(onlyMerged, pr) <==> pr.mergedAt.Some?)
  {
  }

  // ------------------------------------------------------------ pr checkout

  /** The words of `pr checkout`: a pull-request number, and an optional
      branch name ("" when absent); further words are ignored. */
  function CheckoutWords(words: seq<string>): (r: Result<(string, string), Error>)
    ensures |words| == 0 ==> r == Err(Message("Error: No pull request number given"))
    ensures |words| > 0 && Atoi(words[0]).Err? ==> r == Err(InvalidInteger(words[0]))
    ensures r.Ok? <==> |words| > 0 && Atoi(words[0]).Ok?
    ensures r.Ok? ==> r.value.0 == words[0] && r.value.1 == (if |words| > 1 then words[1] else "")
  {
    if |words| == 0 then Err(Message("Error: No pull request number given"))
    else
      var newBranchName := if |words| > 1 then words[1] else "";
      match Atoi(words[0])
      case Err(e) => Err(e)
      case Ok(_) => Ok((words[0], newBranchName))
  }

  lemma CheckoutIgnoresExtraWords(words: seq<string>)
    requires |words| >= 2
    ensures CheckoutWords(words) == CheckoutWords(words[..2])
  {
  }

  /** checkoutPr: `fetch` stands for finding the local repository, its main
      project, the host and the pull request with the given number;
      `transform` for transformCheckoutArgs. On success the command line
      becomes `checkout <transformed arguments>`. */
  method CheckoutPr(args: Args, words: seq<string>,
                    fetch: string -> Result<PullRequest, string>,
                    transform: (PullRequest, string) -> Result<seq<string>, string>)
    returns (failure: Option<Error>)
    modifies args
    ensures CheckoutWords(words).Err? ==>
      failure == Some(CheckoutWords(words).error) && args.params == old(args.params) && args.command == old(args.command)
    ensures CheckoutWords(words).Ok? ==>
      var (number, branch) := CheckoutWords(words).value;
      match fetch(number)
      case Err(e) => failure == Some(Message(e)) && args.params == old(args.params) && args.command == old(args.command)
      case Ok(pr) =>
        match transform(pr, branch)
        case Err(e) => failure == Some(Message(e)) && args.params == old(args.params) && args.command == old(args.command)
        case Ok(newArgs) => failure == None && args.command == "checkout" && args.params == newArgs
    ensures args.executable == old(args.executable) && args.noForward == old(args.noForward) && args.noop == old(args.noop)
  {
    var checked := CheckoutWords(words);
    if checked.Err? {
      return Some(checked.error);
    }
    var (number, branch) := checked.value;
    var pr := fetch(number);
    if pr.Err? {
      return Some(Message(pr.error));
    }
    var newArgs := transform(pr.value, branch);
    if newArgs.Err? {
      return Some(Message(newArgs.error));
    }
    args.Replace(args.executable, "checkout", newArgs.value);
    failure := None;
  }

  // ------------------------------------------- tracking and push targets

  /** A branch of a local repository, by its full ref name. */
  datatype Branch = Branch(repo: string, name: string)

  /** What the local repository and its configuration answer. */
  datatype LocalRepo = LocalRepo(
    currentBranch: Result<Branch, string>,                        // CurrentBranch
    config: map<string, string>,                                  // git.Config; a missing key is an error
    remotes: map<string, Result<Project, string>>,                // RemoteByName, then Remote.Project
    projectFromUrl: string -> Result<Project, string>,            // git.ParseURL, then NewProjectFromURL
    remoteForBranch: (Branch, string) -> Option<Result<Project, string>>, // RemoteForBranch, then Remote.Project
    shortName: string -> string)                                  // Branch.ShortName of a ref name

  function ConfigKey(branchShortName: string, field: string): string {
    "branch." + branchShortName + "." + field
  }

  /** branchTrackingInformation: the remote and the upstream branch of
      `branch`, from `branch.<name>.remote` and `branch.<name>.merge`. */
  function BranchTrackingInformation(repo: LocalRepo, branch: Branch): (r: Result<(string, Branch), Error>)
    ensures var remoteKey := ConfigKey(repo.shortName(branch.name), "remote");
            var mergeKey := ConfigKey(repo.shortName(branch.name), "merge");
      && (r.Ok? <==> remoteKey in repo.config && repo.config[remoteKey] != "." && mergeKey in repo.config)
      && (r.Ok? ==> r.value.0 == repo.config[remoteKey] &&
                    r.value.1 == Branch(branch.repo, repo.config[mergeKey]))
      && (remoteKey in repo.config && repo.config[remoteKey] == "." ==>
            r == Err(Message("branch is tracking another local branch")))
  {
    var short := repo.shortName(branch.name);
    var remoteKey := ConfigKey(short, "remote");
    if remoteKey in repo.config && repo.config[remoteKey] == "." then
      Err(Message("branch is tracking another local branch"))
    else if remoteKey !in repo.config then
      Err(ConfigUnset(remoteKey))
    else
      var mergeKey := ConfigKey(short, "merge");
      if mergeKey !in repo.config then Err(ConfigUnset(mergeKey))
      else Ok((repo.config[remoteKey], Branch(branch.repo, repo.config[mergeKey])))
  }

  /** findPushTarget: a remote that exists by name gives its project; only
      otherwise is the remote parsed as a URL. */
  function FindPushTarget(repo: LocalRepo, branch: Branch): (r: Result<(Branch, Project), Error>)
    ensures BranchTrackingInformation(repo, branch).Err? ==> r == Err(BranchTrackingInformation(repo, branch).error)
    ensures BranchTrackingInformation(repo, branch).Ok? ==>
      var (remote, tracking) := BranchTrackingInformation(repo, branch).value;
      var found := if remote in repo.remotes then repo.remotes[remote] else repo.projectFromUrl(remote);
      match found
      case Ok(p) => r == Ok((tracking, p))
      case Err(e) => r == Err(Message(e))
  {
    match BranchTrackingInformation(repo, branch)
    case Err(e) => Err(e)
    case Ok((remote, headBranch)) =>
      if remote in repo.remotes then
        match repo.remotes[remote]
        case Err(e) => Err(Message(e))
        case Ok(p) => Ok((headBranch, p))
      else
        match repo.projectFromUrl(remote)
        case Err(e) => Err(Message(e))
        case Ok(p) => Ok((headBranch, p))
  }

  /** deducePushTarget: the project of the remote the repository associates
      with the branch for `owner`. */
  function DeducePushTarget(repo: LocalRepo, branch: Branch, owner: string): (r: Result<Project, Error>)
    ensures repo.remoteForBranch(branch, owner).None? ==>
      r == Err(Message("no remote found for branch " + repo.shortName(branch.name)))
    ensures repo.remoteForBranch(branch, owner).Some? ==>
      (r.Ok? <==> repo.remoteForBranch(branch, owner).value.Ok?)
    ensures r.Ok? ==> repo.remoteForBranch(branch, owner) == Some(Ok(r.value))
  {
    match repo.remoteForBranch(branch, owner)
    case None => Err(Message("no remote found for branch " + repo.shortName(branch.name)))
    case Some(Err(e)) => Err(Message(e))
    case Some(Ok(p)) => Ok(p)
  }

  // ----------------------------------------------------------- pr show

  /** The `owner:branch` head findCurrentPullRequest looks for. */
  function CurrentHead(repo: LocalRepo, baseOwner: string, user: string, headArg: string): (r: Result<string, Error>)
    ensures r.Err? <==> headArg == "" && repo.currentBranch.Err?
    ensures r.Ok? ==> ':' in r.value
    ensures headArg == "" && repo.currentBranch.Ok? ==>
      HasSuffix(r.value, ":" + repo.shortName(repo.currentBranch.value.name)) ||
      (FindPushTarget(repo, repo.currentBranch.value).Ok? &&
       HasSuffix(r.value, ":" + repo.shortName(FindPushTarget(repo, repo.currentBranch.value).value.0.name)))
  {
    if headArg != "" then Ok(QualifyHead(baseOwner, headArg))
    else
      match repo.currentBranch
      case Err(e) => Err(Message(e))
      case Ok(branch) =>
        var short := repo.shortName(branch.name);
        match FindPushTarget(repo, branch)
        case Ok((headBranch, headProject)) => Ok(headProject.owner + ":" + repo.shortName(headBranch.name))
        case Err(_) =>
          match DeducePushTarget(repo, branch, user)
          case Ok(headProject) => Ok(headProject.owner + ":" + short)
          case Err(_) => Ok(baseOwner + ":" + short)
  }

  /** The head precedence, highest first: --head, the push target, the
      deduced push target, the base owner with the current branch. */
  lemma HeadPrecedence(repo: LocalRepo, baseOwner: string, user: string, headArg: string)
    ensures headArg != "" ==> CurrentHead(repo, baseOwner, user, headArg) == Ok(QualifyHead(baseOwner, headArg))
    ensures headArg == "" && repo.currentBranch.Err? ==>
      CurrentHead(repo, baseOwner, user, headArg) == Err(Message(repo.currentBranch.error))
    ensures headArg == "" && repo.currentBranch.Ok? ==>
      var branch := repo.currentBranch.value;
      var short := repo.shortName(branch.name);
      var h := CurrentHead(repo, baseOwner, user, headArg);
      && (FindPushTarget(repo, branch).Ok? ==>
            var (tracking, p) := FindPushTarget(repo, branch).value;
            h == Ok(p.owner + ":" + repo.shortName(repo.config[ConfigKey(short, "merge")])) &&
            tracking.name == repo.config[ConfigKey(short, "merge")])
      && (FindPushTarget(repo, branch).Err? && DeducePushTarget(repo, branch, user).Ok? ==>
            h == Ok(DeducePushTarget(repo, branch, user).value.owner + ":" + short))
      && (FindPushTarget(repo, branch).Err? && DeducePushTarget(repo, branch, user).Err? ==>
            h == Ok(baseOwner + ":" + short))
  {
  }

  /** The filters of the current-pull-request lookup. */
  function CurrentPullFilters(head: string): (filters: map<string, string>)
    ensures filters.Keys == {"state", "head"}
    ensures filters["state"] == "open" && filters["head"] == head
  {
    map["state" := "open", "head" := head]
  }

  /** findCurrentPullRequest: `list` is FetchPullRequests on the base project
      with the given filters and limit. */
  function FindCurrentPullRequest(repo: LocalRepo, baseOwner: string, user: string, headArg: string,
                                  list: (map<string, string>, int) -> Result<seq<PullRequest>, string>)
    : (r: Result<PullRequest, Error>)
    ensures CurrentHead(repo, baseOwner, user, headArg).Err? ==> r == Err(CurrentHead(repo, baseOwner, user, headArg).error)
    ensures CurrentHead(repo, baseOwner, user, headArg).Ok? ==>
      var head := CurrentHead(repo, baseOwner, user, headArg).value;
      match list(CurrentPullFilters(head), 1)
      case Err(e) => r == Err(Message(e))
      case Ok(pulls) =>
        (|pulls| == 1 ==> r == Ok(pulls[0])) &&
        (|pulls| != 1 ==> r == Err(Message("no open pull requests found for branch '" + head + "'")))
    ensures r.Ok? ==>
      exists head :: CurrentHead(repo, baseOwner, user, headArg) == Ok(head) &&
                     list(CurrentPullFilters(head), 1) == Ok([r.value])
  {
    match CurrentHead(repo, baseOwner, user, headArg)
    case Err(e) => Err(e)
    case Ok(head) =>
      match list(CurrentPullFilters(head), 1)
      case Err(e) => Err(Message(e))
      case Ok(pulls) =>
        if |pulls| == 1 then
          assert pulls == [pulls[0]];
          Ok(pulls[0])
        else Err(Message("no open pull requests found for branch '" + head + "'"))
  }

  /** `pr show` on a branch that tracks a branch of a named remote, when no
      open pull request has that head (e.g. `origin/feature` with `origin`
      being upstream-owner/repo): the error names `<remote owner>:<branch>`. */
  lemma ShowWithoutOpenPull(repo: LocalRepo, baseOwner: string, user: string, branch: Branch, remote: string, p: Project,
                            list: (map<string, string>, int) -> Result<seq<PullRequest>, string>)
    requires repo.currentBranch == Ok(branch)
    requires var short := repo.shortName(branch.name);
      && ConfigKey(short, "remote") in repo.config && repo.config[ConfigKey(short, "remote")] == remote
      && remote != "." && ConfigKey(short, "merge") in repo.config
    requires remote in repo.remotes && repo.remotes[remote] == Ok(p)
    requires var tracking := repo.config[ConfigKey(repo.shortName(branch.name), "merge")];
      list(CurrentPullFilters(p.owner + ":" + repo.shortName(tracking)), 1) == Ok([])
    ensures var tracking := repo.config[ConfigKey(repo.shortName(branch.name), "merge")];
      FindCurrentPullRequest(repo, baseOwner, user, "", list)
      == Err(Message("no open pull requests found for branch '" + p.owner + ":" + repo.shortName(tracking) + "'"))
  {
    var tracking := repo.config[ConfigKey(repo.shortName(branch.name), "merge")];
    assert BranchTrackingInformation(repo, branch) == Ok((remote, Branch(branch.repo, tracking)));
    assert FindPushTarget(repo, branch) == Ok((Branch(branch.repo, tracking), p));
    var head := p.owner + ":" + repo.shortName(tracking);
    assert CurrentHead(repo, baseOwner, user, "") == Ok(head);
    assert list(CurrentPullFilters(head), 1) == Ok([]);
    assert "no open pull requests found for branch '" + head + "'"
           == "no open pull requests found for branch '" + p.owner + ":" + repo.shortName(tracking) + "'";
  }

  /** The flags of `pr show` (a flag not given reads as "" or false). */
  datatype ShowOptions = ShowOptions(head: string, format: string, printUrl: bool, copyUrl: bool)

  /** What the base project's client offers to `pr show`. */
  datatype PullsApi = PullsApi(
    list: (map<string, string>, int) -> Result<seq<PullRequest>, string>, // FetchPullRequests
    get: string -> Result<PullRequest, string>,                           // PullRequest by number
    webUrl: string -> string)                                             // base project's WebURL for a path

  /** The base project and the login of the authenticated user. */
  datatype ShowContext = ShowContext(base: Project, user: string)

  datatype ShowAction =
    | PrintPull(pull: PullRequest, format: string)
    | BrowseOrCopy(url: string, openBrowser: bool, copy: bool)

  /** showPr: a number given as a word opens `pull/<n>`; without words the
      current branch's pull request is looked up. */
  function ShowPr(context: Result<ShowContext, string>, words: seq<string>, opts: ShowOptions,
                  repo: LocalRepo, api: PullsApi): (r: Result<ShowAction, Error>)
    ensures context.Err? ==> r == Err(Message(context.error))
    ensures context.Ok? && |words| > 0 && Atoi(words[0]).Err? ==>
      r == Err(Message("invalid pull request number: '" + words[0] + "'"))
    ensures context.Ok? && |words| > 0 && Atoi(words[0]).Ok? && opts.format == "" ==>
      r == Ok(BrowseOrCopy(api.webUrl("pull/" + Itoa(Atoi(words[0]).value)),
                           !opts.printUrl && !opts.copyUrl, opts.copyUrl))
    ensures context.Ok? && |words| == 0 ==>
      var found := FindCurrentPullRequest(repo, context.value.base.owner, context.value.user, opts.head, api.list);
      && (found.Err? ==> r == Err(found.error))
      && (found.Ok? && opts.format != "" ==> r == Ok(PrintPull(found.value, opts.format)))
      && (found.Ok? && opts.format == "" ==>
            r == Ok(BrowseOrCopy(found.value.htmlUrl, !opts.printUrl && !opts.copyUrl, opts.copyUrl)))
  {
    match context
    case Err(e) => Err(Message(e))
    case Ok(ctx) =>
      var target: Result<(string, Option<PullRequest>, int), Error> :=
        if |words| > 0 then
          match Atoi(words[0])
          case Ok(n) => Ok((api.webUrl("pull/" + Itoa(n)), None, n))
          case Err(_) => Err(Message("invalid pull request number: '" + words[0] + "'"))
        else
          match FindCurrentPullRequest(repo, ctx.base.owner, ctx.user, opts.head, api.list)
          case Err(e) => Err(e)
          case Ok(pr) => Ok((pr.htmlUrl, Some(pr), 0));
      match target
      case Err(e) => Err(e)
      case Ok((openUrl, found, number)) =>
        if opts.format != "" then
          match found
          case Some(pr) => Ok(PrintPull(pr, opts.format))
          case None =>
            match api.get(Itoa(number))
            case Err(e) => Err(Message(e))
            case Ok(pr) => Ok(PrintPull(pr, opts.format))
        else Ok(BrowseOrCopy(openUrl, !opts.printUrl && !opts.copyUrl, opts.copyUrl))
  }

  /** With --format and a number word, the pull request fetched is the one
      whose number the word spells: the text sent parses back to it. */
  lemma ShowFetchesRequestedNumber(context: Result<ShowContext, string>, words: seq<string>, opts: ShowOptions,
                                   repo: LocalRepo, api: PullsApi)
    requires context.Ok? && |words| > 0 && Atoi(words[0]).Ok? && opts.format != ""
    ensures var sent := Itoa(Atoi(words[0]).value);
      && Atoi(sent) == Atoi(words[0])
      && ShowPr(context, words, opts, repo, api) ==
           match api.get(sent)
           case Err(e) => Err(Message(e))
           case Ok(pr) => Ok(PrintPull(pr, opts.format))
  {
    AtoiItoa(Atoi(words[0]).value);
  }

  // ------------------------------------------------- formatPullRequest

  /** The placeholder map of formatPullRequest: the issue placeholders
      without `NC` and `Nc`, then every pull-request placeholder on top. */
  method FormatPlaceholders(issue: map<string, string>, pull: map<string, string>) returns (placeholders: map<string, string>)
    ensures placeholders.Keys == (issue.Keys - {"NC", "Nc"}) + pull.Keys
    ensures forall k | k in pull :: placeholders[k] == pull[k]
    ensures forall k | k in issue && k !in pull && k != "NC" && k != "Nc" :: placeholders[k] == issue[k]
  {
    placeholders := issue - {"NC"};
    placeholders := placeholders - {"Nc"};
    var pending := pull.Keys;
    while pending != {}
      invariant pending <= pull.Keys
      invariant placeholders.Keys == (issue.Keys - {"NC", "Nc"}) + (pull.Keys - pending)
      invariant forall k | k in pull && k !in pending :: placeholders[k] == pull[k]
      invariant forall k | k in issue && k !in pull && k != "NC" && k != "Nc" :: placeholders[k] == issue[k]
      decreases pending
    {
      var k :| k in pending;
      placeholders := placeholders[k := pull[k]];
      pending := pending - {k};
    }
  }
}
