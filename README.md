# hub `clone` and `pr` handlers in Dafny

This project models two command handlers of hub, the command-line companion
to git that knows about GitHub:

- `clone` (also used by `submodule add`). It drops the deprecated `-p` flag
  and registers git's value-taking flags for `clone` or `submodule`. It then
  looks at the first positional argument only. When that argument is a
  `[owner/]name` shorthand and not already cloneable, it is replaced by the
  clone URL of the repository. The owner defaults to the default host's user.
  A `.wiki` suffix is stripped before the lookup and re-checked after it. An
  HTTP 404 becomes a fixed message. The owner and name come from GitHub's
  answer. The transport is SSH when `-p` was given, or, when SSH is allowed
  and the protocol is not HTTPS, when the repository is private or pushable.
- `pr list`, `pr checkout` and `pr show`. The model covers the request
  filters of `pr list`, including the `merged` state and its post-filter, and
  the default format. It covers the positional words of `checkout` and
  `show`, and the four-level choice of the `owner:branch` head that `show`
  looks up. That choice goes through tracking information, the push target
  and the deduced push target. The lookup must find exactly one open pull
  request. Finally, it covers the placeholder map used to format a pull
  request.

Files:

- `base.dfy`: Option, Result, the handlers' errors, and string helpers.
- `strconv.dfy`: strconv.Atoi and Itoa for a 64-bit `int`.
- `github.dfy`: Host, Project, Repository and PullRequest values.
- `args.dfy`: the `Args` class. It holds the argument vector that the
  handlers edit in place.
- `clone.dfy`: commands/clone.go.
- `pr.dfy`: commands/pr.go.

A handler's error goes to utils.Check, which prints it and exits. In the
model, such an error is returned as an `Err` or `Some(error)` value.

Everything the handlers ask the outside world is an input. This covers
GitHub (repository lookup, pull-request list and fetch), git's configuration
and remotes, the current branch, the default host, the protocol setting, the
argument parser's positional indices, the NameWithOwnerRe regular
expression, isCloneable, and the URL builders. In `clone.dfy`, these inputs
are bundled in `CloneEnv`. In `pr.dfy`, they are bundled in `LocalRepo` and
`PullsApi`, or passed as parameters. The argument parser is assumed to return
positional indices that are in range and strictly increasing
(`ParserWellBehaved`).

## Model

| member | source | states |
|---|---|---|
| `CommandArgs.Args.IndexOfParam` | commands/clone.go:90 | returns the index of the first parameter equal to the name, or -1 exactly when no parameter is equal to it |
| `CommandArgs.Args.RemoveParam` | commands/clone.go:91 | returns the parameter at the index; the new list is the old one with that index cut out, and nothing else changes |
| `CommandArgs.Args.ReplaceParam` | commands/clone.go:83 | only the parameter at the index changes; the length and every other parameter stay |
| `CommandArgs.Args.NoForward` | commands/pr.go:198 | marks the invocation as not forwarded to git; leaves the parameters alone |
| `CommandArgs.Args.Replace` | commands/pr.go:279 | the executable, the subcommand and the parameters become the given ones |
| `Base.HasSuffix` | commands/clone.go:124 | true exactly when the text is some prefix followed by the suffix |
| `Base.Contains` | commands/clone.go:133-135 | true exactly when the substring occurs at some position of the text |
| `Base.IndexOf` | commands/clone.go:101-104 | the index of the first occurrence of a character: it holds the character and no earlier position does |
| `Base.TrimSuffix` | commands/clone.go:124-127 | with the suffix present, the result followed by the suffix is the input; without it, the input is unchanged |
| `Clone.RemoveFirst` | commands/clone.go:89-96 | without the element, the list is unchanged; with it, the list is one shorter and its multiset loses exactly one copy of the element |
| `Clone.RemoveFirstAt` | commands/clone.go:90-91 | removing the first occurrence equals cutting out the parameter at the first index holding it |
| `Clone.ParseClonePrivateFlag` | commands/clone.go:89-96 | returns true exactly when `-p` occurs; the parameters lose their first `-p` and nothing else |
| `Clone.CloneValueFlags` | commands/clone.go:58-75 | `--branch`/`-b`, `--depth` and `--reference` are always registered; `--name` only for `submodule`; `--config`/`-c`, `--jobs`/`-j`, `--origin`/`-o`, `--reference-if-able`, `--separate-git-dir`, `--shallow-exclude`, `--shallow-since`, `--template` and `--upload-pack`/`-u` only for other commands; no other spelling is registered |
| `Clone.SplitNameWithOwner` | commands/clone.go:99-105 | with a `/`, the owner (which has no `/`), a `/` and the name rebuild the input; without one, the owner is empty and the name is the whole input |
| `Clone.CloneTargetOf` | commands/clone.go:98-129 | a non-empty owner before the first `/` is used, with no host chosen; an empty owner (no `/`, or a leading `/`) is replaced by the default host's user on that host, and a missing default host is a cloning error; the stripped name plus `.wiki` (when it was there) is the requested name |
| `Clone.GetCloneUrl` | commands/clone.go:98-156 | a lookup error containing `HTTP 404` becomes `Error: repository <owner>/<name> doesn't exist` with the requested names; other errors pass through unchanged; a wiki request for a repository without one fails with `Error: <owner>/<name> doesn't have a wiki`; otherwise the owner and name are GitHub's, `.wiki` is re-appended exactly when requested, and SSH is chosen iff `-p` was given or (SSH allowed, not HTTPS, and private or pushable) |
| `Clone.CloneWithOwner` | commands/clone.go:98-155 | `clone owner/name` of a public repository without push access, over git's protocol, gives GitHub's names and plain transport |
| `Clone.CloneWithoutOwner` | commands/clone.go:98-155 | `clone name` looks the repository up under the default host's user on that host, takes GitHub's names, and without `-p` uses SSH exactly when the protocol is not HTTPS and the repository is private or pushable |
| `Clone.SubmoduleNeverChoosesSsh` | commands/clone.go:149-153 | when SSH is not allowed (`submodule`) and `-p` was not given, the transport is never SSH |
| `Clone.RewriteFirstPositional` | commands/clone.go:76-86 | the length is preserved; every parameter except the first positional one is unchanged; the first positional parameter changes only if it matches the name-with-owner pattern and is not cloneable; then it becomes the rendered clone URL, or the URL error is reported and nothing changes; in every other case nothing changes and there is no failure |
| `Clone.TransformCloneArgs` | commands/clone.go:55-87 | the new parameters are the first positional rewrite of the parameters without their first `-p`, with `-p`'s presence choosing SSH and the subcommand choosing the flags and whether SSH is allowed |
| `Clone.Clone` | commands/clone.go:49-53 | an empty parameter list stays unchanged; otherwise the result is that of TransformCloneArgs |
| `Strconv.Atoi` | commands/pr.go:261-263 | the result fits a 64-bit int; a rejection names the rejected text |
| `Strconv.AtoiOfDigits` | commands/pr.go:261-263 | a non-empty text of digits, with or without a leading `+`, whose value fits is accepted with its decimal value |
| `Strconv.AtoiRejectsOutOfRange` | commands/pr.go:261-263 | an optional sign and digits whose signed value does not fit a 64-bit int are rejected |
| `Strconv.AtoiOfNegativeDigits` | commands/pr.go:261-263 | `-` followed by digits whose value fits is accepted with the negated value |
| `Strconv.AtoiRejectsNoDigits` | commands/pr.go:261-263 | the empty text and a lone sign are rejected |
| `Strconv.AtoiRejectsNonDigit` | commands/pr.go:261-263 | a non-digit anywhere except a leading sign makes the text rejected |
| `Strconv.Itoa` | commands/pr.go:313 | the text of a non-negative number is all digits with that value and no leading zero (except `0` itself); a negative number gives `-` followed by the digits of its magnitude, again with no leading zero |
| `Strconv.DigitsValue` | commands/pr.go:313 | the decimal text of a natural number is non-empty, all digits, has that value, and starts with a zero only when it is `0` |
| `Strconv.AtoiItoa` | commands/pr.go:313 | parsing the decimal text of any 64-bit integer gives back the integer |
| `Pr.QualifyHead` | commands/pr.go:214-220 | the result has a `:` and ends with the head; a head with a `:` is kept verbatim; otherwise `<owner>:` is put in front |
| `Pr.QualifyHeadIdempotent` | commands/pr.go:333-337 | qualifying an already qualified head changes nothing, whatever the owner |
| `Pr.ListFilters` | commands/pr.go:204-232 | `state`, `sort`, `base` and `head` are present exactly when their flags were received, and no other keys except `direction`; `head` is owner-qualified; `direction` is `asc` iff `--sort-ascending`, else `desc`; state `merged` is sent as `closed` and sets onlyMerged, which holds iff the state was `merged` |
| `Pr.KeepPull` | commands/pr.go:240-242 | without onlyMerged every pull request is kept; with it, exactly the merged ones are kept |
| `Pr.OnlyMergedStateFilters` | commands/pr.go:228-242 | for any state but `merged`, every pull request passes the post-filter; for `merged`, `closed` is sent and only merged pull requests pass |
| `Pr.ListPulls` | commands/pr.go:189-238 | an error finding the project stops before anything else; otherwise forwarding is switched off; a dry run requests nothing; else the request has the filters above, the given limit, and the format `%pC%>(8)%i%Creset  %t%  l%n` iff `--format` was not received |
| `Pr.CheckoutWords` | commands/pr.go:252-263 | no words fails with `Error: No pull request number given`; the first word must parse as an integer, or its parse error is returned; the second word, when present, is the new branch name |
| `Pr.CheckoutIgnoresExtraWords` | commands/pr.go:257-259 | words after the second do not change the outcome |
| `Pr.CheckoutPr` | commands/pr.go:251-280 | a word, fetch or transform error leaves the arguments unchanged and is returned; otherwise the command line becomes `checkout` with the transformed arguments, and the executable is kept |
| `Pr.BranchTrackingInformation` | commands/pr.go:362-379 | succeeds iff `branch.<name>.remote` is set and is not `.`, and `branch.<name>.merge` is set; then it returns that remote and a branch of the same repository named by the merge ref; `.` fails with `branch is tracking another local branch` |
| `Pr.FindPushTarget` | commands/pr.go:381-404 | tracking errors pass through; a remote that exists by name gives its project, and only a remote that does not is parsed as a URL; the head branch is the tracking branch |
| `Pr.DeducePushTarget` | commands/pr.go:406-412 | no remote for the branch fails with `no remote found for branch <name>`; otherwise it succeeds exactly when that remote's project does, with that project |
| `Pr.CurrentHead` | commands/pr.go:331-348 | the only failure is a missing current branch without `--head`; every head holds a `:`; without `--head`, the head ends in `:` and the short name of the current branch or of the push target's tracking branch |
| `Pr.HeadPrecedence` | commands/pr.go:333-348 | the head is the explicit `--head` (owner-qualified), else `<push project owner>:<tracking branch>`, else `<deduced owner>:<current branch>`, else `<base owner>:<current branch>`; a current-branch error stops the lookup |
| `Pr.CurrentPullFilters` | commands/pr.go:328-330 | the lookup filters are exactly `state=open` and the head |
| `Pr.FindCurrentPullRequest` | commands/pr.go:327-360 | GitHub is asked with the open-state filters and limit 1; exactly one result is returned; any other count fails with `no open pull requests found for branch '<head>'`; fetch errors are returned unchanged |
| `Pr.ShowWithoutOpenPull` | commands/pr.go:327-360 | on a branch tracking a named remote's branch with no open pull request, the failure names `<remote owner>:<tracking branch>` |
| `Pr.ShowPr` | commands/pr.go:282-325 | a non-numeric first word fails with `invalid pull request number: '<word>'`; a number opens the base project's `pull/<n>`; without words, the current pull request's URL is used, or the lookup error is returned; `--format` prints the pull request; otherwise the URL is opened, printed or copied per `--url`/`--copy` |
| `Pr.ShowFetchesRequestedNumber` | commands/pr.go:311-315 | with `--format` and a number word, the pull request fetched is the one named by the text of that number, which parses back to it |
| `Pr.FormatPlaceholders` | commands/pr.go:414-421 | the keys are the issue keys minus `NC` and `Nc`, plus the pull-request keys; every pull-request key has the pull-request value; every other kept issue key has its issue value |

## Left out

- Network I/O with GitHub is left out: client construction, repository lookup, FetchPullRequests with its pagination, limit and lazy post-filtering, fetching a pull request by number, and PromptForHost. Their results are inputs.
- Reads of the local repository are left out: git.Config, git.ParseURL, RemoteByName, RemoteForBranch, LocalRepo, MainProject and CurrentBranch. Their answers are inputs (`LocalRepo`, a project `Result`).
- Helpers whose code is not part of this model are kept abstract as function inputs: the argument parser (ArgsParser.Parse, PositionalIndices), NameWithOwnerRe, isCloneable, Project.GitURL and WebURL, github.NewProject's choice of a host for an empty host name, Branch.ShortName, transformCheckoutArgs, formatIssuePlaceholders, formatPullRequestPlaceholders, ui.Expand and colorizeOutput. The expansion of the format string after the placeholder map is built is therefore not modelled.
- Output is left out: ui.Print*, printing the dry-run message, opening a browser or copying to the clipboard (printBrowseOrCopy). `Pr.ShowPr` returns the action to take instead.
- `Pr.ShowPr` does not model the `args.NoForward()` call at commands/pr.go:310. It is a function of its inputs; every successful plan means forwarding is off.
- `Clone.CloneValueFlags` records every spelling that takes a value, but not which short spelling is an alias of which long one.
- `Strconv.Atoi`'s error text is not modelled. Go distinguishes a syntax error from a range error; the model has one `InvalidInteger` error for both.
- The text that github.FormatError gives a missing default host is not modelled: it is the `CloningFailed` error carrying the cause.
- The text of an error from git.Config is not modelled: it is the `ConfigUnset` error naming the key.
- Command registration (init), the usage and help text, and the `pr` help command are static data.
- `remote add` (transformRemoteArgs) is not part of this model.
