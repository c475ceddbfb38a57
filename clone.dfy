/** The `clone` handler (also used for `submodule add`): it drops the
    deprecated `-p` flag, finds the first positional argument and, when that
    is a `[owner/]name` shorthand rather than something cloneable, replaces
    it with the clone URL of the repository GitHub reports. */
module Clone {
  import opened Base
  import opened GitHub
  import opened CommandArgs

  /** What Project.GitURL is asked to render: the project the lookup used
      (it carries the host), the canonical owner and name, and the transport. */
  datatype CloneUrl = CloneUrl(project: Project, owner: string, name: string, ssh: bool)

  /** The collaborators of the handler, whose behaviour is not part of this model. */
  datatype CloneEnv = CloneEnv(
    positionals: (seq<string>, set<string>) -> seq<nat>, // ArgsParser.Parse: positional indices given the value-taking flags
    nameWithOwner: string -> bool,                        // NameWithOwnerRe matches
    cloneable: string -> bool,                            // isCloneable: an existing path or a URL
    defaultHost: Result<Host, string>,                    // CurrentConfig().DefaultHost()
    httpsProtocol: bool,                                  // github.IsHttpsProtocol()
    repository: Project -> Result<Repository, string>,    // Client.Repository (error text on failure)
    gitUrl: CloneUrl -> string)                           // Project.GitURL

  /** What the argument parser promises: positional indices are in range and
      strictly increasing. */
  predicate ValidPositionals(idx: seq<nat>, n: nat) {
    (forall k | 0 <= k < |idx| :: idx[k] < n) &&
    (forall k, l | 0 <= k < l < |idx| :: idx[k] < idx[l])
  }

  ghost predicate ParserWellBehaved(parse: (seq<string>, set<string>) -> seq<nat>) {
    forall ps, flags :: ValidPositionals(parse(ps, flags), |ps|)
  }

  /** The list with its first occurrence of `x` removed. */
  function RemoveFirst(ps: seq<string>, x: string): (r: seq<string>)
    ensures x !in ps ==> r == ps
    ensures x in ps ==> |r| == |ps| - 1
    ensures multiset(r) == multiset(ps) - multiset{x}
  {
    if ps == [] then []
    else
      assert ps == [ps[0]] + ps[1..];
      if ps[0] == x then ps[1..]
      else [ps[0]] + RemoveFirst(ps[1..], x)
  }

  /** Removing the first occurrence is cutting out the element at its index. */
  lemma {:induction false} RemoveFirstAt(ps: seq<string>, x: string, k: nat)
    requires k < |ps| && ps[k] == x && x !in ps[..k]
    ensures RemoveFirst(ps, x) == ps[..k] + ps[k + 1..]
  {
    if k > 0 {
      assert ps[1..][..k - 1] == ps[..k][1..];
      RemoveFirstAt(ps[1..], x, k - 1);
      assert ps[..k] == [ps[0]] + ps[1..][..k - 1];
      assert ps[k + 1..] == ps[1..][k..];
    }
  }

  /** parseClonePrivateFlag: drops the first `-p` and reports whether there was one. */
  method ParseClonePrivateFlag(args: Args) returns (isSSH: bool)
    modifies args
    ensures isSSH == ("-p" in old(args.params))
    ensures args.params == RemoveFirst(old(args.params), "-p")
    ensures args.executable == old(args.executable) && args.command == old(args.command)
    ensures args.noForward == old(args.noForward) && args.noop == old(args.noop)
  {
    var i := args.IndexOfParam("-p");
    if i != -1 {
      RemoveFirstAt(args.params, "-p", i);
      var removed := args.RemoveParam(i);
      return true;
    }
    return false;
  }

  /** The value-taking flags registered before parsing, every spelling of
      each (`--branch` and its alias `-b` are both registered). */
  function CloneValueFlags(command: string): (flags: set<string>)
    ensures "--branch" in flags && "-b" in flags && "--depth" in flags && "--reference" in flags
    ensures "--name" in flags <==> command == "submodule"
    ensures "--config" in flags <==> command != "submodule"
    ensures "-c" in flags <==> command != "submodule"
    ensures "--jobs" in flags <==> command != "submodule"
    ensures "-j" in flags <==> command != "submodule"
    ensures "--origin" in flags <==> command != "submodule"
    ensures "-o" in flags <==> command != "submodule"
    ensures "--upload-pack" in flags <==> command != "submodule"
    ensures "-u" in flags <==> command != "submodule"
    ensures "--separate-git-dir" in flags <==> command != "submodule"
    ensures "--reference-if-able" in flags <==> command != "submodule"
    ensures "--shallow-exclude" in flags <==> command != "submodule"
    ensures "--shallow-since" in flags <==> command != "submodule"
    ensures "--template" in flags <==> command != "submodule"
    ensures flags <= {"--branch", "-b", "--depth", "--reference", "--name", "--config", "-c",
                      "--jobs", "-j", "--origin", "-o", "--reference-if-able", "--separate-git-dir",
                      "--shallow-exclude", "--shallow-since", "--template", "--upload-pack", "-u"}
  {
    var common := {"--branch", "-b", "--depth", "--reference"};
    if command == "submodule" then
      common + {"--name"}
    else
      common + {"--config", "-c", "--jobs", "-j", "--origin", "-o",
                "--reference-if-able", "--separate-git-dir", "--shallow-exclude",
                "--shallow-since", "--template", "--upload-pack", "-u"}
  }

  /** strings.SplitN(s, "/", 2) when `s` holds a `/`; ("", s) otherwise. */
  function SplitNameWithOwner(s: string): (r: (string, string))
    ensures '/' in s ==> r.0 + "/" + r.1 == s && '/' !in r.0
    ensures '/' !in s ==> r == ("", s)
  {
    if '/' in s then
      var k := IndexOf(s, '/');
      assert s == s[..k] + "/" + s[k + 1..];
      (s[..k], s[k + 1..])
    else ("", s)
  }

  /** The repository the shorthand asks for, and whether it named its wiki. */
  datatype CloneTarget = CloneTarget(project: Project, expectWiki: bool)

  /** The first half of getCloneUrl: owner/name split, default owner, and the
      `.wiki` suffix stripped before the lookup. */
  function CloneTargetOf(nameWithOwner: string, defaultHost: Result<Host, string>): (r: Result<CloneTarget, Error>)
    ensures var (owner, name) := SplitNameWithOwner(nameWithOwner);
      owner != "" ==>
        r.Ok? && r.value.project.owner == owner && r.value.project.host == "" &&
        r.value.project.name + (if r.value.expectWiki then ".wiki" else "") == name
    ensures var (owner, name) := SplitNameWithOwner(nameWithOwner);
      owner == "" ==>
        match defaultHost
        case Err(e) => r == Err(CloningFailed(e))
        case Ok(h) =>
          r.Ok? && r.value.project.owner == h.user && r.value.project.host == h.name &&
          r.value.project.name + (if r.value.expectWiki then ".wiki" else "") == name
    ensures r.Ok? ==> (r.value.expectWiki <==> HasSuffix(SplitNameWithOwner(nameWithOwner).1, ".wiki"))
  {
    var (owner, name) := SplitNameWithOwner(nameWithOwner);
    var resolved: Result<(string, string), Error> :=
      if owner == "" then
        match defaultHost
        case Err(e) => Err(CloningFailed(e))
        case Ok(h) => Ok((h.user, h.name))
      else Ok((owner, ""));
    match resolved
    case Err(e) => Err(e)
    case Ok((owner', host)) =>
      var expectWiki := HasSuffix(name, ".wiki");
      Ok(CloneTarget(Project(host, owner', TrimSuffix(name, ".wiki")), expectWiki))
  }

  /** getCloneUrl: looks the repository up, maps a 404 to a fixed message,
      takes the canonical owner and name from GitHub, re-appends `.wiki`
      only for a repository that has one, and picks the transport. */
  function GetCloneUrl(nameWithOwner: string, isSSH: bool, allowSSH: bool, env: CloneEnv): (r: Result<CloneUrl, Error>)
    ensures CloneTargetOf(nameWithOwner, env.defaultHost).Err? ==> r == Err(CloneTargetOf(nameWithOwner, env.defaultHost).error)
    ensures CloneTargetOf(nameWithOwner, env.defaultHost).Ok? ==>
      var t := CloneTargetOf(nameWithOwner, env.defaultHost).value;
      match env.repository(t.project)
      case Err(msg) =>
        r == Err(if Contains(msg, "HTTP 404")
                 then Message("Error: repository " + t.project.owner + "/" + t.project.name + " doesn't exist")
                 else Message(msg))
      case Ok(repo) =>
        (t.expectWiki && !repo.hasWiki ==>
           r == Err(Message("Error: " + repo.ownerLogin + "/" + repo.name + " doesn't have a wiki"))) &&
        (!t.expectWiki || repo.hasWiki ==>
           r.Ok? && r.value.project == t.project && r.value.owner == repo.ownerLogin &&
           r.value.name == repo.name + (if t.expectWiki then ".wiki" else "") &&
           (r.value.ssh <==> isSSH || (allowSSH && !env.httpsProtocol && (repo.isPrivate || repo.canPush))))
  {
    match CloneTargetOf(nameWithOwner, env.defaultHost)
    case Err(e) => Err(e)
    case Ok(t) =>
      match env.repository(t.project)
      case Err(msg) =>
        if Contains(msg, "HTTP 404") then
          Err(Message("Error: repository " + t.project.owner + "/" + t.project.name + " doesn't exist"))
        else Err(Message(msg))
      case Ok(repo) =>
        if t.expectWiki && !repo.hasWiki then
          Err(Message("Error: " + repo.ownerLogin + "/" + repo.name + " doesn't have a wiki"))
        else
          var name := if t.expectWiki then repo.name + ".wiki" else repo.name;
          var ssh := if !isSSH && allowSSH && !env.httpsProtocol then repo.isPrivate || repo.canPush else isSSH;
          Ok(CloneUrl(t.project, repo.ownerLogin, name, ssh))
  }

  /** `submodule` (which does not allow SSH) never picks SSH unless `-p` asked for it. */
  lemma SubmoduleNeverChoosesSsh(nameWithOwner: string, env: CloneEnv)
    requires GetCloneUrl(nameWithOwner, false, false, env).Ok?
    ensures !GetCloneUrl(nameWithOwner, false, false, env).value.ssh
  {
  }

  /** `clone owner/name` for a public repository the user cannot push to,
      over the git protocol (e.g. `clone rtomayko/ronn`): plain transport,
      names from GitHub. */
  lemma CloneWithOwner(owner: string, name: string, env: CloneEnv, repo: Repository)
    requires owner != "" && '/' !in owner && !HasSuffix(name, ".wiki")
    requires !env.httpsProtocol && !repo.isPrivate && !repo.canPush
    requires env.repository(Project("", owner, name)) == Ok(repo)
    ensures GetCloneUrl(owner + "/" + name, false, true, env)
            == Ok(CloneUrl(Project("", owner, name), repo.ownerLogin, repo.name, false))
  {
    var s := owner + "/" + name;
    var k := IndexOf(s, '/');
    assert s[|owner|] == '/' && s[..|owner|] == owner;
    assert k == |owner|;
    assert s[k + 1..] == name;
  }

  /** `clone name` (e.g. `clone ronn`) looks the repository up under the
      default host's user on that host; without `-p` the transport is SSH
      exactly when the protocol is not HTTPS and the repository is private
      or pushable. */
  lemma CloneWithoutOwner(name: string, h: Host, env: CloneEnv, repo: Repository)
    requires '/' !in name && !HasSuffix(name, ".wiki")
    requires env.defaultHost == Ok(h)
    requires env.repository(Project(h.name, h.user, name)) == Ok(repo)
    ensures GetCloneUrl(name, false, true, env)
            == Ok(CloneUrl(Project(h.name, h.user, name), repo.ownerLogin, repo.name,
                           !env.httpsProtocol && (repo.isPrivate || repo.canPush)))
  {
  }

  /** The outcome of the rewrite: the new parameters, and the error the
      handler stopped with, if any. */
  datatype Rewrite = Rewrite(params: seq<string>, failure: Option<Error>)

  /** The loop of transformCloneArgs: only the first positional parameter is
      examined (the loop body ends in an unconditional break). */
  function RewriteFirstPositional(ps: seq<string>, isSSH: bool, command: string, env: CloneEnv): (r: Rewrite)
    requires ParserWellBehaved(env.positionals)
    ensures var idx := env.positionals(ps, CloneValueFlags(command));
      && |r.params| == |ps|
      && (forall j | 0 <= j < |ps| && (|idx| == 0 || j != idx[0]) :: r.params[j] == ps[j])
      && (r.params != ps ==>
            |idx| > 0 && env.nameWithOwner(ps[idx[0]]) && !env.cloneable(ps[idx[0]]) && r.failure == None)
      && (r.failure != None ==> r.params == ps)
      && (!(|idx| > 0 && env.nameWithOwner(ps[idx[0]]) && !env.cloneable(ps[idx[0]])) ==>
            r == Rewrite(ps, None))
      && (|idx| > 0 && env.nameWithOwner(ps[idx[0]]) && !env.cloneable(ps[idx[0]]) ==>
            match GetCloneUrl(ps[idx[0]], isSSH, command != "submodule", env)
            case Ok(u) => r == Rewrite(ps[idx[0] := env.gitUrl(u)], None)
            case Err(e) => r == Rewrite(ps, Some(e)))
  {
    var idx := env.positionals(ps, CloneValueFlags(command));
    assert ValidPositionals(idx, |ps|);
    if |idx| == 0 then Rewrite(ps, None)
    else
      var i := idx[0];
      var a := ps[i];
      if env.nameWithOwner(a) && !env.cloneable(a) then
        match GetCloneUrl(a, isSSH, command != "submodule", env)
        case Err(e) => Rewrite(ps, Some(e))
        case Ok(u) => Rewrite(ps[i := env.gitUrl(u)], None)
      else Rewrite(ps, None)
  }

  /** transformCloneArgs. */
  method TransformCloneArgs(args: Args, env: CloneEnv) returns (failure: Option<Error>)
    requires ParserWellBehaved(env.positionals)
    modifies args
    ensures var r := RewriteFirstPositional(RemoveFirst(old(args.params), "-p"), "-p" in old(args.params), old(args.command), env);
      args.params == r.params && failure == r.failure
    ensures args.executable == old(args.executable) && args.command == old(args.command)
    ensures args.noForward == old(args.noForward) && args.noop == old(args.noop)
  {
    var isSSH := ParseClonePrivateFlag(args);
    ghost var stripped := args.params;
    ghost var r := RewriteFirstPositional(stripped, isSSH, args.command, env);
    var positionals := env.positionals(args.params, CloneValueFlags(args.command));
    assert ValidPositionals(positionals, |args.params|);
    if |positionals| == 0 {
      assert r == Rewrite(stripped, None);
    }
    failure := None;
    for k := 0 to |positionals|
      invariant k == 0
      invariant args.params == stripped && failure == None
      invariant args.executable == old(args.executable) && args.command == old(args.command)
      invariant args.noForward == old(args.noForward) && args.noop == old(args.noop)
    {
      var i := positionals[k];
      var a := args.params[i];
      if env.nameWithOwner(a) && !env.cloneable(a) {
        var url := GetCloneUrl(a, isSSH, args.command != "submodule", env);
        match url {
          case Err(e) =>
            assert r == Rewrite(stripped, Some(e));
            failure := Some(e);
            return;
          case Ok(u) =>
            assert r == Rewrite(stripped[i := env.gitUrl(u)], None);
            args.ReplaceParam(i, env.gitUrl(u));
        }
      } else {
        assert r == Rewrite(stripped, None);
      }
      break;
    }
  }

  /** clone: an empty parameter list is left alone. */
  method Clone(args: Args, env: CloneEnv) returns (failure: Option<Error>)
    requires ParserWellBehaved(env.positionals)
    modifies args
    ensures old(args.params) == [] ==> args.params == [] && failure == None
    ensures old(args.params) != [] ==>
      var r := RewriteFirstPositional(RemoveFirst(old(args.params), "-p"), "-p" in old(args.params), old(args.command), env);
      args.params == r.params && failure == r.failure
    ensures args.executable == old(args.executable) && args.command == old(args.command)
    ensures args.noForward == old(args.noForward) && args.noop == old(args.noop)
  {
    failure := None;
    if args.params != [] {
      failure := TransformCloneArgs(args, env);
    }
  }
}
