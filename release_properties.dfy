/** What a `publishRelease` call promises, stated over the specification functions of `Release`
    that the methods of `Release.Releaser` are proved against. */
module ReleaseProperties {
  import opened Wrappers
  import opened Text
  import opened VersionToken
  import opened Promises
  import opened Commands
  import opened Release

  // ---------------------------------------------------------------------------------------------
  // Reading the token (index.js:51-61)

  /** A missing or empty token becomes `patch`, which selects the `type` option. */
  lemma MissingTokenIsPatch(token: Option<string>)
    requires token.None? || token == Some("")
    ensures ReadToken(token) == Request("patch", Some(Type))
  {
    assert forall c :: c in "patch" ==> IsWordChar(c);
    NormalizeKeepsWord("patch");
  }

  /** A keyword, written in lower case, selects `type` and reaches gulp-bump unchanged. */
  lemma KeywordSelectsType(k: string)
    requires k in Keywords
    ensures ReadToken(Some(k)) == Request(k, Some(Type))
  {
    assert forall c :: c in k ==> IsWordChar(c);
    NormalizeKeepsWord(k);
  }

  /** An exact `X.Y.Z` version selects `version` and reaches gulp-bump unchanged. */
  lemma ExactVersionSelectsVersion(v: string)
    requires IsStrictVersion(v)
    ensures ReadToken(Some(v)) == Request(v, Some(Version))
  {
    NormalizeKeepsStrictVersion(v);
    ClassifyStrictVersion(v);
    assert DefaultToken(Some(v)) == v;
  }

  /** White space between the numbers becomes dots: `1 2 3` is the exact version `1.2.3`. */
  lemma SpacedVersion()
    ensures ReadToken(Some("1 2 3")) == Request("1.2.3", Some(Version))
  {
    var ws := ["1", "2", "3"];
    assert ws[1..] == ["2", "3"] && ws[1..][1..] == ["3"];
    assert Join(ws, ' ') == "1 2 3";
    assert Join(ws, '.') == "1.2.3";
    forall i | 0 <= i < 3 ensures IsWord(ws[i]) && IsDigits(ws[i]) {
      assert forall c :: c in ws[i] ==> IsDigit(c);
    }
    WordsOfJoin(ws, ' ');
    NormalizeJoinsWords("1 2 3");
    ClassifyNormalized("1 2 3");
  }

  // ---------------------------------------------------------------------------------------------
  // The pipeline (index.js:31-44)

  /** A rejected token (index.js:59-61): the message names `options.pkgVersion`, not the token;
      the bump is still started, with the `bumpOption` an earlier call left behind, and nothing
      after it runs. An invalid destination, rejected earlier, keeps its own message. */
  lemma UnknownVersionStillBumps(req: Request, opts: Options, env: Env, before: Option<BumpKind>)
    requires req.kind.None?
    ensures Result(req, opts, env) ==
      if DestInvalid(opts.dest) then Rejected(UnknownDest(opts.dest))
      else Rejected("unknown [version]: " + if opts.pkgVersion.Some? then opts.pkgVersion.value else "undefined")
    ensures Issued(req, opts, env, before) == [Bump(before, req.value)]
  {
  }

  /** An invalid destination (index.js:35-37) decides the result, whatever the later steps do; the
      chain still runs and reaches a second, ignored, settlement. */
  lemma InvalidDestinationDecides(req: Request, opts: Options, env: Env, before: Option<BumpKind>)
    requires DestInvalid(opts.dest)
    ensures Result(req, opts, env) == Rejected("unknown [dest]: " + opts.dest.value)
    ensures |Calls(req, opts, env)| == 2
    ensures Issued(req, opts, env, before)[0] == BumpCommand(req, before)
  {
  }

  /** The rejection of an invalid destination does not stop the pipeline: once the bump resolves,
      the destination falls through to the branch that publishes everywhere, so `git tag` is issued. */
  lemma InvalidDestinationStillTags(req: Request, opts: Options, env: Env, before: Option<BumpKind>)
    requires DestInvalid(opts.dest)
    requires req.kind.Some? && !env.bumpFails
    ensures Git(["tag", TagName(env.manifestVersion)]) in Issued(req, opts, env, before)
    ensures Result(req, opts, env).Rejected?
  {
    GithubChainCases(env.manifestVersion, env.exitCode);
    var issued := Issued(req, opts, env, before);
    assert issued[1] == Git(["tag", TagName(env.manifestVersion)]);
  }

  /** The publish branch only issues tag commands, none of the commands of commitAndPush. */
  lemma PublishIssuesNoCommitCommand(opts: Options, env: Env)
    ensures forall c :: c in PublishRun(opts, env).issued ==>
      c !in GitCommands(CommitSteps(env.manifestVersion))
  {
    GithubChainCases(env.manifestVersion, env.exitCode);
    var v := env.manifestVersion;
    var commit := GitCommands(CommitSteps(v));
    assert commit == [Git(["add", "package.json"]), Git(["commit", "-m", CommitMessage(v)]), Git(["push", "origin", "master"])];
    assert TagName(v) != "master" by {
      assert TagName(v)[0] == 'v';
    }
  }

  /** Steps run in the order bump, publish, commitAndPush (index.js:39-44): a rejecting step
      decides the chain's outcome and no command of a later step is issued. */
  lemma StepsInOrder(req: Request, opts: Options, env: Env, before: Option<BumpKind>)
    ensures var bump, publish, commit := BumpSettlement(req, opts, env), PublishRun(opts, env), CommitRun(opts, env);
      var issued := Issued(req, opts, env, before);
      if bump.Rejected? then
        issued == [BumpCommand(req, before)] && ChainSettlement(req, opts, env) == bump
      else if publish.settlement.Rejected? then
        issued == [BumpCommand(req, before)] + publish.issued &&
        ChainSettlement(req, opts, env) == publish.settlement &&
        forall c :: c in issued ==> c !in GitCommands(CommitSteps(env.manifestVersion))
      else
        issued == [BumpCommand(req, before)] + publish.issued + commit.issued &&
        ChainSettlement(req, opts, env) == commit.settlement
  {
    var bump, publish := BumpSettlement(req, opts, env), PublishRun(opts, env);
    if bump.Resolved? && publish.settlement.Rejected? {
      PublishIssuesNoCommitCommand(opts, env);
      assert Issued(req, opts, env, before) == [BumpCommand(req, before)] + publish.issued;
      assert BumpCommand(req, before).Bump?;
    }
  }

  /** The call resolves exactly when the destination is valid, the token is accepted, the bump
      succeeds and every git command of the branches taken exits with 0 (index.js:39-44, 202-209). */
  lemma ResolvesExactlyWhenAllStepsSucceed(req: Request, opts: Options, env: Env)
    ensures var v, code := env.manifestVersion, env.exitCode;
      Result(req, opts, env) == Resolved <==>
        !DestInvalid(opts.dest) && req.kind.Some? && !env.bumpFails &&
        (RouteOf(opts.dest) != NpmOnly ==>
          code(["tag", TagName(v)]) == 0 && code(["push", "origin", TagName(v)]) == 0) &&
        (opts.commit ==>
          code(["add", "package.json"]) == 0 && code(["commit", "-m", CommitMessage(v)]) == 0 &&
          code(["push", "origin", "master"]) == 0)
  {
    GithubChainCases(env.manifestVersion, env.exitCode);
    CommitChainCases(env.manifestVersion, env.exitCode);
  }

  // ---------------------------------------------------------------------------------------------
  // Dispatch by destination (index.js:146-155, 196-200)

  /** The npm stub issues no command and resolves. */
  lemma NpmPublishesNothing(opts: Options, env: Env)
    requires opts.dest == Some("npm")
    ensures PublishRun(opts, env) == Run(Resolved, [])
  {
  }

  /** The github destination runs the tag chain for the manifest's version. */
  lemma GithubPublishesTag(opts: Options, env: Env)
    requires opts.dest == Some("github")
    ensures var r := PublishRun(opts, env);
      r == Chain(GithubSteps(env.manifestVersion), env.exitCode) &&
      r.issued[0] == Git(["tag", TagName(env.manifestVersion)])
  {
    GithubChainCases(env.manifestVersion, env.exitCode);
  }

  /** With no destination both branches run and are joined; as the npm branch always resolves,
      the call issues the same commands and settles the same way as with `github`. */
  lemma UnsetDestinationActsAsGithub(req: Request, opts: Options, env: Env, before: Option<BumpKind>)
    requires !IsSet(opts.dest)
    ensures var github := opts.(dest := Some("github"));
      Result(req, opts, env) == Result(req, github, env) &&
      Issued(req, opts, env, before) == Issued(req, github, env, before)
  {
  }

  // ---------------------------------------------------------------------------------------------
  // Two whole releases

  /** An accepted token, every destination, committing, every git command exiting with 0: the bump,
      the tag and its push, then add, commit and push, and the call resolves. */
  lemma AllStepsSucceed(req: Request, env: Env, before: Option<BumpKind>)
    requires req.kind.Some? && !env.bumpFails
    requires var v, code := env.manifestVersion, env.exitCode;
      code(["tag", "v" + v]) == 0 && code(["push", "origin", "v" + v]) == 0 &&
      code(["add", "package.json"]) == 0 && code(["commit", "-m", "Bumping to version " + v]) == 0 &&
      code(["push", "origin", "master"]) == 0
    ensures var opts := Options(None, true, false, None);
      var v := env.manifestVersion;
      Result(req, opts, env) == Resolved &&
      Issued(req, opts, env, before) ==
        [Bump(req.kind, req.value),
         Git(["tag", "v" + v]), Git(["push", "origin", "v" + v]),
         Git(["add", "package.json"]), Git(["commit", "-m", "Bumping to version " + v]),
         Git(["push", "origin", "master"])]
  {
    var opts := Options(None, true, false, None);
    var v := env.manifestVersion;
    GithubChainCases(v, env.exitCode);
    var tags := [Git(["tag", "v" + v]), Git(["push", "origin", "v" + v])];
    assert PublishRun(opts, env) == Run(Resolved, tags);
    CommitChainCases(v, env.exitCode);
    var commits := [Git(["add", "package.json"]), Git(["commit", "-m", "Bumping to version " + v]),
                    Git(["push", "origin", "master"])];
    assert CommitRun(opts, env) == Run(Resolved, commits);
    assert AfterBump(opts, env) == Run(Resolved, tags + commits);
  }

  /** An exact version to npm without committing issues the bump and nothing else, and resolves. */
  lemma ExactVersionToNpm(v: string, env: Env, before: Option<BumpKind>)
    requires IsStrictVersion(v)
    requires !env.bumpFails
    ensures var opts := Options(Some("npm"), false, false, None);
      Result(ReadToken(Some(v)), opts, env) == Resolved &&
      Issued(ReadToken(Some(v)), opts, env, before) == [Bump(Some(Version), v)]
  {
    ExactVersionSelectsVersion(v);
  }
}
