/** `publishRelease` (index.js:31-211): one call resolves the version token, bumps package.json,
    publishes to the chosen destinations and optionally commits and pushes the bump. Every external
    effect is an input (`Env`); the model records the commands issued and how the returned promise
    settles. */
module Release {
  import opened Wrappers
  import opened VersionToken
  import opened Promises
  import opened Commands

  /** The `options` object. `commit` and `quiet` stand for the truthiness of those properties;
      `pkgVersion` is read only to build the unknown-version message. `quiet` only mirrors
      `options.quiet`: it switches output alone, and output is not modelled. */
  datatype Options = Options(dest: Option<string>, commit: bool, quiet: bool, pkgVersion: Option<string>)

  /** What the outside world answers: whether the bump fails (the `err` branch of index.js:76-77,
      which a stream's argument-less `'end'` event does not reach as written), the `version` that
      `require(pkg)` yields, and the exit code of every git invocation. */
  datatype Env = Env(bumpFails: bool, manifestVersion: string, exitCode: ExitCodes)

  /** The token as the bump step sees it: its normalised text and the option it selects. */
  datatype Request = Request(value: string, kind: Option<BumpKind>)

  /** Where index.js:146-155 sends a release. */
  datatype Route = NpmOnly | GithubOnly | Both

  const BumpFailed := "failed to bump version in package.json"

  /** `options || {}`. */
  function OrDefaults(options: Option<Options>): Options
  {
    if options.Some? then options.value else Options(None, false, false, None)
  }

  /** `version || 'patch'`: an absent or empty token means `patch`. */
  function DefaultToken(token: Option<string>): string
  {
    if token.None? || token.value == "" then "patch" else token.value
  }

  /** What index.js:51-61 makes of the token: the normalised `version`, and the bump option it
      selects, `None` when it is rejected. */
  function ReadToken(token: Option<string>): Request
  {
    var value := Normalize(DefaultToken(token));
    Request(value, Classify(value))
  }

  /** JavaScript truthiness of `options.dest`. */
  predicate IsSet(dest: Option<string>)
  {
    dest.Some? && dest.value != ""
  }

  /** index.js:35: a destination that is set and is neither `npm` nor `github`. */
  predicate DestInvalid(dest: Option<string>)
  {
    IsSet(dest) && dest.value != "npm" && dest.value != "github"
  }

  /** The `+` of a string and a possibly undefined value. */
  function JsConcat(prefix: string, x: Option<string>): string
  {
    prefix + if x.Some? then x.value else "undefined"
  }

  function UnknownDest(dest: Option<string>): string
  {
    JsConcat("unknown [dest]: ", dest)
  }

  function UnknownVersion(pkgVersion: Option<string>): string
  {
    JsConcat("unknown [version]: ", pkgVersion)
  }

  /** index.js:147-154: an invalid destination falls through to the `Promise.all` branch. */
  function RouteOf(dest: Option<string>): Route
  {
    if dest == Some("npm") then NpmOnly
    else if dest == Some("github") then GithubOnly
    else Both
  }

  // ---------------------------------------------------------------------------------------------
  // What each step does, as a function of the call's inputs

  /** The module-level `bumpOption` after the call: unchanged when the token is rejected. */
  function NextBumpOption(req: Request, before: Option<BumpKind>): Option<BumpKind>
  {
    if req.kind.Some? then req.kind else before
  }

  /** How the promise of `bumpPackageJson` settles: the unknown-version rejection comes before
      the outcome of the bump stream. */
  function BumpSettlement(req: Request, opts: Options, env: Env): Settlement
  {
    if req.kind.None? then Rejected(UnknownVersion(opts.pkgVersion))
    else if env.bumpFails then Rejected(BumpFailed)
    else Resolved
  }

  /** `publish()`: the npm stub issues nothing and resolves; the github branch is the tag chain. */
  function PublishRun(opts: Options, env: Env): Run
  {
    match RouteOf(opts.dest)
    case NpmOnly => Run(Resolved, [])
    case GithubOnly => Chain(GithubSteps(env.manifestVersion), env.exitCode)
    case Both =>
      var github := Chain(GithubSteps(env.manifestVersion), env.exitCode);
      Run(All(github.settlement, Resolved), github.issued)
  }

  /** `commitAndPush()`: nothing unless `options.commit`, otherwise the add-commit-push chain. */
  function CommitRun(opts: Options, env: Env): Run
  {
    if !opts.commit then Run(Resolved, [])
    else Chain(CommitSteps(env.manifestVersion), env.exitCode)
  }

  /** The part of the chain after the bump: publish, then commitAndPush once publish resolved. */
  function AfterBump(opts: Options, env: Env): Run
  {
    var publish := PublishRun(opts, env);
    var commit := CommitRun(opts, env);
    if publish.settlement.Rejected? then publish
    else Run(commit.settlement, publish.issued + commit.issued)
  }

  /** The chain from the bump's settlement on: the bump's rejection ends it, otherwise publish and
      commitAndPush run. */
  function AfterToken(req: Request, opts: Options, env: Env): Run
  {
    var bump := BumpSettlement(req, opts, env);
    if bump.Rejected? then Run(bump, []) else AfterBump(opts, env)
  }

  /** How the chain bump, publish, commitAndPush, success settles: the first rejection, or `Resolved`. */
  function ChainSettlement(req: Request, opts: Options, env: Env): Settlement
  {
    AfterToken(req, opts, env).settlement
  }

  /** Every `resolve`/`reject` call reached on the promise `publishRelease` returns, in order. */
  function Calls(req: Request, opts: Options, env: Env): seq<Settlement>
  {
    (if DestInvalid(opts.dest) then [Rejected(UnknownDest(opts.dest))] else []) +
    [ChainSettlement(req, opts, env)]
  }

  /** What the returned promise settles on. */
  function Result(req: Request, opts: Options, env: Env): Settlement
  {
    Calls(req, opts, env)[0]
  }

  /** The gulp-bump run a call starts, whatever the token. */
  function BumpCommand(req: Request, before: Option<BumpKind>): Command
  {
    Bump(NextBumpOption(req, before), req.value)
  }

  /** The commands issued by a call: the bump, then the steps that the chain reaches. */
  function Issued(req: Request, opts: Options, env: Env, before: Option<BumpKind>): seq<Command>
  {
    [BumpCommand(req, before)] + AfterToken(req, opts, env).issued
  }

  /** The call's `version` variable at the end: the normalised token, replaced by the manifest
      version on the github-only route (index.js:150). */
  function FinalVersion(req: Request, opts: Options, env: Env): string
  {
    if BumpSettlement(req, opts, env) == Resolved && RouteOf(opts.dest) == GithubOnly
    then env.manifestVersion
    else req.value
  }

  // ---------------------------------------------------------------------------------------------
  // The pipeline, step by step

  /** The loaded module, and the state of its latest `publishRelease` call. */
  class Releaser {
    /** The module-level `bumpOption` (index.js:16): it survives from one call to the next. */
    var bumpOption: Option<BumpKind>
    /** The call's `version`: the parameter of `publishRelease` (index.js:31), which shadows the
        module-level `version` of index.js:16 that is never used. */
    var version: string
    /** The promise the call returns: `None` while pending. */
    var result: Option<Settlement>
    /** The `resolve`/`reject` calls reached on that promise, in order. */
    ghost var calls: seq<Settlement>
    /** The commands the call issued, in order. */
    var log: seq<Command>

    ghost predicate Valid()
      reads this
    {
      result == Settled(calls)
    }

    constructor ()
      ensures Valid()
      ensures bumpOption == None && result == None && calls == [] && log == []
    {
      bumpOption, version, result, calls, log := None, "", None, [], [];
    }

    /** `resolve()` or `reject(reason)` on the returned promise: only the first call takes effect. */
    method Settle(s: Settlement)
      requires Valid()
      modifies this`result, this`calls
      ensures Valid()
      ensures calls == old(calls) + [s]
      ensures result == if old(result).None? then Some(s) else old(result)
    {
      calls := calls + [s];
      assert calls[..|calls| - 1] == old(calls);
      result := SettleOnce(result, s);
    }

    /** index.js:46-83. The unknown-version `reject` does not return, so the bump stream still runs,
        with whatever `bumpOption` an earlier call left behind. */
    method BumpPackageJson(token: Option<string>, opts: Options, env: Env) returns (p: Settlement, ghost req: Request)
      modifies this`version, this`bumpOption, this`log
      ensures req == ReadToken(token)
      ensures version == req.value
      ensures bumpOption == NextBumpOption(req, old(bumpOption))
      ensures log == old(log) + [BumpCommand(req, old(bumpOption))]
      ensures p == BumpSettlement(req, opts, env)
    {
      req := ReadToken(token);
      var state: Option<Settlement> := None;
      version := DefaultToken(token);
      version := Normalize(version);
      var kind := Classify(version);
      if kind.Some? {
        bumpOption := kind;
      } else {
        state := SettleOnce(state, Rejected(UnknownVersion(opts.pkgVersion)));
      }
      log := log + [Bump(bumpOption, version)];
      if env.bumpFails {
        state := SettleOnce(state, Rejected(BumpFailed));
      } else {
        state := SettleOnce(state, Resolved);
      }
      p := state.value;
    }

    /** index.js:163-194: tag, then push the tag once the tag exited with 0. */
    method PublishToGithub(v: string, env: Env) returns (p: Settlement)
      modifies this`log
      ensures p == Chain(GithubSteps(v), env.exitCode).settlement
      ensures log == old(log) + Chain(GithubSteps(v), env.exitCode).issued
    {
      GithubChainCases(v, env.exitCode);
      var tag := TagName(v);
      log := log + [Git(["tag", tag])];
      if env.exitCode(["tag", tag]) == 0 {
        log := log + [Git(["push", "origin", tag])];
        if env.exitCode(["push", "origin", tag]) == 0 {
          p := Resolved;
        } else {
          p := Rejected(TagPushFailed);
        }
      } else {
        p := Rejected(TagFailed);
      }
    }

    /** index.js:196-200: a stub that issues nothing and resolves. */
    method PublishToNpm() returns (p: Settlement)
      ensures p == Resolved
    {
      p := Resolved;
    }

    /** index.js:146-155. */
    method Publish(opts: Options, env: Env) returns (p: Settlement)
      modifies this`version, this`log
      ensures p == PublishRun(opts, env).settlement
      ensures log == old(log) + PublishRun(opts, env).issued
      ensures version == if RouteOf(opts.dest) == GithubOnly then env.manifestVersion else old(version)
    {
      match RouteOf(opts.dest)
      case NpmOnly =>
        p := PublishToNpm();
      case GithubOnly =>
        version := env.manifestVersion;
        p := PublishToGithub(env.manifestVersion, env);
      case Both =>
        var github := PublishToGithub(env.manifestVersion, env);
        var npm := PublishToNpm();
        p := All(github, npm);
    }

    /** index.js:85-131: add, commit, push, each once the previous one exited with 0. */
    method CommitAndPush(opts: Options, env: Env) returns (p: Settlement)
      modifies this`log
      ensures p == CommitRun(opts, env).settlement
      ensures log == old(log) + CommitRun(opts, env).issued
    {
      if !opts.commit {
        return Resolved;
      }
      CommitChainCases(env.manifestVersion, env.exitCode);
      log := log + [Git(["add", "package.json"])];
      if env.exitCode(["add", "package.json"]) != 0 {
        return Rejected(StageFailed);
      }
      var message := CommitMessage(env.manifestVersion);
      log := log + [Git(["commit", "-m", message])];
      if env.exitCode(["commit", "-m", message]) != 0 {
        return Rejected(CommitFailed);
      }
      log := log + [Git(["push", "origin", "master"])];
      if env.exitCode(["push", "origin", "master"]) != 0 {
        return Rejected(PushFailed);
      }
      p := Resolved;
    }

    /** index.js:202-209. */
    method Success()
      requires Valid()
      modifies this`result, this`calls
      ensures Valid()
      ensures calls == old(calls) + [Resolved]
    {
      Settle(Resolved);
    }

    /** `publish` and then `commitAndPush`, the latter only once the former resolved (index.js:40-41). */
    method PublishThenCommit(opts: Options, env: Env) returns (p: Settlement)
      modifies this`version, this`log
      ensures p == AfterBump(opts, env).settlement
      ensures log == old(log) + AfterBump(opts, env).issued
      ensures version == if RouteOf(opts.dest) == GithubOnly then env.manifestVersion else old(version)
    {
      p := Publish(opts, env);
      if p.Rejected? {
        return;
      }
      p := CommitAndPush(opts, env);
    }

    /** The promise chain of index.js:39-42: bump, publish and commitAndPush, each started only when
        the previous one resolved; `Resolved` means `success` is reached. */
    method RunSteps(token: Option<string>, opts: Options, env: Env) returns (p: Settlement, ghost req: Request)
      modifies this`version, this`bumpOption, this`log
      ensures req == ReadToken(token)
      ensures p == AfterToken(req, opts, env).settlement
      ensures log == old(log) + [BumpCommand(req, old(bumpOption))] + AfterToken(req, opts, env).issued
      ensures bumpOption == NextBumpOption(req, old(bumpOption))
      ensures version == FinalVersion(req, opts, env)
    {
      var bump;
      bump, req := BumpPackageJson(token, opts, env);
      if bump.Rejected? {
        p := bump;
        return;
      }
      p := PublishThenCommit(opts, env);
    }

    /** index.js:31-37: a fresh promise, rejected at once when the destination is unknown. */
    method Start(opts: Options)
      modifies this`result, this`calls, this`log
      ensures Valid()
      ensures calls == if DestInvalid(opts.dest) then [Rejected(UnknownDest(opts.dest))] else []
      ensures log == []
    {
      result, calls, log := None, [], [];
      if DestInvalid(opts.dest) {
        Settle(Rejected(UnknownDest(opts.dest)));
      }
    }

    /** The tail of index.js:39-44: the chain's rejection reaches `.catch(reject)`, otherwise
        `success` resolves; whichever comes after the destination rejection has no effect. */
    method SettleChain(p: Settlement, ghost req: Request, opts: Options, env: Env)
      requires Valid()
      requires calls == if DestInvalid(opts.dest) then [Rejected(UnknownDest(opts.dest))] else []
      requires p == ChainSettlement(req, opts, env)
      modifies this`result, this`calls
      ensures Valid()
      ensures calls == Calls(req, opts, env)
      ensures result == Some(Result(req, opts, env))
    {
      if p.Rejected? {
        Settle(p);
      } else {
        Success();
      }
      FirstCallWins(calls);
    }

    /** index.js:31-44: the destination check rejects without returning, then the step chain runs
        and its first rejection, or `success`, settles the returned promise. */
    method PublishRelease(token: Option<string>, options: Option<Options>, env: Env) returns (ghost req: Request)
      modifies this
      ensures req == ReadToken(token)
      ensures Valid()
      ensures calls == Calls(req, OrDefaults(options), env)
      ensures result == Some(Result(req, OrDefaults(options), env))
      ensures log == Issued(req, OrDefaults(options), env, old(bumpOption))
      ensures bumpOption == NextBumpOption(req, old(bumpOption))
      ensures version == FinalVersion(req, OrDefaults(options), env)
    {
      var opts := OrDefaults(options);
      Start(opts);
      var p;
      p, req := RunSteps(token, opts, env);
      SettleChain(p, req, opts, env);
    }
  }
}
