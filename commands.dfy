/** The external commands the pipeline starts, and the git callback chains of index.js:85-131
    and index.js:163-193, with the exit codes supplied from outside. */
module Commands {
  import opened Wrappers
  import opened VersionToken
  import opened Promises

  /** An external effect: a gulp-bump run over package.json with `bumpOptions[option] = value`
      (`option` is `None` while the module-level `bumpOption` is still undefined), or `spork('git', args)`. */
  datatype Command = Bump(option: Option<BumpKind>, value: string) | Git(args: seq<string>)

  /** The exit code each git invocation reports, by its arguments. */
  type ExitCodes = seq<string> -> int

  /** One link of a callback chain: the git arguments, and the rejection message for a non-zero exit code. */
  datatype Step = Step(args: seq<string>, failure: string)

  /** What a chain of steps settles on, and the commands it issued, in order. */
  datatype Run = Run(settlement: Settlement, issued: seq<Command>)

  const StageFailed := "failed to stage package.json"
  const CommitFailed := "failed to commit to master"
  const PushFailed := "failed to push commit to origin/master"
  const TagFailed := "failed to create git tag"
  const TagPushFailed := "failed to publish release to github"

  /** The tag of a release: the version with a `v` in front. */
  function TagName(version: string): string
  {
    "v" + version
  }

  function CommitMessage(version: string): string
  {
    "Bumping to version " + version
  }

  /** `git tag v<version>`, then `git push origin v<version>`. */
  function GithubSteps(version: string): seq<Step>
  {
    [Step(["tag", TagName(version)], TagFailed),
     Step(["push", "origin", TagName(version)], TagPushFailed)]
  }

  /** `git add package.json`, `git commit -m 'Bumping to version <version>'`, `git push origin master`. */
  function CommitSteps(version: string): seq<Step>
  {
    [Step(["add", "package.json"], StageFailed),
     Step(["commit", "-m", CommitMessage(version)], CommitFailed),
     Step(["push", "origin", "master"], PushFailed)]
  }

  /** The git commands that the steps issue. */
  function GitCommands(steps: seq<Step>): seq<Command>
  {
    seq(|steps|, i requires 0 <= i < |steps| => Git(steps[i].args))
  }

  /** A callback chain of git commands: each step is issued only after the previous one exited with 0. */
  function Chain(steps: seq<Step>, code: ExitCodes): Run
  {
    if steps == [] then Run(Resolved, [])
    else if code(steps[0].args) != 0 then Run(Rejected(steps[0].failure), [Git(steps[0].args)])
    else
      var rest := Chain(steps[1..], code);
      Run(rest.settlement, [Git(steps[0].args)] + rest.issued)
  }

  /** A chain issues a prefix of its steps, all but the last of which exited with 0; it resolves
      exactly when every step was issued and exited with 0, and otherwise rejects with the message
      of the last step issued, whose exit code was not 0. */
  lemma {:induction false} ChainIssuesPrefix(steps: seq<Step>, code: ExitCodes)
    ensures var r := Chain(steps, code);
      |r.issued| <= |steps| &&
      r.issued == GitCommands(steps[..|r.issued|]) &&
      (forall i :: 0 <= i < |r.issued| - 1 ==> code(steps[i].args) == 0) &&
      (r.settlement == Resolved <==>
        |r.issued| == |steps| && forall i :: 0 <= i < |steps| ==> code(steps[i].args) == 0) &&
      (r.settlement.Rejected? ==>
        r.issued != [] && code(steps[|r.issued| - 1].args) != 0 &&
        r.settlement.reason == steps[|r.issued| - 1].failure)
  {
    if steps != [] && code(steps[0].args) == 0 {
      ChainIssuesPrefix(steps[1..], code);
      var rest := Chain(steps[1..], code);
      assert steps[..|rest.issued| + 1] == [steps[0]] + steps[1..][..|rest.issued|];
      assert forall i :: 1 <= i < |steps| ==> steps[i] == steps[1..][i - 1];
    }
  }

  /** index.js:163-193: `git tag v<version>` always comes first; the tag is pushed only when the tag
      exited with 0; each failure has its own message. */
  lemma GithubChainCases(version: string, code: ExitCodes)
    ensures var r := Chain(GithubSteps(version), code);
      var tag, push := ["tag", TagName(version)], ["push", "origin", TagName(version)];
      if code(tag) != 0 then r == Run(Rejected(TagFailed), [Git(tag)])
      else if code(push) != 0 then r == Run(Rejected(TagPushFailed), [Git(tag), Git(push)])
      else r == Run(Resolved, [Git(tag), Git(push)])
  {
    var steps := GithubSteps(version);
    var last := steps[1..];
    assert last[1..] == [];
    assert Chain(last, code) == if code(last[0].args) != 0 then Run(Rejected(TagPushFailed), [Git(last[0].args)])
      else Run(Resolved, [Git(last[0].args)]);
  }

  /** index.js:85-131: add, commit and push are issued strictly in sequence, each only after the
      previous one exited with 0; each failure has its own message. */
  lemma CommitChainCases(version: string, code: ExitCodes)
    ensures var r := Chain(CommitSteps(version), code);
      var add, commit, push := ["add", "package.json"], ["commit", "-m", CommitMessage(version)], ["push", "origin", "master"];
      if code(add) != 0 then r == Run(Rejected(StageFailed), [Git(add)])
      else if code(commit) != 0 then r == Run(Rejected(CommitFailed), [Git(add), Git(commit)])
      else if code(push) != 0 then r == Run(Rejected(PushFailed), [Git(add), Git(commit), Git(push)])
      else r == Run(Resolved, [Git(add), Git(commit), Git(push)])
  {
    var steps := CommitSteps(version);
    var last := steps[1..][1..];
    assert last[1..] == [];
    assert Chain(last, code) == if code(last[0].args) != 0 then Run(Rejected(PushFailed), [Git(last[0].args)])
      else Run(Resolved, [Git(last[0].args)]);
  }
}
