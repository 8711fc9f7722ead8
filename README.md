# npm-publish-release: the `publishRelease` pipeline in Dafny

`publishRelease(version, options)` in `index.js` releases a package. It reads the version token and
bumps `package.json` with gulp-bump. It then publishes to GitHub (a `v<version>` tag that is
pushed), to npm (a stub), or to both. When `options.commit` is set, it also stages, commits and
pushes the bump. The call returns a promise. A Bluebird promise settles only once, so the call's
result is the first `resolve` or `reject` it reaches.

This model treats the pipeline as a state machine driven by outside answers:

- **`Env`** holds those answers: whether the bump fails, the version
  that `require(pkg)` yields, and the exit code of every `git` invocation, keyed by its arguments.
- **`Releaser`** is a class whose fields are:
  - the module-level `bumpOption`, which survives from one call to the next;
  - the call's `version`, the parameter of `publishRelease` (index.js:31), which shadows the unused module-level `version`;
  - the promise's state `result`;
  - the ghost list `calls` of `resolve`/`reject` calls reached, in order;
  - the `log` of commands issued.
- **The step methods** (`BumpPackageJson`, `Publish`, `PublishToGithub`, `PublishToNpm`,
  `CommitAndPush`, `Success`) follow the callback structure of the source. Each is proved against a
  specification function of module `Release`.
- **The lemmas** in `ReleaseProperties` prove what a call promises about those functions.

Files:

- `wrappers.dfy`: `Option`.
- `text.dfy`: join and split with a one-character separator.
- `version_token.dfy`: the token's normalisation and classification.
- `promises.dfy`: settle-once promises and `Promise.all` of two promises.
- `commands.dfy`: the commands, the git callback chains and their messages.
- `release.dfy`: options, the outside answers, the specification functions and the class.
- `release_properties.dfy`: the properties of whole calls.

Some behaviours of `index.js` are easy to miss; the model follows the code in each:

- **An unknown `options.dest`.** The call rejects at index.js:36 but does not return. The bump
  still runs, an unknown destination falls through to the publish-everywhere branch, and `git tag`
  is issued (`InvalidDestinationStillTags`).
- **Step order.** Publishing runs before `commitAndPush` (index.js:39-42).
- **A failed stage, commit or push** rejects the call; by then publishing has already run.
- **The npm branch** is a stub that issues no command and resolves (index.js:196-200).
- **A rejected token** still starts the bump (index.js:59-70). It uses the `bumpOption` left by an
  earlier call, and the message names `options.pkgVersion`, not the token.

## Model

| member | source | states |
|---|---|---|
| VersionToken.NormalizeJoinsWords | index.js:52 | the normalised token is the token's lower-cased alphanumeric words joined by `.` |
| VersionToken.NormalizeIdempotent | index.js:52 | normalising a normalised token changes nothing |
| VersionToken.NormalizeKeepsWord | index.js:52 | a lower-case word such as `major` survives normalisation unchanged |
| VersionToken.NormalizeKeepsStrictVersion | index.js:52 | an exact `X.Y.Z` version survives normalisation: the dots removed by `_.lowerCase` come back from the white-space replacement |
| VersionToken.StrictVersionOfParts | index.js:57 | three digit runs joined by dots match `^\d+\.\d+\.\d+$` and split back into those runs |
| VersionToken.StrictVersionShape | index.js:57 | every string matching `^\d+\.\d+\.\d+$` is three digit runs joined by dots |
| VersionToken.ClassifyStrictVersion | index.js:55-58 | an exact version is not a keyword, so it selects the `version` option |
| VersionToken.ClassifyNormalized | index.js:52-61 | a token selects `type` exactly when its words are one keyword, `version` exactly when they are three digit runs, and is rejected otherwise |
| Promises.FirstCallWins | index.js:32 | a promise's state after a sequence of `resolve`/`reject` calls is the first call, and pending when there was none |
| Promises.All | index.js:154 | `Promise.all` of two resolves exactly when both resolve, and otherwise rejects with one of their rejections |
| Commands.ChainIssuesPrefix | index.js:93-129 | a git callback chain issues a prefix of its commands, each after one that exited with 0; it resolves exactly when all were issued and exited with 0, else rejects with the message of the last one issued |
| Commands.GithubChainCases | index.js:163-193 | `git tag v<version>` comes first; the tag is pushed only after the tag exited with 0; the two failures have their own messages |
| Commands.CommitChainCases | index.js:85-131 | add, commit with `Bumping to version <version>`, push to `origin master`, each only after the previous one exited with 0, each failure with its own message |
| Release.Releaser.constructor | index.js:16 | a freshly loaded module has no `bumpOption` (the module-level variable of line 16), no result and an empty log |
| Release.Releaser.Settle | index.js:32 | a `resolve`/`reject` call is recorded; the state changes only while the promise is pending |
| Release.Releaser.BumpPackageJson | index.js:46-83 | sets `version` to the normalised token; `bumpOption` changes only when the token is accepted; one bump is issued with the current `bumpOption`; settles on the unknown-version rejection first, then on the bump's error |
| Release.Releaser.PublishToGithub | index.js:163-194 | issues and settles exactly as the tag chain for the version |
| Release.Releaser.PublishToNpm | index.js:196-200 | resolves and issues nothing |
| Release.Releaser.Publish | index.js:146-155 | dispatches by destination: npm, github with `version` replaced by the manifest's version, otherwise both branches joined |
| Release.Releaser.CommitAndPush | index.js:85-131 | without `options.commit` it resolves with nothing issued, else it runs the add-commit-push chain |
| Release.Releaser.Success | index.js:202-209 | `success` is a `resolve` call on the returned promise |
| Release.Releaser.PublishThenCommit | index.js:40-41 | `commitAndPush` runs only after `publish` resolved |
| Release.Releaser.RunSteps | index.js:39-42 | the bump, then publish and commitAndPush once the bump resolved, with the commands, `bumpOption` and `version` that result |
| Release.Releaser.Start | index.js:32-37 | a new pending promise, rejected at once when the destination is set and neither `npm` nor `github` |
| Release.Releaser.SettleChain | index.js:42-43 | the chain's rejection reaches `reject`, otherwise `success` resolves; the promise then holds the first call |
| Release.Releaser.PublishRelease | index.js:31-44 | a whole call: the promise's calls and final state, the commands issued, the new `bumpOption` and `version`, all as functions of the token, the options and the outside answers |
| ReleaseProperties.MissingTokenIsPatch | index.js:51-56 | a missing or empty token becomes `patch` and selects `type` |
| ReleaseProperties.KeywordSelectsType | index.js:52-56 | `major`, `minor` and `patch` select `type` and reach gulp-bump unchanged |
| ReleaseProperties.ExactVersionSelectsVersion | index.js:52-58 | an exact `X.Y.Z` selects `version` and reaches gulp-bump unchanged |
| ReleaseProperties.SpacedVersion | index.js:52-58 | `1 2 3` is read as the exact version `1.2.3` |
| ReleaseProperties.UnknownVersionStillBumps | index.js:59-70 | a rejected token rejects with `unknown [version]: ` and `options.pkgVersion`, unless an unknown destination rejected first; the bump is still issued with the earlier `bumpOption`, and nothing after it |
| ReleaseProperties.InvalidDestinationDecides | index.js:35-39 | an unknown destination decides the result, a second call still reaches the promise, and the bump is still issued |
| ReleaseProperties.InvalidDestinationStillTags | index.js:35-39 | with an unknown destination, an accepted token and a successful bump, `git tag` is still issued, yet the call rejects |
| ReleaseProperties.PublishIssuesNoCommitCommand | index.js:146-155 | publishing never issues a command of `commitAndPush` |
| ReleaseProperties.StepsInOrder | index.js:39-44 | bump, publish, commitAndPush in this order; a rejecting step decides the chain's outcome and no command of a later step is issued |
| ReleaseProperties.ResolvesExactlyWhenAllStepsSucceed | index.js:39-44 | the call resolves exactly when the destination is valid, the token accepted, the bump successful and every git command of the branches taken exits with 0 |
| ReleaseProperties.NpmPublishesNothing | index.js:146-148 | the `npm` destination issues nothing and resolves |
| ReleaseProperties.GithubPublishesTag | index.js:149-151 | the `github` destination runs exactly the tag chain, `git tag v<version>` first |
| ReleaseProperties.UnsetDestinationActsAsGithub | index.js:154 | with no destination the call issues the same commands and settles the same way as with `github` |
| ReleaseProperties.AllStepsSucceed | index.js:39-44 | everything succeeding with no destination and `commit`: bump, tag, push tag, add, commit, push, and the call resolves |
| ReleaseProperties.ExactVersionToNpm | index.js:39-44 | an exact version to npm without committing issues the bump alone and resolves |

## Left out

- The command-line front end `bin/npr.js` is not part of this model: argument parsing, help text, exit codes.
- gulp-bump's semantic-version arithmetic is not modelled. The bump is a `Bump(option, value)` entry in the log, with success or failure supplied from outside.
- The version in `package.json` after the bump is one value supplied from outside. `require` caches the file, so every read in a call sees the same value.
- Process spawning is left out. Each `git` command is a log entry whose exit code is supplied from outside, and a `null` exit code counts as non-zero.
- An exception thrown by `require(pkg)` is not modelled.
- Output is not modelled: redirecting stdout and stderr in quiet mode, `gutil.log`, `console.log`, chalk colours and `logPublished`. Neither are the unused `outputEnable` and `outputDisable`.
- `Promise.all` is modelled as a sequential join: the github branch, then the npm branch. The npm branch resolves at once, so the join's outcome is the github branch's. The timing of concurrent settlements is not modelled.
- VersionToken.LowerCase: approximates `_.lowerCase` as the maximal runs of ASCII letters and digits, lower-cased and joined by single spaces. The split of camelCase and of letter-digit boundaries is not modelled, and neither are non-ASCII letters, apostrophes and ordinals. lodash is not part of this model.
- Env.bumpFails: the bump's failure is an input, as if the `'end'` callback of index.js:72 could receive an error. A stream's `'end'` event passes no argument, so as written the branch of index.js:76-77 is not reachable, and a failing stream raises an `'error'` event that nothing listens to; the model keeps the branch the code spells out and does not model the unhandled `'error'` event.
- Release.Releaser.PublishToNpm: resolves without a value. The `'Skipped'` value is never read by the pipeline.
- Options: `commit`, `quiet` and `dest` are modelled by their JavaScript truthiness. `dest` is a string or absent; a non-string destination is not modelled.
