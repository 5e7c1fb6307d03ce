# Web deployment core of the app scripts, in Dafny

This project models the two pieces of logic at the heart of the app scripts'
web deployment:

- `urlJoin` (lib/utils.js), which joins URL path parts with `/`. Each part
  loses at most one leading and one trailing `/`, when present; absent or
  empty parts are dropped; and a leading `/` is kept when the first part had
  one. Module `Utils` (utils.dfy) models it as functions over
  `seq<Option<string>>`, where `None` stands for `undefined`/`null`. The
  global replace of a slash at either end becomes `Strip`, which is proved
  equal to `RegexReplace`, an independent character-by-character reading of
  that replace.
- `deployWeb` (src/deploy-web.js), which deploys a built `dist` directory to
  remote storage. The steps are: check the config and `dist`, choose
  credentials (static ones from `config.s3.creds`, otherwise from the token
  vending machine client), probe the target folder, warn and empty it if it
  holds keys, upload `dist` with a progress line per file, and return
  `https://<namespace>.<hostname>/index.html`. Module `DeployWeb`
  (deploy_web.dfy) models it as follows:
  - class `Environment` holds the set of remote keys and a trace of every
    call made to the token vending machine, the storage and the log;
  - method `DeployWeb` runs the steps against it;
  - function `Deploy` specifies the result, the trace and the remote keys
    afterwards, and the lemmas beside it state the properties.

`Wrappers` (wrappers.dfy) holds `Option` and `Result`.

The file-system checks on `dist` are inputs (`Dist`: exists, is a directory
according to `lstat`, number of entries). So are the collaborators' answers
(`Replies`): the credentials the token vending machine returns, the paths the
upload passes to the progress callback, and the keys it writes.

Two behaviours of the code are modelled as written:

- **An empty `dist` is not rejected.** The emptiness test on line 29,
  `!(fs.readdirSync(dist)).length === 0`, parses as `(!length) === 0`. That
  compares a boolean with a number, so it is never true. The model writes the
  test out with JavaScript strict equality (`EmptyCheck`).
  `EmptyCheckNeverFires` and `SucceedsExactly` show that the entry count plays
  no part. The error message ("missing files in …") suggests that an empty
  `dist` was meant to be refused; the model follows the code.
- **Some missing config fields throw a TypeError.** These are the
  object-valued fields `config.web`, `config.s3` and `config.ow`. A missing
  `config.ow` with static credentials is only read on line 53, so the upload
  has already run when the TypeError is thrown (`TypeErrorAfterUpload`).

## Model

| member | source | states |
|---|---|---|
| `Utils.Strip` | lib/utils.js:74 | only slashes are removed, at most one at each end; a part with no edge slash is unchanged; an edge slash is always removed, and both when the part starts and ends with distinct slashes |
| `Utils.StripIsRegexReplace` | lib/utils.js:74 | `Strip` equals the global replace of the leading-or-trailing-slash pattern, read character by character (a `/` at position 0 or at the last position is dropped) |
| `Utils.StripOneSlashEachEnd` | lib/utils.js:74 | exactly one slash goes at each end: `Strip("/" + t + "/") == t`, so `"//a//"` gives `"/a/"` and `"//"` gives `""` |
| `Utils.Parts` | lib/utils.js:74 | the parts kept by the map and filter are never empty and are no more than the arguments |
| `Utils.PartsEmpty` | lib/utils.js:74 | no part survives exactly when every argument is absent or strips to `""` |
| `Utils.PartsAppend` | lib/utils.js:74 | filtering keeps argument order: the parts of `a + b` are the parts of `a` followed by those of `b` |
| `Utils.Join` | lib/utils.js:74 | `join('/')` of non-empty parts is empty exactly when there are no parts |
| `Utils.JoinAppend` | lib/utils.js:74 | joining two non-empty part lists puts exactly one `/` between them |
| `Utils.UrlJoin` | lib/utils.js:71-75 | the result starts with `/` exactly when the first argument is present and starts with `/`, or the first surviving part still starts with `/` after stripping (as in `urlJoin(undefined, "//a")`) |
| `Utils.UrlJoinEmpty` | lib/utils.js:72-74 | the result is `""` exactly when no leading slash is kept and every argument is absent or strips to `""` (so `urlJoin()` is `""`) |
| `Utils.LeadingSlashKept` | lib/utils.js:72-74 | a leading `/` on the first argument is kept exactly once: `urlJoin("/" + t, ...rest)` is `"/" + urlJoin(t, ...rest)` when `t` does not start with `/` |
| `Utils.UrlJoinSinglePart` | lib/utils.js:72-74 | a single part with no edge slash is returned unchanged, and `urlJoin("/")` is `"/"` |
| `Utils.SilentArgument` | lib/utils.js:74 | an argument after the first that is absent, empty or only `/` adds no text and no separator |
| `Utils.AppendPart` | lib/utils.js:74 | appending a surviving part adds exactly one `/` followed by the stripped part |
| `DeployWeb.EmptyCheckNeverFires` | src/deploy-web.js:29 | `(!length) === 0` is false for every entry count, so an existing directory is never rejected for being empty |
| `DeployWeb.Rejection` | src/deploy-web.js:20-38 | no error is raised before the credentials exactly when the storage is reached; a "missing files" error only comes from a `dist` that is absent or not a directory |
| `DeployWeb.ChecksBeforeAnyCall` | src/deploy-web.js:20-38 | every error raised before the credentials leaves no call in the trace and the remote keys unchanged; no front end or config gives the "no frontend" error; a missing or non-directory `dist` gives "missing files in <dist>"; a missing `config.web`, a missing `config.s3`, or a missing `config.ow` when no static credentials are set, gives a TypeError |
| `DeployWeb.SucceedsExactly` | src/deploy-web.js:20-54 | a URL is returned exactly when the app has a front end, `web`, `s3` and `ow` are present and `dist` is an existing directory, whatever its entry count |
| `DeployWeb.SuccessUrl` | src/deploy-web.js:53-54 | on success the result is `"https://" + namespace + "." + hostname + "/index.html"` |
| `DeployWeb.StaticCredentialsWin` | src/deploy-web.js:34-44 | with `config.s3.creds` set, the storage is opened with them first and the token vending machine is never initialised or asked |
| `DeployWeb.TvmCredentialsUsed` | src/deploy-web.js:34-44 | otherwise the client is initialised with `ow.namespace`, `ow.auth`, `s3.tvmUrl` and `s3.credsCacheFile`, asked once, its credentials open the storage, and it is not called again |
| `DeployWeb.ClearExactlyWhenExisting` | src/deploy-web.js:45-49 | the overwrite warning is logged and the folder emptied exactly when some remote key lies under the folder, the warning right before the emptying |
| `DeployWeb.ProgressFollowsUpload` | src/deploy-web.js:51 | the progress lines report, in order, exactly the files the upload hands to the callback; each comes after the single `uploadDir` call and is relative to `dist` |
| `DeployWeb.UploadOnceAfterClear` | src/deploy-web.js:45-51 | `uploadDir(dist, folder, app)` happens exactly once, after the probe and any emptying, followed only by the progress lines |
| `DeployWeb.RemoteAfterDeploy` | src/deploy-web.js:45-51 | afterwards every key under the folder is one the upload wrote (no stale key survives), and keys outside the folder are kept |
| `DeployWeb.TypeErrorAfterUpload` | src/deploy-web.js:51-53 | with static credentials and no `config.ow`, the upload runs and then building the URL throws a TypeError |
| `DeployWeb.DeployWeb` | src/deploy-web.js:19-55 | the returned value, the calls appended to the trace and the remote keys afterwards are those `Deploy` specifies |
| `DeployWeb.PublishSteps` | src/deploy-web.js:34-54 | from the credentials to the URL, the result, calls and keys are those `Publish` specifies |
| `DeployWeb.ObtainCredentials` | src/deploy-web.js:34-42 | returns the static credentials when present (no call), otherwise initialises the token vending machine and returns what it hands out |
| `DeployWeb.Sync` | src/deploy-web.js:44-51 | opens the storage, probes the folder, warns and empties it only if it held keys, then uploads; the keys become the cleared set plus the written ones |
| `DeployWeb.Environment.FolderExists` | src/deploy-web.js:45 | true exactly when some remote key lies under the prefix; keys unchanged |
| `DeployWeb.Environment.EmptyFolder` | src/deploy-web.js:48 | removes exactly the keys under the prefix; afterwards none lies under it |
| `DeployWeb.Environment.UploadDir` | src/deploy-web.js:51 | records the upload call and one progress line per reported file; adds the written keys |
| `DeployWeb.Environment.InitTvm` | src/deploy-web.js:35-41 | records `TvmClient.init` with its options; keys unchanged |
| `DeployWeb.Environment.GetAwsS3Credentials` | src/deploy-web.js:42 | records the request and returns the service's credentials |
| `DeployWeb.Environment.OpenStorage` | src/deploy-web.js:44 | records `new RemoteStorage(creds)` with the chosen credentials |
| `DeployWeb.Environment.Log` | src/deploy-web.js:47 | records one log line |

## Left out

- `installDeps`, `spawnAioRuntimeDeploy` and `zipFolder` (lib/utils.js:18-64): they spawn `npm`/`aio` processes, set `process.env`, write temporary files and stream archives. They are process and file I/O with no logic to prove.
- lib/remote-storage and the token vending machine client are not part of this model. The model gives `folderExists` and `emptyFolder` string-prefix semantics: a key is under a folder when the folder name is a string prefix of it. What `uploadDir` writes and reports, and the credentials the client returns, are inputs. Upload concurrency, per-file error collection, cancellation and credential caching are not modelled.
- Errors thrown by the collaborators (network or storage failures) pass through `deployWeb` unchanged, because it has no `try`. The model treats every collaborator call as succeeding.
- The file-system calls `existsSync`, `lstatSync` and `readdirSync` are the inputs `Dist.present`, `Dist.isDirectory` and `Dist.entries`.
- `path.relative(dist, f)` is not computed: a progress line records `dist` and the reported path `f`. Only the overwrite warning's wording is kept. The progress text and the error message strings are not built.
- `DeployWeb.SuccessUrl`: leaf config values (`namespace`, `hostname`, `folder`, `distProd`) are plain strings. JavaScript would interpolate an absent one as `"undefined"`, and that is not modelled. `hasFrontend` is a boolean standing for its truthiness.
- `Utils.UrlJoin`: arguments are strings or absent. Numbers or objects passed to `urlJoin` would behave differently in JavaScript and are not modelled.
- The asynchronous scheduling of the awaited steps is not modelled: each step completes before the next, as the `await`s in the source make it.
- Property-file resolution (lib/wskprops) and the config loader exercised by test/common.test.js are not part of this model.
