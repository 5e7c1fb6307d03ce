/**
 * `deployWeb` from src/deploy-web.js: checks that the app has a front end and
 * a built `dist` directory, picks storage credentials (static ones from the
 * config, otherwise from the token vending machine), clears an existing
 * deployment, uploads the directory and returns the public URL.
 *
 * The token vending machine client and the remote storage are collaborators
 * whose code is not part of this model. `Environment` records every call made
 * to them, in order, and holds the set of keys in the remote storage; their
 * answers that cannot be derived from that state (the credentials the token
 * vending machine hands out, the files the upload reports, the keys it writes)
 * are inputs, gathered in `Replies`.
 */
module DeployWeb {
  import opened Wrappers

  datatype Creds = Creds(accessKeyId: string, secretAccessKey: string, sessionToken: Option<string>)

  /** `config.app`; it is also the options object handed to `uploadDir`. */
  datatype App = App(hasFrontend: bool, hostname: string)
  /** `config.web` */
  datatype Web = Web(distProd: string)
  /** `config.s3`; `creds` is `None` when the config holds no static credentials. */
  datatype S3 = S3(creds: Option<Creds>, tvmUrl: string, credsCacheFile: string, folder: string)
  /** `config.ow` */
  datatype Ow = Ow(namespace: string, auth: string)
  /** An absent object-valued field is `None`; reading through it throws a TypeError. */
  datatype Config = Config(app: Option<App>, web: Option<Web>, s3: Option<S3>, ow: Option<Ow>)

  /** What the file system says about `dist`: exists, is a directory (lstat), number of entries. */
  datatype Dist = Dist(present: bool, isDirectory: bool, entries: nat)

  /** The answers of the collaborators. */
  datatype Replies = Replies(
    tvmCreds: Creds,        // what `getAwsS3Credentials()` resolves to
    uploaded: seq<string>,  // the paths `uploadDir` passes to the progress callback, in order
    written: set<string>)   // the remote keys `uploadDir` writes

  /** The options `TvmClient.init` receives. */
  datatype TvmOptions = TvmOptions(namespace: string, auth: string, apiUrl: string, cacheFile: string)

  datatype Event =
    | TvmInit(options: TvmOptions)
    | TvmGetS3Credentials
    | StorageOpen(creds: Creds)            // `new RemoteStorage(creds)`
    | FolderExistsCall(prefix: string)
    | LogLine(message: string)
    | EmptyFolderCall(prefix: string)
    | UploadDirCall(dir: string, prefix: string, app: App)
    | ProgressLog(dir: string, file: string) // logs `file` relative to `dir`

  datatype DeployError =
    | NoFrontend                 // the app has no front end, or the config is invalid
    | MissingFiles(dist: string) // the build output in `dist` is missing
    | TypeError                  // a property read through an absent `config.web`, `config.s3` or `config.ow`

  const OverwriteWarning := "warning: an existing deployment will be overwritten"

  /** The values a JavaScript `===` compares in the emptiness check. */
  datatype JsValue = JsBool(b: bool) | JsNumber(n: int)

  /** `===`: values of different types are never strictly equal. */
  predicate StrictEquals(x: JsValue, y: JsValue) {
    x == y
  }

  /**
   * The emptiness test on line 29 negates the entry count first and then
   * strictly compares that boolean with the number 0.
   */
  predicate EmptyCheck(entries: nat) {
    StrictEquals(JsBool(entries == 0), JsNumber(0))
  }

  /** The condition on lines 27-29 under which `dist` is rejected. */
  predicate DistRejected(d: Dist) {
    !d.present || !d.isDirectory || EmptyCheck(d.entries)
  }

  /** The config, its `app` and the app's front-end flag are all present (line 20). */
  predicate HasFrontend(config: Option<Config>) {
    config.Some? && config.value.app.Some? && config.value.app.value.hasFrontend
  }

  /**
   * The deployment gets as far as the credentials without throwing: front end,
   * `config.web`, an accepted `dist`, `config.s3`, and `config.ow` when the
   * token vending machine has to be asked.
   */
  predicate ReachesStorage(config: Option<Config>, d: Dist) {
    HasFrontend(config)
    && config.value.web.Some? && !DistRejected(d)
    && config.value.s3.Some?
    && (config.value.s3.value.creds.Some? || config.value.ow.Some?)
  }

  predicate Under(prefix: string, key: string) {
    prefix <= key
  }

  function KeysUnder(remote: set<string>, prefix: string): set<string> {
    set k | k in remote && Under(prefix, k)
  }

  /** Some key lies under the prefix exactly when the keys under it are not none. */
  lemma KeysUnderNonEmpty(remote: set<string>, prefix: string)
    ensures KeysUnder(remote, prefix) != {} <==> exists k :: k in remote && Under(prefix, k)
  {
    if KeysUnder(remote, prefix) != {} {
      var k :| k in KeysUnder(remote, prefix);
    } else {
      assert forall k :: k in remote && Under(prefix, k) ==> k in KeysUnder(remote, prefix);
    }
  }

  /** The progress line the callback logs for each file the upload reports. */
  function ProgressLogs(dir: string, files: seq<string>): seq<Event> {
    seq(|files|, i requires 0 <= i < |files| => ProgressLog(dir, files[i]))
  }

  /** The files named by the progress lines of a trace, in trace order. */
  function ProgressFiles(ev: seq<Event>): seq<string> {
    if ev == [] then []
    else (if ev[0].ProgressLog? then [ev[0].file] else []) + ProgressFiles(ev[1..])
  }

  function Url(namespace: string, hostname: string): string {
    "https://" + namespace + "." + hostname + "/index.html"
  }

  /** What one call of `deployWeb` returns, which calls it makes, and the remote keys afterwards. */
  datatype Outcome = Outcome(result: Result<string, DeployError>, events: seq<Event>, remote: set<string>)

  /** The credentials handed to the remote storage. */
  function ChosenCreds(s3: S3, replies: Replies): Creds {
    if s3.creds.Some? then s3.creds.value else replies.tvmCreds
  }

  /** The token vending machine calls made before the storage is opened. */
  function CredentialCalls(s3: S3, ow: Option<Ow>): seq<Event>
    requires s3.creds.Some? || ow.Some?
  {
    if s3.creds.Some? then []
    else [TvmInit(TvmOptions(ow.value.namespace, ow.value.auth, s3.tvmUrl, s3.credsCacheFile)), TvmGetS3Credentials]
  }

  /** The calls from opening the storage up to and including the upload's progress lines. */
  function StorageCalls(app: App, dist: string, s3: S3, creds: Creds, existed: bool, replies: Replies): seq<Event> {
    [StorageOpen(creds), FolderExistsCall(s3.folder)]
    + (if existed then [LogLine(OverwriteWarning), EmptyFolderCall(s3.folder)] else [])
    + [UploadDirCall(dist, s3.folder, app)]
    + ProgressLogs(dist, replies.uploaded)
  }

  /**
   * The error `deployWeb` throws before any call to a collaborator, if any:
   * lines 20-22, 26-32, and the reads of `config.s3` and `config.ow` on
   * lines 34-38.
   */
  function Rejection(config: Option<Config>, d: Dist): (r: Option<DeployError>)
    ensures r.None? <==> ReachesStorage(config, d)
    ensures r.Some? && r.value.MissingFiles? ==> d.present ==> !d.isDirectory
  {
    if !HasFrontend(config) then Some(NoFrontend)
    else if config.value.web.None? then Some(TypeError)
    else if DistRejected(d) then Some(MissingFiles(config.value.web.value.distProd))
    else if config.value.s3.None? then Some(TypeError)
    else if config.value.s3.value.creds.None? && config.value.ow.None? then Some(TypeError)
    else None
  }

  /** The part of `deployWeb` after the checks: lines 34-54. */
  function Publish(c: Config, replies: Replies, remote: set<string>): Outcome
    requires c.app.Some? && c.web.Some? && c.s3.Some? && (c.s3.value.creds.Some? || c.ow.Some?)
  {
    var s3, app, dist := c.s3.value, c.app.value, c.web.value.distProd;
    var existed := KeysUnder(remote, s3.folder) != {};
    var cleared := if existed then remote - KeysUnder(remote, s3.folder) else remote;
    var events := CredentialCalls(s3, c.ow) + StorageCalls(app, dist, s3, ChosenCreds(s3, replies), existed, replies);
    var after := cleared + replies.written;
    if c.ow.None? then Outcome(Err(TypeError), events, after)
    else Outcome(Ok(Url(c.ow.value.namespace, app.hostname)), events, after)
  }

  /** The specification of `deployWeb`: reject early, or publish. */
  function Deploy(config: Option<Config>, d: Dist, replies: Replies, remote: set<string>): Outcome {
    match Rejection(config, d)
    case Some(e) => Outcome(Err(e), [], remote)
    case None => Publish(config.value, replies, remote)
  }

  // Properties of the specification

  /** The emptiness check on line 29 never fires, whatever the entry count. */
  lemma EmptyCheckNeverFires(entries: nat)
    ensures !EmptyCheck(entries)
    ensures DistRejected(Dist(true, true, entries)) == false
  {
  }

  /**
   * Every early error leaves no trace: no credential, storage or log call
   * happens and the remote keys are untouched. In the order of the source:
   * a missing front end or config gives the "no frontend" error; a missing
   * `config.web` a TypeError, whatever `dist` is; a missing or non-directory
   * `dist` the "missing files" error; then a missing `config.s3`, or a
   * missing `config.ow` without static credentials, a TypeError.
   */
  lemma ChecksBeforeAnyCall(config: Option<Config>, d: Dist, replies: Replies, remote: set<string>)
    ensures var o := Deploy(config, d, replies, remote);
      Rejection(config, d).Some? ==> o == Outcome(Err(Rejection(config, d).value), [], remote)
    ensures !HasFrontend(config) ==> Deploy(config, d, replies, remote) == Outcome(Err(NoFrontend), [], remote)
    ensures HasFrontend(config) && config.value.web.Some? && (!d.present || !d.isDirectory) ==>
      Deploy(config, d, replies, remote) == Outcome(Err(MissingFiles(config.value.web.value.distProd)), [], remote)
    ensures HasFrontend(config) && config.value.web.None? ==>
      Deploy(config, d, replies, remote) == Outcome(Err(TypeError), [], remote)
    ensures HasFrontend(config) && config.value.web.Some? && d.present && d.isDirectory && config.value.s3.None? ==>
      Deploy(config, d, replies, remote) == Outcome(Err(TypeError), [], remote)
    ensures (HasFrontend(config) && config.value.web.Some? && d.present && d.isDirectory && config.value.s3.Some?
             && config.value.s3.value.creds.None? && config.value.ow.None?) ==>
      Deploy(config, d, replies, remote) == Outcome(Err(TypeError), [], remote)
  {
  }

  /**
   * `deployWeb` returns a URL exactly when the app has a front end, the
   * config has `web`, `s3` and `ow`, and `dist` is an existing directory;
   * the number of entries in `dist` plays no part, so an empty build
   * directory is deployed.
   */
  lemma SucceedsExactly(config: Option<Config>, d: Dist, replies: Replies, remote: set<string>)
    ensures Deploy(config, d, replies, remote).result.Ok? <==>
      HasFrontend(config) && config.value.web.Some? && config.value.s3.Some? && config.value.ow.Some?
      && d.present && d.isDirectory
  {
  }

  /** On success the URL is `https://<namespace>.<hostname>/index.html`. */
  lemma SuccessUrl(config: Option<Config>, d: Dist, replies: Replies, remote: set<string>)
    requires Deploy(config, d, replies, remote).result.Ok?
    ensures config.Some? && config.value.ow.Some? && config.value.app.Some?
    ensures Deploy(config, d, replies, remote).result.value ==
      "https://" + config.value.ow.value.namespace + "." + config.value.app.value.hostname + "/index.html"
  {
  }

  /** Static credentials in the config are handed to the storage and the token vending machine is never touched. */
  lemma StaticCredentialsWin(config: Option<Config>, d: Dist, replies: Replies, remote: set<string>)
    requires Rejection(config, d).None? && config.value.s3.value.creds.Some?
    ensures var ev := Deploy(config, d, replies, remote).events;
      |ev| > 0 && ev[0] == StorageOpen(config.value.s3.value.creds.value)
      && forall i :: 0 <= i < |ev| ==> !ev[i].TvmInit? && !ev[i].TvmGetS3Credentials?
  {
  }

  /**
   * Without static credentials the token vending machine is initialised once
   * with the namespace and auth from `config.ow` and the URL and cache file
   * from `config.s3`, asked once, and its credentials go to the storage.
   */
  lemma TvmCredentialsUsed(config: Option<Config>, d: Dist, replies: Replies, remote: set<string>)
    requires Rejection(config, d).None? && config.value.s3.value.creds.None?
    ensures var c := config.value;
      var ev := Deploy(config, d, replies, remote).events;
      |ev| >= 3
      && ev[0] == TvmInit(TvmOptions(c.ow.value.namespace, c.ow.value.auth, c.s3.value.tvmUrl, c.s3.value.credsCacheFile))
      && ev[1] == TvmGetS3Credentials
      && ev[2] == StorageOpen(replies.tvmCreds)
      && forall i :: 2 <= i < |ev| ==> !ev[i].TvmInit? && !ev[i].TvmGetS3Credentials?
  {
  }

  /** The events past the checks, split into their phases. */
  lemma EventsShape(config: Option<Config>, d: Dist, replies: Replies, remote: set<string>)
    requires Rejection(config, d).None?
    ensures var c := config.value;
      var s3 := c.s3.value;
      var clear := if KeysUnder(remote, s3.folder) != {} then [LogLine(OverwriteWarning), EmptyFolderCall(s3.folder)] else [];
      Deploy(config, d, replies, remote).events ==
        CredentialCalls(s3, c.ow) + [StorageOpen(ChosenCreds(s3, replies)), FolderExistsCall(s3.folder)]
        + clear + [UploadDirCall(c.web.value.distProd, s3.folder, c.app.value)]
        + ProgressLogs(c.web.value.distProd, replies.uploaded)
  {
  }

  /** Where the upload stands in a trace made of calls before it, the upload and progress lines. */
  lemma UploadPosition(pre: seq<Event>, upload: Event, logs: seq<Event>)
    requires upload.UploadDirCall?
    requires forall j :: 0 <= j < |pre| ==> !pre[j].UploadDirCall? && !pre[j].ProgressLog?
    requires forall j :: 0 <= j < |logs| ==> logs[j].ProgressLog?
    ensures var ev := pre + [upload] + logs;
      ev[|pre|] == upload && ev[|pre| + 1..] == logs
      && (forall j :: 0 <= j < |ev| && ev[j].UploadDirCall? ==> j == |pre|)
      && (forall j :: 0 <= j < |ev| && ev[j].ProgressLog? ==> j > |pre|)
      && (forall j :: 0 <= j < |ev| && (ev[j].FolderExistsCall? || ev[j].EmptyFolderCall?) ==> j < |pre|)
  {
  }

  /** Progress files of a concatenation are those of each piece, in order. */
  lemma {:induction false} ProgressFilesAppend(a: seq<Event>, b: seq<Event>)
    ensures ProgressFiles(a + b) == ProgressFiles(a) + ProgressFiles(b)
  {
    if a == [] {
      assert a + b == b;
    } else {
      assert (a + b)[1..] == a[1..] + b;
      ProgressFilesAppend(a[1..], b);
    }
  }

  /** A trace without progress lines names no files. */
  lemma {:induction false} ProgressFilesNone(ev: seq<Event>)
    requires forall j :: 0 <= j < |ev| ==> !ev[j].ProgressLog?
    ensures ProgressFiles(ev) == []
  {
    if ev != [] {
      ProgressFilesNone(ev[1..]);
    }
  }

  /** The progress lines for `files` name exactly `files`, in order. */
  lemma {:induction false} ProgressFilesOfLogs(dir: string, files: seq<string>)
    ensures ProgressFiles(ProgressLogs(dir, files)) == files
  {
    if files != [] {
      assert ProgressLogs(dir, files)[1..] == ProgressLogs(dir, files[1..]);
      ProgressFilesOfLogs(dir, files[1..]);
    }
  }

  /** Where the clearing calls stand in a trace: only inside `clear`, the warning right before the emptying. */
  lemma ClearPosition(pre: seq<Event>, clear: seq<Event>, post: seq<Event>, folder: string)
    requires clear == [] || clear == [LogLine(OverwriteWarning), EmptyFolderCall(folder)]
    requires forall j :: 0 <= j < |pre| ==> !pre[j].EmptyFolderCall? && !pre[j].LogLine?
    requires forall j :: 0 <= j < |post| ==> !post[j].EmptyFolderCall? && !post[j].LogLine?
    ensures var ev := pre + clear + post;
      (EmptyFolderCall(folder) in ev <==> clear != [])
      && (LogLine(OverwriteWarning) in ev <==> clear != [])
      && (forall j :: 0 <= j < |ev| && ev[j].EmptyFolderCall? ==> 0 < j && ev[j - 1] == LogLine(OverwriteWarning))
  {
    var ev := pre + clear + post;
    assert forall j :: 0 <= j < |pre| ==> ev[j] == pre[j];
    assert forall j :: |pre| + |clear| <= j < |ev| ==> ev[j] == post[j - |pre| - |clear|];
    if clear != [] {
      assert ev[|pre|] == LogLine(OverwriteWarning);
      assert ev[|pre| + 1] == EmptyFolderCall(folder);
    }
  }

  /**
   * The overwrite warning is logged and the folder emptied exactly when some
   * remote key lies under the folder, and the warning comes right before the
   * emptying.
   */
  lemma ClearExactlyWhenExisting(config: Option<Config>, d: Dist, replies: Replies, remote: set<string>)
    requires Rejection(config, d).None?
    ensures var folder := config.value.s3.value.folder;
      var ev := Deploy(config, d, replies, remote).events;
      var existed := exists k :: k in remote && Under(folder, k);
      (EmptyFolderCall(folder) in ev <==> existed)
      && (LogLine(OverwriteWarning) in ev <==> existed)
      && (forall j :: 0 <= j < |ev| && ev[j].EmptyFolderCall? ==> 0 < j && ev[j - 1] == LogLine(OverwriteWarning))
  {
    var c := config.value;
    var s3 := c.s3.value;
    var existed := KeysUnder(remote, s3.folder) != {};
    var pre := CredentialCalls(s3, c.ow) + [StorageOpen(ChosenCreds(s3, replies)), FolderExistsCall(s3.folder)];
    var clear := if existed then [LogLine(OverwriteWarning), EmptyFolderCall(s3.folder)] else [];
    var post := [UploadDirCall(c.web.value.distProd, s3.folder, c.app.value)] + ProgressLogs(c.web.value.distProd, replies.uploaded);
    EventsShape(config, d, replies, remote);
    assert Deploy(config, d, replies, remote).events == pre + clear + post;
    ClearPosition(pre, clear, post, s3.folder);
    KeysUnderNonEmpty(remote, s3.folder);
  }

  /**
   * `dist` is uploaded to the folder exactly once, after the probe and any
   * clearing, and the upload is followed by one progress line per uploaded
   * file, each relative to `dist`, and nothing else.
   */
  lemma UploadOnceAfterClear(config: Option<Config>, d: Dist, replies: Replies, remote: set<string>)
    requires Rejection(config, d).None?
    ensures var c := config.value;
      var folder, dist := c.s3.value.folder, c.web.value.distProd;
      var ev := Deploy(config, d, replies, remote).events;
      exists u :: (0 <= u < |ev|
        && ev[u] == UploadDirCall(dist, folder, c.app.value)
        && ev[u + 1..] == ProgressLogs(dist, replies.uploaded)
        && (forall j :: 0 <= j < |ev| && ev[j].UploadDirCall? ==> j == u)
        && (forall j :: 0 <= j < |ev| && (ev[j].FolderExistsCall? || ev[j].EmptyFolderCall?) ==> j < u))
  {
    var c := config.value;
    var s3 := c.s3.value;
    var dist := c.web.value.distProd;
    var existed := KeysUnder(remote, s3.folder) != {};
    var clear := if existed then [LogLine(OverwriteWarning), EmptyFolderCall(s3.folder)] else [];
    var pre := CredentialCalls(s3, c.ow) + [StorageOpen(ChosenCreds(s3, replies)), FolderExistsCall(s3.folder)] + clear;
    var upload := UploadDirCall(dist, s3.folder, c.app.value);
    EventsShape(config, d, replies, remote);
    assert Deploy(config, d, replies, remote).events == pre + [upload] + ProgressLogs(dist, replies.uploaded);
    UploadPosition(pre, upload, ProgressLogs(dist, replies.uploaded));
    assert 0 <= |pre| < |pre + [upload] + ProgressLogs(dist, replies.uploaded)|;
  }

  /**
   * Each progress callback logs one line, relative to `dist`, for the file
   * the upload reports: the files named by the progress lines of the trace
   * are exactly the reported ones, in the same order, and every progress
   * line comes after the upload call.
   */
  lemma ProgressFollowsUpload(config: Option<Config>, d: Dist, replies: Replies, remote: set<string>)
    requires Rejection(config, d).None?
    ensures var dist := config.value.web.value.distProd;
      var ev := Deploy(config, d, replies, remote).events;
      ProgressFiles(ev) == replies.uploaded
      && forall i, j :: 0 <= i < |ev| && 0 <= j < |ev| && ev[i].UploadDirCall? && ev[j].ProgressLog? ==>
        i < j && ev[j].dir == dist
  {
    var c := config.value;
    var s3 := c.s3.value;
    var dist := c.web.value.distProd;
    var clear := if KeysUnder(remote, s3.folder) != {} then [LogLine(OverwriteWarning), EmptyFolderCall(s3.folder)] else [];
    var pre := CredentialCalls(s3, c.ow) + [StorageOpen(ChosenCreds(s3, replies)), FolderExistsCall(s3.folder)] + clear;
    EventsShape(config, d, replies, remote);
    ProgressPosition(pre, UploadDirCall(dist, s3.folder, c.app.value), dist, replies.uploaded);
  }

  /** The progress lines of a trace made of calls, an upload and the upload's progress lines. */
  lemma ProgressPosition(pre: seq<Event>, upload: Event, dir: string, files: seq<string>)
    requires upload.UploadDirCall?
    requires forall j :: 0 <= j < |pre| ==> !pre[j].UploadDirCall? && !pre[j].ProgressLog?
    ensures var ev := pre + [upload] + ProgressLogs(dir, files);
      ProgressFiles(ev) == files
      && forall i, j :: 0 <= i < |ev| && 0 <= j < |ev| && ev[i].UploadDirCall? && ev[j].ProgressLog? ==>
        i < j && ev[j].dir == dir
  {
    var logs := ProgressLogs(dir, files);
    var ev := pre + [upload] + logs;
    UploadPosition(pre, upload, logs);
    ProgressFilesAppend(pre + [upload], logs);
    ProgressFilesNone(pre + [upload]);
    ProgressFilesOfLogs(dir, files);
    assert forall j :: |pre| < j < |ev| ==> ev[j] == logs[j - |pre| - 1];
  }

  /**
   * The remote keys afterwards: everything under the folder was replaced by
   * what the upload wrote, and keys outside the folder are kept.
   */
  lemma RemoteAfterDeploy(config: Option<Config>, d: Dist, replies: Replies, remote: set<string>)
    requires Rejection(config, d).None?
    ensures var folder := config.value.s3.value.folder;
      var after := Deploy(config, d, replies, remote).remote;
      after == (remote - KeysUnder(remote, folder)) + replies.written
      && (forall k :: k in after && Under(folder, k) ==> k in replies.written)
      && (forall k :: k in remote && !Under(folder, k) ==> k in after)
  {
  }

  /**
   * With static credentials but no `config.ow`, the upload runs to the end and
   * only then does building the URL throw a TypeError.
   */
  lemma TypeErrorAfterUpload(config: Option<Config>, d: Dist, replies: Replies, remote: set<string>)
    requires Rejection(config, d).None? && config.value.ow.None?
    ensures var c := config.value;
      var o := Deploy(config, d, replies, remote);
      o.result == Err(TypeError)
      && UploadDirCall(c.web.value.distProd, c.s3.value.folder, c.app.value) in o.events
  {
  }

  /** The observable world of a deployment: the remote keys and the calls made so far. */
  class Environment {
    var remote: set<string>
    var trace: seq<Event>

    constructor (keys: set<string>)
      ensures remote == keys && trace == []
    {
      remote := keys;
      trace := [];
    }

    /** `TvmClient.init(options)` */
    method InitTvm(options: TvmOptions)
      modifies this
      ensures trace == old(trace) + [TvmInit(options)] && remote == old(remote)
    {
      trace := trace + [TvmInit(options)];
    }

    /** `getAwsS3Credentials()` on the client; `answer` is what the service hands out. */
    method GetAwsS3Credentials(answer: Creds) returns (creds: Creds)
      modifies this
      ensures creds == answer
      ensures trace == old(trace) + [TvmGetS3Credentials] && remote == old(remote)
    {
      trace := trace + [TvmGetS3Credentials];
      creds := answer;
    }

    /** `new RemoteStorage(creds)` */
    method OpenStorage(creds: Creds)
      modifies this
      ensures trace == old(trace) + [StorageOpen(creds)] && remote == old(remote)
    {
      trace := trace + [StorageOpen(creds)];
    }

    /** True exactly when some remote key lies under `prefix`. */
    method FolderExists(prefix: string) returns (found: bool)
      modifies this
      ensures found <==> exists k :: k in old(remote) && Under(prefix, k)
      ensures trace == old(trace) + [FolderExistsCall(prefix)] && remote == old(remote)
    {
      trace := trace + [FolderExistsCall(prefix)];
      found := KeysUnder(remote, prefix) != {};
      KeysUnderNonEmpty(remote, prefix);
    }

    method Log(message: string)
      modifies this
      ensures trace == old(trace) + [LogLine(message)] && remote == old(remote)
    {
      trace := trace + [LogLine(message)];
    }

    /** Deletes every key under `prefix` and no other. */
    method EmptyFolder(prefix: string)
      modifies this
      ensures remote == old(remote) - KeysUnder(old(remote), prefix)
      ensures forall k :: k in remote ==> !Under(prefix, k)
      ensures trace == old(trace) + [EmptyFolderCall(prefix)]
    {
      trace := trace + [EmptyFolderCall(prefix)];
      remote := remote - KeysUnder(remote, prefix);
    }

    /**
     * `uploadDir(dir, prefix, app, callback)`: the storage writes `written` and
     * calls back once per path in `uploaded`; each callback logs a progress line.
     */
    method UploadDir(dir: string, prefix: string, app: App, uploaded: seq<string>, written: set<string>)
      modifies this
      ensures remote == old(remote) + written
      ensures trace == old(trace) + [UploadDirCall(dir, prefix, app)] + ProgressLogs(dir, uploaded)
    {
      trace := trace + [UploadDirCall(dir, prefix, app)] + ProgressLogs(dir, uploaded);
      remote := remote + written;
    }
  }

  /** Lines 44-51: open the storage, clear an existing deployment, upload. */
  method Sync(app: App, dist: string, s3: S3, creds: Creds, replies: Replies, env: Environment)
    modifies env
    ensures var existed := KeysUnder(old(env.remote), s3.folder) != {};
      env.trace == old(env.trace) + StorageCalls(app, dist, s3, creds, existed, replies)
      && env.remote == (if existed then old(env.remote) - KeysUnder(old(env.remote), s3.folder) else old(env.remote)) + replies.written
  {
    env.OpenStorage(creds);
    var existed := env.FolderExists(s3.folder);
    KeysUnderNonEmpty(old(env.remote), s3.folder);
    if existed {
      env.Log(OverwriteWarning);
      env.EmptyFolder(s3.folder);
    }
    env.UploadDir(dist, s3.folder, app, replies.uploaded, replies.written);
  }

  /** Lines 34-42: static credentials from the config win over the token vending machine. */
  method ObtainCredentials(s3: S3, ow: Option<Ow>, replies: Replies, env: Environment) returns (creds: Creds)
    requires s3.creds.Some? || ow.Some?
    modifies env
    ensures creds == ChosenCreds(s3, replies)
    ensures env.trace == old(env.trace) + CredentialCalls(s3, ow) && env.remote == old(env.remote)
  {
    if s3.creds.Some? {
      creds := s3.creds.value;
    } else {
      env.InitTvm(TvmOptions(ow.value.namespace, ow.value.auth, s3.tvmUrl, s3.credsCacheFile));
      creds := env.GetAwsS3Credentials(replies.tvmCreds);
    }
  }

  /** Lines 34-54, run on a config that passed the checks. */
  method PublishSteps(c: Config, replies: Replies, env: Environment) returns (r: Result<string, DeployError>)
    requires c.app.Some? && c.web.Some? && c.s3.Some? && (c.s3.value.creds.Some? || c.ow.Some?)
    modifies env
    ensures var o := Publish(c, replies, old(env.remote));
      r == o.result && env.trace == old(env.trace) + o.events && env.remote == o.remote
  {
    var s3, app, dist := c.s3.value, c.app.value, c.web.value.distProd;
    var creds := ObtainCredentials(s3, c.ow, replies, env);
    Sync(app, dist, s3, creds, replies, env);
    if c.ow.None? {
      return Err(TypeError);
    }
    r := Ok(Url(c.ow.value.namespace, app.hostname));
  }

  method DeployWeb(config: Option<Config>, d: Dist, replies: Replies, env: Environment)
    returns (r: Result<string, DeployError>)
    modifies env
    ensures var o := Deploy(config, d, replies, old(env.remote));
      r == o.result && env.trace == old(env.trace) + o.events && env.remote == o.remote
  {
    if config.None? || config.value.app.None? || !config.value.app.value.hasFrontend {
      return Err(NoFrontend);
    }
    var c := config.value;
    if c.web.None? {
      return Err(TypeError);
    }
    var dist := c.web.value.distProd;
    if !d.present || !d.isDirectory || StrictEquals(JsBool(d.entries == 0), JsNumber(0)) {
      return Err(MissingFiles(dist));
    }
    if c.s3.None? || (c.s3.value.creds.None? && c.ow.None?) {
      return Err(TypeError);
    }
    r := PublishSteps(c, replies, env);
  }
}
