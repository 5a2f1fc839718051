/**
 * The installer's orchestration: the host it runs on (commands on PATH,
 * external actions that may fail, the cluster's pull secret), the
 * pull-secret update that registers the rhceph-dev registry credential,
 * the check for required commands, and the fail-fast sequence of main.
 *
 * Every external action (a process started, a file written) is a Step
 * appended to the host's log; a step fails exactly when the host lists it
 * in `failing`. Each method is proved against a plan function that gives
 * the outcome, the steps taken and the secret written; the lemmas at the
 * end state what the installer promises about those plans.
 */
module Installer {
  import opened Wrappers
  import opened PullSecret
  import ClusterName

  /** An external action of the installer. */
  datatype Step =
    | CreateKubeconfig(pattern: string)                     // os.CreateTemp("", pattern)
    | OcLogin(url: string, username: string, password: string)
    | FetchSecret                                           // first `oc get secret/pull-secret`
    | WriteFile(name: string)                               // os.WriteFile(name, ...)
    | RegistryLogin(to: string, password: string)           // `oc registry login --to=...`
    | Merge(left: string, right: string)                    // `jq -s '.[0] * .[1]' left right`
    | SetPullSecret(from: string)                           // `oc set data secret/pull-secret`
    | RefetchSecret                                         // second `oc get secret/pull-secret`
    | Apply(file: string)                                   // `oc apply -f file`

  /** The machine the installer runs on, and the cluster it reaches through `oc`. */
  class Host {
    /** Commands that exec.LookPath finds. */
    const installed: set<string>
    /** The external actions that fail when attempted. */
    const failing: set<Step>
    /** The document `oc registry login` writes. */
    const loginOutput: Document
    /** The cluster's pull secret; None when its content is not a JSON object. */
    var secret: Option<Document>
    /** The external actions taken so far, in order. */
    var log: seq<Step>

    constructor (installed: set<string>, failing: set<Step>, loginOutput: Document, secret: Option<Document>)
      ensures this.installed == installed && this.failing == failing
      ensures this.loginOutput == loginOutput && this.secret == secret
      ensures log == []
    {
      this.installed := installed;
      this.failing := failing;
      this.loginOutput := loginOutput;
      this.secret := secret;
      log := [];
    }

    /** Takes an action that changes nothing the model tracks besides the log. */
    method Perform(s: Step) returns (ok: bool)
      modifies this`log
      ensures log == old(log) + [s]
      ensures ok <==> s !in failing
    {
      log := log + [s];
      ok := s !in failing;
    }

    /** `oc set data secret/pull-secret`: on success the cluster holds `doc`. */
    method SetData(file: string, doc: Document) returns (ok: bool)
      modifies this`log, this`secret
      ensures log == old(log) + [SetPullSecret(file)]
      ensures ok <==> SetPullSecret(file) !in failing
      ensures secret == if ok then Some(doc) else old(secret)
    {
      log := log + [SetPullSecret(file)];
      ok := SetPullSecret(file) !in failing;
      if ok {
        secret := Some(doc);
      }
    }
  }

  /** The cluster's secret after a run that may have written `written`. */
  function SecretAfter(before: Option<Document>, written: Option<Document>): Option<Document>
  {
    if written.Some? then written else before
  }

  // ---------------------------------------------------------------------
  // addRHCEPHAuth

  /** Why the pull-secret update failed; one constructor per error return. */
  datatype AuthError =
    | GetSecretFailed        // "error getting pull secret"
    | WriteSecretFailed      // "error writing pull secret to file"
    | ParseSecretFailed      // "error parsing pull secret JSON"
    | InvalidFormat          // "invalid pull secret format"
    | RegistryLoginFailed    // "error logging into registry"
    | MergeFailed            // "error merging pull secrets"
    | WriteMergedFailed      // "error writing merged pull secret to file"
    | UpdateFailed           // "error updating pull secret"
    | RefetchFailed          // "error getting pull secret" (second read)
    | InvalidNewFormat       // "invalid new pull secret format"
    | CountMismatch          // "pull secret does not contain the expected number of elements"

  /** Outcome, steps taken and the document written to the cluster, if any. */
  datatype AuthTrace = AuthTrace(result: Outcome<AuthError>, steps: seq<Step>, written: Option<Document>)

  function SecretFile(cluster: string): string { cluster + "-pull-secret.json" }
  function AppendFile(cluster: string): string { cluster + "-append-pull-secret.json" }
  function MergedFile(cluster: string): string { cluster + "-new-pull-secret.json" }

  /**
   * What addRHCEPHAuth does on a cluster holding `secret`, when the
   * actions in `failing` fail and the registry login writes `login`.
   */
  function AuthPlan(cluster: string, rhcephPassword: string, secret: Option<Document>,
                    failing: set<Step>, login: Document): AuthTrace
  {
    var read := [FetchSecret, WriteFile(SecretFile(cluster))];
    if FetchSecret in failing then AuthTrace(Fail(GetSecretFailed), [FetchSecret], None)
    else if read[1] in failing then AuthTrace(Fail(WriteSecretFailed), read, None)
    else if secret.None? then AuthTrace(Fail(ParseSecretFailed), read, None)
    else if !secret.value.auths.Object? then AuthTrace(Fail(InvalidFormat), read, None)
    else if HasRegistryAuth(secret.value.auths.entries) then AuthTrace(Pass, read, None)
    else
      var t := UpdatePlan(cluster, rhcephPassword, secret.value, failing, login);
      AuthTrace(t.result, read + t.steps, t.written)
  }

  /**
   * The part of addRHCEPHAuth after the registry was found missing: log in
   * to the registry, merge, write the merged secret to the cluster, read it
   * back, and only then check the count of the locally merged "auths".
   */
  function UpdatePlan(cluster: string, rhcephPassword: string, secret: Document,
                      failing: set<Step>, login: Document): AuthTrace
    requires secret.auths.Object?
  {
    var login1 := RegistryLogin(AppendFile(cluster), rhcephPassword);
    var merge := Merge(SecretFile(cluster), AppendFile(cluster));
    var save := WriteFile(MergedFile(cluster));
    var update := SetPullSecret(MergedFile(cluster));
    var merged := JqMerge(secret, login);
    if login1 in failing then AuthTrace(Fail(RegistryLoginFailed), [login1], None)
    else if merge in failing then AuthTrace(Fail(MergeFailed), [login1, merge], None)
    else if save in failing then AuthTrace(Fail(WriteMergedFailed), [login1, merge, save], None)
    else if update in failing then AuthTrace(Fail(UpdateFailed), [login1, merge, save, update], None)
    else
      var all := [login1, merge, save, update, RefetchSecret];
      if RefetchSecret in failing then AuthTrace(Fail(RefetchFailed), all, Some(merged))
      else if !merged.auths.Object? then AuthTrace(Fail(InvalidNewFormat), all, Some(merged))
      else if |merged.auths.entries| != |secret.auths.entries| + 1 then AuthTrace(Fail(CountMismatch), all, Some(merged))
      else AuthTrace(Pass, all, Some(merged))
  }

  /** addRHCEPHAuth on the host: read the secret and decide whether to update it. */
  method AddRHCEPHAuth(host: Host, cluster: string, rhcephPassword: string) returns (result: Outcome<AuthError>)
    modifies host
    ensures var t := AuthPlan(cluster, rhcephPassword, old(host.secret), host.failing, host.loginOutput);
      result == t.result && host.log == old(host.log) + t.steps && host.secret == SecretAfter(old(host.secret), t.written)
  {
    var ok := host.Perform(FetchSecret);
    if !ok {
      return Fail(GetSecretFailed);
    }
    var pullSecretOutput := host.secret;
    var pullSecretFileName := SecretFile(cluster);
    ok := host.Perform(WriteFile(pullSecretFileName));
    if !ok {
      return Fail(WriteSecretFailed);
    }
    if pullSecretOutput.None? {
      return Fail(ParseSecretFailed);
    }
    var pullSecret := pullSecretOutput.value;
    var auths := ExtractAuths(pullSecret);
    if auths.None? {
      return Fail(InvalidFormat);
    }
    // The source's `pullSecret["auths"] == nil` check cannot fire here.
    assert !IsNil(pullSecret.auths);
    if HasRegistryAuth(auths.value) {
      return Pass;
    }
    result := UpdateRHCEPHAuth(host, cluster, rhcephPassword, pullSecret);
  }

  /** The update half of addRHCEPHAuth: registry login, merge, write, re-read, count check. */
  method UpdateRHCEPHAuth(host: Host, cluster: string, rhcephPassword: string, pullSecret: Document)
    returns (result: Outcome<AuthError>)
    requires pullSecret.auths.Object?
    modifies host
    ensures var t := UpdatePlan(cluster, rhcephPassword, pullSecret, host.failing, host.loginOutput);
      result == t.result && host.log == old(host.log) + t.steps && host.secret == SecretAfter(old(host.secret), t.written)
  {
    var elementsCount := |pullSecret.auths.entries|;
    var pullSecretFileName := SecretFile(cluster);
    var appendFileName := AppendFile(cluster);
    var ok := host.Perform(RegistryLogin(appendFileName, rhcephPassword));
    if !ok {
      return Fail(RegistryLoginFailed);
    }
    var newPullSecretFileName := MergedFile(cluster);
    ok := host.Perform(Merge(pullSecretFileName, appendFileName));
    if !ok {
      return Fail(MergeFailed);
    }
    var mergedOutput := JqMerge(pullSecret, host.loginOutput);
    ok := host.Perform(WriteFile(newPullSecretFileName));
    if !ok {
      return Fail(WriteMergedFailed);
    }
    ok := host.SetData(newPullSecretFileName, mergedOutput);
    if !ok {
      return Fail(UpdateFailed);
    }
    ok := host.Perform(RefetchSecret);
    if !ok {
      return Fail(RefetchFailed);
    }
    var newAuths := ExtractAuths(mergedOutput);
    if newAuths.None? {
      return Fail(InvalidNewFormat);
    }
    if |newAuths.value| != elementsCount + 1 {
      return Fail(CountMismatch);
    }
    return Pass;
  }

  // ---------------------------------------------------------------------
  // checkRequiredCommands

  /** The commands main needs, in the order they are looked up. */
  const RequiredCommands: seq<string> := ["jq", "oc"]

  /** The first of `commands` that is not installed, if any. */
  function FirstMissing(commands: seq<string>, installed: set<string>): (r: Option<string>)
    ensures r.Some? ==> r.value in commands && r.value !in installed
  {
    if commands == [] then None
    else if commands[0] !in installed then Some(commands[0])
    else FirstMissing(commands[1..], installed)
  }

  /** checkRequiredCommands: look the commands up in order, stop at the first missing one. */
  method CheckRequiredCommands(installed: set<string>) returns (missing: Option<string>)
    ensures missing == FirstMissing(RequiredCommands, installed)
    ensures missing.None? <==> forall i :: 0 <= i < |RequiredCommands| ==> RequiredCommands[i] in installed
  {
    var i := 0;
    while i < |RequiredCommands|
      invariant 0 <= i <= |RequiredCommands|
      invariant forall j :: 0 <= j < i ==> RequiredCommands[j] in installed
      invariant FirstMissing(RequiredCommands, installed) == FirstMissing(RequiredCommands[i..], installed)
    {
      var cmd := RequiredCommands[i];
      if cmd !in installed {
        return Some(cmd);
      }
      assert RequiredCommands[i..][1..] == RequiredCommands[i + 1..];
      i := i + 1;
    }
    return None;
  }

  // ---------------------------------------------------------------------
  // main

  /** The command-line flags after flag.Parse. */
  datatype Flags = Flags(url: string, username: string, password: string, rhcephPassword: string)

  /** The username used when -username is not given. */
  const DefaultUsername: string := "kubeadmin"

  /** flag.Parse over the flags given on the command line (name to value); only -username has a non-empty default. */
  function ParseFlags(args: map<string, string>): (f: Flags)
    ensures f.username == if "username" in args then args["username"] else DefaultUsername
    ensures f.url == "" <==> "url" !in args || args["url"] == ""
    ensures f.password == "" <==> "password" !in args || args["password"] == ""
    ensures f.rhcephPassword == "" <==> "rhceph-password" !in args || args["rhceph-password"] == ""
  {
    Flags(
      if "url" in args then args["url"] else "",
      if "username" in args then args["username"] else DefaultUsername,
      if "password" in args then args["password"] else "",
      if "rhceph-password" in args then args["rhceph-password"] else "")
  }

  /** The first required flag left empty, checked in the order url, password, rhceph-password. */
  function FirstMissingFlag(f: Flags): (r: Option<string>)
    ensures r.None? <==> f.url != "" && f.password != "" && f.rhcephPassword != ""
    ensures r == Some("url") <==> f.url == ""
    ensures r == Some("password") <==> f.url != "" && f.password == ""
    ensures r == Some("rhceph-password") <==> f.url != "" && f.password != "" && f.rhcephPassword == ""
  {
    if f.url == "" then Some("url")
    else if f.password == "" then Some("password")
    else if f.rhcephPassword == "" then Some("rhceph-password")
    else None
  }

  /** Why main exited with status 1. */
  datatype Failure =
    | MissingFlag(flag: string)          // usage printed
    | MissingCommand(command: string)    // "<cmd> is not installed or not in PATH"
    | BadClusterName                     // "could not parse cluster name from URL"
    | KubeconfigFailed
    | LoginFailed
    | RHCEPHAuthFailed(cause: AuthError)
    | ICSPFailed(failed: Step)
    | CatalogSourceFailed(failed: Step)

  /** Exit status 0, or status 1 with its reason. */
  datatype Exit = Completed | Exited(failure: Failure)

  /** Outcome, steps taken and the document written to the cluster, if any. */
  datatype MainTrace = MainTrace(exit: Exit, steps: seq<Step>, written: Option<Document>)

  /** Which step of a manifest stage failed, if any, and the steps taken. */
  datatype ManifestTrace = ManifestTrace(failed: Option<Step>, steps: seq<Step>)

  /** addICSP / addCatalogSource: write the bundled manifest to `<cluster><suffix>`, then apply it. */
  function ManifestPlan(cluster: string, suffix: string, failing: set<Step>): ManifestTrace
  {
    var write := WriteFile(cluster + suffix);
    var apply := Apply(cluster + suffix);
    if write in failing then ManifestTrace(Some(write), [write])
    else if apply in failing then ManifestTrace(Some(apply), [write, apply])
    else ManifestTrace(None, [write, apply])
  }

  /**
   * What main does: check the flags, then the commands, then derive the
   * cluster name and run the cluster stages, stopping at the first error.
   */
  function MainPlan(args: map<string, string>, installed: set<string>, failing: set<Step>,
                    login: Document, secret: Option<Document>): MainTrace
  {
    var f := ParseFlags(args);
    if FirstMissingFlag(f).Some? then MainTrace(Exited(MissingFlag(FirstMissingFlag(f).value)), [], None)
    else if FirstMissing(RequiredCommands, installed).Some? then
      MainTrace(Exited(MissingCommand(FirstMissing(RequiredCommands, installed).value)), [], None)
    else if ClusterName.GetClusterName(f.url).Failure? then MainTrace(Exited(BadClusterName), [], None)
    else StagesPlan(ClusterName.GetClusterName(f.url).value, f, failing, login, secret)
  }

  /**
   * The cluster stages of main in order: create the kubeconfig, log in,
   * then provision the cluster.
   */
  function StagesPlan(cluster: string, f: Flags, failing: set<Step>,
                      login: Document, secret: Option<Document>): MainTrace
  {
    var kubeconfig := CreateKubeconfig(cluster + "-kubeconfig-*");
    var ocLogin := OcLogin(f.url, f.username, f.password);
    if kubeconfig in failing then MainTrace(Exited(KubeconfigFailed), [kubeconfig], None)
    else if ocLogin in failing then MainTrace(Exited(LoginFailed), [kubeconfig, ocLogin], None)
    else
      var p := ProvisionPlan(cluster, f.rhcephPassword, failing, login, secret);
      MainTrace(p.exit, [kubeconfig, ocLogin] + p.steps, p.written)
  }

  /** The logged-in stages: update the pull secret, then apply the manifests. */
  function ProvisionPlan(cluster: string, rhcephPassword: string, failing: set<Step>,
                         login: Document, secret: Option<Document>): MainTrace
  {
    var auth := AuthPlan(cluster, rhcephPassword, secret, failing, login);
    if auth.result.Fail? then MainTrace(Exited(RHCEPHAuthFailed(auth.result.error)), auth.steps, auth.written)
    else
      var m := ManifestsPlan(cluster, failing);
      MainTrace(m.exit, auth.steps + m.steps, auth.written)
  }

  /** The two manifest stages: the ICSP first, then the CatalogSource. */
  function ManifestsPlan(cluster: string, failing: set<Step>): MainTrace
  {
    var icsp := ManifestPlan(cluster, "-icsp.yaml", failing);
    var catalog := ManifestPlan(cluster, "-catalogsource.yaml", failing);
    if icsp.failed.Some? then MainTrace(Exited(ICSPFailed(icsp.failed.value)), icsp.steps, None)
    else if catalog.failed.Some? then MainTrace(Exited(CatalogSourceFailed(catalog.failed.value)), icsp.steps + catalog.steps, None)
    else MainTrace(Completed, icsp.steps + catalog.steps, None)
  }

  /** Writes a bundled manifest to `<cluster><suffix>` and applies it (addICSP, addCatalogSource). */
  method AddManifest(host: Host, cluster: string, suffix: string) returns (failed: Option<Step>)
    modifies host`log
    ensures var m := ManifestPlan(cluster, suffix, host.failing);
      failed == m.failed && host.log == old(host.log) + m.steps
  {
    var fileName := cluster + suffix;
    var ok := host.Perform(WriteFile(fileName));
    if !ok {
      return Some(WriteFile(fileName));
    }
    ok := host.Perform(Apply(fileName));
    if !ok {
      return Some(Apply(fileName));
    }
    return None;
  }

  /** main: validate flags and commands, derive the cluster name, then run the cluster stages. */
  method Run(host: Host, args: map<string, string>) returns (exit: Exit)
    modifies host
    ensures var t := MainPlan(args, host.installed, host.failing, host.loginOutput, old(host.secret));
      exit == t.exit && host.log == old(host.log) + t.steps && host.secret == SecretAfter(old(host.secret), t.written)
  {
    var flags := ParseFlags(args);
    var missingFlag := FirstMissingFlag(flags);
    if missingFlag.Some? {
      return Exited(MissingFlag(missingFlag.value));
    }
    var missing := CheckRequiredCommands(host.installed);
    if missing.Some? {
      return Exited(MissingCommand(missing.value));
    }
    var name := ClusterName.GetClusterName(flags.url);
    if name.Failure? {
      return Exited(BadClusterName);
    }
    exit := RunStages(host, name.value, flags);
  }

  /** The cluster stages of main, each exiting on its first error. */
  method RunStages(host: Host, clusterName: string, flags: Flags) returns (exit: Exit)
    modifies host
    ensures var t := StagesPlan(clusterName, flags, host.failing, host.loginOutput, old(host.secret));
      exit == t.exit && host.log == old(host.log) + t.steps && host.secret == SecretAfter(old(host.secret), t.written)
  {
    var ok := host.Perform(CreateKubeconfig(clusterName + "-kubeconfig-*"));
    if !ok {
      return Exited(KubeconfigFailed);
    }
    ok := host.Perform(OcLogin(flags.url, flags.username, flags.password));
    if !ok {
      return Exited(LoginFailed);
    }
    ghost var loggedIn := host.log;
    exit := Provision(host, clusterName, flags.rhcephPassword);
    ghost var p := ProvisionPlan(clusterName, flags.rhcephPassword, host.failing, host.loginOutput, old(host.secret));
    assert loggedIn == old(host.log) + [CreateKubeconfig(clusterName + "-kubeconfig-*"), OcLogin(flags.url, flags.username, flags.password)];
    assert host.log == loggedIn + p.steps;
  }

  /** Updates the pull secret, then adds the ICSP and the CatalogSource, exiting on the first error. */
  method Provision(host: Host, clusterName: string, rhcephPassword: string) returns (exit: Exit)
    modifies host
    ensures var t := ProvisionPlan(clusterName, rhcephPassword, host.failing, host.loginOutput, old(host.secret));
      exit == t.exit && host.log == old(host.log) + t.steps && host.secret == SecretAfter(old(host.secret), t.written)
  {
    var auth := AddRHCEPHAuth(host, clusterName, rhcephPassword);
    if auth.Fail? {
      return Exited(RHCEPHAuthFailed(auth.error));
    }
    var failed := AddManifest(host, clusterName, "-icsp.yaml");
    if failed.Some? {
      return Exited(ICSPFailed(failed.value));
    }
    failed := AddManifest(host, clusterName, "-catalogsource.yaml");
    if failed.Some? {
      return Exited(CatalogSourceFailed(failed.value));
    }
    return Completed;
  }
}
