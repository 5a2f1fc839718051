/**
 * What the installer promises, stated over the plan functions that the
 * methods of module Installer are proved to follow.
 */
module InstallerLemmas {
  import opened Wrappers
  import opened PullSecret
  import opened Installer
  import ClusterName

  // ---------------------------------------------------------------------
  // addRHCEPHAuth

  /** Every step of an update that reaches the count check, in order. */
  function FullUpdateSteps(cluster: string, pw: string): seq<Step>
  {
    [ FetchSecret, WriteFile(SecretFile(cluster)), RegistryLogin(AppendFile(cluster), pw),
      Merge(SecretFile(cluster), AppendFile(cluster)), WriteFile(MergedFile(cluster)),
      SetPullSecret(MergedFile(cluster)), RefetchSecret ]
  }

  /** A secret whose "auths" is missing or not an object is rejected before any registry login, merge or update. */
  lemma InvalidFormatStopsEarly(cluster: string, pw: string, doc: Document, failing: set<Step>, login: Document)
    requires FetchSecret !in failing && WriteFile(SecretFile(cluster)) !in failing
    requires !doc.auths.Object?
    ensures var t := AuthPlan(cluster, pw, Some(doc), failing, login);
      && t.result == Fail(InvalidFormat)
      && t.written == None
      && t.steps == [FetchSecret, WriteFile(SecretFile(cluster))]
  {
  }

  /** A non-null rhceph-dev credential makes the update a no-op: no registry login, merge or write. */
  lemma PresentRegistryIsNoop(cluster: string, pw: string, doc: Document, failing: set<Step>, login: Document)
    requires FetchSecret !in failing && WriteFile(SecretFile(cluster)) !in failing
    requires doc.auths.Object? && HasRegistryAuth(doc.auths.entries)
    ensures AuthPlan(cluster, pw, Some(doc), failing, login) ==
      AuthTrace(Pass, [FetchSecret, WriteFile(SecretFile(cluster))], None)
  {
  }

  /** A rhceph-dev key holding JSON null counts as absent: the registry login is attempted. */
  lemma NullCredentialIsAbsent(cluster: string, pw: string, doc: Document, failing: set<Step>, login: Document)
    requires FetchSecret !in failing && WriteFile(SecretFile(cluster)) !in failing
    requires doc.auths.Object? && RHCEPHRegistry in doc.auths.entries && doc.auths.entries[RHCEPHRegistry] == None
    ensures var t := AuthPlan(cluster, pw, Some(doc), failing, login);
      |t.steps| >= 3 && t.steps[2] == RegistryLogin(AppendFile(cluster), pw)
  {
  }

  /**
   * Once the merged secret is computed and every step succeeds, the update
   * passes exactly when the login output brings one registry the secret
   * lacked; otherwise it fails the count check after the cluster secret
   * was already overwritten with the merge.
   */
  lemma CountCheckDecides(cluster: string, pw: string, doc: Document, failing: set<Step>, login: Document)
    requires doc.auths.Object? && !HasRegistryAuth(doc.auths.entries) && login.auths.Object?
    requires forall s :: s in FullUpdateSteps(cluster, pw) ==> s !in failing
    ensures var t := AuthPlan(cluster, pw, Some(doc), failing, login);
      var merged := MergeAuths(doc.auths.entries, login.auths.entries);
      && t.written == Some(Document(Object(merged)))
      && (t.result == Pass <==> exists k :: NewKeys(doc.auths.entries, login.auths.entries) == {k})
      && (t.result != Pass ==> t.result == Fail(CountMismatch))
  {
    var steps := FullUpdateSteps(cluster, pw);
    assert steps[0] !in failing && steps[1] !in failing && steps[2] !in failing && steps[3] !in failing;
    assert steps[4] !in failing && steps[5] !in failing && steps[6] !in failing;
    CountCheckIffOneNewKey(doc.auths.entries, login.auths.entries);
  }

  /**
   * A successful update that wrote the cluster secret wrote the right-biased
   * union of the original "auths" and the login output's, which differ in
   * exactly one registry.
   */
  lemma SuccessfulUpdateAddsOneRegistry(cluster: string, pw: string, secret: Option<Document>,
                                        failing: set<Step>, login: Document)
    requires AuthPlan(cluster, pw, secret, failing, login).result == Pass
    requires AuthPlan(cluster, pw, secret, failing, login).written.Some?
    ensures secret.Some? && secret.value.auths.Object? && login.auths.Object?
    ensures var before := secret.value.auths.entries;
      var added := login.auths.entries;
      && AuthPlan(cluster, pw, secret, failing, login).written == Some(Document(Object(MergeAuths(before, added))))
      && (exists k :: NewKeys(before, added) == {k})
      && before.Keys <= MergeAuths(before, added).Keys
  {
    CountCheckIffOneNewKey(secret.value.auths.entries, login.auths.entries);
  }

  /** A count mismatch is reported after the merged secret was pushed to the cluster and read back. */
  lemma MismatchAfterWrite(cluster: string, pw: string, secret: Option<Document>, failing: set<Step>, login: Document)
    requires AuthPlan(cluster, pw, secret, failing, login).result == Fail(CountMismatch)
    ensures var t := AuthPlan(cluster, pw, secret, failing, login);
      && t.written.Some?
      && |t.steps| == 7
      && t.steps[5] == SetPullSecret(MergedFile(cluster))
      && t.steps[6] == RefetchSecret
  {
  }

  /** The update takes its steps in the source's fixed order, stopping early at most. */
  lemma AuthStepsInOrder(cluster: string, pw: string, secret: Option<Document>, failing: set<Step>, login: Document)
    ensures var t := AuthPlan(cluster, pw, secret, failing, login);
      1 <= |t.steps| <= 7 && t.steps == FullUpdateSteps(cluster, pw)[..|t.steps|]
  {
  }

  /** A failing step is always the last one taken, and the update then fails. */
  lemma AuthFailFast(cluster: string, pw: string, secret: Option<Document>, failing: set<Step>, login: Document)
    ensures var t := AuthPlan(cluster, pw, secret, failing, login);
      forall i :: 0 <= i < |t.steps| && t.steps[i] in failing ==> i == |t.steps| - 1 && t.result.Fail?
  {
  }

  /**
   * Re-running is a no-op: after a passing update whose login output holds
   * a rhceph-dev credential, the next run finds it and changes nothing.
   */
  lemma RerunIsNoop(cluster: string, pw: string, secret: Option<Document>, failing: set<Step>, login: Document,
                    pw': string, failing': set<Step>, login': Document)
    requires AuthPlan(cluster, pw, secret, failing, login).result == Pass
    requires login.auths.Object? && HasRegistryAuth(login.auths.entries)
    requires FetchSecret !in failing' && WriteFile(SecretFile(cluster)) !in failing'
    ensures var after := SecretAfter(secret, AuthPlan(cluster, pw, secret, failing, login).written);
      AuthPlan(cluster, pw', after, failing', login') ==
        AuthTrace(Pass, [FetchSecret, WriteFile(SecretFile(cluster))], None)
  {
    var t := AuthPlan(cluster, pw, secret, failing, login);
    if t.written.Some? {
      SuccessfulUpdateAddsOneRegistry(cluster, pw, secret, failing, login);
      MergedHasRegistryAuth(secret.value.auths.entries, login.auths.entries);
    }
  }

  /**
   * A rhceph-dev key holding null is absent for the presence test but is
   * still counted in `elementsCount`. If the login output holds only that
   * registry, the merge adds no key: the update fails the count check after
   * the secret was overwritten, and the next run finds the credential.
   */
  lemma NullEntryCountedButAbsent(cluster: string, pw: string, failing: set<Step>, cred: Cred,
                                  pw': string, failing': set<Step>, login': Document)
    requires forall s :: s in FullUpdateSteps(cluster, pw) ==> s !in failing
    requires FetchSecret !in failing' && WriteFile(SecretFile(cluster)) !in failing'
    ensures var doc := Document(Object(map[RHCEPHRegistry := None]));
      var login := Document(Object(map[RHCEPHRegistry := Some(cred)]));
      var t := AuthPlan(cluster, pw, Some(doc), failing, login);
      && t.result == Fail(CountMismatch)
      && t.written == Some(login)
      && AuthPlan(cluster, pw', t.written, failing', login') ==
           AuthTrace(Pass, [FetchSecret, WriteFile(SecretFile(cluster))], None)
  {
    var before: Auths := map[RHCEPHRegistry := None];
    var added: Auths := map[RHCEPHRegistry := Some(cred)];
    CountCheckDecides(cluster, pw, Document(Object(before)), failing, Document(Object(added)));
    assert NewKeys(before, added) == {};
    assert MergeAuths(before, added) == added;
  }

  // ---------------------------------------------------------------------
  // checkRequiredCommands

  /** FirstMissing names the earliest command that is not installed, or none when all are. */
  lemma {:induction false} FirstMissingIsEarliest(commands: seq<string>, installed: set<string>)
    ensures FirstMissing(commands, installed).None? <==> forall i :: 0 <= i < |commands| ==> commands[i] in installed
    ensures FirstMissing(commands, installed).Some? ==>
      exists i :: 0 <= i < |commands| && commands[i] == FirstMissing(commands, installed).value
        && commands[i] !in installed && forall j :: 0 <= j < i ==> commands[j] in installed
  {
    if commands != [] && commands[0] in installed {
      FirstMissingIsEarliest(commands[1..], installed);
      var r := FirstMissing(commands, installed);
      if r.Some? {
        var i :| 0 <= i < |commands[1..]| && commands[1..][i] == r.value
          && commands[1..][i] !in installed && forall j :: 0 <= j < i ==> commands[1..][j] in installed;
        assert commands[i + 1] == r.value;
        assert forall j :: 0 <= j < i + 1 ==> commands[j] in installed by {
          forall j | 0 <= j < i + 1 ensures commands[j] in installed {
            if j > 0 { assert commands[j] == commands[1..][j - 1]; }
          }
        }
      } else {
        forall i | 0 <= i < |commands| ensures commands[i] in installed {
          if i > 0 { assert commands[i] == commands[1..][i - 1]; }
        }
      }
    }
  }

  /** jq is looked up before oc: with neither installed, jq is the one reported. */
  lemma JqCheckedFirst(installed: set<string>)
    requires "jq" !in installed
    ensures FirstMissing(RequiredCommands, installed) == Some("jq")
  {
  }

  // ---------------------------------------------------------------------
  // main

  /**
   * Nothing touches the host or the cluster unless all three required
   * flags are set, jq and oc are installed, and the URL contains a '.'.
   */
  lemma ChecksPrecedeActions(args: map<string, string>, installed: set<string>, failing: set<Step>,
                             login: Document, secret: Option<Document>)
    requires MainPlan(args, installed, failing, login, secret).steps != []
    ensures var f := ParseFlags(args);
      && f.url != "" && f.password != "" && f.rhcephPassword != ""
      && (forall c :: c in RequiredCommands ==> c in installed)
      && '.' in f.url
  {
    FirstMissingIsEarliest(RequiredCommands, installed);
  }

  /** A missing flag is reported for the first of url, password, rhceph-password that is empty, with no action taken. */
  lemma MissingFlagReported(args: map<string, string>, installed: set<string>, failing: set<Step>,
                            login: Document, secret: Option<Document>)
    requires "url" !in args || args["url"] == ""
    ensures MainPlan(args, installed, failing, login, secret) == MainTrace(Exited(MissingFlag("url")), [], None)
  {
  }

  /** The manifest stages write and apply the ICSP, then the CatalogSource, stopping early at most. */
  lemma ManifestStepsInOrder(cluster: string, failing: set<Step>)
    ensures var m := ManifestsPlan(cluster, failing);
      var full := [WriteFile(cluster + "-icsp.yaml"), Apply(cluster + "-icsp.yaml"),
                   WriteFile(cluster + "-catalogsource.yaml"), Apply(cluster + "-catalogsource.yaml")];
      1 <= |m.steps| <= 4 && m.steps == full[..|m.steps|]
  {
  }

  /** Provisioning takes no kubeconfig or login step: only the pull-secret and manifest steps. */
  lemma ProvisionHasNoLogin(cluster: string, pw: string, failing: set<Step>, login: Document, secret: Option<Document>)
    ensures var p := ProvisionPlan(cluster, pw, failing, login, secret);
      forall i :: 0 <= i < |p.steps| ==> !p.steps[i].OcLogin? && !p.steps[i].CreateKubeconfig?
  {
    var a := AuthPlan(cluster, pw, secret, failing, login);
    AuthStepsInOrder(cluster, pw, secret, failing, login);
    assert forall i :: 0 <= i < |a.steps| ==> a.steps[i] == FullUpdateSteps(cluster, pw)[i];
    if a.result.Pass? {
      var m := ManifestsPlan(cluster, failing);
      ManifestStepsInOrder(cluster, failing);
      var p := ProvisionPlan(cluster, pw, failing, login, secret);
      assert p.steps == a.steps + m.steps;
      forall i | 0 <= i < |p.steps| ensures !p.steps[i].OcLogin? && !p.steps[i].CreateKubeconfig? {
        if i >= |a.steps| {
          assert p.steps[i] == m.steps[i - |a.steps|];
        }
      }
    }
  }

  /**
   * The stages log in at most once, and exactly once, as the second step,
   * when the kubeconfig step succeeds; the login carries the flags' URL,
   * username and password.
   */
  lemma StagesLogInOnce(cluster: string, f: Flags, failing: set<Step>, login: Document, secret: Option<Document>)
    ensures var t := StagesPlan(cluster, f, failing, login, secret);
      forall i :: 0 <= i < |t.steps| && t.steps[i].OcLogin? ==> i == 1 && t.steps[i] == OcLogin(f.url, f.username, f.password)
    ensures var t := StagesPlan(cluster, f, failing, login, secret);
      CreateKubeconfig(cluster + "-kubeconfig-*") !in failing ==>
        |t.steps| >= 2 && t.steps[1] == OcLogin(f.url, f.username, f.password)
  {
    ProvisionHasNoLogin(cluster, f.rhcephPassword, failing, login, secret);
  }

  /** Without -username, main logs in as kubeadmin. */
  lemma UsernameDefaultsToKubeadmin(args: map<string, string>, installed: set<string>, failing: set<Step>,
                                    login: Document, secret: Option<Document>)
    requires "username" !in args
    ensures var t := MainPlan(args, installed, failing, login, secret);
      forall i :: 0 <= i < |t.steps| && t.steps[i].OcLogin? ==> t.steps[i].username == DefaultUsername
  {
    var f := ParseFlags(args);
    if ClusterName.GetClusterName(f.url).Success? {
      StagesLogInOnce(ClusterName.GetClusterName(f.url).value, f, failing, login, secret);
    }
  }

  /** Provisioning stops at the first failing step. */
  lemma ProvisionFailFast(cluster: string, pw: string, failing: set<Step>, login: Document, secret: Option<Document>)
    ensures var p := ProvisionPlan(cluster, pw, failing, login, secret);
      forall i :: 0 <= i < |p.steps| && p.steps[i] in failing ==> i == |p.steps| - 1 && p.exit.Exited?
  {
    var p := ProvisionPlan(cluster, pw, failing, login, secret);
    var a := AuthPlan(cluster, pw, secret, failing, login);
    AuthFailFast(cluster, pw, secret, failing, login);
    if a.result.Pass? {
      var m := ManifestsPlan(cluster, failing);
      assert forall i :: 0 <= i < |a.steps| ==> a.steps[i] !in failing;
      forall i | 0 <= i < |p.steps| && p.steps[i] in failing ensures i == |p.steps| - 1 && p.exit.Exited? {
        assert p.steps == a.steps + m.steps;
        assert i >= |a.steps|;
        assert p.steps[i] == m.steps[i - |a.steps|];
      }
    }
  }

  /** The stages after the cluster name stop at the first failing step. */
  lemma StagesFailFast(cluster: string, f: Flags, failing: set<Step>, login: Document, secret: Option<Document>)
    ensures var t := StagesPlan(cluster, f, failing, login, secret);
      forall i :: 0 <= i < |t.steps| && t.steps[i] in failing ==> i == |t.steps| - 1 && t.exit.Exited?
  {
    var t := StagesPlan(cluster, f, failing, login, secret);
    var kubeconfig := CreateKubeconfig(cluster + "-kubeconfig-*");
    var ocLogin := OcLogin(f.url, f.username, f.password);
    if kubeconfig !in failing && ocLogin !in failing {
      var p := ProvisionPlan(cluster, f.rhcephPassword, failing, login, secret);
      ProvisionFailFast(cluster, f.rhcephPassword, failing, login, secret);
      forall i | 0 <= i < |t.steps| && t.steps[i] in failing ensures i == |t.steps| - 1 && t.exit.Exited? {
        assert i >= 2;
        assert t.steps[i] == p.steps[i - 2];
      }
    }
  }

  /** main stops at the first failing step: no action is taken after one fails, and the run exits with status 1. */
  lemma MainFailFast(args: map<string, string>, installed: set<string>, failing: set<Step>,
                     login: Document, secret: Option<Document>)
    ensures var t := MainPlan(args, installed, failing, login, secret);
      forall i :: 0 <= i < |t.steps| && t.steps[i] in failing ==> i == |t.steps| - 1 && t.exit.Exited?
  {
    var f := ParseFlags(args);
    if ClusterName.GetClusterName(f.url).Success? {
      StagesFailFast(ClusterName.GetClusterName(f.url).value, f, failing, login, secret);
    }
  }

  /**
   * A completed run created the kubeconfig, logged in, updated the pull
   * secret successfully, then applied the ICSP and after it the
   * CatalogSource, with no step failing.
   */
  lemma CompletedRunsEveryStage(args: map<string, string>, installed: set<string>, failing: set<Step>,
                                login: Document, secret: Option<Document>)
    requires MainPlan(args, installed, failing, login, secret).exit == Completed
    ensures var f := ParseFlags(args);
      var t := MainPlan(args, installed, failing, login, secret);
      && ClusterName.GetClusterName(f.url).Success?
      && var cluster := ClusterName.GetClusterName(f.url).value;
      && var auth := AuthPlan(cluster, f.rhcephPassword, secret, failing, login);
      && auth.result == Pass
      && t.steps == [CreateKubeconfig(cluster + "-kubeconfig-*"), OcLogin(f.url, f.username, f.password)]
           + auth.steps + [WriteFile(cluster + "-icsp.yaml"), Apply(cluster + "-icsp.yaml")]
           + [WriteFile(cluster + "-catalogsource.yaml"), Apply(cluster + "-catalogsource.yaml")]
      && forall i :: 0 <= i < |t.steps| ==> t.steps[i] !in failing
  {
    MainFailFast(args, installed, failing, login, secret);
  }
}
