# odfdr-installer, modelled in Dafny

`odfdr-installer` prepares one OpenShift cluster for ODF disaster recovery.
It logs in with `oc`, adds a credential for the `quay.io/rhceph-dev`
registry to the cluster's pull secret, and applies two bundled manifests:
an ImageContentSourcePolicy (ICSP) and then a CatalogSource. It stops at
the first error. The whole program is `main.go`. This project models its
decision logic:

- `cluster_name.dfy` (module `ClusterName`): `getClusterName`. Go's
  `strings.Split` on `.` is modelled as `Split`. Lemmas locate the result
  between the first and second dot, and show that `Split` inverts `Join`.
- `pull_secret.dfy` (module `PullSecret`): the pull-secret documents after
  decoding. It covers the `auths` type assertion, the presence test for
  `quay.io/rhceph-dev` (a JSON `null` counts as absent there, though it
  still counts toward the entry count) and jq's
  `.[0] * .[1]` merge of `auths`. It also proves that the count check
  passes exactly when the merge adds one registry.
- `installer.dfy` (module `Installer`): the imperative part.
  - A `Host` class holds the commands on PATH, the external actions that
    fail, the output of `oc registry login`, the cluster's pull secret and
    a log of every external action (`Step`).
  - `AddRHCEPHAuth`, `CheckRequiredCommands`, `AddManifest` and `Run`
    (`main`) are methods over that host. Each is proved to follow a plan
    function: `AuthPlan`, `FirstMissing`, `ManifestPlan` and `MainPlan`.
    A plan gives the outcome, the steps taken and the document written to
    the cluster.
- `installer_lemmas.dfy` (module `InstallerLemmas`): what the plans
  guarantee. Examples: a malformed secret is rejected before any registry
  login; an existing credential makes the update a no-op; a successful
  update adds exactly one registry; a count mismatch is reported only
  after the cluster secret was overwritten; a re-run is a no-op when the
  login output held a rhceph-dev credential; `main`
  checks flags and commands before acting, stops at the first failing
  step, and applies the ICSP before the CatalogSource.
- `wrappers.dfy` (module `Wrappers`): `Option`, `Result` and `Outcome`.

The code writes the merged secret to the cluster before it checks the
count. It writes with `oc set data` (main.go:177-183), reads the secret
back, and only then checks the count of the locally merged document
(main.go:198-207). A mismatch therefore does not undo the write. The model
keeps this order: `UpdatePlan` records the write before the check, and
`InstallerLemmas.MismatchAfterWrite` and `InstallerLemmas.CountCheckDecides`
state it. The presence test checks for a non-nil value, so a
`quay.io/rhceph-dev` key that holds JSON `null` counts as absent for that
test (`InstallerLemmas.NullCredentialIsAbsent`). The entry count taken at
main.go:145 still includes that key. So when the login output holds only
that registry, the merge adds no key. The update then fails the count
check after the secret was overwritten, and the next run passes
(`InstallerLemmas.NullEntryCountedButAbsent`).

The count check never looks at which key is new. A login output whose
one new key is a different registry passes, and the next run logs in to
the registry again. `InstallerLemmas.RerunIsNoop` therefore requires the
login output to hold a non-null rhceph-dev credential.

## Model

| member | source | states |
|---|---|---|
| `ClusterName.Split` | main.go:43 | `strings.Split` on a one-character separator: one field more than there are separators (so `""` gives one field), no field contains the separator, and joining the fields with it gives back the input |
| `ClusterName.SplitJoin` | main.go:43 | `Split` inverts `Join` on separator-free fields, so the fields are the only such decomposition of the input |
| `ClusterName.GetClusterName` | main.go:42-49 | fails exactly when the URL contains no `.` (including the empty URL); a returned name never contains a `.` |
| `ClusterName.ClusterNameBetweenDots` | main.go:42-49 | on a URL with a `.`, the name is the text between the first `.` and the next `.`, or the end of the URL |
| `ClusterName.UsageExample` | main.go:79 | `api.cluster.example.com:6443` yields `cluster` |
| `ClusterName.EmptyNameExample` | main.go:42-49 | `a..b` yields the empty name, as a success |
| `PullSecret.IsNil` | main.go:147 | `pullSecret["auths"] == nil` holds for a missing or null `auths` and never for an object |
| `PullSecret.HasRegistryAuth` | main.go:151 | `auths["quay.io/rhceph-dev"] != nil` holds exactly when the key is present with a credential, not with null |
| `PullSecret.ExtractAuths` | main.go:141-149 | the `auths` type assertion succeeds exactly when `auths` is an object; it then returns its entries, and the later nil check cannot fire |
| `PullSecret.MergeAuths` | main.go:166 | jq's `*` on the `auths` objects: every key of either side is kept, and on a collision the login output's value wins |
| `PullSecret.JqMerge` | main.go:165-167 | `.[0] * .[1]` as seen from `auths`: two objects are merged by `MergeAuths`, a missing right-hand `auths` keeps the left one, and any other right-hand value replaces the left one |
| `PullSecret.MergeSize` | main.go:203 | the merged `auths` has the original count plus the number of registries new to the secret |
| `PullSecret.CountCheckIffOneNewKey` | main.go:205-207 | the count check `new == old + 1` passes exactly when the login output brings one registry the secret lacked; zero or two or more new keys fail it |
| `PullSecret.MergeKeepsOriginalKeys` | main.go:166 | no registry of the original secret is lost by the merge |
| `PullSecret.MergedHasRegistryAuth` | main.go:151 | a non-null rhceph-dev credential in the login output is present in the merge |
| `Installer.Host.SetData` | main.go:177-183 | `oc set data` logs its step and on success replaces the cluster's pull secret with the merged document |
| `Installer.AddRHCEPHAuth` | main.go:121-154 | fetches and saves the secret, rejects a non-object document or `auths`, returns at once when the credential is present, and otherwise runs the update; outcome, log and cluster secret are those of `AuthPlan` |
| `Installer.UpdateRHCEPHAuth` | main.go:156-209 | registry login, jq merge, save, cluster write, re-read (value discarded), then the count check on the local merge; outcome, log and cluster secret are those of `UpdatePlan` |
| `Installer.FirstMissing` | main.go:29-40 | a reported command is one of the required ones and is not installed |
| `Installer.CheckRequiredCommands` | main.go:30-40 | looks up `jq` then `oc` and returns the first missing one, or none exactly when both are installed |
| `Installer.ParseFlags` | main.go:213-218 | `-username` defaults to `kubeadmin`; each required flag is empty exactly when it is missing or given as empty |
| `Installer.FirstMissingFlag` | main.go:220-233 | reports `url`, then `password`, then `rhceph-password`, whichever is the first left empty, and nothing exactly when all three are set |
| `Installer.AddManifest` | main.go:87-119 | writes `<cluster><suffix>` and applies it with `oc apply`; reports the step that failed, and does not apply after a failed write (follows `ManifestPlan`) |
| `Installer.Run` | main.go:212-249 | `main`: flag checks, then command checks, then the cluster name, then the cluster stages; outcome, log and cluster secret are those of `MainPlan` |
| `Installer.RunStages` | main.go:251-260 | kubeconfig, then login, each exiting on its error, then provisioning; follows `StagesPlan` |
| `Installer.Provision` | main.go:262-275 | pull-secret update, then ICSP, then CatalogSource, each exiting on its error; follows `ProvisionPlan` |
| `InstallerLemmas.InvalidFormatStopsEarly` | main.go:141-144 | a secret whose `auths` is missing or not an object fails with "invalid pull secret format", with no registry login, merge or write |
| `InstallerLemmas.PresentRegistryIsNoop` | main.go:151-154 | a non-null rhceph-dev credential ends the update successfully after fetching and saving the secret, with nothing written |
| `InstallerLemmas.NullCredentialIsAbsent` | main.go:151 | a rhceph-dev key holding JSON null does not stop the update: the registry login is attempted |
| `InstallerLemmas.NullEntryCountedButAbsent` | main.go:145-207 | a secret whose only entry is a null rhceph-dev key, merged with a login output holding only that registry, fails the count check after the merge was written; the next run is a no-op |
| `InstallerLemmas.CountCheckDecides` | main.go:166-207 | when every step succeeds, the cluster receives the right-biased union of the two `auths`, and the update passes exactly when one registry is new, otherwise fails with the count mismatch |
| `InstallerLemmas.SuccessfulUpdateAddsOneRegistry` | main.go:166-207 | a passing update that wrote the secret wrote the union of the original `auths` (all kept) and the login output's, which brings exactly one new registry |
| `InstallerLemmas.MismatchAfterWrite` | main.go:177-207 | a count mismatch is reported after the merged secret was written to the cluster and read back; the write is not undone |
| `InstallerLemmas.AuthStepsInOrder` | main.go:121-210 | the update's steps are a non-empty prefix of fetch, save, registry login, merge, save merged, cluster write, re-read |
| `InstallerLemmas.AuthFailFast` | main.go:121-210 | a failing step is always the last step of the update, and the update then fails |
| `InstallerLemmas.RerunIsNoop` | main.go:151-154 | after a passing update whose login output holds a rhceph-dev credential, the next run finds it and does nothing more |
| `InstallerLemmas.FirstMissingIsEarliest` | main.go:33-37 | the reported command is the earliest one not installed, and none is reported exactly when all are installed |
| `InstallerLemmas.JqCheckedFirst` | main.go:31 | `jq` is looked up before `oc` |
| `InstallerLemmas.ChecksPrecedeActions` | main.go:220-249 | no external action is taken unless all three required flags are set, `jq` and `oc` are installed and the URL contains a `.` |
| `InstallerLemmas.MissingFlagReported` | main.go:220-223 | an empty or missing `-url` is reported first, with no action taken |
| `InstallerLemmas.ManifestStepsInOrder` | main.go:267-275 | the manifest steps are a non-empty prefix of write ICSP, apply ICSP, write CatalogSource, apply CatalogSource |
| `InstallerLemmas.ProvisionHasNoLogin` | main.go:262-275 | after login, no further kubeconfig or login step is taken |
| `InstallerLemmas.StagesLogInOnce` | main.go:251-260 | the stages log in at most once, and exactly once as the second step when the kubeconfig step succeeds, with the flags' URL, username and password |
| `InstallerLemmas.UsernameDefaultsToKubeadmin` | main.go:214 | without `-username` the login uses `kubeadmin` |
| `InstallerLemmas.ProvisionFailFast` | main.go:262-275 | in provisioning, a failing step is the last step taken and the run exits with an error |
| `InstallerLemmas.StagesFailFast` | main.go:251-275 | in the cluster stages, a failing step is the last step taken and the run exits with an error |
| `InstallerLemmas.MainFailFast` | main.go:240-275 | in `main`, no action follows a failing one, and the run exits with an error |
| `InstallerLemmas.CompletedRunsEveryStage` | main.go:251-275 | a completed run took, with no failure, the kubeconfig, login, a passing pull-secret update, the ICSP and after it the CatalogSource |

## Left out

- External processes (`oc login`, `oc get`, `oc registry login`, `jq`, `oc set data`, `oc apply`) and `exec.LookPath` are not run. Each is a `Step` whose success is given by the host's `failing` set. `LookPath` is given by the host's `installed` set.
- The content of files on disk is not modelled. `jq` merges the documents that were saved, and a failed save stops the run before anything reads the file.
- JSON encoding and decoding are not modelled. The fetched secret is a decoded `Document`, or `None` when it is not a JSON object. A JSON `null` document, which Go decodes to a nil map, corresponds to a document whose `auths` is `Absent`.
- The parse of the merged output (main.go:192-196) has no error branch. jq's output for two objects is an object, so that branch cannot be taken in the model.
- Members of the pull-secret document other than `auths` are not modelled.
- `PullSecret.MergeAuths`: does not merge two credential records recursively as jq's `*` does on a key collision. It keeps the login output's record, which gives the same keys and the same count.
- The re-read secret (main.go:185-190) is represented only by its step and its outcome, because the code discards its value. Another writer changing the secret during a run is not modelled.
- Kubeconfig creation is one step carrying the temp-file pattern. `KUBECONFIG` plumbing, the random part of the temp name and closing the file are not modelled.
- `slog` logging, usage text and the contents of the embedded YAML manifests are not modelled. `os.Exit(1)` is `Exited`, and a normal return is `Completed`.
- `Installer.ParseFlags` takes the flags as a name-to-value map. Go `flag` behaviour on malformed or unknown arguments (exit status 2) is not modelled.
