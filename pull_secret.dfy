/**
 * The decision logic of the pull-secret update, on already-parsed
 * documents: the "auths" member must be an object, the rhceph-dev
 * registry may already hold a credential, jq's `.[0] * .[1]` merges the
 * registry-login output into the secret, and the merged "auths" must have
 * exactly one entry more than the original.
 */
module PullSecret {
  import opened Wrappers

  /** The registry whose credential the installer adds. */
  const RHCEPHRegistry: string := "quay.io/rhceph-dev"

  /** One registry credential record; its inner fields are opaque here. */
  datatype Cred = Cred(auth: string)

  /** The "auths" object: registry key to credential, where None is a JSON null. */
  type Auths = map<string, Option<Cred>>

  /** The "auths" member of a decoded document. */
  datatype AuthsField =
    | Absent             // no "auths" key
    | Null               // "auths": null
    | NonObject          // "auths" holds a string, number, boolean or array
    | Object(entries: Auths)

  /** A decoded .dockerconfigjson document (its members besides "auths" are not modelled). */
  datatype Document = Document(auths: AuthsField)

  /** Go's `pullSecret["auths"] == nil`: the key is missing or holds null. */
  predicate IsNil(f: AuthsField)
    ensures IsNil(f) ==> !f.Object?
    ensures f == Absent || f == Null ==> IsNil(f)
  {
    f.Absent? || f.Null?
  }

  /** The `.(map[string]any)` type assertion on "auths". */
  function ExtractAuths(doc: Document): (r: Option<Auths>)
    ensures r.Some? <==> doc.auths.Object?
    ensures r.Some? ==> !IsNil(doc.auths) && r.value == doc.auths.entries
  {
    match doc.auths
    case Object(entries) => Some(entries)
    case _ => None
  }

  /** `auths["quay.io/rhceph-dev"] != nil`: present and not JSON null. */
  predicate HasRegistryAuth(a: Auths)
    ensures HasRegistryAuth(a) <==> exists c :: RHCEPHRegistry in a && a[RHCEPHRegistry] == Some(c)
  {
    RHCEPHRegistry in a && a[RHCEPHRegistry].Some?
  }

  /**
   * Right-biased union of two "auths" objects, as jq's `*` does per key
   * (credential records are not merged recursively in this model).
   */
  function MergeAuths(left: Auths, right: Auths): (m: Auths)
    ensures m.Keys == left.Keys + right.Keys
    ensures forall k :: k in right ==> m[k] == right[k]
    ensures forall k :: k in left && k !in right ==> m[k] == left[k]
  {
    left + right
  }

  /**
   * jq's `.[0] * .[1]` seen from "auths": when both sides hold an object
   * the objects are merged key by key; when only the left has "auths" it
   * survives; otherwise the right-hand value replaces the left one.
   */
  function JqMerge(left: Document, right: Document): (d: Document)
    ensures left.auths.Object? && right.auths.Object? ==>
      d.auths == Object(MergeAuths(left.auths.entries, right.auths.entries))
    ensures right.auths.Absent? ==> d == left
    ensures !right.auths.Absent? && !(left.auths.Object? && right.auths.Object?) ==> d == right
  {
    if right.auths.Absent? then left
    else if left.auths.Object? && right.auths.Object? then
      Document(Object(MergeAuths(left.auths.entries, right.auths.entries)))
    else right
  }

  /** The entries the registry-login output adds that the secret did not have. */
  function NewKeys(before: Auths, added: Auths): (ks: set<string>)
    ensures ks <= added.Keys && ks !! before.Keys
    ensures forall k :: k in added && k !in before ==> k in ks
  {
    added.Keys - before.Keys
  }

  /** The merged object has as many entries as the original plus the new keys. */
  lemma MergeSize(before: Auths, added: Auths)
    ensures |MergeAuths(before, added)| == |before| + |NewKeys(before, added)|
  {
    var m := MergeAuths(before, added);
    assert m.Keys == before.Keys + NewKeys(before, added);
    assert |m.Keys| == |m|;
  }

  /**
   * The count check `newElementsCount == elementsCount + 1` passes
   * exactly when the login output brings one key the secret lacked:
   * zero new keys (e.g. only a collision) or two or more new keys fail it.
   */
  lemma CountCheckIffOneNewKey(before: Auths, added: Auths)
    ensures |MergeAuths(before, added)| == |before| + 1 <==>
      exists k :: NewKeys(before, added) == {k}
  {
    MergeSize(before, added);
    var ks := NewKeys(before, added);
    if |ks| == 1 {
      var k :| k in ks;
      assert ks == {k} by {
        assert |ks - {k}| == 0;
      }
    }
  }

  /** Merging keeps every original registry: none is dropped. */
  lemma MergeKeepsOriginalKeys(before: Auths, added: Auths)
    ensures forall k :: k in before ==> k in MergeAuths(before, added)
    ensures before.Keys <= MergeAuths(before, added).Keys
  {
  }

  /**
   * If the login output holds a non-null rhceph-dev credential, the merged
   * secret reports that credential as present, so a later run is a no-op.
   */
  lemma MergedHasRegistryAuth(before: Auths, added: Auths)
    requires HasRegistryAuth(added)
    ensures HasRegistryAuth(MergeAuths(before, added))
  {
  }
}
