/** The event filter of the BPM controller: it reacts to versioned secrets
    whose name marks them as BPM information, on creation and update only. */
module BpmWatch {
  import opened Wrappers
  import opened Strings

  /** versionedsecretstore.LabelSecretKind */
  const LabelSecretKind: string := "quarks.cloudfoundry.org/secret-kind"
  /** versionedsecretstore.VersionSecretKind */
  const VersionSecretKind: string := "versionedSecret"
  /** names.DeploymentSecretBpmInformation.String() */
  const DeploymentSecretBpmInformation: string := "bpm"

  /** The parts of a corev1.Secret the filter reads; `labels == None` is a nil
      label map. */
  datatype SecretObject = SecretObject(name: string, labels: Option<map<string, string>>)

  /** Go's map index with the comma-ok form: a nil map behaves as an empty one. */
  function LabelValue(labels: Option<map<string, string>>, key: string): Option<string>
  {
    if labels.Some? && key in labels.value then Some(labels.value[key]) else None
  }

  /** strings.Contains: a left-to-right scan for `sub`. */
  function Contains(s: string, sub: string): (r: bool)
    ensures r <==> HasSubstring(s, sub)
    decreases |s|
  {
    if |sub| > |s| then
      assert forall i :: !OccursAt(s, sub, i);
      false
    else if s[..|sub|] == sub then
      assert OccursAt(s, sub, 0);
      true
    else
      SubstringStep(s, sub);
      Contains(s[1..], sub)
  }

  /** isVersionedSecret: the secret carries the secret-kind label, and its
      value is the versioned-secret kind. */
  function IsVersionedSecret(secret: SecretObject): (r: bool)
    ensures secret.labels.None? ==> !r
    ensures LabelValue(secret.labels, LabelSecretKind).None? ==> !r
    ensures r <==> LabelValue(secret.labels, LabelSecretKind) == Some(VersionSecretKind)
  {
    if secret.labels.None? then false
    else
      var secretLabels := secret.labels.value;
      if LabelSecretKind !in secretLabels then false
      else if secretLabels[LabelSecretKind] != VersionSecretKind then false
      else true
  }

  /** isBPMInfoSecret: the name contains the BPM-information marker. */
  function IsBPMInfoSecret(name: string): (r: bool)
    ensures r <==> HasSubstring(name, DeploymentSecretBpmInformation)
  {
    if Contains(name, DeploymentSecretBpmInformation) then true else false
  }

  /** The events a controller-runtime watch delivers for a secret. */
  datatype Event =
    | CreateEvent(obj: SecretObject)
    | UpdateEvent(objOld: SecretObject, objNew: SecretObject)
    | DeleteEvent(obj: SecretObject)
    | GenericEvent(obj: SecretObject)

  /** The secrets the BPM controller cares about, stated on the labels and the name. */
  ghost predicate Watched(o: SecretObject)
  {
    LabelValue(o.labels, LabelSecretKind) == Some(VersionSecretKind) && HasSubstring(o.name, DeploymentSecretBpmInformation)
  }

  /** The predicate.Funcs of AddBPM, dispatched on the event kind. */
  function Admits(e: Event): (r: bool)
    ensures e.CreateEvent? ==> (r <==> Watched(e.obj))
    ensures e.UpdateEvent? ==> (r <==> Watched(e.objNew))
    ensures e.DeleteEvent? || e.GenericEvent? ==> !r
  {
    match e
    case CreateEvent(o) => IsVersionedSecret(o) && IsBPMInfoSecret(o.name)
    case DeleteEvent(_) => false
    case GenericEvent(_) => false
    case UpdateEvent(_, o) => IsVersionedSecret(o) && IsBPMInfoSecret(o.name)
  }

  /** The update predicate judges the new object only: the old one does not matter. */
  lemma UpdateJudgesNewObject(old1: SecretObject, old2: SecretObject, o: SecretObject)
    ensures Admits(UpdateEvent(old1, o)) == Admits(UpdateEvent(old2, o)) == Admits(CreateEvent(o))
  {
  }

  /** A versioned secret whose name carries the marker anywhere is admitted
      on creation and on update, whatever the old object was. */
  lemma BpmSecretAdmitted(prefix: string, suffix: string, labels: map<string, string>, older: SecretObject)
    requires LabelSecretKind in labels && labels[LabelSecretKind] == VersionSecretKind
    ensures var o := SecretObject(prefix + DeploymentSecretBpmInformation + suffix, Some(labels));
      Admits(CreateEvent(o)) && Admits(UpdateEvent(older, o))
  {
    var name := prefix + DeploymentSecretBpmInformation + suffix;
    assert name[|prefix|..|prefix| + |DeploymentSecretBpmInformation|] == DeploymentSecretBpmInformation;
    assert OccursAt(name, DeploymentSecretBpmInformation, |prefix|);
  }

  /** Without labels nothing is admitted, on creation or on update, whatever the name. */
  lemma UnlabelledSecretIgnored(name: string, older: SecretObject)
    ensures !Admits(CreateEvent(SecretObject(name, None)))
    ensures !Admits(UpdateEvent(older, SecretObject(name, None)))
  {
  }
}
