/** The cross-deployment link resolver of the BOSHDeployment reconciler
    (`listLinkInfos`, `getServiceRecords`, `listPodsFromSelector`).

    For every provider the manifest consumes but does not itself provide, the
    resolver pairs the provider with exactly one secret of the namespace that
    is annotated with the deployment's name, then builds, for each typed
    provider, the DNS address of the service annotated with the same name and
    one job instance per backing pod. The namespace listings, the pod listing
    for a selector and the parsing of the provider annotation are inputs. */
module LinkResolver {
  import opened Wrappers
  import opened BoshManifest
  import opened Strings

  type Annotations = map<string, string>
  type Selector = map<string, string>

  /** Annotation naming the deployment a secret or service belongs to (bdv1.LabelDeploymentName). */
  const LabelDeploymentName: string := "quarks.cloudfoundry.org/deployment-name"
  /** Annotation on a service naming the link provider it serves (bdv1.AnnotationLinkProviderService). */
  const AnnotationLinkProviderService: string := "quarks.cloudfoundry.org/link-provider-name"
  /** Manifest property under which the resolved links are injected. */
  const QuarksLinksKey: string := "quarks_links"

  /** The provider descriptor parsed from a secret's annotations. */
  datatype LinkProvider = LinkProvider(name: string, providerType: string)

  datatype Secret = Secret(name: string, annotations: Annotations)
  datatype Service = Service(name: string, annotations: Annotations, selector: Selector)
  datatype Pod = Pod(name: string, namespace: string, uid: string, podIP: string)

  /** One resolved pairing of a missing provider with its secret (converter.LinkInfo). */
  datatype LinkInfo = LinkInfo(secretName: string, providerName: string, providerType: string)

  datatype ServiceRecord = ServiceRecord(selector: Selector, dnsRecord: string)

  /** What the cluster shows the resolver. The two listings may fail; `listPods`
      is the pod listing for a label selector in the namespace;
      `parseProvider` is newLinkProvider (it may reject the annotation JSON). */
  datatype ClusterView = ClusterView(
    secrets: Result<seq<Secret>, string>,
    services: Result<seq<Service>, string>,
    listPods: Selector -> Result<seq<Pod>, string>,
    parseProvider: Annotations -> Result<LinkProvider, string>,
    clusterDomain: string)

  datatype LinkError =
    | ListSecretsFailed(cause: string)
    | ListServicesFailed(cause: string)
    | MalformedProvider(cause: string)
    | DuplicatedSecrets(provider: string)
    | DuplicatedServices(provider: string)
    | ListPodsFailed(cause: string)
    | EmptyPodList
    | EmptyPodIP(namespace: string, pod: string)
    | MissingProviders(providers: seq<string>)

  /** strings.Join: the parts in order, `sep` between neighbours. */
  function Join(parts: seq<string>, sep: string): (r: string)
    ensures |parts| == 1 ==> r == parts[0]
    ensures |parts| > 1 ==> parts[0] + sep <= r
    ensures parts != [] ==> EndsWith(r, parts[|parts| - 1])
    decreases |parts|
  {
    if parts == [] then ""
    else if |parts| == 1 then parts[0]
    else parts[0] + sep + Join(parts[1..], sep)
  }

  /** strings.Join keeps every part: each occurs in the joined text. */
  lemma {:induction false} JoinKeepsParts(parts: seq<string>, sep: string)
    ensures forall i :: 0 <= i < |parts| ==> HasSubstring(Join(parts, sep), parts[i])
    decreases |parts|
  {
    if |parts| == 1 {
      assert OccursAt(parts[0], parts[0], 0);
    } else if |parts| > 1 {
      var head := parts[0] + sep;
      var rest := Join(parts[1..], sep);
      JoinKeepsParts(parts[1..], sep);
      assert Join(parts, sep) == head + rest;
      forall i | 0 <= i < |parts|
        ensures HasSubstring(Join(parts, sep), parts[i])
      {
        if i == 0 {
          assert OccursAt(parts[0], parts[0], 0);
          OccursBefore(parts[0], sep, parts[0], 0);
          OccursBefore(head, rest, parts[0], 0);
        } else {
          assert parts[1..][i - 1] == parts[i];
          var k :| OccursAt(rest, parts[i], k);
          OccursAfter(head, rest, parts[i], k);
        }
      }
    }
  }

  /** The error listPodsFromSelector returns for an empty pod list. */
  const EmptyPodsCause: string := "got an empty list of pods"

  /** `msg` followed by `tail`. */
  function Concat(msg: string, tail: string): (r: string)
    ensures msg <= r && EndsWith(r, tail)
  {
    EndsWithAppend(msg, tail);
    msg + tail
  }

  /** errors.Wrapf: the message, then ": " and the cause. */
  function Wrapf(cause: string, msg: string): (r: string)
    ensures msg <= r && EndsWith(r, ": " + cause)
  {
    Concat(msg, ": " + cause)
  }

  /** The error text the resolver returns for deployment `d`. The cause of a
      failed pod listing already carries the selector text. Causes and
      provider names end the message. */
  function ErrorMessage(d: string, e: LinkError): (r: string)
    ensures e.ListSecretsFailed? || e.ListServicesFailed? || e.MalformedProvider? || e.ListPodsFailed? ==>
      EndsWith(r, ": " + e.cause)
    ensures e.EmptyPodList? ==> EndsWith(r, ": " + EmptyPodsCause)
    ensures e.DuplicatedSecrets? || e.DuplicatedServices? ==> EndsWith(r, e.provider)
    ensures e.DuplicatedSecrets? ==> r == DuplicatedSecretsText + e.provider
    ensures e.DuplicatedServices? ==> EndsWith(r, DuplicatedServicesText + e.provider)
    ensures e.MissingProviders? ==> MissingPrefix <= r
    ensures e.MissingProviders? && |e.providers| == 1 ==> r == MissingPrefix + e.providers[0]
  {
    match e
    case ListSecretsFailed(c) => Wrapf(c, "listing secrets for link in deployment '" + d + "':")
    case ListServicesFailed(c) => Wrapf(c, "listing services for link in deployment '" + d + "':")
    case MalformedProvider(c) => Wrapf(c, "failed to parse link JSON for  '" + d + "'")
    case DuplicatedSecrets(p) => Concat(DuplicatedSecretsText, p)
    case DuplicatedServices(p) => DuplicatedServicesMessage(d, p)
    case ListPodsFailed(c) => Wrapf(c, "Failed to get link pods for '" + d + "'")
    case EmptyPodList => Wrapf(EmptyPodsCause, "Failed to get link pods for '" + d + "'")
    case EmptyPodIP(ns, pod) => "empty ip of kube native component: '" + ns + "/" + pod + "'"
    case MissingProviders(ps) => Concat(MissingPrefix, Join(ps, ", "))
  }

  const MissingPrefix := "missing link secrets for providers: "
  const DuplicatedSecretsText := "duplicated secrets of provider: "
  const DuplicatedServicesText := "duplicated services of provider: "

  /** getServiceRecords' duplicate error, wrapped by listLinkInfos: it ends
      with getServiceRecords' own text, which ends with the provider's name. */
  function DuplicatedServicesMessage(d: string, p: string): (r: string)
    ensures EndsWith(r, DuplicatedServicesText + p)
    ensures EndsWith(r, p)
  {
    var cause := Concat(DuplicatedServicesText, p);
    var r := Wrapf(cause, "failed to get link services for '" + d + "'");
    EndsWithAppend(": ", cause);
    EndsWithTrans(r, ": " + cause, cause);
    EndsWithTrans(r, cause, p);
    r
  }

  /** The aggregated error names every provider it lists. */
  lemma MissingMessageNamesAll(d: string, ps: seq<string>)
    ensures forall i :: 0 <= i < |ps| ==> HasSubstring(ErrorMessage(d, MissingProviders(ps)), ps[i])
  {
    var joined := Join(ps, ", ");
    JoinKeepsParts(ps, ", ");
    assert ErrorMessage(d, MissingProviders(ps)) == MissingPrefix + joined;
    forall i | 0 <= i < |ps|
      ensures HasSubstring(MissingPrefix + joined, ps[i])
    {
      var k :| OccursAt(joined, ps[i], k);
      OccursAfter(MissingPrefix, joined, ps[i], k);
    }
  }

  // ---------------------------------------------------------------------------
  // Secrets: pairing missing providers with secrets
  // ---------------------------------------------------------------------------

  /** The loop state of the secret scan: the found flag of every missing
      provider, the link infos so far, and the pending typed links keyed by
      secret name. */
  datatype ScanState = ScanState(found: map<string, bool>, infos: seq<LinkInfo>, links: map<string, QuarksLink>)

  function InitialState(missing: set<string>): ScanState
  {
    ScanState(map p | p in missing :: false, [], map[])
  }

  predicate OwnedBy(annotations: Annotations, d: string)
  {
    LabelDeploymentName in annotations && annotations[LabelDeploymentName] == d
  }

  /** A secret that contributes: it belongs to `d`, its descriptor parses, and
      it names one of `providers`. */
  predicate Accepted(s: Secret, d: string, providers: set<string>, parse: Annotations -> Result<LinkProvider, string>)
  {
    OwnedBy(s.annotations, d) && parse(s.annotations).Ok? && parse(s.annotations).value.name in providers
  }

  function ProviderName(s: Secret, parse: Annotations -> Result<LinkProvider, string>): string
    requires parse(s.annotations).Ok?
  {
    parse(s.annotations).value.name
  }

  function ProviderType(s: Secret, parse: Annotations -> Result<LinkProvider, string>): string
    requires parse(s.annotations).Ok?
  {
    parse(s.annotations).value.providerType
  }

  /** The link infos of the accepted secrets, in listing order: an independent
      statement of what the scan appends. */
  function AcceptedInfos(secrets: seq<Secret>, d: string, providers: set<string>, parse: Annotations -> Result<LinkProvider, string>): seq<LinkInfo>
    decreases |secrets|
  {
    if secrets == [] then []
    else
      (if Accepted(secrets[0], d, providers, parse)
       then [LinkInfo(secrets[0].name, ProviderName(secrets[0], parse), ProviderType(secrets[0], parse))]
       else [])
      + AcceptedInfos(secrets[1..], d, providers, parse)
  }

  /** One iteration of the secret loop. */
  function ScanSecret(st: ScanState, s: Secret, d: string, parse: Annotations -> Result<LinkProvider, string>): (r: Result<ScanState, LinkError>)
    ensures r.Err? <==>
      (OwnedBy(s.annotations, d) &&
       (parse(s.annotations).Err? || (Accepted(s, d, st.found.Keys, parse) && st.found[ProviderName(s, parse)])))
    ensures r.Err? && parse(s.annotations).Err? ==> r.error == MalformedProvider(parse(s.annotations).error)
    ensures r.Err? && parse(s.annotations).Ok? ==> r.error == DuplicatedSecrets(ProviderName(s, parse))
    ensures r.Ok? ==> r.value.found.Keys == st.found.Keys
    ensures r.Ok? && Accepted(s, d, st.found.Keys, parse) ==> r.value.found[ProviderName(s, parse)]
  {
    if !OwnedBy(s.annotations, d) then Ok(st)
    else match parse(s.annotations)
      case Err(cause) => Err(MalformedProvider(cause))
      case Ok(p) =>
        if p.name !in st.found then Ok(st)
        else if st.found[p.name] then Err(DuplicatedSecrets(p.name))
        else Ok(ScanState(
          st.found[p.name := true],
          st.infos + [LinkInfo(s.name, p.name, p.providerType)],
          if p.providerType != "" then st.links[s.name := QuarksLink(p.providerType, "", [])] else st.links))
  }

  /** The secret loop, stopping at the first error. */
  function ScanSecrets(st: ScanState, secrets: seq<Secret>, d: string, parse: Annotations -> Result<LinkProvider, string>): (r: Result<ScanState, LinkError>)
    ensures r.Ok? ==> r.value.found.Keys == st.found.Keys
    ensures r.Ok? ==> st.infos <= r.value.infos
    ensures r.Ok? ==> forall p :: p in st.found && st.found[p] ==> r.value.found[p]
    decreases |secrets|
  {
    if secrets == [] then Ok(st)
    else match ScanSecret(st, secrets[0], d, parse)
      case Err(e) => Err(e)
      case Ok(next) => ScanSecrets(next, secrets[1..], d, parse)
  }

  /** A secret that does not contribute leaves the whole scan state as it was. */
  lemma IgnoredSecretIsNoOp(st: ScanState, s: Secret, d: string, parse: Annotations -> Result<LinkProvider, string>)
    requires !OwnedBy(s.annotations, d) || (parse(s.annotations).Ok? && !Accepted(s, d, st.found.Keys, parse))
    ensures ScanSecret(st, s, d, parse) == Ok(st)
  {
  }

  /** The scan succeeds exactly when every secret of the deployment parses,
      no accepted secret names a provider already found, and no two accepted
      secrets name the same provider. */
  lemma {:induction false} ScanSucceedsIff(st: ScanState, secrets: seq<Secret>, d: string, parse: Annotations -> Result<LinkProvider, string>)
    ensures ScanSecrets(st, secrets, d, parse).Ok? <==>
      (forall i :: 0 <= i < |secrets| && OwnedBy(secrets[i].annotations, d) ==> parse(secrets[i].annotations).Ok?) &&
      (forall i :: 0 <= i < |secrets| && Accepted(secrets[i], d, st.found.Keys, parse) ==> !st.found[ProviderName(secrets[i], parse)]) &&
      (forall i, j :: 0 <= i < j < |secrets| && Accepted(secrets[i], d, st.found.Keys, parse) && Accepted(secrets[j], d, st.found.Keys, parse)
         ==> ProviderName(secrets[i], parse) != ProviderName(secrets[j], parse))
    decreases |secrets|
  {
    if secrets != [] {
      var s, rest := secrets[0], secrets[1..];
      var K := st.found.Keys;
      assert forall i :: 1 <= i < |secrets| ==> secrets[i] == rest[i - 1];
      match ScanSecret(st, s, d, parse)
      case Err(e) => {
        assert OwnedBy(s.annotations, d);
      }
      case Ok(next) => {
        assert next.found.Keys == K;
        ScanSucceedsIff(next, rest, d, parse);
        if Accepted(s, d, K, parse) {
          var p := ProviderName(s, parse);
          assert next.found == st.found[p := true];
          assert !st.found[p];
          forall j | 0 <= j < |rest| && Accepted(rest[j], d, K, parse)
            ensures next.found[ProviderName(rest[j], parse)] <==>
                    (st.found[ProviderName(rest[j], parse)] || ProviderName(rest[j], parse) == p)
          {
          }
        } else {
          assert next == st;
        }
      }
    }
  }

  /** Secret `s` is accepted and names provider `p`. */
  predicate NamesProvider(s: Secret, p: string, d: string, providers: set<string>, parse: Annotations -> Result<LinkProvider, string>)
  {
    Accepted(s, d, providers, parse) && ProviderName(s, parse) == p
  }

  /** Some accepted secret of the listing names provider `p`. */
  predicate ProvidedBy(secrets: seq<Secret>, p: string, d: string, providers: set<string>, parse: Annotations -> Result<LinkProvider, string>)
  {
    exists i :: 0 <= i < |secrets| && Accepted(secrets[i], d, providers, parse) && ProviderName(secrets[i], parse) == p
  }

  /** Some accepted secret of the listing is named `k` and has a provider type. */
  predicate TypedBy(secrets: seq<Secret>, k: string, d: string, providers: set<string>, parse: Annotations -> Result<LinkProvider, string>)
  {
    exists i :: 0 <= i < |secrets| && Accepted(secrets[i], d, providers, parse) && ProviderType(secrets[i], parse) != "" && secrets[i].name == k
  }

  lemma ProvidedByCons(secrets: seq<Secret>, p: string, d: string, providers: set<string>, parse: Annotations -> Result<LinkProvider, string>)
    requires secrets != []
    ensures ProvidedBy(secrets, p, d, providers, parse) <==>
      (Accepted(secrets[0], d, providers, parse) && ProviderName(secrets[0], parse) == p) || ProvidedBy(secrets[1..], p, d, providers, parse)
  {
    var rest := secrets[1..];
    if ProvidedBy(secrets, p, d, providers, parse) {
      var i :| 0 <= i < |secrets| && Accepted(secrets[i], d, providers, parse) && ProviderName(secrets[i], parse) == p;
      if i > 0 {
        assert rest[i - 1] == secrets[i];
      }
    }
    if ProvidedBy(rest, p, d, providers, parse) {
      var i :| 0 <= i < |rest| && Accepted(rest[i], d, providers, parse) && ProviderName(rest[i], parse) == p;
      assert secrets[i + 1] == rest[i];
    }
  }

  lemma TypedByCons(secrets: seq<Secret>, k: string, d: string, providers: set<string>, parse: Annotations -> Result<LinkProvider, string>)
    requires secrets != []
    ensures TypedBy(secrets, k, d, providers, parse) <==>
      (Accepted(secrets[0], d, providers, parse) && ProviderType(secrets[0], parse) != "" && secrets[0].name == k) || TypedBy(secrets[1..], k, d, providers, parse)
  {
    var rest := secrets[1..];
    if TypedBy(secrets, k, d, providers, parse) {
      var i :| 0 <= i < |secrets| && Accepted(secrets[i], d, providers, parse) && ProviderType(secrets[i], parse) != "" && secrets[i].name == k;
      if i > 0 {
        assert rest[i - 1] == secrets[i];
      }
    }
    if TypedBy(rest, k, d, providers, parse) {
      var i :| 0 <= i < |rest| && Accepted(rest[i], d, providers, parse) && ProviderType(rest[i], parse) != "" && rest[i].name == k;
      assert secrets[i + 1] == rest[i];
    }
  }

  /** A successful scan appends the infos of the accepted secrets, in listing
      order, and leaves the set of tracked providers as it was. */
  lemma {:induction false} ScanInfos(st: ScanState, secrets: seq<Secret>, d: string, parse: Annotations -> Result<LinkProvider, string>, st': ScanState)
    requires ScanSecrets(st, secrets, d, parse) == Ok(st')
    ensures st'.infos == st.infos + AcceptedInfos(secrets, d, st.found.Keys, parse)
    ensures st'.found.Keys == st.found.Keys
    decreases |secrets|
  {
    if secrets != [] {
      var next :| ScanSecret(st, secrets[0], d, parse) == Ok(next);
      assert next.found.Keys == st.found.Keys;
      ScanInfos(next, secrets[1..], d, parse, st');
    }
  }

  /** A successful scan marks found exactly the providers that some accepted
      secret names (besides those found before). */
  lemma {:induction false} ScanFound(st: ScanState, secrets: seq<Secret>, d: string, parse: Annotations -> Result<LinkProvider, string>, st': ScanState)
    requires ScanSecrets(st, secrets, d, parse) == Ok(st')
    ensures forall p :: p in st.found ==>
      p in st'.found && (st'.found[p] <==> (st.found[p] || ProvidedBy(secrets, p, d, st.found.Keys, parse)))
    decreases |secrets|
  {
    if secrets != [] {
      var next :| ScanSecret(st, secrets[0], d, parse) == Ok(next);
      assert next.found.Keys == st.found.Keys;
      ScanFound(next, secrets[1..], d, parse, st');
      forall p | p in st.found
        ensures st'.found[p] <==> (st.found[p] || ProvidedBy(secrets, p, d, st.found.Keys, parse))
      {
        ProvidedByCons(secrets, p, d, st.found.Keys, parse);
      }
    }
  }

  /** A link registered by the scan and not yet resolved: it has a type but
      no address and no instances. */
  predicate Pending(l: QuarksLink)
  {
    l.linkType != "" && l.address == "" && l.instances == []
  }

  /** Secret `s` is accepted, is named `k`, and registers link `l`: the
      descriptor's type, with no address and no instances yet. */
  predicate Registers(s: Secret, k: string, l: QuarksLink, d: string, providers: set<string>, parse: Annotations -> Result<LinkProvider, string>)
  {
    Accepted(s, d, providers, parse) && s.name == k && ProviderType(s, parse) != "" && l == QuarksLink(ProviderType(s, parse), "", [])
  }

  /** A successful scan registers a pending link for exactly the accepted
      secrets whose provider type is non-empty, keyed by secret name; each
      new link is the descriptor's type, with no address and no instances yet. */
  lemma {:induction false} ScanLinks(st: ScanState, secrets: seq<Secret>, d: string, parse: Annotations -> Result<LinkProvider, string>, st': ScanState)
    requires ScanSecrets(st, secrets, d, parse) == Ok(st')
    ensures forall k :: k in st'.links <==> (k in st.links || TypedBy(secrets, k, d, st.found.Keys, parse))
    ensures forall k :: k in st'.links ==> Pending(st'.links[k]) || (k in st.links && st'.links[k] == st.links[k])
    ensures forall k :: k in st'.links ==>
      (k in st.links && st'.links[k] == st.links[k]) ||
      (exists i :: 0 <= i < |secrets| && Registers(secrets[i], k, st'.links[k], d, st.found.Keys, parse))
  {
    ScanLinkKeys(st, secrets, d, parse, st');
    ScanLinkOrigins(st, secrets, d, parse, st');
  }

  /** The keys a successful scan adds to the links, and that new ones are pending. */
  lemma {:induction false} ScanLinkKeys(st: ScanState, secrets: seq<Secret>, d: string, parse: Annotations -> Result<LinkProvider, string>, st': ScanState)
    requires ScanSecrets(st, secrets, d, parse) == Ok(st')
    ensures forall k :: k in st'.links <==> (k in st.links || TypedBy(secrets, k, d, st.found.Keys, parse))
    ensures forall k :: k in st'.links ==> Pending(st'.links[k]) || (k in st.links && st'.links[k] == st.links[k])
    decreases |secrets|
  {
    if secrets != [] {
      var s, rest := secrets[0], secrets[1..];
      var next :| ScanSecret(st, s, d, parse) == Ok(next);
      assert next.found.Keys == st.found.Keys;
      ScanLinkKeys(next, rest, d, parse, st');
      forall k
        ensures k in st'.links <==> (k in st.links || TypedBy(secrets, k, d, st.found.Keys, parse))
      {
        TypedByCons(secrets, k, d, st.found.Keys, parse);
      }
    }
  }

  /** Every link a successful scan adds was registered by one of the secrets. */
  lemma {:induction false} ScanLinkOrigins(st: ScanState, secrets: seq<Secret>, d: string, parse: Annotations -> Result<LinkProvider, string>, st': ScanState)
    requires ScanSecrets(st, secrets, d, parse) == Ok(st')
    ensures forall k :: k in st'.links ==>
      (k in st.links && st'.links[k] == st.links[k]) ||
      (exists i :: 0 <= i < |secrets| && Registers(secrets[i], k, st'.links[k], d, st.found.Keys, parse))
    decreases |secrets|
  {
    if secrets != [] {
      var s, rest := secrets[0], secrets[1..];
      var next :| ScanSecret(st, s, d, parse) == Ok(next);
      assert next.found.Keys == st.found.Keys;
      ScanLinkOrigins(next, rest, d, parse, st');
      forall k | k in st'.links && !(k in st.links && st'.links[k] == st.links[k])
        ensures exists i :: 0 <= i < |secrets| && Registers(secrets[i], k, st'.links[k], d, st.found.Keys, parse)
      {
        if k in next.links && st'.links[k] == next.links[k] {
          assert secrets[0] == s;
          assert Registers(s, k, st'.links[k], d, st.found.Keys, parse);
        } else {
          var i :| 0 <= i < |rest| && Registers(rest[i], k, st'.links[k], d, st.found.Keys, parse);
          assert secrets[i + 1] == rest[i];
        }
      }
    }
  }

  /** A duplicated-secrets error names a provider that an accepted secret
      shares with an earlier accepted secret, or that was found before. */
  lemma {:induction false} DuplicateSecretsShared(st: ScanState, secrets: seq<Secret>, d: string, parse: Annotations -> Result<LinkProvider, string>, p: string)
    requires ScanSecrets(st, secrets, d, parse) == Err(DuplicatedSecrets(p))
    ensures exists j ::
      && 0 <= j < |secrets|
      && NamesProvider(secrets[j], p, d, st.found.Keys, parse)
      && (st.found[p] || (exists i :: 0 <= i < j && NamesProvider(secrets[i], p, d, st.found.Keys, parse)))
    decreases |secrets|
  {
    var s, rest := secrets[0], secrets[1..];
    var K := st.found.Keys;
    assert secrets[0] == s;
    if ScanSecret(st, s, d, parse).Ok? {
      var next := ScanSecret(st, s, d, parse).value;
      DuplicateSecretsShared(next, rest, d, parse, p);
      var j :|
        && 0 <= j < |rest|
        && NamesProvider(rest[j], p, d, K, parse)
        && (next.found[p] || (exists i :: 0 <= i < j && NamesProvider(rest[i], p, d, K, parse)));
      assert secrets[j + 1] == rest[j];
      if next.found[p] && !st.found[p] {
        assert NamesProvider(s, p, d, K, parse);
      } else if !next.found[p] {
        var i :| 0 <= i < j && NamesProvider(rest[i], p, d, K, parse);
        assert secrets[i + 1] == rest[i];
      }
    }
  }

  // ---------------------------------------------------------------------------
  // Services: one service record per provider name
  // ---------------------------------------------------------------------------

  /** A service of deployment `d` that names the provider it serves. */
  predicate ClaimsProvider(svc: Service, d: string)
  {
    OwnedBy(svc.annotations, d) && AnnotationLinkProviderService in svc.annotations
  }

  function ServedProvider(svc: Service): string
    requires AnnotationLinkProviderService in svc.annotations
  {
    svc.annotations[AnnotationLinkProviderService]
  }

  /** One iteration of the service loop of getServiceRecords. */
  function RecordService(records: map<string, ServiceRecord>, svc: Service, ns: string, d: string, domain: string): (r: Result<map<string, ServiceRecord>, LinkError>)
    ensures r.Err? <==> ClaimsProvider(svc, d) && ServedProvider(svc) in records
    ensures r.Err? ==> r.error == DuplicatedServices(ServedProvider(svc))
    ensures r.Ok? && !ClaimsProvider(svc, d) ==> r.value == records
    ensures r.Ok? && ClaimsProvider(svc, d) ==>
      r.value.Keys == records.Keys + {ServedProvider(svc)} && (forall p :: p in records ==> r.value[p] == records[p])
  {
    if !ClaimsProvider(svc, d) then Ok(records)
    else
      var p := ServedProvider(svc);
      if p in records then Err(DuplicatedServices(p))
      else Ok(records[p := ServiceRecord(svc.selector, svc.name + "." + ns + ".svc." + domain)])
  }

  function RecordServices(records: map<string, ServiceRecord>, svcs: seq<Service>, ns: string, d: string, domain: string): (r: Result<map<string, ServiceRecord>, LinkError>)
    ensures r.Ok? ==> records.Keys <= r.value.Keys && forall p :: p in records ==> r.value[p] == records[p]
    decreases |svcs|
  {
    if svcs == [] then Ok(records)
    else match RecordService(records, svcs[0], ns, d, domain)
      case Err(e) => Err(e)
      case Ok(next) => RecordServices(next, svcs[1..], ns, d, domain)
  }

  /** The service records are built exactly when no two services of the
      deployment claim the same provider (and none claims one already recorded). */
  lemma {:induction false} RecordsSucceedIff(records: map<string, ServiceRecord>, svcs: seq<Service>, ns: string, d: string, domain: string)
    ensures RecordServices(records, svcs, ns, d, domain).Ok? <==>
      (forall i :: 0 <= i < |svcs| && ClaimsProvider(svcs[i], d) ==> ServedProvider(svcs[i]) !in records) &&
      (forall i, j :: 0 <= i < j < |svcs| && ClaimsProvider(svcs[i], d) && ClaimsProvider(svcs[j], d) ==> ServedProvider(svcs[i]) != ServedProvider(svcs[j]))
    decreases |svcs|
  {
    if svcs != [] {
      var svc, rest := svcs[0], svcs[1..];
      assert forall i :: 1 <= i < |svcs| ==> svcs[i] == rest[i - 1];
      match RecordService(records, svc, ns, d, domain)
      case Err(e) => {
      }
      case Ok(next) => {
        RecordsSucceedIff(next, rest, ns, d, domain);
        if ClaimsProvider(svc, d) {
          assert next.Keys == records.Keys + {ServedProvider(svc)};
        } else {
          assert next == records;
        }
      }
    }
  }

  /** A successful pass records, for every claiming service, its selector and
      the DNS address `<service>.<namespace>.svc.<cluster domain>` under the
      provider it serves, and records nothing else. */
  lemma {:induction false} RecordsContents(records: map<string, ServiceRecord>, svcs: seq<Service>, ns: string, d: string, domain: string, out: map<string, ServiceRecord>)
    requires RecordServices(records, svcs, ns, d, domain) == Ok(out)
    ensures forall i :: 0 <= i < |svcs| && ClaimsProvider(svcs[i], d) ==>
      ServedProvider(svcs[i]) in out &&
      out[ServedProvider(svcs[i])] == ServiceRecord(svcs[i].selector, svcs[i].name + "." + ns + ".svc." + domain)
    ensures forall p :: p in out <==> p in records || exists i :: 0 <= i < |svcs| && ClaimsProvider(svcs[i], d) && ServedProvider(svcs[i]) == p
    ensures forall p :: p in records ==> p in out && out[p] == records[p]
    decreases |svcs|
  {
    if svcs != [] {
      var svc, rest := svcs[0], svcs[1..];
      assert forall i :: 1 <= i < |svcs| ==> svcs[i] == rest[i - 1];
      var next :| RecordService(records, svc, ns, d, domain) == Ok(next);
      RecordsContents(next, rest, ns, d, domain, out);
      forall p
        ensures p in out <==> p in records || exists i :: 0 <= i < |svcs| && ClaimsProvider(svcs[i], d) && ServedProvider(svcs[i]) == p
      {
        if p in out && p !in next {
          var i :| 0 <= i < |rest| && ClaimsProvider(rest[i], d) && ServedProvider(rest[i]) == p;
          assert svcs[i + 1] == rest[i];
        }
      }
    }
  }

  /** A duplicated-services error names a provider that a claiming service
      shares with an earlier claiming service, or that was recorded before. */
  lemma {:induction false} DuplicateServicesShared(records: map<string, ServiceRecord>, svcs: seq<Service>, ns: string, d: string, domain: string, p: string)
    requires RecordServices(records, svcs, ns, d, domain) == Err(DuplicatedServices(p))
    ensures exists j ::
      && 0 <= j < |svcs|
      && ClaimsProvider(svcs[j], d) && ServedProvider(svcs[j]) == p
      && (p in records || (exists i :: 0 <= i < j && ClaimsProvider(svcs[i], d) && ServedProvider(svcs[i]) == p))
    decreases |svcs|
  {
    var svc, rest := svcs[0], svcs[1..];
    assert svcs[0] == svc;
    if RecordService(records, svc, ns, d, domain).Ok? {
      var next := RecordService(records, svc, ns, d, domain).value;
      DuplicateServicesShared(next, rest, ns, d, domain, p);
      var j :|
        && 0 <= j < |rest|
        && ClaimsProvider(rest[j], d) && ServedProvider(rest[j]) == p
        && (p in next || (exists i :: 0 <= i < j && ClaimsProvider(rest[i], d) && ServedProvider(rest[i]) == p));
      assert svcs[j + 1] == rest[j];
      if p in next && p !in records {
        assert ClaimsProvider(svc, d) && ServedProvider(svc) == p;
      } else if p !in next {
        var i :| 0 <= i < j && ClaimsProvider(rest[i], d) && ServedProvider(rest[i]) == p;
        assert svcs[i + 1] == rest[i];
      }
    }
  }

  /** getServiceRecords: fills the record map in one pass over the services. */
  method GetServiceRecords(ns: string, d: string, domain: string, svcs: seq<Service>) returns (r: Result<map<string, ServiceRecord>, LinkError>)
    ensures r == RecordServices(map[], svcs, ns, d, domain)
  {
    var records: map<string, ServiceRecord> := map[];
    var i := 0;
    while i < |svcs|
      invariant 0 <= i <= |svcs|
      invariant RecordServices(map[], svcs, ns, d, domain) == RecordServices(records, svcs[i..], ns, d, domain)
    {
      var svc := svcs[i];
      assert svcs[i..][0] == svc && svcs[i..][1..] == svcs[i + 1..];
      if LabelDeploymentName in svc.annotations && svc.annotations[LabelDeploymentName] == d {
        if AnnotationLinkProviderService in svc.annotations {
          var providerName := svc.annotations[AnnotationLinkProviderService];
          if providerName in records {
            return Err(DuplicatedServices(providerName));
          }
          records := records[providerName := ServiceRecord(svc.selector, svc.name + "." + ns + ".svc." + domain)];
        }
      }
      i := i + 1;
    }
    return Ok(records);
  }

  // ---------------------------------------------------------------------------
  // Pods: job instances of a typed link
  // ---------------------------------------------------------------------------

  /** listPodsFromSelector: the pod listing, where an empty list is an error. */
  function ListPodsFromSelector(listPods: Selector -> Result<seq<Pod>, string>, selector: Selector): (r: Result<seq<Pod>, LinkError>)
    ensures r.Ok? <==> listPods(selector).Ok? && listPods(selector).value != []
    ensures r.Ok? ==> |r.value| > 0 && r.value == listPods(selector).value
    ensures listPods(selector).Err? ==> r == Err(ListPodsFailed(listPods(selector).error))
    ensures listPods(selector) == Ok([]) ==> r == Err(EmptyPodList)
  {
    match listPods(selector)
    case Err(cause) => Err(ListPodsFailed(cause))
    case Ok(pods) => if |pods| == 0 then Err(EmptyPodList) else Ok(pods)
  }

  /** The job instances of pods `i..` of a link named `qName`. Pod `j` becomes
      instance `j`, with its UID and IP; only instance 0 is the bootstrap one;
      the first pod without an IP is an error. */
  function InstancesFrom(qName: string, pods: seq<Pod>, i: nat): (r: Result<seq<JobInstance>, LinkError>)
    requires i <= |pods|
    ensures r.Ok? <==> forall j :: i <= j < |pods| ==> pods[j].podIP != ""
    ensures r.Ok? ==> |r.value| == |pods| - i
    ensures r.Ok? ==> forall j :: i <= j < |pods| ==> r.value[j - i] == JobInstance(qName, pods[j].uid, j, pods[j].podIP, j == 0)
    ensures r.Err? ==>
      exists j :: i <= j < |pods| && pods[j].podIP == "" && (forall k :: i <= k < j ==> pods[k].podIP != "") &&
        r.error == EmptyPodIP(pods[j].namespace, pods[j].name)
    decreases |pods| - i
  {
    if i == |pods| then Ok([])
    else if |pods[i].podIP| == 0 then Err(EmptyPodIP(pods[i].namespace, pods[i].name))
    else match InstancesFrom(qName, pods, i + 1)
      case Err(e) => Err(e)
      case Ok(rest) => Ok([JobInstance(qName, pods[i].uid, i, pods[i].podIP, i == 0)] + rest)
  }

  /** The pod loop of listLinkInfos for one typed link. */
  method BuildJobInstances(qName: string, pods: seq<Pod>) returns (r: Result<seq<JobInstance>, LinkError>)
    ensures r == InstancesFrom(qName, pods, 0)
    ensures r.Ok? ==> |r.value| == |pods|
    ensures r.Ok? ==> forall i :: 0 <= i < |pods| ==>
      r.value[i].index == i && r.value[i].bootstrap == (i == 0) && r.value[i].address == pods[i].podIP
  {
    var jobsInstances: seq<JobInstance> := [];
    var i := 0;
    while i < |pods|
      invariant 0 <= i <= |pods|
      invariant forall j :: 0 <= j < i ==> pods[j].podIP != ""
      invariant |jobsInstances| == i
      invariant forall j :: 0 <= j < i ==> jobsInstances[j] == JobInstance(qName, pods[j].uid, j, pods[j].podIP, j == 0)
    {
      var p := pods[i];
      if |p.podIP| == 0 {
        return Err(EmptyPodIP(p.namespace, p.name));
      }
      jobsInstances := jobsInstances + [JobInstance(qName, p.uid, i, p.podIP, i == 0)];
      i := i + 1;
    }
    var expected := InstancesFrom(qName, pods, 0);
    assert expected.Ok?;
    assert |expected.value| == |jobsInstances|;
    assert forall j :: 0 <= j < |pods| ==> expected.value[j - 0] == jobsInstances[j];
    assert expected.value == jobsInstances;
    return Ok(jobsInstances);
  }

  /** Resolves one pending link: when a service record is keyed by the secret
      name, its pods become the instances and its DNS name the address;
      otherwise the link stays as the scan registered it. */
  function ResolveLink(qName: string, link: QuarksLink, records: map<string, ServiceRecord>, listPods: Selector -> Result<seq<Pod>, string>): (r: Result<QuarksLink, LinkError>)
    ensures qName !in records ==> r == Ok(link)
    ensures r.Err? ==> qName in records
    ensures r.Ok? ==> r.value.linkType == link.linkType
    ensures r.Ok? && qName in records ==> r.value.address == records[qName].dnsRecord
  {
    if qName !in records then Ok(link)
    else
      var rec := records[qName];
      match ListPodsFromSelector(listPods, rec.selector)
      case Err(e) => Err(e)
      case Ok(pods) =>
        match InstancesFrom(qName, pods, 0)
        case Err(e) => Err(e)
        case Ok(instances) => Ok(QuarksLink(link.linkType, rec.dnsRecord, instances))
  }

  // ---------------------------------------------------------------------------
  // The whole resolution
  // ---------------------------------------------------------------------------

  /** What the listings, the secret scan and the service records yield. */
  datatype Discovery = Discovery(state: ScanState, records: map<string, ServiceRecord>)

  function Discover(d: string, ns: string, missing: set<string>, view: ClusterView): (r: Result<Discovery, LinkError>)
    ensures missing == {} ==> r.Ok? && r.value.state.infos == [] && r.value.state.links == map[]
    ensures missing != {} && view.secrets.Err? ==> r == Err(ListSecretsFailed(view.secrets.error))
    ensures missing != {} && view.secrets.Ok? && view.services.Err? ==> r == Err(ListServicesFailed(view.services.error))
    ensures r.Ok? ==> r.value.state.found.Keys == missing
    ensures r.Ok? && missing != {} ==> view.secrets.Ok? && view.services.Ok?
  {
    if missing == {} then Ok(Discovery(InitialState(missing), map[]))
    else if view.secrets.Err? then Err(ListSecretsFailed(view.secrets.error))
    else if view.services.Err? then Err(ListServicesFailed(view.services.error))
    else match ScanSecrets(InitialState(missing), view.secrets.value, d, view.parseProvider)
      case Err(e) => Err(e)
      case Ok(st) =>
        match RecordServices(map[], view.services.value, ns, d, view.clusterDomain)
        case Err(e) => Err(e)
        case Ok(records) => Ok(Discovery(st, records))
  }

  /** The errors the pod phase can surface: one per failing pending link;
      which one is returned depends on Go's map iteration order. */
  function PodFailures(disc: Discovery, view: ClusterView): set<LinkError>
  {
    set k | k in disc.state.links && ResolveLink(k, disc.state.links[k], disc.records, view.listPods).Err?
      :: ResolveLink(k, disc.state.links[k], disc.records, view.listPods).error
  }

  function ResolvedLinks(disc: Discovery, view: ClusterView): map<string, QuarksLink>
  {
    map k | k in disc.state.links ::
      match ResolveLink(k, disc.state.links[k], disc.records, view.listPods)
      case Ok(l) => l
      case Err(_) => disc.state.links[k]
  }

  function Unfound(found: map<string, bool>): set<string>
  {
    set p | p in found && !found[p]
  }

  /** `ps` lists every member of `s` once, in some order. */
  predicate Enumerates(ps: seq<string>, s: set<string>)
  {
    (forall x :: x in ps ==> x in s) && (forall x :: x in s ==> x in ps) &&
    (forall i, j :: 0 <= i < j < |ps| ==> ps[i] != ps[j])
  }

  datatype LinkSuccess = LinkSuccess(infos: seq<LinkInfo>, links: map<string, QuarksLink>)

  /** The outcome of listLinkInfos when it succeeds: the link infos and the
      resolved links; None when it fails. */
  function LinkResult(d: string, ns: string, missing: set<string>, view: ClusterView): (r: Option<LinkSuccess>)
    ensures r.Some? ==> Discover(d, ns, missing, view).Ok?
    ensures r.Some? ==> forall p :: p in missing ==> Discover(d, ns, missing, view).value.state.found[p]
    ensures r.Some? ==> r.value.links.Keys == Discover(d, ns, missing, view).value.state.links.Keys
    ensures r.Some? ==> forall k :: k in r.value.links ==>
      r.value.links[k].linkType == Discover(d, ns, missing, view).value.state.links[k].linkType
  {
    match Discover(d, ns, missing, view)
    case Err(_) => None
    case Ok(disc) =>
      if PodFailures(disc, view) != {} || Unfound(disc.state.found) != {} then None
      else
        assert forall p :: p in disc.state.found && !disc.state.found[p] ==> p in Unfound(disc.state.found);
        Some(LinkSuccess(disc.state.infos, ResolvedLinks(disc, view)))
  }

  /** The errors listLinkInfos may return: the first listing, secret or
      service error; else the error of some failing pending link; else one
      aggregated error listing exactly the providers still not found. */
  ghost predicate ErrorAllowed(d: string, ns: string, missing: set<string>, view: ClusterView, e: LinkError)
    ensures ErrorAllowed(d, ns, missing, view, e) ==> LinkResult(d, ns, missing, view).None?
    ensures missing == {} ==> !ErrorAllowed(d, ns, missing, view, e)
  {
    match Discover(d, ns, missing, view)
    case Err(e0) => e == e0
    case Ok(disc) =>
      if PodFailures(disc, view) != {} then e in PodFailures(disc, view)
      else Unfound(disc.state.found) != {} && e.MissingProviders? && Enumerates(e.providers, Unfound(disc.state.found))
  }

  /** Injects the resolved links under `quarks_links`, creating the property
      map when it is nil; with no links the properties are left untouched. */
  function InjectLinks(props: Option<map<string, Property>>, links: map<string, QuarksLink>): (r: Option<map<string, Property>>)
    ensures |links| == 0 ==> r == props
    ensures |links| != 0 ==> r.Some? && QuarksLinksKey in r.value && r.value[QuarksLinksKey] == LinkSet(links)
    ensures |links| != 0 ==> forall k :: k != QuarksLinksKey ==>
      (k in r.value <==> props.Some? && k in props.value) && (k in r.value ==> r.value[k] == props.value[k])
  {
    if |links| == 0 then props
    else
      var base := if props.None? then map[] else props.value;
      Some(base[QuarksLinksKey := LinkSet(links)])
  }

  /** With no missing provider nothing is listed: the result does not depend
      on the cluster, there are no link infos and no links to inject. */
  lemma NoMissingProvidersResolvesNothing(d: string, ns: string, view: ClusterView)
    ensures LinkResult(d, ns, {}, view) == Some(LinkSuccess([], map[]))
  {
    var disc := Discovery(InitialState({}), map[]);
    assert ResolvedLinks(disc, view) == map[];
    assert Unfound(disc.state.found) == {};
  }

  /** The secret scan fails only on a malformed descriptor or a duplicate. */
  lemma {:induction false} ScanErrorKinds(st: ScanState, secrets: seq<Secret>, d: string, parse: Annotations -> Result<LinkProvider, string>)
    requires ScanSecrets(st, secrets, d, parse).Err?
    ensures ScanSecrets(st, secrets, d, parse).error.MalformedProvider? || ScanSecrets(st, secrets, d, parse).error.DuplicatedSecrets?
    decreases |secrets|
  {
    if ScanSecret(st, secrets[0], d, parse).Ok? {
      ScanErrorKinds(ScanSecret(st, secrets[0], d, parse).value, secrets[1..], d, parse);
    }
  }

  /** The service pass fails only on a duplicate claim. */
  lemma {:induction false} RecordsErrorKinds(records: map<string, ServiceRecord>, svcs: seq<Service>, ns: string, d: string, domain: string)
    requires RecordServices(records, svcs, ns, d, domain).Err?
    ensures RecordServices(records, svcs, ns, d, domain).error.DuplicatedServices?
    decreases |svcs|
  {
    if RecordService(records, svcs[0], ns, d, domain).Ok? {
      RecordsErrorKinds(RecordService(records, svcs[0], ns, d, domain).value, svcs[1..], ns, d, domain);
    }
  }

  /** Resolving one link fails only with a pod-listing, empty-pod-list or
      empty-IP error. */
  lemma ResolveLinkErrors(k: string, link: QuarksLink, records: map<string, ServiceRecord>, listPods: Selector -> Result<seq<Pod>, string>)
    requires ResolveLink(k, link, records, listPods).Err?
    ensures var e := ResolveLink(k, link, records, listPods).error;
      e.ListPodsFailed? || e.EmptyPodList? || e.EmptyPodIP?
  {
  }

  /** When resolution succeeds, the link infos are those of the accepted
      secrets in listing order, every missing provider is named by an
      accepted secret, and the links are keyed by exactly the names of the
      accepted secrets that carry a provider type. */
  lemma {:induction false} SuccessContents(d: string, ns: string, missing: set<string>, view: ClusterView, ls: LinkSuccess)
    requires missing != {}
    requires LinkResult(d, ns, missing, view) == Some(ls)
    ensures view.secrets.Ok? && view.services.Ok?
    ensures ls.infos == AcceptedInfos(view.secrets.value, d, missing, view.parseProvider)
    ensures forall p :: p in missing ==> ProvidedBy(view.secrets.value, p, d, missing, view.parseProvider)
    ensures forall k :: k in ls.links <==> TypedBy(view.secrets.value, k, d, missing, view.parseProvider)
  {
    var disc :| Discover(d, ns, missing, view) == Ok(disc);
    var init := InitialState(missing);
    assert init.found.Keys == missing;
    ScanInfos(init, view.secrets.value, d, view.parseProvider, disc.state);
    ScanFound(init, view.secrets.value, d, view.parseProvider, disc.state);
    ScanLinks(init, view.secrets.value, d, view.parseProvider, disc.state);
    forall p | p in missing
      ensures ProvidedBy(view.secrets.value, p, d, missing, view.parseProvider)
    {
      assert p !in Unfound(disc.state.found);
    }
  }

  /** `instances` are the job instances of `pods` for the link named `k`:
      one per pod, in order, with the pod's UID and IP, and only the first
      one bootstrap. */
  predicate PodInstances(instances: seq<JobInstance>, k: string, pods: seq<Pod>)
  {
    |instances| == |pods| > 0 &&
    forall i :: 0 <= i < |pods| ==> instances[i] == JobInstance(k, pods[i].uid, i, pods[i].podIP, i == 0)
  }

  /** A pending link that resolves keeps its type, and its instances are
      numbered from 0 with only the first one marked bootstrap; when a
      service record is keyed by its name, the link has the record's
      address and one instance per pod behind the record's selector. */
  lemma ResolveLinkShape(k: string, link: QuarksLink, records: map<string, ServiceRecord>, listPods: Selector -> Result<seq<Pod>, string>)
    requires Pending(link)
    requires ResolveLink(k, link, records, listPods).Ok?
    ensures var l := ResolveLink(k, link, records, listPods).value;
      l.linkType == link.linkType &&
      forall i :: 0 <= i < |l.instances| ==>
        l.instances[i].index == i && l.instances[i].bootstrap == (i == 0) && l.instances[i].address != "" && l.instances[i].name == k
    ensures k in records ==>
      listPods(records[k].selector).Ok? && ResolveLink(k, link, records, listPods).value.address == records[k].dnsRecord &&
      PodInstances(ResolveLink(k, link, records, listPods).value.instances, k, listPods(records[k].selector).value)
  {
    if k in records {
      var pods := ListPodsFromSelector(listPods, records[k].selector).value;
      var instances := InstancesFrom(k, pods, 0).value;
      assert ResolveLink(k, link, records, listPods).value.instances == instances;
      forall i | 0 <= i < |instances|
        ensures instances[i].index == i && instances[i].bootstrap == (i == 0) && instances[i].address != "" && instances[i].name == k
      {
        assert instances[i - 0] == JobInstance(k, pods[i].uid, i, pods[i].podIP, i == 0);
      }
      forall i | 0 <= i < |pods|
        ensures instances[i] == JobInstance(k, pods[i].uid, i, pods[i].podIP, i == 0)
      {
        assert instances[i - 0] == JobInstance(k, pods[i].uid, i, pods[i].podIP, i == 0);
      }
    }
  }

  /** Link `l` named `k` is backed by service `svc`: its address is the
      service's DNS name and its instances are the pods behind the service's
      selector. */
  predicate BackedBy(l: QuarksLink, k: string, svc: Service, ns: string, domain: string, listPods: Selector -> Result<seq<Pod>, string>)
  {
    l.address == svc.name + "." + ns + ".svc." + domain &&
    listPods(svc.selector).Ok? && PodInstances(l.instances, k, listPods(svc.selector).value)
  }

  /** A failing pending link contributes its error to the pod-phase failures. */
  lemma FailureIsListed(disc: Discovery, view: ClusterView, k: string)
    requires k in disc.state.links
    ensures ResolveLink(k, disc.state.links[k], disc.records, view.listPods).Err? ==>
      ResolveLink(k, disc.state.links[k], disc.records, view.listPods).error in PodFailures(disc, view)
  {
  }

  /** Every link of a successful resolution is registered by an accepted
      secret of that name and has its descriptor's type. When a service of
      the deployment serves the provider named like the link, the link has
      that service's DNS name and one instance per pod behind it, numbered
      from 0, with only instance 0 bootstrap; otherwise it has no address
      and no instances. */
  lemma {:induction false} ResolvedLinkShape(d: string, ns: string, missing: set<string>, view: ClusterView, ls: LinkSuccess, k: string)
    requires LinkResult(d, ns, missing, view) == Some(ls)
    requires k in ls.links
    ensures ls.links[k].linkType != ""
    ensures forall i :: 0 <= i < |ls.links[k].instances| ==>
      ls.links[k].instances[i].index == i && ls.links[k].instances[i].bootstrap == (i == 0) &&
      ls.links[k].instances[i].address != "" && ls.links[k].instances[i].name == k
    ensures missing != {} && view.secrets.Ok? && view.services.Ok?
    ensures exists i ::
      && 0 <= i < |view.secrets.value|
      && Accepted(view.secrets.value[i], d, missing, view.parseProvider) && view.secrets.value[i].name == k
      && ls.links[k].linkType == ProviderType(view.secrets.value[i], view.parseProvider)
    ensures var svcs := view.services.value;
      (forall j :: 0 <= j < |svcs| && ClaimsProvider(svcs[j], d) ==> ServedProvider(svcs[j]) != k) ==>
      ls.links[k].address == "" && ls.links[k].instances == []
    ensures var svcs := view.services.value;
      forall j :: 0 <= j < |svcs| && ClaimsProvider(svcs[j], d) && ServedProvider(svcs[j]) == k ==>
      BackedBy(ls.links[k], k, svcs[j], ns, view.clusterDomain, view.listPods)
  {
    ResolvedFromDiscovery(d, ns, missing, view, ls, k);
    var disc := Discover(d, ns, missing, view).value;
    var secrets, svcs := view.secrets.value, view.services.value;
    var link := disc.state.links[k];
    var init := InitialState(missing);
    assert init.found.Keys == missing;
    ScanLinks(init, secrets, d, view.parseProvider, disc.state);
    var i :| 0 <= i < |secrets| && Registers(secrets[i], k, link, d, missing, view.parseProvider);
    ResolveLinkShape(k, link, disc.records, view.listPods);
    RecordsContents(map[], svcs, ns, d, view.clusterDomain, disc.records);
  }

  /** A link of a successful resolution is the resolution of a link the
      secret scan registered. */
  lemma ResolvedFromDiscovery(d: string, ns: string, missing: set<string>, view: ClusterView, ls: LinkSuccess, k: string)
    requires LinkResult(d, ns, missing, view) == Some(ls)
    requires k in ls.links
    ensures missing != {} && view.secrets.Ok? && view.services.Ok? && Discover(d, ns, missing, view).Ok?
    ensures var disc := Discover(d, ns, missing, view).value;
      disc.state == ScanSecrets(InitialState(missing), view.secrets.value, d, view.parseProvider).value &&
      disc.records == RecordServices(map[], view.services.value, ns, d, view.clusterDomain).value &&
      k in disc.state.links && ResolveLink(k, disc.state.links[k], disc.records, view.listPods) == Ok(ls.links[k])
  {
    var disc := Discover(d, ns, missing, view).value;
    assert ls.links == ResolvedLinks(disc, view);
    assert k in disc.state.links;
    FailureIsListed(disc, view, k);
  }

  /** Two accepted secrets naming the same missing provider make resolution fail. */
  lemma DuplicateSecretsFail(d: string, ns: string, missing: set<string>, view: ClusterView, i: nat, j: nat)
    requires view.secrets.Ok? && i < j < |view.secrets.value|
    requires Accepted(view.secrets.value[i], d, missing, view.parseProvider)
    requires Accepted(view.secrets.value[j], d, missing, view.parseProvider)
    requires ProviderName(view.secrets.value[i], view.parseProvider) == ProviderName(view.secrets.value[j], view.parseProvider)
    ensures LinkResult(d, ns, missing, view).None?
  {
    var init := InitialState(missing);
    assert init.found.Keys == missing;
    ScanSucceedsIff(init, view.secrets.value, d, view.parseProvider);
  }

  /** Two services of the deployment claiming the same provider make
      resolution fail whenever some provider is missing. */
  lemma DuplicateServicesFail(d: string, ns: string, missing: set<string>, view: ClusterView, i: nat, j: nat)
    requires missing != {}
    requires view.services.Ok? && i < j < |view.services.value|
    requires ClaimsProvider(view.services.value[i], d) && ClaimsProvider(view.services.value[j], d)
    requires ServedProvider(view.services.value[i]) == ServedProvider(view.services.value[j])
    ensures LinkResult(d, ns, missing, view).None?
  {
    RecordsSucceedIff(map[], view.services.value, ns, d, view.clusterDomain);
  }

  /** The aggregated missing-provider error names exactly the missing
      providers that no accepted secret provides, each once. */
  lemma {:induction false} MissingErrorListsUnprovided(d: string, ns: string, missing: set<string>, view: ClusterView, e: LinkError)
    requires ErrorAllowed(d, ns, missing, view, e) && e.MissingProviders?
    ensures missing != {} && view.secrets.Ok?
    ensures forall p :: p in e.providers <==> p in missing && !ProvidedBy(view.secrets.value, p, d, missing, view.parseProvider)
    ensures forall a, b :: 0 <= a < b < |e.providers| ==> e.providers[a] != e.providers[b]
  {
    if missing != {} && view.secrets.Ok? && view.services.Ok? {
      var init := InitialState(missing);
      if ScanSecrets(init, view.secrets.value, d, view.parseProvider).Err? {
        ScanErrorKinds(init, view.secrets.value, d, view.parseProvider);
      } else if RecordServices(map[], view.services.value, ns, d, view.clusterDomain).Err? {
        RecordsErrorKinds(map[], view.services.value, ns, d, view.clusterDomain);
      }
    }
    var disc :| Discover(d, ns, missing, view) == Ok(disc);
    if PodFailures(disc, view) != {} {
      var k :| k in disc.state.links && ResolveLink(k, disc.state.links[k], disc.records, view.listPods).Err?
            && ResolveLink(k, disc.state.links[k], disc.records, view.listPods).error == e;
      ResolveLinkErrors(k, disc.state.links[k], disc.records, view.listPods);
      assert false;
    }
    if missing == {} {
      assert false;
    }
    var init := InitialState(missing);
    assert init.found.Keys == missing;
    ScanInfos(init, view.secrets.value, d, view.parseProvider, disc.state);
    ScanFound(init, view.secrets.value, d, view.parseProvider, disc.state);
  }

  /** The text of the aggregated error names every missing provider that no
      accepted secret provides. */
  lemma UnprovidedNamedInMessage(d: string, ns: string, missing: set<string>, view: ClusterView, e: LinkError)
    requires ErrorAllowed(d, ns, missing, view, e) && e.MissingProviders?
    ensures view.secrets.Ok?
    ensures forall p :: p in missing && !ProvidedBy(view.secrets.value, p, d, missing, view.parseProvider) ==>
      HasSubstring(ErrorMessage(d, e), p)
  {
    MissingErrorListsUnprovided(d, ns, missing, view, e);
    MissingMessageNamesAll(d, e.providers);
    forall p | p in missing && !ProvidedBy(view.secrets.value, p, d, missing, view.parseProvider)
      ensures HasSubstring(ErrorMessage(d, e), p)
    {
      var i :| 0 <= i < |e.providers| && e.providers[i] == p;
    }
  }

  /** Every error of a failing pending link is a pod-phase error. */
  lemma PodFailureKinds(disc: Discovery, view: ClusterView)
    ensures forall e :: e in PodFailures(disc, view) ==> e.ListPodsFailed? || e.EmptyPodList? || e.EmptyPodIP?
  {
    forall e | e in PodFailures(disc, view)
      ensures e.ListPodsFailed? || e.EmptyPodList? || e.EmptyPodIP?
    {
      var k :| k in disc.state.links && ResolveLink(k, disc.state.links[k], disc.records, view.listPods).Err?
            && ResolveLink(k, disc.state.links[k], disc.records, view.listPods).error == e;
      ResolveLinkErrors(k, disc.state.links[k], disc.records, view.listPods);
    }
  }

  /** A duplicate error of the resolution names a provider that two accepted
      secrets, or two claiming services, of the deployment really share. */
  lemma DuplicateErrorsShared(d: string, ns: string, missing: set<string>, view: ClusterView, e: LinkError)
    requires ErrorAllowed(d, ns, missing, view, e)
    ensures e.DuplicatedSecrets? ==>
      view.secrets.Ok? &&
      exists i, j ::
        && 0 <= i < j < |view.secrets.value|
        && NamesProvider(view.secrets.value[i], e.provider, d, missing, view.parseProvider)
        && NamesProvider(view.secrets.value[j], e.provider, d, missing, view.parseProvider)
    ensures e.DuplicatedServices? ==>
      view.services.Ok? &&
      exists i, j ::
        && 0 <= i < j < |view.services.value|
        && ClaimsProvider(view.services.value[i], d) && ServedProvider(view.services.value[i]) == e.provider
        && ClaimsProvider(view.services.value[j], d) && ServedProvider(view.services.value[j]) == e.provider
  {
    if missing != {} && view.secrets.Ok? && view.services.Ok? {
      var secrets, svcs := view.secrets.value, view.services.value;
      var init := InitialState(missing);
      assert init.found.Keys == missing;
      var scan := ScanSecrets(init, secrets, d, view.parseProvider);
      if scan.Err? {
        ScanErrorKinds(init, secrets, d, view.parseProvider);
        if scan.error.DuplicatedSecrets? {
          var p := scan.error.provider;
          DuplicateSecretsShared(init, secrets, d, view.parseProvider, p);
          var j :| 0 <= j < |secrets| && NamesProvider(secrets[j], p, d, missing, view.parseProvider) &&
            (exists i :: 0 <= i < j && NamesProvider(secrets[i], p, d, missing, view.parseProvider));
          var i :| 0 <= i < j && NamesProvider(secrets[i], p, d, missing, view.parseProvider);
        }
      } else {
        var rec := RecordServices(map[], svcs, ns, d, view.clusterDomain);
        if rec.Err? {
          RecordsErrorKinds(map[], svcs, ns, d, view.clusterDomain);
          var p := rec.error.provider;
          DuplicateServicesShared(map[], svcs, ns, d, view.clusterDomain, p);
          var j :| 0 <= j < |svcs| && ClaimsProvider(svcs[j], d) && ServedProvider(svcs[j]) == p &&
            (exists i :: 0 <= i < j && ClaimsProvider(svcs[i], d) && ServedProvider(svcs[i]) == p);
          var i :| 0 <= i < j && ClaimsProvider(svcs[i], d) && ServedProvider(svcs[i]) == p;
        } else {
          PodFailureKinds(Discovery(scan.value, rec.value), view);
        }
      }
    }
  }

  /** Some sequence lists the members of a finite set, each once. */
  lemma EnumerationExists(s: set<string>) returns (ps: seq<string>)
    ensures Enumerates(ps, s)
    decreases s
  {
    if s == {} {
      ps := [];
    } else {
      var x :| x in s;
      var rest := EnumerationExists(s - {x});
      ps := [x] + rest;
    }
  }

  /** Resolution succeeds exactly when it has no error to report: no
      listing, secret or service error, no failing link, and no unfound
      provider. */
  lemma SuccessIffNoError(d: string, ns: string, missing: set<string>, view: ClusterView)
    ensures LinkResult(d, ns, missing, view).Some? <==> forall e :: !ErrorAllowed(d, ns, missing, view, e)
  {
    match Discover(d, ns, missing, view)
    case Err(e0) =>
      assert ErrorAllowed(d, ns, missing, view, e0);
    case Ok(disc) =>
      if PodFailures(disc, view) != {} {
        var e :| e in PodFailures(disc, view);
        assert ErrorAllowed(d, ns, missing, view, e);
      } else if Unfound(disc.state.found) != {} {
        var ps := EnumerationExists(Unfound(disc.state.found));
        assert ErrorAllowed(d, ns, missing, view, MissingProviders(ps));
      }
  }

  /** A sequence without repetitions has as many elements as its length. */
  lemma {:induction false} DistinctCard(ps: seq<string>)
    requires forall i, j :: 0 <= i < j < |ps| ==> ps[i] != ps[j]
    ensures |set y | y in ps| == |ps|
    decreases |ps|
  {
    if ps != [] {
      var rest := ps[1..];
      DistinctCard(rest);
      assert ps[0] !in rest by {
        forall i | 0 <= i < |rest|
          ensures rest[i] != ps[0]
        {
          assert rest[i] == ps[i + 1];
        }
      }
      assert (set y | y in ps) == {ps[0]} + (set y | y in rest);
    }
  }

  /** The only enumeration of a one-element set is that element alone. */
  lemma SingletonEnumeration(ps: seq<string>, x: string)
    requires Enumerates(ps, {x})
    ensures ps == [x]
  {
    DistinctCard(ps);
    assert (set y | y in ps) == {x};
    assert x in ps;
  }

  lemma {:induction false} UnownedSecretsIgnored(st: ScanState, secrets: seq<Secret>, d: string, parse: Annotations -> Result<LinkProvider, string>)
    requires forall i :: 0 <= i < |secrets| ==> !OwnedBy(secrets[i].annotations, d)
    ensures ScanSecrets(st, secrets, d, parse) == Ok(st)
    decreases |secrets|
  {
    if secrets != [] {
      assert forall i :: 0 <= i < |secrets[1..]| ==> secrets[1..][i] == secrets[i + 1];
      UnownedSecretsIgnored(st, secrets[1..], d, parse);
    }
  }

  lemma {:induction false} UnownedServicesIgnored(records: map<string, ServiceRecord>, svcs: seq<Service>, ns: string, d: string, domain: string)
    requires forall i :: 0 <= i < |svcs| ==> !OwnedBy(svcs[i].annotations, d)
    ensures RecordServices(records, svcs, ns, d, domain) == Ok(records)
    decreases |svcs|
  {
    if svcs != [] {
      assert forall i :: 0 <= i < |svcs[1..]| ==> svcs[1..][i] == svcs[i + 1];
      UnownedServicesIgnored(records, svcs[1..], ns, d, domain);
    }
  }

  /** A consumer of `nats-provider` whose namespace holds no secret and no
      service of deployment `d`: resolution fails, the only error it may
      report is the aggregated one naming `nats-provider`, and that error
      reads "missing link secrets for providers: nats-provider". */
  lemma UnprovidedNatsConsumer(d: string, ns: string, view: ClusterView, e: LinkError)
    requires view.secrets.Ok? && view.services.Ok?
    requires forall i :: 0 <= i < |view.secrets.value| ==> !OwnedBy(view.secrets.value[i].annotations, d)
    requires forall i :: 0 <= i < |view.services.value| ==> !OwnedBy(view.services.value[i].annotations, d)
    ensures LinkResult(d, ns, {"nats-provider"}, view).None?
    ensures ErrorAllowed(d, ns, {"nats-provider"}, view, e) <==> e == MissingProviders(["nats-provider"])
    ensures ErrorMessage(d, MissingProviders(["nats-provider"])) == "missing link secrets for providers: nats-provider"
  {
    var missing := {"nats-provider"};
    var disc := Discovery(InitialState(missing), map[]);
    NothingOwnedDiscoversNothing(d, ns, missing, view);
    assert PodFailures(disc, view) == {};
    assert Unfound(disc.state.found) == missing;
    if e.MissingProviders? && Enumerates(e.providers, missing) {
      SingletonEnumeration(e.providers, "nats-provider");
    }
    assert Enumerates(["nats-provider"], missing);
    NatsProviderMessage(d);
  }

  /** The aggregated error for the one provider `nats-provider`. */
  lemma NatsProviderMessage(d: string)
    ensures ErrorMessage(d, MissingProviders(["nats-provider"])) == "missing link secrets for providers: nats-provider"
  {
    assert Join(["nats-provider"], ", ") == "nats-provider";
  }

  /** With no secret and no service of deployment `d`, the scan finds
      nothing and no service record is built. */
  lemma NothingOwnedDiscoversNothing(d: string, ns: string, missing: set<string>, view: ClusterView)
    requires view.secrets.Ok? && view.services.Ok?
    requires forall i :: 0 <= i < |view.secrets.value| ==> !OwnedBy(view.secrets.value[i].annotations, d)
    requires forall i :: 0 <= i < |view.services.value| ==> !OwnedBy(view.services.value[i].annotations, d)
    ensures Discover(d, ns, missing, view) == Ok(Discovery(InitialState(missing), map[]))
  {
    UnownedSecretsIgnored(InitialState(missing), view.secrets.value, d, view.parseProvider);
    UnownedServicesIgnored(map[], view.services.value, ns, d, view.clusterDomain);
  }

  /** The secret loop of listLinkInfos: each secret of deployment `d` whose
      descriptor names a missing provider is paired with it and, when typed,
      registers a pending link under the secret's name. */
  method PairSecrets(d: string, missing: set<string>, secrets: seq<Secret>, parse: Annotations -> Result<LinkProvider, string>)
    returns (r: Result<ScanState, LinkError>)
    ensures r == ScanSecrets(InitialState(missing), secrets, d, parse)
  {
    var linkInfos: seq<LinkInfo> := [];
    var missingProviders: map<string, bool> := map p | p in missing :: false;
    var quarksLinks: map<string, QuarksLink> := map[];
    var i := 0;
    while i < |secrets|
      invariant 0 <= i <= |secrets|
      invariant ScanSecrets(InitialState(missing), secrets, d, parse)
             == ScanSecrets(ScanState(missingProviders, linkInfos, quarksLinks), secrets[i..], d, parse)
    {
      var s := secrets[i];
      assert secrets[i..][0] == s && secrets[i..][1..] == secrets[i + 1..];
      if LabelDeploymentName in s.annotations && s.annotations[LabelDeploymentName] == d {
        var linkProvider := parse(s.annotations);
        if linkProvider.Err? {
          return Err(MalformedProvider(linkProvider.error));
        }
        var p := linkProvider.value;
        if p.name in missingProviders {
          if missingProviders[p.name] {
            return Err(DuplicatedSecrets(p.name));
          }
          linkInfos := linkInfos + [LinkInfo(s.name, p.name, p.providerType)];
          if p.providerType != "" {
            quarksLinks := quarksLinks[s.name := QuarksLink(p.providerType, "", [])];
          }
          missingProviders := missingProviders[p.name := true];
        }
      }
      i := i + 1;
    }
    return Ok(ScanState(missingProviders, linkInfos, quarksLinks));
  }

  /** The pod loop of listLinkInfos: every pending link backed by a service
      record gets the record's DNS name and one instance per pod; the first
      failing link (in map order) ends the loop with its error. */
  method ResolvePending(disc: Discovery, view: ClusterView) returns (r: Result<map<string, QuarksLink>, LinkError>)
    ensures r.Ok? <==> PodFailures(disc, view) == {}
    ensures r.Ok? ==> r.value == ResolvedLinks(disc, view)
    ensures r.Err? ==> r.error in PodFailures(disc, view)
  {
    var quarksLinks := disc.state.links;
    var records := disc.records;
    // Go visits the keys of quarksLinks in an unspecified order.
    ghost var pending := quarksLinks;
    var remaining := quarksLinks.Keys;
    while remaining != {}
      invariant remaining <= pending.Keys
      invariant quarksLinks.Keys == pending.Keys
      invariant forall k :: k in remaining ==> quarksLinks[k] == pending[k]
      invariant forall k :: k in pending && k !in remaining ==>
        ResolveLink(k, pending[k], records, view.listPods) == Ok(quarksLinks[k])
      decreases remaining
    {
      var qName :| qName in remaining;
      if qName in records {
        var svcRecord := records[qName];
        var pods := ListPodsFromSelector(view.listPods, svcRecord.selector);
        if pods.Err? {
          assert ResolveLink(qName, pending[qName], records, view.listPods) == Err(pods.error);
          assert pods.error in PodFailures(disc, view);
          return Err(pods.error);
        }
        var jobsInstances := BuildJobInstances(qName, pods.value);
        if jobsInstances.Err? {
          assert ResolveLink(qName, pending[qName], records, view.listPods) == Err(jobsInstances.error);
          assert jobsInstances.error in PodFailures(disc, view);
          return Err(jobsInstances.error);
        }
        quarksLinks := quarksLinks[qName := QuarksLink(quarksLinks[qName].linkType, svcRecord.dnsRecord, jobsInstances.value)];
      }
      remaining := remaining - {qName};
    }
    assert PodFailures(disc, view) == {};
    assert quarksLinks == ResolvedLinks(disc, view);
    return Ok(quarksLinks);
  }

  /** listLinkInfos: pairs the manifest's missing providers with secrets,
      resolves the typed ones through their services and pods, fails with one
      aggregated error when providers remain unfound, and on success with at
      least one typed link injects `quarks_links` into the manifest's
      properties. `missing` is the result of manifest.ListMissingProviders. */
  method ListLinkInfos(d: string, ns: string, missing: set<string>, view: ClusterView, manifest: Manifest)
    returns (r: Result<seq<LinkInfo>, LinkError>)
    modifies manifest
    ensures r.Ok? <==> LinkResult(d, ns, missing, view).Some?
    ensures r.Ok? ==> r.value == LinkResult(d, ns, missing, view).value.infos
    ensures r.Err? ==> ErrorAllowed(d, ns, missing, view, r.error)
    ensures manifest.variables == old(manifest.variables)
    ensures manifest.properties ==
      if r.Ok? then InjectLinks(old(manifest.properties), LinkResult(d, ns, missing, view).value.links)
      else old(manifest.properties)
  {
    var linkInfos: seq<LinkInfo> := [];
    var missingProviders: map<string, bool> := map p | p in missing :: false;
    var quarksLinks: map<string, QuarksLink> := map[];
    var disc := Discovery(InitialState(missing), map[]);
    assert missingProviders.Keys == missing;
    if |missingProviders| != 0 {
      if view.secrets.Err? {
        return Err(ListSecretsFailed(view.secrets.error));
      }
      var secrets := view.secrets.value;
      if view.services.Err? {
        return Err(ListServicesFailed(view.services.error));
      }
      var services := view.services.value;

      var scan := PairSecrets(d, missing, secrets, view.parseProvider);
      if scan.Err? {
        return Err(scan.error);
      }
      missingProviders, linkInfos, quarksLinks := scan.value.found, scan.value.infos, scan.value.links;

      var serviceRecords := GetServiceRecords(ns, d, view.clusterDomain, services);
      if serviceRecords.Err? {
        return Err(serviceRecords.error);
      }
      var records := serviceRecords.value;
      disc := Discovery(ScanState(missingProviders, linkInfos, quarksLinks), records);
      assert Discover(d, ns, missing, view) == Ok(disc);

      var resolved := ResolvePending(disc, view);
      if resolved.Err? {
        return Err(resolved.error);
      }
      quarksLinks := resolved.value;
      assert PodFailures(disc, view) == {};
      assert quarksLinks == ResolvedLinks(disc, view);
    } else {
      assert ResolvedLinks(disc, view) == map[];
      assert PodFailures(disc, view) == {};
    }
    assert Discover(d, ns, missing, view) == Ok(disc);
    assert disc.state.found == missingProviders;

    // Go visits the keys of missingProviders in an unspecified order.
    var missingPs: seq<string> := [];
    var keys := missingProviders.Keys;
    while keys != {}
      invariant unchanged(manifest)
      invariant keys <= missingProviders.Keys
      invariant forall x :: x in missingPs ==> x in Unfound(missingProviders) && x !in keys
      invariant forall x :: x in Unfound(missingProviders) && x !in keys ==> x in missingPs
      invariant forall a, b :: 0 <= a < b < |missingPs| ==> missingPs[a] != missingPs[b]
      decreases keys
    {
      var key :| key in keys;
      if !missingProviders[key] {
        missingPs := missingPs + [key];
      }
      keys := keys - {key};
    }
    assert Enumerates(missingPs, Unfound(missingProviders));

    if |missingPs| != 0 {
      assert missingPs[0] in Unfound(disc.state.found);
      return Err(MissingProviders(missingPs));
    }
    assert Unfound(missingProviders) == {};

    if |quarksLinks| != 0 {
      if manifest.properties.None? {
        manifest.properties := Some(map[]);
      }
      manifest.properties := Some(manifest.properties.value[QuarksLinksKey := LinkSet(quarksLinks)]);
    }
    return Ok(linkInfos);
  }
}
