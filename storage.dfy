/** Result-location policy (src/storage.py): which storage backend holds a
    job's results, where inside it they live, the default storage class,
    the per-tenant results claim and the start of an upload job. The node
    list and the storage-class list are inputs; the claim and the upload
    job are written to the abstract API server. */
module Storage {
  import opened Common
  import opened Cluster

  // ---------------------------------------------------------------------
  // Storage backend detection

  const HostnameLabel := "kubernetes.io/hostname"

  datatype Node = Node(labels: map<string, string>)

  /** The answer of `list_node`. */
  datatype NodeListing = NodeListFailed | Nodes(items: seq<Node>)

  datatype Provider = Gke | Eks | Aks

  function Hostname(n: Node): string {
    if HostnameLabel in n.labels then n.labels[HostnameLabel] else ""
  }

  /** Some label key mentions `word`, compared in lower case. */
  predicate SomeKeyMentions(labels: map<string, string>, word: string) {
    exists k :: k in labels && Contains(Lower(k), word)
  }

  predicate LooksGke(n: Node) {
    Contains(Lower(Hostname(n)), "gke") || SomeKeyMentions(n.labels, "gke")
  }

  predicate LooksEks(n: Node) {
    Contains(Lower(Hostname(n)), "eks") || Contains(Lower(Hostname(n)), "ec2")
  }

  predicate LooksAks(n: Node) {
    Contains(Lower(Hostname(n)), "aks") || SomeKeyMentions(n.labels, "azure")
  }

  /** The provider rule a node matches, checked GKE, then EKS/EC2, then AKS. */
  function NodeProvider(n: Node): Option<Provider> {
    if LooksGke(n) then Some(Gke)
    else if LooksEks(n) then Some(Eks)
    else if LooksAks(n) then Some(Aks)
    else None
  }

  /** The backend a provider gets: its object store when configured, else the claim. */
  function ProviderStorage(p: Provider, config: Config): (r: string)
    ensures r == "pvc" || r == "gcs" || r == "s3" || r == "azure"
    ensures r == "gcs" <==> p == Gke && config.gcsBucket != ""
    ensures r == "s3" <==> p == Eks && config.s3Bucket != ""
    ensures r == "azure" <==> p == Aks && config.azureStorageAccount != "" && config.azureContainer != ""
  {
    match p
    case Gke => if config.gcsBucket != "" then "gcs" else "pvc"
    case Eks => if config.s3Bucket != "" then "s3" else "pvc"
    case Aks => if config.azureStorageAccount != "" && config.azureContainer != "" then "azure" else "pvc"
  }

  /** The provider rule each node matches, in list order. */
  function Providers(nodes: seq<Node>): (ps: seq<Option<Provider>>)
    ensures |ps| == |nodes|
    ensures forall i :: 0 <= i < |nodes| ==> ps[i] == NodeProvider(nodes[i])
  {
    seq(|nodes|, i requires 0 <= i < |nodes| => NodeProvider(nodes[i]))
  }

  /** Index of the first matched rule in a list of per-node answers. */
  function FirstMatch(ps: seq<Option<Provider>>): (r: Option<nat>)
    ensures r.Some? ==> r.value < |ps| && ps[r.value].Some?
    ensures r.Some? ==> forall j :: 0 <= j < r.value ==> ps[j].None?
    ensures r.None? ==> forall j :: 0 <= j < |ps| ==> ps[j].None?
  {
    if ps == [] then None
    else if ps[0].Some? then Some(0)
    else
      var rest := FirstMatch(ps[1..]);
      if rest.None? then None else Some(rest.value + 1)
  }

  /** Index of the first node that matches a provider rule. */
  function FirstProviderNode(nodes: seq<Node>): (r: Option<nat>)
    ensures r.Some? ==> r.value < |nodes| && NodeProvider(nodes[r.value]).Some?
    ensures r.Some? ==> forall j :: 0 <= j < r.value ==> NodeProvider(nodes[j]).None?
    ensures r.None? ==> forall j :: 0 <= j < |nodes| ==> NodeProvider(nodes[j]).None?
  {
    FirstMatch(Providers(nodes))
  }

  /** The loop of `detect_storage_type` over the per-node answers: the
      first node matching a rule decides and ends the loop. */
  function ScanProviders(ps: seq<Option<Provider>>, config: Config): (r: string)
    ensures r == "pvc" || r == "gcs" || r == "s3" || r == "azure"
  {
    if ps == [] then "pvc"
    else match ps[0]
      case Some(p) => ProviderStorage(p, config)
      case None => ScanProviders(ps[1..], config)
  }

  /** The scan over the node list. */
  function ScanNodes(nodes: seq<Node>, config: Config): (r: string)
    ensures r == "pvc" || r == "gcs" || r == "s3" || r == "azure"
  {
    ScanProviders(Providers(nodes), config)
  }

  /** `detect_storage_type`. */
  function DetectStorageType(config: Config, k8sAvailable: bool, listing: NodeListing): (r: string)
    ensures config.resultStorageType != "auto" ==> r == config.resultStorageType
    ensures config.resultStorageType == "auto" ==> r == "pvc" || r == "gcs" || r == "s3" || r == "azure"
  {
    if config.resultStorageType != "auto" then config.resultStorageType
    else if !k8sAvailable then "pvc"
    else match listing
      case NodeListFailed => "pvc"
      case Nodes(items) => ScanNodes(items, config)
  }

  lemma {:induction false} ScanProvidersFirstMatch(ps: seq<Option<Provider>>, config: Config)
    ensures FirstMatch(ps).None? ==> ScanProviders(ps, config) == "pvc"
    ensures FirstMatch(ps).Some? ==> ScanProviders(ps, config) == ProviderStorage(ps[FirstMatch(ps).value].value, config)
  {
    if ps != [] && ps[0].None? {
      ScanProvidersFirstMatch(ps[1..], config);
      var rest := FirstMatch(ps[1..]);
      if rest.Some? {
        assert ps[1..][rest.value] == ps[rest.value + 1];
      }
    }
  }

  lemma ScanNodesFirstMatch(nodes: seq<Node>, config: Config)
    ensures FirstProviderNode(nodes).None? ==> ScanNodes(nodes, config) == "pvc"
    ensures FirstProviderNode(nodes).Some? ==>
      ScanNodes(nodes, config) == ProviderStorage(NodeProvider(nodes[FirstProviderNode(nodes).value]).value, config)
  {
    ScanProvidersFirstMatch(Providers(nodes), config);
  }

  /** Under "auto" with a reachable cluster, the first node (in list order)
      that matches a provider rule decides, and its backend is chosen only
      when that backend is configured; no listing, no nodes or no matching
      node all give the claim. */
  lemma DetectDecidedByFirstMatchingNode(config: Config, k8sAvailable: bool, listing: NodeListing)
    requires config.resultStorageType == "auto"
    ensures !k8sAvailable || listing.NodeListFailed? ==> DetectStorageType(config, k8sAvailable, listing) == "pvc"
    ensures k8sAvailable && listing.Nodes? && FirstProviderNode(listing.items).None? ==>
      DetectStorageType(config, k8sAvailable, listing) == "pvc"
    ensures k8sAvailable && listing.Nodes? && FirstProviderNode(listing.items).Some? ==>
      var i := FirstProviderNode(listing.items).value;
      DetectStorageType(config, k8sAvailable, listing) == ProviderStorage(NodeProvider(listing.items[i]).value, config)
  {
    if listing.Nodes? {
      ScanNodesFirstMatch(listing.items, config);
    }
  }

  /** A cloud backend is only ever chosen when its bucket (or account and
      container) is configured and some node looks like that provider. */
  lemma CloudBackendNeedsConfiguration(config: Config, k8sAvailable: bool, listing: NodeListing)
    requires config.resultStorageType == "auto"
    ensures DetectStorageType(config, k8sAvailable, listing) == "gcs" ==>
      config.gcsBucket != "" && listing.Nodes? && exists i :: 0 <= i < |listing.items| && LooksGke(listing.items[i])
    ensures DetectStorageType(config, k8sAvailable, listing) == "s3" ==>
      config.s3Bucket != "" && listing.Nodes? && exists i :: 0 <= i < |listing.items| && LooksEks(listing.items[i])
    ensures DetectStorageType(config, k8sAvailable, listing) == "azure" ==>
      config.azureStorageAccount != "" && config.azureContainer != "" &&
      listing.Nodes? && exists i :: 0 <= i < |listing.items| && LooksAks(listing.items[i])
  {
    DetectDecidedByFirstMatchingNode(config, k8sAvailable, listing);
  }

  // ---------------------------------------------------------------------
  // Default storage class

  const DefaultClassAnnotation := "storageclass.kubernetes.io/is-default-class"

  /** The class name used when the cluster lists none, or listing fails. */
  const FallbackStorageClass := "ebs-gp3"

  predicate IsDefaultClass(sc: StorageClass) {
    DefaultClassAnnotation in sc.annotations && sc.annotations[DefaultClassAnnotation] == "true"
  }

  /** Class i is annotated as default and no earlier class is. */
  predicate FirstDefaultAt(classes: seq<StorageClass>, i: int) {
    0 <= i < |classes| && IsDefaultClass(classes[i]) && forall j :: 0 <= j < i ==> !IsDefaultClass(classes[j])
  }

  function FirstDefaultClass(classes: seq<StorageClass>): (r: Option<string>)
    ensures r.None? <==> forall j :: 0 <= j < |classes| ==> !IsDefaultClass(classes[j])
    ensures r.Some? ==> exists i :: FirstDefaultAt(classes, i) && classes[i].name == r.value
  {
    if classes == [] then None
    else if IsDefaultClass(classes[0]) then Some(classes[0].name)
    else
      var r := FirstDefaultClass(classes[1..]);
      assert r.Some? ==> exists i :: FirstDefaultAt(classes, i) && classes[i].name == r.value by {
        if r.Some? {
          var i :| FirstDefaultAt(classes[1..], i) && classes[1..][i].name == r.value;
          assert classes[i + 1] == classes[1..][i];
          forall j | 0 <= j < i + 1 ensures !IsDefaultClass(classes[j]) {
            if j > 0 { assert classes[j] == classes[1..][j - 1]; }
          }
          assert FirstDefaultAt(classes, i + 1);
        }
      }
      r
  }

  /** `get_default_storage_class`: the first class annotated as default,
      else the first class, else the fallback; the fallback also when the
      listing fails; nothing when the cluster is unreachable. */
  function DefaultStorageClass(k8sAvailable: bool, listing: Option<seq<StorageClass>>): (r: Option<string>)
    ensures r.None? <==> !k8sAvailable
    ensures k8sAvailable && listing.None? ==> r == Some(FallbackStorageClass)
    ensures k8sAvailable && listing.Some? && listing.value == [] ==> r == Some(FallbackStorageClass)
    ensures k8sAvailable && listing.Some? && (exists i :: 0 <= i < |listing.value| && IsDefaultClass(listing.value[i])) ==>
      (exists i :: FirstDefaultAt(listing.value, i) && r == Some(listing.value[i].name))
    ensures k8sAvailable && listing.Some? && listing.value != [] && FirstDefaultClass(listing.value).None? ==>
      r == Some(listing.value[0].name)
  {
    if !k8sAvailable then None
    else match listing
      case None => Some(FallbackStorageClass)
      case Some(classes) =>
        match FirstDefaultClass(classes)
        case Some(name) => Some(name)
        case None => if classes != [] then Some(classes[0].name) else Some(FallbackStorageClass)
  }

  // ---------------------------------------------------------------------
  // Result locations

  /** The dictionary `get_result_storage_info` returns, one case per backend. */
  datatype StorageInfo =
    | PvcInfo(path: string, pvcName: string)
    | S3Info(bucket: string, prefix: string)
    | GcsInfo(bucket: string, prefix: string)
    | AzureInfo(account: string, container: string, prefix: string)
    | UnknownInfo

  predicate IsCloudType(storageType: string) {
    storageType == "s3" || storageType == "gcs" || storageType == "azure"
  }

  function ClaimName(namespace: string): string {
    "results-" + namespace
  }

  function GetResultStorageInfo(jobId: string, namespace: string, storageType: string, config: Config): (info: StorageInfo)
    ensures storageType == "pvc" <==> info.PvcInfo?
    ensures IsCloudType(storageType) <==> info.S3Info? || info.GcsInfo? || info.AzureInfo?
    ensures info.UnknownInfo? <==> storageType != "pvc" && !IsCloudType(storageType)
  {
    if storageType == "pvc" then PvcInfo("/results/" + jobId, ClaimName(namespace))
    else if storageType == "s3" then S3Info(config.s3Bucket, "sumo-k8-results/" + namespace + "/" + jobId + "/")
    else if storageType == "gcs" then GcsInfo(config.gcsBucket, "results/" + namespace + "/" + jobId + "/")
    else if storageType == "azure" then
      AzureInfo(config.azureStorageAccount, config.azureContainer, "results/" + namespace + "/" + jobId + "/")
    else UnknownInfo
  }

  /** `storage_info.get("prefix", "")`. */
  function InfoPrefix(info: StorageInfo): string {
    match info
    case S3Info(_, prefix) => prefix
    case GcsInfo(_, prefix) => prefix
    case AzureInfo(_, _, prefix) => prefix
    case _ => ""
  }

  /** `storage_info.get("path", "")`. */
  function InfoPath(info: StorageInfo): string {
    if info.PvcInfo? then info.path else ""
  }

  /** `storage_info["storage_type"]`. */
  function InfoTypeName(info: StorageInfo): string {
    match info
    case PvcInfo(_, _) => "pvc"
    case S3Info(_, _) => "s3"
    case GcsInfo(_, _) => "gcs"
    case AzureInfo(_, _, _) => "azure"
    case UnknownInfo => "unknown"
  }

  /** The location recorded for a job names the job: the claim path for
      "pvc", the object prefix for a cloud backend, in both cases containing
      "results/" and ending with the job id. Nothing is recorded otherwise. */
  lemma RecordedLocationShape(jobId: string, namespace: string, storageType: string, config: Config)
    ensures var info := GetResultStorageInfo(jobId, namespace, storageType, config);
      InfoTypeName(info) == (if storageType == "pvc" || IsCloudType(storageType) then storageType else "unknown")
    ensures var info := GetResultStorageInfo(jobId, namespace, storageType, config);
      storageType == "pvc" ==> Contains(InfoPath(info), "results/") && EndsWith(InfoPath(info), jobId) && InfoPrefix(info) == ""
    ensures var info := GetResultStorageInfo(jobId, namespace, storageType, config);
      IsCloudType(storageType) ==>
        Contains(InfoPrefix(info), "results/") && EndsWith(InfoPrefix(info), jobId + "/") && InfoPath(info) == ""
    ensures var info := GetResultStorageInfo(jobId, namespace, storageType, config);
      storageType != "pvc" && !IsCloudType(storageType) ==> InfoPath(info) == "" && InfoPrefix(info) == ""
  {
    var info := GetResultStorageInfo(jobId, namespace, storageType, config);
    if storageType == "pvc" {
      ContainsAt(InfoPath(info), "results/", 1);
    } else if storageType == "s3" {
      ContainsAt(InfoPrefix(info), "results/", 8);
    } else if IsCloudType(storageType) {
      ContainsAt(InfoPrefix(info), "results/", 0);
    }
  }

  /** Two jobs of one tenant never share a result location. */
  lemma RecordedLocationsDistinct(a: string, b: string, namespace: string, storageType: string, config: Config)
    requires a != b
    requires storageType == "pvc" || IsCloudType(storageType)
    ensures GetResultStorageInfo(a, namespace, storageType, config) != GetResultStorageInfo(b, namespace, storageType, config)
  {
    var ia := GetResultStorageInfo(a, namespace, storageType, config);
    var ib := GetResultStorageInfo(b, namespace, storageType, config);
    if storageType == "pvc" {
      assert ia.path[9..] == a && ib.path[9..] == b;
    } else {
      var head := if storageType == "s3" then "sumo-k8-results/" + namespace + "/" else "results/" + namespace + "/";
      assert InfoPrefix(ia) == head + a + "/" && InfoPrefix(ib) == head + b + "/";
      assert InfoPrefix(ia)[|head|..|head| + |a|] == a;
      assert InfoPrefix(ib)[|head|..|head| + |b|] == b;
    }
  }

  // ---------------------------------------------------------------------
  // Results claim

  /** `ensure_tenant_pvc`: the claim `results-<ns>` is read and created when
      missing; the name is returned when the claim exists afterwards, None
      when the cluster is unreachable, the read fails other than 404, or
      creation fails. */
  method EnsureTenantPvc(api: ApiServer, namespace: string, k8sAvailable: bool) returns (r: Option<string>)
    modifies api`pvcs, api`writes
    ensures var key := ObjKey(namespace, ClaimName(namespace));
      r.Some? <==> k8sAvailable && (PvcKind, key) !in api.unreadable && key in api.pvcs
    ensures r.Some? ==> r.value == ClaimName(namespace)
    ensures var key := ObjKey(namespace, ClaimName(namespace));
      var attempt := k8sAvailable && (PvcKind, key) !in api.unreadable && key !in old(api.pvcs);
      && api.writes == (if attempt then old(api.writes) + [Create(PvcKind, key)] else old(api.writes))
      && api.pvcs == (if attempt && (PvcKind, key) !in api.refused
                      then old(api.pvcs)[key := DefaultStorageClass(true, api.storageClasses)]
                      else old(api.pvcs))
  {
    if !k8sAvailable {
      return None;
    }
    var name := ClaimName(namespace);
    var key := ObjKey(namespace, name);
    var storageClass := DefaultStorageClass(true, api.storageClasses);
    if (PvcKind, key) in api.unreadable {
      return None;
    }
    if key in api.pvcs {
      return Some(name);
    }
    var ok := api.CreatePvc(key, storageClass);
    r := if ok then Some(name) else None;
  }

  // ---------------------------------------------------------------------
  // Upload jobs

  /** The object prefix the upload script writes under, as the source
      builds it: from the tenant id. */
  function UploaderPrefixAsWritten(storageType: string, tenantId: string, jobId: string): string {
    if storageType == "s3" then "sumo-k8-results/" + tenantId + "/" + jobId + "/"
    else "results/" + tenantId + "/" + jobId + "/"
  }

  /** The object prefix an upload must use so that the files land where the
      job's recorded location points: built from the namespace. */
  function UploaderPrefix(storageType: string, namespace: string, jobId: string): (prefix: string)
    requires IsCloudType(storageType)
    ensures forall config :: prefix == InfoPrefix(GetResultStorageInfo(jobId, namespace, storageType, config))
  {
    if storageType == "s3" then "sumo-k8-results/" + namespace + "/" + jobId + "/"
    else "results/" + namespace + "/" + jobId + "/"
  }

  /** The as-written prefix misses the recorded location whenever the tenant
      id is not already its own namespace, e.g. "Acme_Co" (namespace "acme-co"). */
  lemma UploaderPrefixMismatch(config: Config)
    ensures UploaderPrefixAsWritten("s3", "Acme_Co", "job")
      != InfoPrefix(GetResultStorageInfo("job", "acme-co", "s3", config))
  {
    var written := UploaderPrefixAsWritten("s3", "Acme_Co", "job");
    assert written[16] == 'A';
    assert InfoPrefix(GetResultStorageInfo("job", "acme-co", "s3", config))[16] == 'a';
  }

  /** The as-written prefix is the recorded one exactly when the tenant id
      is the namespace. */
  lemma UploaderPrefixMatchesIff(storageType: string, tenantId: string, namespace: string, jobId: string)
    requires IsCloudType(storageType)
    ensures UploaderPrefixAsWritten(storageType, tenantId, jobId) == UploaderPrefix(storageType, namespace, jobId)
      <==> tenantId == namespace
  {
    var head := if storageType == "s3" then "sumo-k8-results/" else "results/";
    var written := UploaderPrefixAsWritten(storageType, tenantId, jobId);
    var wanted := UploaderPrefix(storageType, namespace, jobId);
    assert written == head + tenantId + "/" + jobId + "/";
    assert wanted == head + namespace + "/" + jobId + "/";
    if written == wanted {
      assert |tenantId| == |namespace|;
      assert written[|head|..|head| + |tenantId|] == tenantId;
      assert wanted[|head|..|head| + |namespace|] == namespace;
    }
  }

  /** The script ConfigMap of an upload job; it records the prefix the
      script writes under, built from the tenant id as the source does (the
      script text itself is not modelled). */
  function UploadScript(storageType: string, tenantId: string, jobId: string): ConfigMap {
    ConfigMap(map[], map["upload-prefix" := UploaderPrefixAsWritten(storageType, tenantId, jobId)])
  }

  function UploadJob(jobId: string, namespace: string): JobObject {
    JobObject(map["job-id" := jobId, "type" := "upload"], 60, None, None, map[], map[],
      ["upload-script-" + Take(jobId, 8)], ClaimName(namespace), map[])
  }

  /** `upload_results_from_pvc`: nothing for non-cloud backends or an
      unreachable cluster; otherwise the script ConfigMap
      `upload-script-<id8>`, then the job `upload-<id8>`; the job name is
      returned when both creations succeed. */
  method UploadResultsFromPvc(api: ApiServer, jobId: string, tenantId: string, namespace: string, storageType: string,
                              k8sAvailable: bool) returns (r: Option<string>)
    modifies api`configMaps, api`jobs, api`writes
    ensures !IsCloudType(storageType) || !k8sAvailable ==>
      r.None? && api.configMaps == old(api.configMaps) && api.jobs == old(api.jobs) && api.writes == old(api.writes)
    ensures r.Some? ==> r.value == "upload-" + Take(jobId, 8)
    ensures IsCloudType(storageType) && k8sAvailable ==>
      var cmKey := ObjKey(namespace, "upload-script-" + Take(jobId, 8));
      var jobKey := ObjKey(namespace, "upload-" + Take(jobId, 8));
      var cmOk := cmKey !in old(api.configMaps) && (ConfigMapKind, cmKey) !in api.refused;
      var jobOk := cmOk && jobKey !in old(api.jobs) && (JobKind, jobKey) !in api.refused;
      && (r.Some? <==> jobOk)
      && api.configMaps == (if cmOk then old(api.configMaps)[cmKey := UploadScript(storageType, tenantId, jobId)]
                            else old(api.configMaps))
      && api.jobs == (if jobOk then old(api.jobs)[jobKey := UploadJob(jobId, namespace)] else old(api.jobs))
      && api.writes == old(api.writes) + [Create(ConfigMapKind, cmKey)] + (if cmOk then [Create(JobKind, jobKey)] else [])
  {
    if !IsCloudType(storageType) || !k8sAvailable {
      return None;
    }
    var id8 := Take(jobId, 8);
    var cmKey := ObjKey(namespace, "upload-script-" + id8);
    var cmOk := api.CreateConfigMap(cmKey, UploadScript(storageType, tenantId, jobId));
    if !cmOk {
      return None;
    }
    var jobOk := api.CreateJob(ObjKey(namespace, "upload-" + id8), UploadJob(jobId, namespace));
    r := if jobOk then Some("upload-" + id8) else None;
  }
}
