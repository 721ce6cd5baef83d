/** The default-cluster get-or-create: look the cluster named 'default' up and create it only
    when the lookup finds nothing. */
module EcsCalls {
  import opened Wrappers
  import opened Errors

  /** The name of the cluster the extension runs its tasks in, and the name ECS gives a
      cluster created without one. */
  const DefaultClusterName: string := "default"

  /** An ECS cluster as a describe or create call reports it. */
  datatype Cluster = Cluster(clusterName: string, clusterArn: string, status: string)

  /** The `describeClusters` response; `clusters` may be missing from it. */
  datatype DescribeClustersResponse = DescribeClustersResponse(clusters: Option<seq<Cluster>>)

  /** The `createCluster` response; `cluster` may be missing from it. */
  datatype CreateClusterResponse = CreateClusterResponse(cluster: Option<Cluster>)

  /** The decoding in `getCluster`: nothing when the list is missing or empty, otherwise the
      first cluster listed. */
  function ClusterFromResponse(response: DescribeClustersResponse): (found: Option<Cluster>)
    ensures found.None? <==> response.clusters.None? || response.clusters.value == []
    ensures found.Some? ==> found.value == response.clusters.value[0]
  {
    if response.clusters.None? || |response.clusters.value| == 0 then None
    else Some(response.clusters.value[0])
  }

  /** The ECS cluster API of one account and region. */
  class EcsApi {
    /** The clusters that exist, by name. */
    var clusters: map<string, Cluster>
    /** How many `createCluster` calls have been issued. */
    var createCount: nat
    /** A provider failure that `describeClusters` reports while set. */
    var describeFault: Option<Error>
    /** A provider failure that `createCluster` reports while set. */
    var createFault: Option<Error>
    /** Whether a successful `createCluster` response leaves out the `cluster` field. */
    var createOmitsCluster: bool
    /** The ARN the provider assigns to a newly created default cluster. */
    var newClusterArn: string

    constructor (clusters: map<string, Cluster>, describeFault: Option<Error>, createFault: Option<Error>,
                 createOmitsCluster: bool, newClusterArn: string)
      ensures this.clusters == clusters && createCount == 0
      ensures this.describeFault == describeFault && this.createFault == createFault
      ensures this.createOmitsCluster == createOmitsCluster && this.newClusterArn == newClusterArn
    {
      this.clusters := clusters;
      createCount := 0;
      this.describeFault := describeFault;
      this.createFault := createFault;
      this.createOmitsCluster := createOmitsCluster;
      this.newClusterArn := newClusterArn;
    }

    /** `describeClusters({clusters: [name]})`: lists the named cluster when it exists. */
    function DescribeClusters(name: string): (r: Result<DescribeClustersResponse, Error>)
      reads this
      ensures describeFault.None? ==> r.Success?
      ensures r.Success? && name in clusters ==> r.value.clusters == Some([clusters[name]])
      ensures r.Success? && name !in clusters ==> r.value.clusters == Some([])
    {
      if describeFault.Some? then Failure(describeFault.value)
      else if name in clusters then Success(DescribeClustersResponse(Some([clusters[name]])))
      else Success(DescribeClustersResponse(Some([])))
    }

    /** The cluster `createCluster({})` makes, or returns when it already exists. */
    function DefaultCluster(): Cluster
      reads this
    {
      if DefaultClusterName in clusters then clusters[DefaultClusterName]
      else Cluster(DefaultClusterName, newClusterArn, "ACTIVE")
    }

    /** `createCluster({})`: counts the call and, unless it fails, makes sure a cluster named
        'default' exists. */
    method CreateCluster() returns (r: Result<CreateClusterResponse, Error>)
      modifies this
      ensures createCount == old(createCount) + 1
      ensures describeFault == old(describeFault) && createFault == old(createFault)
      ensures createOmitsCluster == old(createOmitsCluster) && newClusterArn == old(newClusterArn)
      ensures old(createFault).Some? ==> r == Failure(old(createFault).value) && clusters == old(clusters)
      ensures old(createFault).None? ==>
        && clusters == old(clusters)[DefaultClusterName := old(DefaultCluster())]
        && r == Success(CreateClusterResponse(if createOmitsCluster then None else Some(old(DefaultCluster()))))
    {
      createCount := createCount + 1;
      if createFault.Some? {
        r := Failure(createFault.value);
      } else {
        var cluster := DefaultCluster();
        clusters := clusters[DefaultClusterName := cluster];
        r := Success(CreateClusterResponse(if createOmitsCluster then None else Some(cluster)));
      }
    }
  }

  /** `getCluster`: the named cluster, nothing when the describe response lists none; provider
      errors are passed on unchanged. */
  method GetCluster(api: EcsApi, clusterName: string) returns (r: Result<Option<Cluster>, Error>)
    ensures api.describeFault.Some? ==> r == Failure(api.describeFault.value)
    ensures api.describeFault.None? ==>
      r == Success(if clusterName in api.clusters then Some(api.clusters[clusterName]) else None)
  {
    var describeResponse := api.DescribeClusters(clusterName);
    if describeResponse.Failure? {
      return Failure(describeResponse.error);
    }
    r := Success(ClusterFromResponse(describeResponse.value));
  }

  /** `createDefaultClusterIfNotExists`: returns the existing 'default' cluster without creating
      anything; otherwise issues exactly one `createCluster` and returns the created cluster, or
      nothing when the create response has none. Provider errors are passed on. */
  method CreateDefaultClusterIfNotExists(api: EcsApi) returns (r: Result<Option<Cluster>, Error>)
    modifies api
    ensures api.describeFault == old(api.describeFault) && api.createFault == old(api.createFault)
    ensures api.createOmitsCluster == old(api.createOmitsCluster) && api.newClusterArn == old(api.newClusterArn)
    ensures old(api.describeFault).Some? ==>
      r == Failure(old(api.describeFault).value) && unchanged(api)
    ensures old(api.describeFault).None? && DefaultClusterName in old(api.clusters) ==>
      r == Success(Some(old(api.clusters)[DefaultClusterName])) && unchanged(api)
    ensures old(api.describeFault).None? && DefaultClusterName !in old(api.clusters) ==>
      && api.createCount == old(api.createCount) + 1
      && (old(api.createFault).Some? ==> r == Failure(old(api.createFault).value) && api.clusters == old(api.clusters))
      && (old(api.createFault).None? ==>
            var created := Cluster(DefaultClusterName, old(api.newClusterArn), "ACTIVE");
            && api.clusters == old(api.clusters)[DefaultClusterName := created]
            && r == Success(if api.createOmitsCluster then None else Some(created)))
  {
    var cluster := GetCluster(api, DefaultClusterName);
    if cluster.Failure? {
      return Failure(cluster.error);
    }
    if cluster.value.None? {
      var createResponse := api.CreateCluster();
      if createResponse.Failure? {
        return Failure(createResponse.error);
      }
      if createResponse.value.cluster.Some? {
        r := Success(createResponse.value.cluster);
      } else {
        r := Success(None);
      }
    } else {
      r := Success(cluster.value);
    }
  }

  /** Two consecutive calls: once the first succeeds, 'default' exists, so the second one
      creates nothing and the pair issues at most one `createCluster`. */
  method CreateDefaultClusterTwice(api: EcsApi) returns (first: Result<Option<Cluster>, Error>, second: Result<Option<Cluster>, Error>)
    modifies api
    ensures first.Success? ==>
      && api.createCount <= old(api.createCount) + 1
      && second.Success? && second.value.Some?
      && DefaultClusterName in api.clusters && second.value.value == api.clusters[DefaultClusterName]
    ensures old(api.describeFault).None? && old(api.createFault).None? ==> first.Success? && second.Success?
  {
    first := CreateDefaultClusterIfNotExists(api);
    second := CreateDefaultClusterIfNotExists(api);
  }
}
