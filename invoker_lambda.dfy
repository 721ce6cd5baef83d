/** The invoker function: on each schedule firing it resolves the network placement of the
    task from its subnet and starts exactly one Fargate task. */
module InvokerLambda {
  import opened Wrappers
  import opened Errors
  import opened Strings

  const FargateLaunchType: string := "FARGATE"
  const Finished: string := "Finished"

  /** An EC2 subnet, reduced to what the invoker reads. */
  datatype Subnet = Subnet(subnetId: string, mapPublicIpOnLaunch: Option<bool>)

  /** The `describeSubnets` response; `Subnets` may be missing from it. */
  datatype DescribeSubnetsResponse = DescribeSubnetsResponse(subnets: Option<seq<Subnet>>)

  /** The `awsvpcConfiguration` of a run-task request. */
  datatype AwsVpcConfiguration = AwsVpcConfiguration(subnets: seq<string>, securityGroups: seq<string>, assignPublicIp: string)

  /** The parameters of one ECS `runTask` call. */
  datatype RunTaskRequest = RunTaskRequest(
    taskDefinition: string,
    count: int,
    launchType: string,
    awsvpcConfiguration: AwsVpcConfiguration)

  /** The invoker's `TASK_DEF_NAME`, `FARGATE_SUBNET` and `FARGATE_SECURITY_GROUP` settings. */
  datatype InvokerEnvironment = InvokerEnvironment(taskDefName: string, fargateSubnet: string, fargateSecurityGroup: string)

  /** The error `shouldAssignPublicIp` raises for a subnet that does not exist. */
  function SubnetNotFoundError(subnetId: string): Error {
    ThrownError("The given subnet '" + subnetId + "' could not be found")
  }

  /** The decoding in `getSubnet`: the first subnet listed, nothing when the list is missing or
      empty or when EC2 reports the subnet id as not found; other errors are passed on. */
  function SubnetFromResponse(response: Result<DescribeSubnetsResponse, Error>): (r: Result<Option<Subnet>, Error>)
    ensures response.Success? && response.value.subnets.Some? && response.value.subnets.value != [] ==>
      r == Success(Some(response.value.subnets.value[0]))
    ensures response.Success? && (response.value.subnets.None? || response.value.subnets.value == []) ==>
      r == Success(None)
    ensures response.Failure? && response.error.Code() == SubnetNotFound ==> r == Success(None)
    ensures response.Failure? && response.error.Code() != SubnetNotFound ==> r == Failure(response.error)
  {
    match response
    case Success(describeResponse) =>
      if describeResponse.subnets.Some? && |describeResponse.subnets.value| > 0 then
        Success(Some(describeResponse.subnets.value[0]))
      else
        Success(None)
    case Failure(err) =>
      if err.Code() == SubnetNotFound then Success(None) else Failure(err)
  }

  /** `shouldAssignPublicIp`: a public address exactly when the subnet maps one on launch; a
      subnet that does not exist is an error of the invoker's own naming the subnet. */
  function ShouldAssignPublicIp(subnetId: string, subnet: Result<Option<Subnet>, Error>): (r: Result<bool, Error>)
    ensures subnet.Failure? ==> r == Failure(subnet.error)
    ensures subnet == Success(None) ==>
      r.Failure? && r.error.ThrownError? && Contains(r.error.message, subnetId)
      && Contains(r.error.message, "could not be found")
    ensures subnet.Success? && subnet.value.Some? ==>
      r.Success? && (r.value <==> subnet.value.value.mapPublicIpOnLaunch == Some(true))
  {
    match subnet
    case Failure(err) => Failure(err)
    case Success(None) =>
      ContainsInfix("The given subnet '", subnetId, "' could not be found");
      ContainsSuffix("The given subnet '" + subnetId + "' ", "could not be found");
      assert "The given subnet '" + subnetId + "' could not be found"
          == "The given subnet '" + subnetId + "' " + "could not be found";
      Failure(SubnetNotFoundError(subnetId))
    case Success(Some(s)) =>
      if s.mapPublicIpOnLaunch == Some(true) then Success(true) else Success(false)
  }

  /** `getVpcConfiguration`: the configured subnet and security group, public address
      assignment enabled exactly when the subnet asks for it. */
  function VpcConfiguration(subnetId: string, securityGroup: string, subnet: Result<Option<Subnet>, Error>): (r: Result<AwsVpcConfiguration, Error>)
    ensures r.Failure? <==> ShouldAssignPublicIp(subnetId, subnet).Failure?
    ensures r.Failure? ==> r.error == ShouldAssignPublicIp(subnetId, subnet).error
    ensures r.Success? ==>
      && r.value.subnets == [subnetId]
      && r.value.securityGroups == [securityGroup]
      && (r.value.assignPublicIp == "ENABLED" <==> subnet.value.value.mapPublicIpOnLaunch == Some(true))
      && (r.value.assignPublicIp == "ENABLED" || r.value.assignPublicIp == "DISABLED")
  {
    var assignPublicIp :- ShouldAssignPublicIp(subnetId, subnet);
    Success(AwsVpcConfiguration([subnetId], [securityGroup], if assignPublicIp then "ENABLED" else "DISABLED"))
  }

  /** The EC2 and ECS APIs as the invoker sees them. */
  class InvokerCloud {
    /** The subnets that exist, by id. */
    var subnets: map<string, Subnet>
    /** A provider failure that `describeSubnets` reports while set. */
    var describeFault: Option<Error>
    /** A provider failure that `runTask` reports while set. */
    var runTaskFault: Option<Error>
    /** Every `runTask` request issued so far, in order. */
    var runTaskRequests: seq<RunTaskRequest>
    /** The tasks started so far, in order. */
    var startedTasks: seq<RunTaskRequest>

    constructor (subnets: map<string, Subnet>, describeFault: Option<Error>, runTaskFault: Option<Error>)
      ensures this.subnets == subnets && this.describeFault == describeFault && this.runTaskFault == runTaskFault
      ensures runTaskRequests == [] && startedTasks == []
    {
      this.subnets := subnets;
      this.describeFault := describeFault;
      this.runTaskFault := runTaskFault;
      runTaskRequests := [];
      startedTasks := [];
    }

    /** `describeSubnets({SubnetIds: [id]})`: an unknown id fails with `InvalidSubnetID.NotFound`. */
    function DescribeSubnets(subnetId: string): (r: Result<DescribeSubnetsResponse, Error>)
      reads this
      ensures describeFault.None? && subnetId in subnets ==> r == Success(DescribeSubnetsResponse(Some([subnets[subnetId]])))
      ensures describeFault.None? && subnetId !in subnets ==> r.Failure? && r.error.Code() == SubnetNotFound
    {
      if describeFault.Some? then Failure(describeFault.value)
      else if subnetId in subnets then Success(DescribeSubnetsResponse(Some([subnets[subnetId]])))
      else Failure(ApiError(SubnetNotFound, "The subnet ID '" + subnetId + "' does not exist"))
    }

    /** `runTask`: records the request and, unless it fails, starts the task. */
    method RunTask(request: RunTaskRequest) returns (r: Result<(), Error>)
      modifies this
      ensures runTaskRequests == old(runTaskRequests) + [request]
      ensures subnets == old(subnets) && describeFault == old(describeFault) && runTaskFault == old(runTaskFault)
      ensures old(runTaskFault).Some? ==> r == Failure(old(runTaskFault).value) && startedTasks == old(startedTasks)
      ensures old(runTaskFault).None? ==> r == Success(()) && startedTasks == old(startedTasks) + [request]
    {
      runTaskRequests := runTaskRequests + [request];
      if runTaskFault.Some? {
        r := Failure(runTaskFault.value);
      } else {
        startedTasks := startedTasks + [request];
        r := Success(());
      }
    }
  }

  /** `getSubnet` against the current subnets. */
  method GetSubnet(cloud: InvokerCloud, subnetId: string) returns (r: Result<Option<Subnet>, Error>)
    ensures cloud.describeFault.None? ==>
      r == Success(if subnetId in cloud.subnets then Some(cloud.subnets[subnetId]) else None)
    ensures cloud.describeFault.Some? ==>
      r == if cloud.describeFault.value.Code() == SubnetNotFound then Success(None) else Failure(cloud.describeFault.value)
  {
    r := SubnetFromResponse(cloud.DescribeSubnets(subnetId));
  }

  /** The placement the invoker resolves against the account's subnets: a missing subnet is the
      invoker's not-found error (not a provider error), and an existing one gives a public
      address exactly when it maps one on launch. */
  lemma PlacementFromSubnets(cloud: InvokerCloud, subnetId: string, securityGroup: string)
    requires cloud.describeFault.None?
    ensures
      var placement := VpcConfiguration(subnetId, securityGroup, SubnetFromResponse(cloud.DescribeSubnets(subnetId)));
      && (subnetId !in cloud.subnets ==> placement == Failure(SubnetNotFoundError(subnetId)))
      && (subnetId in cloud.subnets ==>
            && placement.Success?
            && placement.value.subnets == [subnetId]
            && placement.value.securityGroups == [securityGroup]
            && (placement.value.assignPublicIp == "ENABLED" <==> cloud.subnets[subnetId].mapPublicIpOnLaunch == Some(true)))
  {
    var lookup := SubnetFromResponse(cloud.DescribeSubnets(subnetId));
    if subnetId in cloud.subnets {
      assert lookup == Success(Some(cloud.subnets[subnetId]));
    } else {
      assert lookup == Success(None);
    }
  }

  /** The run-task request `handler` issues for a placement. */
  function RunTaskRequestFor(env: InvokerEnvironment, vpc: AwsVpcConfiguration): RunTaskRequest {
    RunTaskRequest(env.taskDefName, 1, FargateLaunchType, vpc)
  }

  /** `handler`: resolves the placement and issues exactly one `runTask` for one Fargate task of
      the configured definition, returning "Finished". When the placement cannot be resolved no
      task is requested; every error is rethrown unchanged. */
  method Handler(cloud: InvokerCloud, env: InvokerEnvironment) returns (r: Result<string, Error>)
    modifies cloud
    ensures cloud.subnets == old(cloud.subnets) && cloud.describeFault == old(cloud.describeFault)
    ensures cloud.runTaskFault == old(cloud.runTaskFault)
    ensures
      var placement := VpcConfiguration(env.fargateSubnet, env.fargateSecurityGroup,
                                        SubnetFromResponse(old(cloud.DescribeSubnets(env.fargateSubnet))));
      && (placement.Failure? ==>
            r == Failure(placement.error) && unchanged(cloud))
      && (placement.Success? ==>
            && cloud.runTaskRequests == old(cloud.runTaskRequests) + [RunTaskRequestFor(env, placement.value)]
            && (old(cloud.runTaskFault).Some? ==>
                  r == Failure(old(cloud.runTaskFault).value) && cloud.startedTasks == old(cloud.startedTasks))
            && (old(cloud.runTaskFault).None? ==>
                  r == Success(Finished)
                  && cloud.startedTasks == old(cloud.startedTasks) + [RunTaskRequestFor(env, placement.value)]))
  {
    var subnet := GetSubnet(cloud, env.fargateSubnet);
    var vpc := VpcConfiguration(env.fargateSubnet, env.fargateSecurityGroup, subnet);
    if vpc.Failure? {
      return Failure(vpc.error);
    }
    var runParams := RunTaskRequest(env.taskDefName, 1, FargateLaunchType, vpc.value);
    var response := cloud.RunTask(runParams);
    if response.Failure? {
      return Failure(response.error);
    }
    r := Success(Finished);
  }

  /** A subnet that does not exist stops the launch with the invoker's not-found error and no
      task requested. */
  method HandlerWithMissingSubnet(cloud: InvokerCloud, env: InvokerEnvironment) returns (r: Result<string, Error>)
    requires cloud.describeFault.None? && env.fargateSubnet !in cloud.subnets
    modifies cloud
    ensures r == Failure(SubnetNotFoundError(env.fargateSubnet))
    ensures cloud.runTaskRequests == old(cloud.runTaskRequests) && cloud.startedTasks == old(cloud.startedTasks)
  {
    r := Handler(cloud, env);
  }

  /** The handler is not idempotent: two firings start two tasks, both with one Fargate task of
      the configured definition. */
  method HandlerTwice(cloud: InvokerCloud, env: InvokerEnvironment) returns (first: Result<string, Error>, second: Result<string, Error>)
    requires cloud.describeFault.None? && cloud.runTaskFault.None? && env.fargateSubnet in cloud.subnets
    modifies cloud
    ensures first == Success(Finished) && second == Success(Finished)
    ensures |cloud.startedTasks| == |old(cloud.startedTasks)| + 2
    ensures forall i :: |old(cloud.startedTasks)| <= i < |cloud.startedTasks| ==>
      && cloud.startedTasks[i].count == 1
      && cloud.startedTasks[i].launchType == FargateLaunchType
      && cloud.startedTasks[i].taskDefinition == env.taskDefName
  {
    first := Handler(cloud, env);
    second := Handler(cloud, env);
  }
}
