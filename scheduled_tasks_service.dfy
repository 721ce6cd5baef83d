/** The service deployer of the scheduled-tasks extension: configuration checking, image
    name resolution, template parameter defaulting, the deploy result it publishes, and the
    permission it grants to an event producer. */
module ScheduledTasksService {
  import opened Wrappers
  import opened Errors
  import opened Strings
  import opened LambdaPermissions

  const ServiceName: string := "ServerlessTasks"
  const ScheduleRequired: string := "'schedule' parameter is required"
  const ScheduleRequiredMessage: string := ServiceName + " - The " + ScheduleRequired
  const DefaultCpuUnits: int := 256
  const DefaultMaxMb: int := 512
  const DefaultWorkDirPath: string := "/mnt/share/task-workdir"
  /** The image-name shorthand for "this account's own container registry". */
  const AccountPrefix: string := "<account>"
  /** The principal under which the invoker function is published to event producers. */
  const LambdaPrincipal: string := "lambda.amazonaws.com"
  const FunctionArnOutput: string := "FunctionArn"
  const FunctionNameOutput: string := "FunctionName"
  const MissingOutputsMessage: string :=
    "Expected to receive invoker lambda name and invoker lambda ARN from invoker lambda service"
  const MissingEventOutputsMessage: string :=
    "Both the consumer and producer must return event outputs from their deploy"
  const MissingFunctionNameMessage: string := "Expected to get function name for event binding"

  /** The service's declarative parameters; every field but the schedule is optional and even
      the schedule may be missing until `check` has run. */
  datatype ServiceParams = ServiceParams(
    schedule: Option<string>,
    imageName: Option<string>,
    maxMb: Option<int>,
    cpuUnits: Option<int>,
    workDirPath: Option<string>,
    environmentVariables: Option<map<string, string>>)

  /** The parts of the account configuration the service reads. */
  datatype AccountConfig = AccountConfig(accountId: string, region: string, privateSubnets: seq<string>)

  /** The service's identity in its application and environment, with its parameters. */
  datatype ServiceContext = ServiceContext(
    appName: string,
    environmentName: string,
    serviceName: string,
    params: ServiceParams,
    accountConfig: AccountConfig)

  /** `check`: the only required parameter is a truthy `schedule`. */
  method Check(serviceContext: ServiceContext) returns (errors: seq<string>)
    ensures !Truthy(serviceContext.params.schedule) ==>
      |errors| == 1 && Contains(errors[0], ScheduleRequired)
    ensures Truthy(serviceContext.params.schedule) ==> errors == []
  {
    errors := [];
    if !Truthy(serviceContext.params.schedule) {
      errors := errors + [ScheduleRequiredMessage];
      ContainsSuffix(ServiceName + " - The ", ScheduleRequired);
    }
  }

  /** The host of the account's own container registry. */
  function RegistryHost(account: AccountConfig): string {
    account.accountId + ".dkr.ecr." + account.region + ".amazonaws.com"
  }

  /** `getImageName`: a custom image name that starts with the shorthand is rebased onto the
      account's registry, any other custom name is used verbatim, and without one the image is
      `<app>-<service>:<environment>` in the account's registry. */
  function GetImageName(ctx: ServiceContext): (name: string)
    ensures !Truthy(ctx.params.imageName) ==>
      name == RegistryHost(ctx.accountConfig) + "/" + ctx.appName + "-" + ctx.serviceName + ":" + ctx.environmentName
    ensures Truthy(ctx.params.imageName) && AccountPrefix <= ctx.params.imageName.value ==>
      && RegistryHost(ctx.accountConfig) <= name
      && name[|RegistryHost(ctx.accountConfig)|..] == ctx.params.imageName.value[|AccountPrefix|..]
    ensures Truthy(ctx.params.imageName) && !(AccountPrefix <= ctx.params.imageName.value) ==>
      name == ctx.params.imageName.value
  {
    if Truthy(ctx.params.imageName) then
      var customImageName := ctx.params.imageName.value;
      if AccountPrefix <= customImageName then
        RegistryHost(ctx.accountConfig) + customImageName[9..]
      else
        customImageName
    else
      RegistryHost(ctx.accountConfig) + "/" + ctx.appName + "-" + ctx.serviceName + ":" + ctx.environmentName
  }

  /** Image resolution is stable: resolving an already resolved image name gives it back, so the
      result never again carries the shorthand (account ids never start with '<'). */
  lemma ResolvedImageNameIsStable(ctx: ServiceContext)
    requires ctx.accountConfig.accountId == "" || ctx.accountConfig.accountId[0] != '<'
    ensures GetImageName(ctx.(params := ctx.params.(imageName := Some(GetImageName(ctx))))) == GetImageName(ctx)
  {
    var name := GetImageName(ctx);
    var host := RegistryHost(ctx.accountConfig);
    if !Truthy(ctx.params.imageName) || AccountPrefix <= ctx.params.imageName.value {
      assert host <= name;
      assert host[0] == name[0];
      assert !(AccountPrefix <= name) by {
        if ctx.accountConfig.accountId == "" {
          assert host[0] == '.';
        } else {
          assert host[0] == ctx.accountConfig.accountId[0];
        }
      }
    }
  }

  /** `"<account>" + rest` resolves to the account's registry host followed by `rest`, e.g.
      `<account>/myimage:tag` to `<id>.dkr.ecr.<region>.amazonaws.com/myimage:tag`. */
  lemma ShorthandExpandsToAccountRegistry(ctx: ServiceContext, rest: string)
    requires ctx.params.imageName == Some(AccountPrefix + rest)
    ensures GetImageName(ctx) == RegistryHost(ctx.accountConfig) + rest
  {
    var custom := AccountPrefix + rest;
    assert AccountPrefix <= custom;
    assert custom[9..] == rest;
  }

  /** The values `getCompiledTemplate` hands to the template, apart from those computed by
      collaborators outside this model (policies, environment variables, tags, artifact). */
  datatype TemplateParams = TemplateParams(
    resourceName: string,
    scheduleExpression: Option<string>,
    taskCpu: int,
    taskMemory: int,
    imageName: string,
    subnetId: Option<string>,
    securityGroupId: string,
    workingDirMountPath: string)

  /** The parameter defaulting of `getCompiledTemplate`: a falsy (missing or zero) CPU or memory
      falls back to 256 units and 512 MB, a falsy working directory to the shared mount path.
      The subnet is the first private subnet, if any; the security group is the first one
      created before deploy, and reading it from an empty list fails. */
  function TemplateParameters(resourceName: string, ctx: ServiceContext, securityGroupIds: seq<string>): (r: Result<TemplateParams, Error>)
    ensures r.Failure? <==> securityGroupIds == []
    ensures r.Success? ==>
      && r.value.taskCpu == (if TruthyNumber(ctx.params.cpuUnits) then ctx.params.cpuUnits.value else DefaultCpuUnits)
      && r.value.taskMemory == (if TruthyNumber(ctx.params.maxMb) then ctx.params.maxMb.value else DefaultMaxMb)
      && r.value.workingDirMountPath ==
           (if Truthy(ctx.params.workDirPath) then ctx.params.workDirPath.value else DefaultWorkDirPath)
      && r.value.imageName == GetImageName(ctx)
      && r.value.scheduleExpression == ctx.params.schedule
      && r.value.securityGroupId == securityGroupIds[0]
      && (r.value.subnetId.Some? <==> ctx.accountConfig.privateSubnets != [])
      && (r.value.subnetId.Some? ==> r.value.subnetId.value == ctx.accountConfig.privateSubnets[0])
  {
    if securityGroupIds == [] then
      Failure(TypeError("GroupId"))
    else
      var params := ctx.params;
      Success(TemplateParams(
        resourceName,
        params.schedule,
        if TruthyNumber(params.cpuUnits) then params.cpuUnits.value else DefaultCpuUnits,
        if TruthyNumber(params.maxMb) then params.maxMb.value else DefaultMaxMb,
        GetImageName(ctx),
        if ctx.accountConfig.privateSubnets != [] then Some(ctx.accountConfig.privateSubnets[0]) else None,
        securityGroupIds[0],
        if Truthy(params.workDirPath) then params.workDirPath.value else DefaultWorkDirPath))
  }

  /** Omitted or falsy (zero or empty) sizes and working directory take the defaults. */
  lemma TemplateDefaults(resourceName: string, ctx: ServiceContext, groupId: string)
    requires !TruthyNumber(ctx.params.cpuUnits) && !TruthyNumber(ctx.params.maxMb) && !Truthy(ctx.params.workDirPath)
    ensures TemplateParameters(resourceName, ctx, [groupId]).Success?
    ensures TemplateParameters(resourceName, ctx, [groupId]).value.taskCpu == DefaultCpuUnits
    ensures TemplateParameters(resourceName, ctx, [groupId]).value.taskMemory == DefaultMaxMb
    ensures TemplateParameters(resourceName, ctx, [groupId]).value.workingDirMountPath == DefaultWorkDirPath
  {
  }

  /** The defaulting is idempotent: configuring the CPU, memory and working directory the
      template received gives the same template. */
  lemma TemplateParametersStable(resourceName: string, ctx: ServiceContext, securityGroupIds: seq<string>)
    requires securityGroupIds != []
    ensures
      var t := TemplateParameters(resourceName, ctx, securityGroupIds).value;
      var resolved := ctx.(params := ctx.params.(cpuUnits := Some(t.taskCpu), maxMb := Some(t.taskMemory),
                                                 workDirPath := Some(t.workingDirMountPath)));
      TemplateParameters(resourceName, resolved, securityGroupIds) == Success(t)
  {
  }

  /** One statement of an IAM policy. */
  datatype IamStatement = IamStatement(effect: string, actions: seq<string>, resources: seq<string>)

  /** The event kinds a service can publish; this service is a Lambda event target. */
  datatype ServiceEventType = LambdaEvent | OtherEvent(name: string)

  /** The linkage data a deployed service publishes so that others can trigger it or be
      triggered by it. */
  datatype EventOutputs = EventOutputs(
    resourceArn: Option<string>,
    resourceName: Option<string>,
    resourcePrincipal: string,
    serviceEventType: ServiceEventType)

  /** The policy that lets a dependent service invoke the function with the given ARN. */
  function InvokePolicy(functionArn: string): IamStatement {
    IamStatement("Allow", ["lambda:InvokeFunction", "lambda:InvokeAsync"], [functionArn])
  }

  /** The deploy result that a service hands to the services depending on it. */
  class DeployContext {
    var policies: seq<IamStatement>
    var environmentVariables: map<string, string>
    var eventOutputs: Option<EventOutputs>

    constructor ()
      ensures policies == [] && environmentVariables == map[] && eventOutputs == None
    {
      policies := [];
      environmentVariables := map[];
      eventOutputs := None;
    }

    /** Adds (or overwrites) the given variables. */
    method AddEnvironmentVariables(vars: map<string, string>)
      modifies this
      ensures environmentVariables == old(environmentVariables) + vars
      ensures policies == old(policies) && eventOutputs == old(eventOutputs)
    {
      environmentVariables := environmentVariables + vars;
    }
  }

  /** `getOutput`: the value of a stack output, absent when the stack has no such output. */
  function StackOutput(outputs: map<string, string>, key: string): Option<string> {
    if key in outputs then Some(outputs[key]) else None
  }

  /** `getDeployContext`: without both invoker outputs the deploy fails; with them the result
      carries one Allow policy for invoking the function, the two environment variables naming
      it, and event outputs publishing it under the Lambda principal. */
  method GetDeployContext(stackOutputs: map<string, string>) returns (r: Result<DeployContext, Error>)
    ensures r.Success? <==>
      Truthy(StackOutput(stackOutputs, FunctionArnOutput)) && Truthy(StackOutput(stackOutputs, FunctionNameOutput))
    ensures r.Failure? ==> r.error == ThrownError(MissingOutputsMessage)
    ensures r.Success? ==>
      var arn := stackOutputs[FunctionArnOutput];
      var name := stackOutputs[FunctionNameOutput];
      && fresh(r.value)
      && r.value.policies == [InvokePolicy(arn)]
      && r.value.environmentVariables == map["FUNCTION_ARN" := arn, "FUNCTION_NAME" := name]
      && r.value.eventOutputs == Some(EventOutputs(Some(arn), Some(name), LambdaPrincipal, LambdaEvent))
  {
    var invokerLambdaArn := StackOutput(stackOutputs, FunctionArnOutput);
    var invokerLambdaName := StackOutput(stackOutputs, FunctionNameOutput);
    if !Truthy(invokerLambdaArn) || !Truthy(invokerLambdaName) {
      return Failure(ThrownError(MissingOutputsMessage));
    }
    var deployContext := new DeployContext();
    deployContext.policies := deployContext.policies + [InvokePolicy(invokerLambdaArn.value)];
    deployContext.AddEnvironmentVariables(
      map["FUNCTION_ARN" := invokerLambdaArn.value, "FUNCTION_NAME" := invokerLambdaName.value]);
    deployContext.eventOutputs :=
      Some(EventOutputs(invokerLambdaArn, invokerLambdaName, LambdaPrincipal, LambdaEvent));
    r := Success(deployContext);
  }

  /** What a producer must be granted: invoke rights on this function for its principal,
      scoped to the producer's resource. */
  datatype PermissionTarget = PermissionTarget(functionName: string, principal: string, sourceArn: Option<string>)

  /** The fail-fast validation of `addProducePermissions`: both sides must have published
      event outputs, and this service's must name its function. */
  function ProducePermissionTarget(own: Option<EventOutputs>, producer: Option<EventOutputs>): (r: Result<PermissionTarget, Error>)
    ensures r.Success? <==> own.Some? && producer.Some? && Truthy(own.value.resourceName)
    ensures own.None? || producer.None? ==> r == Failure(ThrownError(MissingEventOutputsMessage))
    ensures own.Some? && producer.Some? && !Truthy(own.value.resourceName) ==>
      r == Failure(ThrownError(MissingFunctionNameMessage))
    ensures r.Success? ==>
      r.value == PermissionTarget(own.value.resourceName.value, producer.value.resourcePrincipal, producer.value.resourceArn)
  {
    if own.None? || producer.None? then
      Failure(ThrownError(MissingEventOutputsMessage))
    else if !Truthy(own.value.resourceName) then
      Failure(ThrownError(MissingFunctionNameMessage))
    else
      Success(PermissionTarget(own.value.resourceName.value, producer.value.resourcePrincipal, producer.value.resourceArn))
  }

  /** `addProducePermissions`: after validation, ensures the producer holds invoke rights on this
      service's function, passing on every error of the lookup and the grant; a failed
      validation touches no policy. */
  method AddProducePermissions(api: LambdaApi, ownDeployContext: DeployContext, producerDeployContext: DeployContext)
    returns (r: Result<(), Error>)
    modifies api
    ensures ProducePermissionTarget(ownDeployContext.eventOutputs, producerDeployContext.eventOutputs).Failure? ==>
      && r == Failure(ProducePermissionTarget(ownDeployContext.eventOutputs, producerDeployContext.eventOutputs).error)
      && unchanged(api)
    ensures ProducePermissionTarget(ownDeployContext.eventOutputs, producerDeployContext.eventOutputs).Success? ==>
      var t := ProducePermissionTarget(ownDeployContext.eventOutputs, producerDeployContext.eventOutputs).value;
      var before := old(PermissionLookup(api, t.functionName, t.principal, t.sourceArn));
      var n := |old(api.addPermissionRequests)|;
      && api.getPolicyFault == old(api.getPolicyFault) && api.addPermissionFault == old(api.addPermissionFault)
      && (before.Failure? ==> r == Failure(before.error) && unchanged(api))
      && (before.Success? && before.value.Some? ==> r == Success(()) && unchanged(api))
      && (before == Success(None) ==>
            && |api.addPermissionRequests| == n + 1
            && api.addPermissionRequests[..n] == old(api.addPermissionRequests)
            && IsGrantRequest(api.addPermissionRequests[n], t.functionName, t.principal, t.sourceArn,
                              old(api.Statements(t.functionName))))
      && (before == Success(None) && old(api.addPermissionFault).None? && t.functionName in old(api.policies) ==>
            && api.policies == old(api.policies)[t.functionName := Some(old(api.Statements(t.functionName))
                 + [GrantedStatement(api.addPermissionRequests[n])])]
            && (r.Success? <==> PermissionLookup(api, t.functionName, t.principal, t.sourceArn).Success?)
            && (r.Failure? ==> r.error == PermissionLookup(api, t.functionName, t.principal, t.sourceArn).error))
      && (before == Success(None) && (old(api.addPermissionFault).Some? || t.functionName !in old(api.policies)) ==>
            r.Failure? && api.policies == old(api.policies))
      && (old(api.getPolicyFault).None? && old(api.addPermissionFault).None? && t.functionName in old(api.policies) ==>
            && r == Success(())
            && PermissionLookup(api, t.functionName, t.principal, t.sourceArn).Success?
            && PermissionLookup(api, t.functionName, t.principal, t.sourceArn).value.Some?
            && StatementIsSame(t.principal, t.sourceArn,
                               PermissionLookup(api, t.functionName, t.principal, t.sourceArn).value.value))
  {
    var target := ProducePermissionTarget(ownDeployContext.eventOutputs, producerDeployContext.eventOutputs);
    if target.Failure? {
      return Failure(target.error);
    }
    var granted := AddLambdaPermissionIfNotExists(api, target.value.functionName, target.value.principal, target.value.sourceArn);
    if granted.Failure? {
      return Failure(granted.error);
    }
    r := Success(());
  }
}
