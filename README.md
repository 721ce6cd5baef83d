# Scheduled-tasks deployer: get-or-create logic in Dafny

This project models the reconciliation core of a Handel extension for scheduled tasks. The
extension deploys a cron-triggered Fargate task, plus a small invoker Lambda that starts the
task on schedule. Three parts of it have behaviour that can be stated precisely, and the
model covers all three:

- **Permission get-or-create** (`src/scheduled-tasks-service.ts`). The extension looks in the
  invoker function's resource policy for a statement that lets a principal invoke it from a
  given source ARN. When there is none, it adds one with a fresh statement id and looks it up
  again. The same file holds the deployer's pure decisions, which are also modelled: the
  `check` of the configuration, image-name resolution, template parameter defaulting, the
  deploy result it publishes, and the fail-fast validation before granting a producer
  permission.
- **Default cluster get-or-create** (`src/ecs-calls.ts`). The extension describes the ECS
  cluster named `default` and creates it only when the describe finds nothing.
- **Invoker launch** (`src/invoker-lambda/index.ts`). The invoker sets public-address
  assignment from the subnet's own flag. A missing subnet is an error. It then starts exactly
  one Fargate task per call.

Each provider API the core calls is a class holding the provider state the core depends on:

- `LambdaPermissions.LambdaApi` holds each function's policy statements, with `None` for a
  function that has no policy, and the log of `addPermission` requests.
- `EcsCalls.EcsApi` holds the clusters by name and a count of create calls.
- `InvokerLambda.InvokerCloud` holds the subnets by id, the `runTask` requests issued and the
  tasks started.

Any provider failure, whatever its code, is a fault field that the call reports while it
is set. The core's operations are methods over these classes. Their `ensures`
clauses give the new state and the result in terms of the old state. The decisions they make
are pure functions, with lemmas about them.

Files: `wrappers.dfy` (modules `Wrappers`, `Errors`, `Strings`), `lambda_permissions.dfy`,
`scheduled_tasks_service.dfy`, `ecs_calls.dfy`, `invoker_lambda.dfy`.

Modelling choices:
- JavaScript truthiness is written out. An optional string is falsy when it is missing or
  `''`. An optional number is falsy when it is missing or `0`.
- `uuid()` is an arbitrary id chosen with `:|` from the ids that the target policy does not
  yet use. A lemma shows that such an id always exists.
- A thrown exception is the `Failure` side of a `Result`. Provider errors are `ApiError` and
  carry their code. The extension's own `new Error(...)` is `ThrownError`, which has no code.
  Reading a property of `undefined` is `TypeError`.
- `process.env` values, stack outputs and the account configuration are parameters.

Behaviour of the code that is easy to misread:
- When the source ARN is falsy, `statementIsSame` matches on the principal alone. A statement
  that carries a source condition still matches then.
- `createDefaultClusterIfNotExists` returns `null` when the create response has no `cluster`.
  It does not fail.
- The invoker does not check that its environment settings are present.

## Model

| member | source | states |
|---|---|---|
| `LambdaPermissions.StatementIsSame` | src/scheduled-tasks-service.ts:90-99 | a statement whose `Principal.Service` differs never matches; with a truthy source ARN a match also needs `Condition.ArnLike['AWS:SourceArn']` to equal it exactly, so a missing Condition, ArnLike or key does not match; with a falsy one the principal alone decides |
| `LambdaPermissions.FirstMatchIsFirst` | src/scheduled-tasks-service.ts:111-117 | the lookup's scan yields a matching statement with no matching statement before it, and yields nothing exactly when no statement of the policy matches |
| `LambdaPermissions.FindPermission` | src/scheduled-tasks-service.ts:111-120 | the early-return loop over `policy.Statement` returns the first match in policy order, or nothing |
| `LambdaPermissions.GetLambdaPermission` | src/scheduled-tasks-service.ts:101-130 | without a provider fault the result is the first matching statement of the policy; a missing function or policy (`ResourceNotFoundException`) gives "no grant"; any other error comes back unchanged |
| `LambdaPermissions.LambdaApi.GetPolicy` | src/aws-wrapper.ts:43-46 | `getPolicy` succeeds exactly when the function has a policy, and then returns its statements |
| `LambdaPermissions.LambdaApi.AddPermission` | src/aws-wrapper.ts:39-42 | `addPermission` logs the request; it fails on a fault, an unknown function or a used statement id, leaving policies unchanged; otherwise it appends the granted statement to that function's policy and to no other |
| `LambdaPermissions.NewStatementId` | src/scheduled-tasks-service.ts:138 | the statement id used for a new grant is not the id of any statement already in the policy |
| `LambdaPermissions.GrantedStatementMatches` | src/scheduled-tasks-service.ts:133-139 | the statement recorded for the extension's own request is matched by a lookup with the same principal and source ARN |
| `LambdaPermissions.ChangedSourceArnIsNotFound` | src/scheduled-tasks-service.ts:95-97 | a grant made for one source ARN is not matched by a lookup with another truthy source ARN |
| `LambdaPermissions.ChangedSourceArnAddsSecondGrant` | src/scheduled-tasks-service.ts:149-157 | when the policy holds only the grant for the old source ARN, a get-or-create for a new truthy source ARN issues one `addPermission`; the policy then holds two statements, the stale grant first and the new grant, scoped to the new ARN, second; the new grant is returned |
| `LambdaPermissions.AddLambdaPermission` | src/scheduled-tasks-service.ts:132-147 | exactly one `addPermission` is issued, with action `lambda:InvokeFunction`, the given function, principal and source ARN, and a fresh statement id; on success the policy gains exactly that statement and the result is a fresh lookup, which is a matching statement when `getPolicy` has no fault |
| `LambdaPermissions.AddLambdaPermissionIfNotExists` | src/scheduled-tasks-service.ts:149-157 | an existing match is returned and the API is left unchanged; a lookup error is returned with nothing changed; with no match, exactly one grant request is issued and the lookup after it is returned; with no faults on an existing function the result is a matching statement |
| `LambdaPermissions.FirstMatchAppendKeeps` | src/scheduled-tasks-service.ts:149-157 | appending a statement to a policy that already has a match does not change the match found |
| `LambdaPermissions.FirstMatchAppendNew` | src/scheduled-tasks-service.ts:151-152 | appending a matching statement to a policy without a match makes that statement the match found |
| `LambdaPermissions.AddLambdaPermissionTwice` | src/scheduled-tasks-service.ts:149-157 | two calls with the same arguments: once the first returns a grant, the second returns the same grant and the pair issued at most one `addPermission`; with no faults on an existing function the first call does return a grant |
| `ScheduledTasksService.ProducePermissionTarget` | src/scheduled-tasks-service.ts:159-169 | fails with the "both ... must return event outputs" error when either deploy context lacks event outputs, and with the "expected to get function name" error when this service's resource name is falsy; otherwise the grant goes to this function, for the producer's principal and resource ARN |
| `ScheduledTasksService.AddProducePermissions` | src/scheduled-tasks-service.ts:159-173 | a failed validation returns its error with the policy API untouched; after validation, a lookup error comes back unchanged with nothing changed, an existing grant gives success with nothing changed, and with no match exactly one grant request for the target is issued, the policy gains that statement when the grant succeeds, and the result fails exactly when the lookup after the grant fails (with its error); a grant fault or an unknown function gives a failure; with no faults on an existing function a matching grant is in place afterwards |
| `ScheduledTasksService.Check` | src/scheduled-tasks-service.ts:190-199 | a falsy `schedule` gives exactly one error, which contains `'schedule' parameter is required`; otherwise no errors |
| `ScheduledTasksService.GetImageName` | src/scheduled-tasks-service.ts:269-285 | with no image name the default is `<account>.dkr.ecr.<region>.amazonaws.com/<app>-<service>:<env>`; a name starting with `<account>` becomes the registry host followed by the name without its first 9 characters; any other name is returned verbatim |
| `ScheduledTasksService.ShorthandExpandsToAccountRegistry` | src/scheduled-tasks-service.ts:274-277 | `"<account>" + rest` resolves to the account's registry host followed by `rest` |
| `ScheduledTasksService.ResolvedImageNameIsStable` | src/scheduled-tasks-service.ts:272-284 | resolving an already resolved image name returns it unchanged, so a result never carries the shorthand again |
| `ScheduledTasksService.TemplateParameters` | src/scheduled-tasks-service.ts:251-265 | CPU and memory keep a truthy value and otherwise default to 256 and 512; the working directory defaults to `/mnt/share/task-workdir`; the subnet is the first private subnet, if any; with no pre-deploy security group, reading its `GroupId` fails |
| `ScheduledTasksService.TemplateDefaults` | src/scheduled-tasks-service.ts:258-264 | with CPU, memory and working directory each missing or falsy, the template gets cpu 256, memory 512 and the shared work directory |
| `ScheduledTasksService.TemplateParametersStable` | src/scheduled-tasks-service.ts:258-264 | the defaulting is idempotent: configuring the CPU, memory and working directory the template received yields the same template |
| `ScheduledTasksService.DeployContext.AddEnvironmentVariables` | src/scheduled-tasks-service.ts:74-77 | adds or overwrites the given variables and changes nothing else |
| `ScheduledTasksService.GetDeployContext` | src/scheduled-tasks-service.ts:53-88 | fails exactly when the `FunctionArn` or `FunctionName` output is missing or empty; otherwise returns a new deploy context with one Allow policy for `lambda:InvokeFunction` and `lambda:InvokeAsync` on the ARN, the variables `FUNCTION_ARN` and `FUNCTION_NAME`, and event outputs with principal `lambda.amazonaws.com` |
| `EcsCalls.ClusterFromResponse` | src/ecs-calls.ts:25-30 | nothing when the response's `clusters` is missing or empty; otherwise `clusters[0]` |
| `EcsCalls.EcsApi.DescribeClusters` | src/aws-wrapper.ts:29-32 | a describe of one name lists that cluster when it exists and an empty list otherwise |
| `EcsCalls.EcsApi.CreateCluster` | src/aws-wrapper.ts:33-36 | each call is counted; unless it fails, a cluster named `default` exists afterwards |
| `EcsCalls.GetCluster` | src/ecs-calls.ts:20-31 | the named cluster if it exists, nothing otherwise; describe errors come back unchanged |
| `EcsCalls.CreateDefaultClusterIfNotExists` | src/ecs-calls.ts:33-47 | looks up `default`; if it exists, returns it with registry and create count unchanged; otherwise issues exactly one create and returns the new cluster, or nothing when the response has no `cluster`; describe and create errors come back unchanged |
| `EcsCalls.CreateDefaultClusterTwice` | src/ecs-calls.ts:33-47 | once a call succeeds, `default` exists, so a second call creates nothing and returns that cluster: the pair issues at most one create |
| `InvokerLambda.SubnetFromResponse` | src/invoker-lambda/index.ts:25-39 | `Subnets[0]` when the list is present and non-empty, nothing when it is missing or empty, nothing for an `InvalidSubnetID.NotFound` error, and any other error unchanged |
| `InvokerLambda.InvokerCloud.DescribeSubnets` | src/invoker-lambda/index.ts:26 | describing an existing subnet lists it; an unknown id fails with `InvalidSubnetID.NotFound` |
| `InvokerLambda.GetSubnet` | src/invoker-lambda/index.ts:19-40 | without a provider fault, the subnet if it exists and nothing otherwise; a fault is passed on unless its code is the not-found code |
| `InvokerLambda.ShouldAssignPublicIp` | src/invoker-lambda/index.ts:42-51 | a missing subnet gives the invoker's own error, which names the subnet id and says it "could not be found"; otherwise the result is true exactly when `MapPublicIpOnLaunch` is true (false or absent gives false); lookup errors are passed on |
| `InvokerLambda.VpcConfiguration` | src/invoker-lambda/index.ts:53-62 | `subnets = [subnet]` and `securityGroups = [securityGroup]`; `assignPublicIp` is `ENABLED` exactly when the flag is true and `DISABLED` otherwise; it fails exactly when the public-address decision fails |
| `InvokerLambda.PlacementFromSubnets` | src/invoker-lambda/index.ts:42-62 | against the account's subnets: an unknown subnet gives the not-found error, and a known one gives a placement that is public exactly when the subnet maps public addresses on launch |
| `InvokerLambda.InvokerCloud.RunTask` | src/invoker-lambda/index.ts:81 | each call is logged; unless it fails, the requested task is appended to the started tasks |
| `InvokerLambda.Handler` | src/invoker-lambda/index.ts:67-93 | if the placement fails, that error is returned and nothing changes; otherwise exactly one `runTask` is issued with `count = 1`, `launchType = 'FARGATE'`, the configured task definition and that placement; the result is `Finished`, or the `runTask` error unchanged |
| `InvokerLambda.HandlerWithMissingSubnet` | src/invoker-lambda/index.ts:78 | a subnet that does not exist stops the launch with the not-found error, and no task is requested |
| `InvokerLambda.HandlerTwice` | src/invoker-lambda/index.ts:72-84 | two firings start two tasks, each one Fargate task of the configured definition: the handler is not idempotent |

## Left out

- Logging (the winston level and every `console.log`/`console.error`): only text goes out, and nothing is decided on it.
- `src/aws-wrapper.ts` and the SDK clients: they are replaced by the three state classes above. A provider failure is a fault field that the call reports while it is set. The model does not capture transient failures that come and go between two calls, or eventual consistency between a grant and the lookup after it.
- `JSON.parse` of the policy document: the policy is already a sequence of parsed statements. A statement without a `Principal` would make the source throw a `TypeError`, and this is not modelled.
- `uuid()`: it is any id not yet used in the target policy. The UUID algorithm itself is not modelled.
- Upload, templating and stack deployment (`uploadInvokerLambdaCode`, the template compilation, `deployCloudFormationStack`, `tagging.getTags`, `getAllPolicyStatementsForServiceRole`, `getEnvVarsForDeployedService`), `preDeploy`, `unDeploy`, `unPreDeploy` and the sequencing in `deploy`: all are calls into a support library that is not part of this model. For the same reason `TemplateParameters` leaves out the template fields those calls compute.
- `consumeEvents`: it repeats the producer check of `addProducePermissions` under a different message and then calls it. It is not modelled separately.
- `check`'s list of dependency contexts: the source never reads it.
- The `DeployContext` class of handel-extension-api is not part of this model. It is modelled with the three fields the extension writes, and `addEnvironmentVariables` is a map merge.
- The `runTask` response, including any `failures` it lists: the handler ignores it and returns `Finished` whenever the call itself succeeds.
- Promises, async ordering, and races between concurrent deploys: the code coordinates nothing itself.
- The unused `functionName` parameter of `statementIsSame`: the source never reads it.
- Non-service principals: a statement's principal is modelled only as `Principal.Service`, and `GrantedStatement` records every grant there. Lambda records an account principal under `Principal.AWS`, which `statementIsSame` never matches; the model does not capture that a grant to an account principal is never found again.
