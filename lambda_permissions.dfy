/** The permission get-or-create of the scheduled-tasks service: find a statement in the
    invoker function's resource policy that grants a principal (scoped to a source ARN)
    the right to invoke it, and add one with a fresh statement id when there is none. */
module LambdaPermissions {
  import opened Wrappers
  import opened Errors
  import opened Strings

  /** The condition key under which a statement restricts the calling resource. */
  const SourceArnKey: string := "AWS:SourceArn"
  /** The only action the extension ever grants. */
  const InvokeFunctionAction: string := "lambda:InvokeFunction"

  /** The `Condition` block of a policy statement; only its `ArnLike` operator is read. */
  datatype Condition = Condition(arnLike: Option<map<string, string>>)

  /** One statement of a function's resource policy, already parsed from the policy document.
      `principalService` is `Principal.Service`, absent for a non-service principal. */
  datatype Statement = Statement(
    sid: string,
    effect: string,
    action: string,
    principalService: Option<string>,
    condition: Option<Condition>)

  /** The parameters of one Lambda `addPermission` call. */
  datatype AddPermissionRequest = AddPermissionRequest(
    action: string,
    functionName: string,
    principal: string,
    sourceArn: Option<string>,
    statementId: string)

  /** `statement.Condition.ArnLike['AWS:SourceArn']`, absent when any step of the path is. */
  function ConditionSourceArn(st: Statement): Option<string> {
    if st.condition.Some? && st.condition.value.arnLike.Some? && SourceArnKey in st.condition.value.arnLike.value
    then Some(st.condition.value.arnLike.value[SourceArnKey])
    else None
  }

  /** Whether `st` is the grant being looked for. The principal must always agree; the source
      ARN is compared only when the caller gives a truthy one. */
  function StatementIsSame(principal: string, sourceArn: Option<string>, st: Statement): (same: bool)
    ensures st.principalService != Some(principal) ==> !same
    ensures Truthy(sourceArn) ==>
      (same <==> st.principalService == Some(principal) && ConditionSourceArn(st) == sourceArn)
    ensures !Truthy(sourceArn) ==> (same <==> st.principalService == Some(principal))
  {
    if st.principalService != Some(principal) then
      false
    else if Truthy(sourceArn)
      && (st.condition.None?
          || st.condition.value.arnLike.None?
          || SourceArnKey !in st.condition.value.arnLike.value
          || st.condition.value.arnLike.value[SourceArnKey] != sourceArn.value) then
      false
    else
      true
  }

  /** The first statement of `stmts`, in policy order, that is the grant being looked for. */
  function FirstMatch(stmts: seq<Statement>, principal: string, sourceArn: Option<string>): Option<Statement> {
    if |stmts| == 0 then None
    else if StatementIsSame(principal, sourceArn, stmts[0]) then Some(stmts[0])
    else FirstMatch(stmts[1..], principal, sourceArn)
  }

  /** `stmts[i]` matches and no statement before it does. */
  predicate IsFirstMatchAt(stmts: seq<Statement>, principal: string, sourceArn: Option<string>, i: int) {
    && 0 <= i < |stmts|
    && StatementIsSame(principal, sourceArn, stmts[i])
    && forall j :: 0 <= j < i ==> !StatementIsSame(principal, sourceArn, stmts[j])
  }

  /** FirstMatch finds the earliest matching statement, and finds nothing exactly when no
      statement matches. */
  lemma {:induction false} FirstMatchIsFirst(stmts: seq<Statement>, principal: string, sourceArn: Option<string>)
    ensures FirstMatch(stmts, principal, sourceArn).Some? ==>
      exists i :: IsFirstMatchAt(stmts, principal, sourceArn, i) && stmts[i] == FirstMatch(stmts, principal, sourceArn).value
    ensures FirstMatch(stmts, principal, sourceArn).None? <==>
      forall i :: 0 <= i < |stmts| ==> !StatementIsSame(principal, sourceArn, stmts[i])
  {
    if |stmts| > 0 {
      if StatementIsSame(principal, sourceArn, stmts[0]) {
        assert IsFirstMatchAt(stmts, principal, sourceArn, 0);
      } else {
        var tail := stmts[1..];
        FirstMatchIsFirst(tail, principal, sourceArn);
        if FirstMatch(tail, principal, sourceArn).Some? {
          var k :| IsFirstMatchAt(tail, principal, sourceArn, k) && tail[k] == FirstMatch(tail, principal, sourceArn).value;
          assert IsFirstMatchAt(stmts, principal, sourceArn, k + 1);
        } else {
          forall i | 0 <= i < |stmts| ensures !StatementIsSame(principal, sourceArn, stmts[i]) {
            if i > 0 { assert stmts[i] == tail[i - 1]; }
          }
        }
      }
    }
  }

  /** Appending a statement never changes a match that the policy already had. */
  lemma {:induction false} FirstMatchAppendKeeps(stmts: seq<Statement>, st: Statement, principal: string, sourceArn: Option<string>)
    requires FirstMatch(stmts, principal, sourceArn).Some?
    ensures FirstMatch(stmts + [st], principal, sourceArn) == FirstMatch(stmts, principal, sourceArn)
  {
    if !StatementIsSame(principal, sourceArn, stmts[0]) {
      assert (stmts + [st])[1..] == stmts[1..] + [st];
      FirstMatchAppendKeeps(stmts[1..], st, principal, sourceArn);
    }
  }

  /** When the policy had no match, the appended statement becomes the match if it matches. */
  lemma {:induction false} FirstMatchAppendNew(stmts: seq<Statement>, st: Statement, principal: string, sourceArn: Option<string>)
    requires FirstMatch(stmts, principal, sourceArn).None?
    requires StatementIsSame(principal, sourceArn, st)
    ensures FirstMatch(stmts + [st], principal, sourceArn) == Some(st)
  {
    if |stmts| == 0 {
      assert stmts + [st] == [st];
    } else {
      assert (stmts + [st])[1..] == stmts[1..] + [st];
      FirstMatchAppendNew(stmts[1..], st, principal, sourceArn);
    }
  }

  /** The statement ids already used in a policy. */
  function Sids(stmts: seq<Statement>): set<string> {
    set i | 0 <= i < |stmts| :: stmts[i].sid
  }

  /** The length of the longest statement id in a policy. */
  function MaxSidLength(stmts: seq<Statement>): nat {
    if |stmts| == 0 then 0
    else
      var rest := MaxSidLength(stmts[1..]);
      if |stmts[0].sid| > rest then |stmts[0].sid| else rest
  }

  lemma {:induction false} MaxSidLengthBounds(stmts: seq<Statement>)
    ensures forall i :: 0 <= i < |stmts| ==> |stmts[i].sid| <= MaxSidLength(stmts)
  {
    if |stmts| > 0 {
      MaxSidLengthBounds(stmts[1..]);
      forall i | 0 < i < |stmts| ensures |stmts[i].sid| <= MaxSidLength(stmts) {
        assert stmts[i] == stmts[1..][i - 1];
      }
    }
  }

  /** `uuid()`: an id that no statement of the policy uses yet. Which one is left open. */
  method NewStatementId(stmts: seq<Statement>) returns (id: string)
    ensures id !in Sids(stmts)
  {
    MaxSidLengthBounds(stmts);
    var longer := seq(MaxSidLength(stmts) + 1, _ => 'u');
    assert longer !in Sids(stmts);
    id :| id !in Sids(stmts);
  }

  /** The statement Lambda records for an `addPermission` request: an Allow of the action for
      the service principal, with an `ArnLike` source restriction when a source ARN is given. */
  function GrantedStatement(req: AddPermissionRequest): Statement {
    Statement(
      req.statementId, "Allow", req.action, Some(req.principal),
      if req.sourceArn.Some? then Some(Condition(Some(map[SourceArnKey := req.sourceArn.value]))) else None)
  }

  /** The statement recorded for a request is found by a lookup with the same principal and
      source ARN, whatever that source ARN is. */
  lemma GrantedStatementMatches(req: AddPermissionRequest)
    ensures StatementIsSame(req.principal, req.sourceArn, GrantedStatement(req))
  {
  }

  /** Stale grants accumulate: a grant made for one source ARN is not
      found when the principal is looked up with a different (truthy) source ARN. */
  lemma ChangedSourceArnIsNotFound(req: AddPermissionRequest, otherArn: string)
    requires req.sourceArn.Some? && otherArn != "" && otherArn != req.sourceArn.value
    ensures !StatementIsSame(req.principal, Some(otherArn), GrantedStatement(req))
  {
  }

  /** A request is the grant `addLambdaPermission` issues for (functionName, principal,
      sourceArn): the invoke action and an id unused in the policy the grant goes into. */
  predicate IsGrantRequest(req: AddPermissionRequest, functionName: string, principal: string,
                           sourceArn: Option<string>, existing: seq<Statement>) {
    && req.action == InvokeFunctionAction
    && req.functionName == functionName
    && req.principal == principal
    && req.sourceArn == sourceArn
    && req.statementId !in Sids(existing)
  }

  /** The Lambda function-policy API of one account. */
  class LambdaApi {
    /** Per existing function, the statements of its resource policy; `None` when the
        function has no policy yet. A name outside the map is not a function. */
    var policies: map<string, Option<seq<Statement>>>
    /** A provider failure (throttling, access denied, ...) that `getPolicy` reports while set. */
    var getPolicyFault: Option<Error>
    /** A provider failure that `addPermission` reports while set. */
    var addPermissionFault: Option<Error>
    /** Every `addPermission` request issued so far, in order. */
    var addPermissionRequests: seq<AddPermissionRequest>

    constructor (policies: map<string, Option<seq<Statement>>>, getPolicyFault: Option<Error>, addPermissionFault: Option<Error>)
      ensures this.policies == policies && this.getPolicyFault == getPolicyFault
      ensures this.addPermissionFault == addPermissionFault && addPermissionRequests == []
    {
      this.policies := policies;
      this.getPolicyFault := getPolicyFault;
      this.addPermissionFault := addPermissionFault;
      addPermissionRequests := [];
    }

    /** The statements of a function's policy; none when it has no policy. */
    function Statements(functionName: string): seq<Statement>
      reads this
    {
      if functionName in policies && policies[functionName].Some? then policies[functionName].value else []
    }

    /** `getPolicy`: the policy's statements, or `ResourceNotFoundException` when the function
        or its policy does not exist. */
    function GetPolicy(functionName: string): (r: Result<seq<Statement>, Error>)
      reads this
      ensures getPolicyFault.None? ==>
        (r.Success? <==> functionName in policies && policies[functionName].Some?)
      ensures r.Success? ==> r.value == Statements(functionName)
    {
      if getPolicyFault.Some? then Failure(getPolicyFault.value)
      else if functionName in policies && policies[functionName].Some? then Success(policies[functionName].value)
      else Failure(ApiError(ResourceNotFound, "The resource you requested does not exist."))
    }

    /** `addPermission`: records the request and, when the function exists and the statement
        id is unused, appends the granted statement to the function's policy (creating it). */
    method AddPermission(req: AddPermissionRequest) returns (r: Result<(), Error>)
      modifies this
      ensures addPermissionRequests == old(addPermissionRequests) + [req]
      ensures getPolicyFault == old(getPolicyFault) && addPermissionFault == old(addPermissionFault)
      ensures old(addPermissionFault).Some? ==> r == Failure(old(addPermissionFault).value)
      ensures old(addPermissionFault).None? && req.functionName !in old(policies) ==>
        r.Failure? && r.error.Code() == ResourceNotFound
      ensures old(addPermissionFault).None? && req.functionName in old(policies)
              && req.statementId in Sids(old(Statements(req.functionName))) ==>
        r.Failure? && r.error.Code() == ResourceConflict
      ensures r.Failure? ==> policies == old(policies)
      ensures r.Success? <==>
        old(addPermissionFault).None? && req.functionName in old(policies)
        && req.statementId !in Sids(old(Statements(req.functionName)))
      ensures r.Success? ==>
        policies == old(policies)[req.functionName := Some(old(Statements(req.functionName)) + [GrantedStatement(req)])]
    {
      addPermissionRequests := addPermissionRequests + [req];
      if addPermissionFault.Some? {
        r := Failure(addPermissionFault.value);
      } else if req.functionName !in policies {
        r := Failure(ApiError(ResourceNotFound, "Function not found: " + req.functionName));
      } else if req.statementId in Sids(Statements(req.functionName)) {
        r := Failure(ApiError(ResourceConflict, "The statement id provided already exists."));
      } else {
        policies := policies[req.functionName := Some(Statements(req.functionName) + [GrantedStatement(req)])];
        r := Success(());
      }
    }
  }

  /** What `getLambdaPermission` yields against the API's current state: the first matching
      statement, nothing when the policy is missing, or the provider's other errors. */
  function PermissionLookup(api: LambdaApi, functionName: string, principal: string, sourceArn: Option<string>): Result<Option<Statement>, Error>
    reads api
  {
    match api.GetPolicy(functionName)
    case Success(stmts) => Success(FirstMatch(stmts, principal, sourceArn))
    case Failure(err) => if err.Code() == ResourceNotFound then Success(None) else Failure(err)
  }

  /** The scan of the policy's statements, returning at the first match. */
  method FindPermission(stmts: seq<Statement>, principal: string, sourceArn: Option<string>) returns (found: Option<Statement>)
    ensures found == FirstMatch(stmts, principal, sourceArn)
  {
    var i := 0;
    while i < |stmts|
      invariant 0 <= i <= |stmts|
      invariant FirstMatch(stmts[i..], principal, sourceArn) == FirstMatch(stmts, principal, sourceArn)
    {
      if StatementIsSame(principal, sourceArn, stmts[i]) {
        return Some(stmts[i]);
      }
      assert stmts[i..][1..] == stmts[i + 1..];
      i := i + 1;
    }
    return None;
  }

  /** `getLambdaPermission`: the first statement of the function's policy that grants the
      principal for the source ARN. A missing function or policy is "no grant"; every other
      provider error is passed on unchanged. */
  method GetLambdaPermission(api: LambdaApi, functionName: string, principal: string, sourceArn: Option<string>)
    returns (r: Result<Option<Statement>, Error>)
    ensures r == PermissionLookup(api, functionName, principal, sourceArn)
    ensures api.getPolicyFault.None? ==> r == Success(FirstMatch(api.Statements(functionName), principal, sourceArn))
    ensures api.getPolicyFault.Some? ==>
      r == if api.getPolicyFault.value.Code() == ResourceNotFound then Success(None) else Failure(api.getPolicyFault.value)
  {
    var response := api.GetPolicy(functionName);
    match response
    case Failure(err) =>
      if err.Code() == ResourceNotFound {
        r := Success(None);
      } else {
        r := Failure(err);
      }
    case Success(stmts) =>
      var found := FindPermission(stmts, principal, sourceArn);
      r := Success(found);
  }

  /** `addLambdaPermission`: issues exactly one `addPermission` with the invoke action, the
      principal, the source ARN and a fresh statement id, then returns a fresh lookup. */
  method AddLambdaPermission(api: LambdaApi, functionName: string, principal: string, sourceArn: Option<string>)
    returns (r: Result<Option<Statement>, Error>)
    modifies api
    ensures |api.addPermissionRequests| == |old(api.addPermissionRequests)| + 1
    ensures api.addPermissionRequests[..|old(api.addPermissionRequests)|] == old(api.addPermissionRequests)
    ensures IsGrantRequest(api.addPermissionRequests[|old(api.addPermissionRequests)|],
                           functionName, principal, sourceArn, old(api.Statements(functionName)))
    ensures api.getPolicyFault == old(api.getPolicyFault) && api.addPermissionFault == old(api.addPermissionFault)
    ensures old(api.addPermissionFault).Some? ==>
      r == Failure(old(api.addPermissionFault).value) && api.policies == old(api.policies)
    ensures old(api.addPermissionFault).None? && functionName !in old(api.policies) ==>
      r.Failure? && r.error.Code() == ResourceNotFound && api.policies == old(api.policies)
    ensures old(api.addPermissionFault).None? && functionName in old(api.policies) ==>
      && api.policies == old(api.policies)[functionName := Some(old(api.Statements(functionName))
           + [GrantedStatement(api.addPermissionRequests[|old(api.addPermissionRequests)|])])]
      && r == PermissionLookup(api, functionName, principal, sourceArn)
    ensures old(api.addPermissionFault).None? && functionName in old(api.policies) && api.getPolicyFault.None? ==>
      r.Success? && r.value.Some? && StatementIsSame(principal, sourceArn, r.value.value)
  {
    var sid := NewStatementId(api.Statements(functionName));
    var request := AddPermissionRequest(InvokeFunctionAction, functionName, principal, sourceArn, sid);
    var added := api.AddPermission(request);
    if added.Failure? {
      return Failure(added.error);
    }
    r := GetLambdaPermission(api, functionName, principal, sourceArn);
    if api.getPolicyFault.None? {
      var policy := old(api.Statements(functionName));
      var granted := GrantedStatement(request);
      assert api.Statements(functionName) == policy + [granted];
      GrantedStatementMatches(request);
      FirstMatchIsFirst(policy + [granted], principal, sourceArn);
      assert StatementIsSame(principal, sourceArn, (policy + [granted])[|policy|]);
    }
  }

  /** `addLambdaPermissionIfNotExists`: returns the existing grant without touching the policy,
      and otherwise adds one grant and returns it. Lookup errors are passed on. */
  method AddLambdaPermissionIfNotExists(api: LambdaApi, functionName: string, principal: string, sourceArn: Option<string>)
    returns (r: Result<Option<Statement>, Error>)
    modifies api
    ensures old(PermissionLookup(api, functionName, principal, sourceArn)).Failure? ==>
      r == old(PermissionLookup(api, functionName, principal, sourceArn)) && unchanged(api)
    ensures old(PermissionLookup(api, functionName, principal, sourceArn)).Success?
            && old(PermissionLookup(api, functionName, principal, sourceArn)).value.Some? ==>
      r == old(PermissionLookup(api, functionName, principal, sourceArn)) && unchanged(api)
    ensures old(PermissionLookup(api, functionName, principal, sourceArn)) != Success(None) ==>
      api.addPermissionRequests == old(api.addPermissionRequests)
    ensures old(PermissionLookup(api, functionName, principal, sourceArn)) == Success(None) ==>
      && |api.addPermissionRequests| == |old(api.addPermissionRequests)| + 1
      && api.addPermissionRequests[..|old(api.addPermissionRequests)|] == old(api.addPermissionRequests)
      && IsGrantRequest(api.addPermissionRequests[|old(api.addPermissionRequests)|],
                        functionName, principal, sourceArn, old(api.Statements(functionName)))
    ensures api.getPolicyFault == old(api.getPolicyFault) && api.addPermissionFault == old(api.addPermissionFault)
    ensures old(PermissionLookup(api, functionName, principal, sourceArn)) == Success(None)
            && old(api.addPermissionFault).None? && functionName in old(api.policies) ==>
      && api.policies == old(api.policies)[functionName := Some(old(api.Statements(functionName))
           + [GrantedStatement(api.addPermissionRequests[|old(api.addPermissionRequests)|])])]
      && r == PermissionLookup(api, functionName, principal, sourceArn)
    ensures old(PermissionLookup(api, functionName, principal, sourceArn)) == Success(None)
            && (old(api.addPermissionFault).Some? || functionName !in old(api.policies)) ==>
      r.Failure? && api.policies == old(api.policies)
    ensures old(api.getPolicyFault).None? && old(api.addPermissionFault).None? && functionName in old(api.policies) ==>
      r.Success? && r.value.Some? && StatementIsSame(principal, sourceArn, r.value.value)
  {
    var permission := GetLambdaPermission(api, functionName, principal, sourceArn);
    if permission.Failure? {
      return permission;
    }
    if permission.value.None? {
      r := AddLambdaPermission(api, functionName, principal, sourceArn);
    } else {
      r := permission;
      FirstMatchIsFirst(api.Statements(functionName), principal, sourceArn);
    }
  }

  /** Two consecutive `addLambdaPermissionIfNotExists` calls with the same arguments: once the
      first returns a grant, the second returns the same grant and issues no `addPermission`,
      so the pair issues at most one. */
  method AddLambdaPermissionTwice(api: LambdaApi, functionName: string, principal: string, sourceArn: Option<string>)
    returns (first: Result<Option<Statement>, Error>, second: Result<Option<Statement>, Error>)
    modifies api
    ensures first.Success? && first.value.Some? ==>
      && second == first
      && |api.addPermissionRequests| <= |old(api.addPermissionRequests)| + 1
    ensures old(api.getPolicyFault).None? && old(api.addPermissionFault).None? && functionName in old(api.policies) ==>
      first.Success? && first.value.Some? && StatementIsSame(principal, sourceArn, first.value.value)
  {
    first := AddLambdaPermissionIfNotExists(api, functionName, principal, sourceArn);
    ghost var between := |api.addPermissionRequests|;
    second := AddLambdaPermissionIfNotExists(api, functionName, principal, sourceArn);
  }

  /** A producer whose resource ARN changed: the policy holds the grant for the old ARN, the
      lookup for the new ARN does not find it, so a second statement is appended and returned,
      and the stale grant stays first in the policy. */
  method ChangedSourceArnAddsSecondGrant(api: LambdaApi, functionName: string, req: AddPermissionRequest, otherArn: string)
    returns (r: Result<Option<Statement>, Error>)
    requires api.getPolicyFault.None? && api.addPermissionFault.None?
    requires functionName in api.policies && api.policies[functionName] == Some([GrantedStatement(req)])
    requires req.sourceArn.Some? && otherArn != "" && otherArn != req.sourceArn.value
    modifies api
    ensures |api.addPermissionRequests| == |old(api.addPermissionRequests)| + 1
    ensures functionName in api.policies && api.policies[functionName].Some?
    ensures |api.Statements(functionName)| == 2
    ensures api.Statements(functionName)[0] == GrantedStatement(req)
    ensures api.Statements(functionName)[1] == GrantedStatement(api.addPermissionRequests[|old(api.addPermissionRequests)|])
    ensures ConditionSourceArn(api.Statements(functionName)[1]) == Some(otherArn)
    ensures r == Success(Some(api.Statements(functionName)[1]))
  {
    var stale := GrantedStatement(req);
    ChangedSourceArnIsNotFound(req, otherArn);
    assert [stale][1..] == [];
    assert FirstMatch([stale], req.principal, Some(otherArn)) == None;
    assert PermissionLookup(api, functionName, req.principal, Some(otherArn)) == Success(None);
    r := AddLambdaPermissionIfNotExists(api, functionName, req.principal, Some(otherArn));
    var added := GrantedStatement(api.addPermissionRequests[|old(api.addPermissionRequests)|]);
    assert api.Statements(functionName) == [stale, added];
    assert [stale, added][1..] == [added];
    GrantedStatementMatches(api.addPermissionRequests[|old(api.addPermissionRequests)|]);
    assert FirstMatch([stale, added], req.principal, Some(otherArn)) == Some(added);
  }
}
