/**
 * The DynamoDB table batchlet: deletes, creates, updates or truncates one table, depending on
 * its `action` property and on whether the table exists.
 *
 * The DynamoDB service is a small class holding whether the table exists, how many items it
 * holds, its ARN, and the log of requests sent to it; waiting for a table is one logged request.
 */
module DynamoDbBatchlet {
  import opened Wrappers
  import opened JavaLang
  import opened Sequences

  datatype Action = DELETE | CREATE | UPDATE | TRUNCATE

  /** The enum constant's name. */
  function Name(a: Action): string
  {
    match a
    case DELETE => "DELETE"
    case CREATE => "CREATE"
    case UPDATE => "UPDATE"
    case TRUNCATE => "TRUNCATE"
  }

  /** `Action.valueOf(name)`: the constant with exactly that name, if there is one. */
  function ValueOf(name: string): (r: Option<Action>)
  {
    if name == "DELETE" then Some(DELETE)
    else if name == "CREATE" then Some(CREATE)
    else if name == "UPDATE" then Some(UPDATE)
    else if name == "TRUNCATE" then Some(TRUNCATE)
    else None
  }

  /** `valueOf` finds a constant exactly by its name. */
  lemma ValueOfName(name: string, a: Action)
    ensures ValueOf(name) == Some(a) <==> name == Name(a)
  {
    assert "DELETE"[0] != "CREATE"[0] && "DELETE"[0] != "UPDATE"[0] && "CREATE"[0] != "UPDATE"[0];
  }

  /** The action a property value names, whatever the case of its ASCII letters. */
  function ActionOf(action: string): Option<Action>
  {
    ValueOf(ToUpperCase(action))
  }

  /** Matching ignores case: "truncate", "Create" and "DELETE" all name their action. */
  lemma ActionOfExamples()
    ensures ActionOf("truncate") == Some(TRUNCATE)
    ensures ActionOf("Create") == Some(CREATE)
    ensures ActionOf("DELETE") == Some(DELETE)
    ensures ActionOf("upDate") == Some(UPDATE)
    ensures ActionOf("drop") == None
  {
    assert ToUpperCase("truncate") == "TRUNCATE";
    assert ToUpperCase("Create") == "CREATE";
    assert ToUpperCase("DELETE") == "DELETE";
    assert ToUpperCase("upDate") == "UPDATE";
    assert ToUpperCase("drop") == "DROP";
  }

  /** An action matches exactly the texts whose upper-case form is its name. */
  lemma ActionOfIgnoresCase(action: string, a: Action)
    ensures ActionOf(action) == Some(a) <==> ToUpperCase(action) == Name(a)
    ensures ActionOf(ToUpperCase(action)) == ActionOf(action)
  {
    ValueOfName(ToUpperCase(action), a);
    assert ToUpperCase(ToUpperCase(action)) == ToUpperCase(action);
  }

  /** The message of the `IllegalArgumentException` that `Action.valueOf` throws. */
  function NoEnumConstant(name: string): string
  {
    "No enum constant org.jberet.support.io.DynamoDbTableBatchlet.Action." + name
  }

  /** What the `action` property asks for: nothing when unset or empty, otherwise the action
      it names or an unknown name. */
  datatype Request = NoAction | Unknown(upper: string) | Run(action: Action)

  function RequestOf(action: Option<string>): (r: Request)
    ensures r.NoAction? <==> action.None? || action.value == []
    ensures r.Run? <==> action.Some? && action.value != [] && ActionOf(action.value).Some?
    ensures r.Run? ==> ActionOf(action.value) == Some(r.action)
    ensures r.Unknown? ==> r.upper == ToUpperCase(action.value)
  {
    if action.None? || action.value == [] then NoAction
    else match ActionOf(action.value)
      case None => Unknown(ToUpperCase(action.value))
      case Some(a) => Run(a)
  }

  // ---------------------------------------------------------------------------
  // Requests to the service

  datatype ProjectionType = ALL

  /** An `EnhancedGlobalSecondaryIndex`: its name and its projection. */
  datatype GlobalSecondaryIndex = GlobalSecondaryIndex(indexName: string, projection: ProjectionType)

  datatype ProvisionedThroughput = ProvisionedThroughput(writeCapacityUnits: int, readCapacityUnits: int)

  datatype CreateRequest = CreateRequest(
    globalSecondaryIndices: Option<seq<GlobalSecondaryIndex>>,
    provisionedThroughput: Option<ProvisionedThroughput>)

  datatype SseType = KMS

  datatype SseSpecification = SseSpecification(enabled: bool, sseType: SseType, kmsMasterKeyId: string)

  /** One request sent to DynamoDB, in the order sent. */
  datatype Call =
    | DescribeTable
    | DeleteTable
    | WaitUntilTableNotExists
    | CreateTable(create: CreateRequest)
    | WaitUntilTableExists
    | UpdateTable(sse: SseSpecification)
    | TagResource(resourceArn: string, tags: map<string, string>)
    | UpdateContinuousBackups(pointInTimeRecoveryEnabled: bool)

  /** The batchlet's properties; `None` is an unset (null) property. */
  datatype BatchletConfig = BatchletConfig(
    action: Option<string>,
    dynamoDbLocal: bool,
    writeCapacityUnits: Option<int>,
    readCapacityUnits: Option<int>,
    globalSecondaryIndices: Option<seq<string>>,
    kmsMasterKeyId: Option<string>,
    pointInTimeRecoveryEnabled: Option<bool>,
    tableTags: Option<map<string, string>>)

  /** isValidCapacityUnits: set and positive. */
  predicate IsValidCapacityUnits(units: Option<int>)
  {
    units.Some? && units.value > 0
  }

  /** getEnhancedGlobalSecondaryIndex: the named index, projecting all attributes. */
  function GlobalSecondaryIndexOf(indexName: string): GlobalSecondaryIndex
  {
    GlobalSecondaryIndex(indexName, ALL)
  }

  /** The create request doCreate builds: indexes only when the list is set and not empty,
      throughput only when both capacities are valid. */
  function CreateRequestOf(c: BatchletConfig): (r: CreateRequest)
    ensures r.globalSecondaryIndices.Some? <==> c.globalSecondaryIndices.Some? && c.globalSecondaryIndices.value != []
    ensures r.globalSecondaryIndices.Some? ==>
              && |r.globalSecondaryIndices.value| == |c.globalSecondaryIndices.value|
              && forall i :: 0 <= i < |r.globalSecondaryIndices.value| ==>
                   r.globalSecondaryIndices.value[i] == GlobalSecondaryIndex(c.globalSecondaryIndices.value[i], ALL)
    ensures r.provisionedThroughput.Some? <==>
              IsValidCapacityUnits(c.writeCapacityUnits) && IsValidCapacityUnits(c.readCapacityUnits)
    ensures r.provisionedThroughput.Some? ==>
              r.provisionedThroughput.value
                == ProvisionedThroughput(c.writeCapacityUnits.value, c.readCapacityUnits.value)
  {
    var indices := c.globalSecondaryIndices;
    CreateRequest(
      if indices.Some? && indices.value != [] then
        Some(seq(|indices.value|, i requires 0 <= i < |indices.value| => GlobalSecondaryIndexOf(indices.value[i])))
      else None,
      if IsValidCapacityUnits(c.writeCapacityUnits) && IsValidCapacityUnits(c.readCapacityUnits) then
        Some(ProvisionedThroughput(c.writeCapacityUnits.value, c.readCapacityUnits.value))
      else None)
  }

  /** The requests of doDelete. */
  function DeletePlan(): seq<Call>
  {
    [DeleteTable, WaitUntilTableNotExists]
  }

  /** The requests of doCreate. */
  function CreatePlan(c: BatchletConfig): seq<Call>
  {
    [CreateTable(CreateRequestOf(c)), WaitUntilTableExists]
  }

  predicate EncryptionRequested(c: BatchletConfig)
  {
    c.kmsMasterKeyId.Some? && c.kmsMasterKeyId.value != []
  }

  predicate TaggingRequested(c: BatchletConfig)
  {
    c.tableTags.Some? && |c.tableTags.value| > 0 && !c.dynamoDbLocal
  }

  predicate RecoveryRequested(c: BatchletConfig)
  {
    c.pointInTimeRecoveryEnabled.Some? && !c.dynamoDbLocal
  }

  /** The encryption step of doUpdate: an update asking for KMS encryption with the key. */
  function EncryptionPart(c: BatchletConfig): seq<Call>
  {
    if EncryptionRequested(c) then [UpdateTable(SseSpecification(true, KMS, c.kmsMasterKeyId.value))] else []
  }

  /** The tagging step of doUpdate: a describe for the ARN unless the encryption step gave it,
      then the tags. */
  function TaggingPart(c: BatchletConfig, arn: string): seq<Call>
  {
    if TaggingRequested(c) then
      (if EncryptionRequested(c) then [] else [DescribeTable]) + [TagResource(arn, c.tableTags.value)]
    else []
  }

  /** The point-in-time recovery step of doUpdate. */
  function RecoveryPart(c: BatchletConfig): seq<Call>
  {
    if RecoveryRequested(c) then [UpdateContinuousBackups(true)] else []
  }

  /** The requests of doUpdate, on a table whose ARN is `arn`. */
  function UpdatePlan(c: BatchletConfig, arn: string): seq<Call>
  {
    EncryptionPart(c) + TaggingPart(c, arn) + RecoveryPart(c)
  }

  /** The requests of one action of process(), after the describe that found whether the
      table existed. */
  function ActionPlan(c: BatchletConfig, action: Action, present: bool, arn: string): seq<Call>
  {
    match action
    case DELETE => if present then DeletePlan() else []
    case CREATE => (if present then [] else CreatePlan(c)) + UpdatePlan(c, arn)
    case UPDATE => if present then UpdatePlan(c, arn) else []
    case TRUNCATE => (if present then DeletePlan() else []) + CreatePlan(c) + UpdatePlan(c, arn)
  }

  /** The requests of process() once the action property has been read as `request`. */
  function RequestPlan(c: BatchletConfig, request: Request, present: bool, arn: string): seq<Call>
  {
    match request
    case NoAction => []
    case Unknown(_) => [DescribeTable]
    case Run(action) => [DescribeTable] + ActionPlan(c, action, present, arn)
  }

  /** The requests of process(), given whether the table existed. */
  function ProcessPlan(c: BatchletConfig, present: bool, arn: string): seq<Call>
  {
    RequestPlan(c, RequestOf(c.action), present, arn)
  }

  /** What an action does to the table, from whether it existed and how many items it held:
      DELETE leaves no table, CREATE leaves a table (a new, empty one when there was none),
      UPDATE leaves the table as it was, TRUNCATE leaves a new, empty table. */
  predicate Effect(action: Action, wasPresent: bool, oldCount: nat, present: bool, count: nat)
  {
    match action
    case DELETE => !present
    case CREATE => present && count == (if wasPresent then oldCount else 0)
    case UPDATE => present == wasPresent && count == oldCount
    case TRUNCATE => present && count == 0
  }

  /** How many table creations a sequence of requests holds. */
  function Creations(calls: seq<Call>): nat
  {
    if calls == [] then 0
    else Creations(calls[..|calls| - 1]) + (if calls[|calls| - 1].CreateTable? then 1 else 0)
  }

  lemma {:induction false} CreationsAppend(a: seq<Call>, b: seq<Call>)
    ensures Creations(a + b) == Creations(a) + Creations(b)
    decreases |b|
  {
    if b == [] {
      assert a + b == a;
    } else {
      assert (a + b)[..|a + b| - 1] == a + b[..|b| - 1];
      CreationsAppend(a, b[..|b| - 1]);
    }
  }

  /** The update plan never creates a table. */
  lemma UpdatePlanCreatesNothing(c: BatchletConfig, arn: string)
    ensures Creations(UpdatePlan(c, arn)) == 0
  {
    var sse, tags, pitr := EncryptionPart(c), TaggingPart(c, arn), RecoveryPart(c);
    assert Creations(sse) == 0;
    assert Creations(tags) == 0 by {
      if TaggingRequested(c) {
        var pre: seq<Call> := if EncryptionRequested(c) then [] else [DescribeTable];
        CreationsAppend(pre, [TagResource(arn, c.tableTags.value)]);
      }
    }
    assert Creations(pitr) == 0;
    CreationsAppend(sse, tags);
    CreationsAppend(sse + tags, pitr);
  }

  /** The requests of a CREATE run hold one creation when the table was absent, none when
      it was there. */
  lemma CreateRunCreations(c: BatchletConfig, present: bool, arn: string)
    ensures Creations([DescribeTable] + ActionPlan(c, CREATE, present, arn)) == (if present then 0 else 1)
  {
    var update := UpdatePlan(c, arn);
    var create: seq<Call> := if present then [] else CreatePlan(c);
    assert ActionPlan(c, CREATE, present, arn) == create + update;
    UpdatePlanCreatesNothing(c, arn);
    assert Creations([DescribeTable]) == 0 by {
      assert [DescribeTable][..0] == [];
    }
    assert Creations(create) == (if present then 0 else 1) by {
      if !present {
        var one := [CreateTable(CreateRequestOf(c))];
        assert Creations(one) == 1 by {
          assert one[..0] == [];
        }
        assert create[..1] == one;
      }
    }
    CreationsAppend(create, update);
    CreationsAppend([DescribeTable], create + update);
  }

  /** CREATE creates the table exactly when it is absent; running it twice, the second run
      finds the table and creates nothing, so the two runs hold at most one creation. */
  lemma CreateTwiceCreatesOnce(c: BatchletConfig, present: bool, arn: string)
    requires RequestOf(c.action) == Run(CREATE)
    ensures Creations(ProcessPlan(c, present, arn)) == (if present then 0 else 1)
    ensures Creations(ProcessPlan(c, present, arn) + ProcessPlan(c, true, arn)) == (if present then 0 else 1)
  {
    var first := ProcessPlan(c, present, arn);
    var second := ProcessPlan(c, true, arn);
    assert first == [DescribeTable] + ActionPlan(c, CREATE, present, arn);
    assert second == [DescribeTable] + ActionPlan(c, CREATE, true, arn);
    CreateRunCreations(c, present, arn);
    CreateRunCreations(c, true, arn);
    CreationsAppend(first, second);
  }

  /** Encryption is updated only when a KMS key is configured, and then first, with that key. */
  lemma UpdatePlanEncrypts(c: BatchletConfig, arn: string)
    ensures (exists sse :: UpdateTable(sse) in UpdatePlan(c, arn)) <==> EncryptionRequested(c)
    ensures EncryptionRequested(c) ==>
              UpdatePlan(c, arn)[0] == UpdateTable(SseSpecification(true, KMS, c.kmsMasterKeyId.value))
  {
    var p := UpdatePlan(c, arn);
    assert forall x :: x in p <==> x in EncryptionPart(c) || x in TaggingPart(c, arn) || x in RecoveryPart(c);
    if EncryptionRequested(c) {
      assert p[0] == EncryptionPart(c)[0];
    }
  }

  /** Tags are sent only when configured and not on DynamoDB Local, for the table's ARN and
      with the configured tags; the table is described only when tags need an ARN that the
      encryption step did not give. */
  lemma UpdatePlanTags(c: BatchletConfig, arn: string)
    ensures (exists a, t :: TagResource(a, t) in UpdatePlan(c, arn)) <==> TaggingRequested(c)
    ensures forall a, t :: TagResource(a, t) in UpdatePlan(c, arn) ==> a == arn && Some(t) == c.tableTags
    ensures DescribeTable in UpdatePlan(c, arn) <==> TaggingRequested(c) && !EncryptionRequested(c)
  {
    var p := UpdatePlan(c, arn);
    assert forall x :: x in p <==> x in EncryptionPart(c) || x in TaggingPart(c, arn) || x in RecoveryPart(c);
    if TaggingRequested(c) {
      assert TagResource(arn, c.tableTags.value) in TaggingPart(c, arn);
    }
  }

  /** Point-in-time recovery is requested only when the flag is set and not on DynamoDB Local,
      and always as enabled, whatever the flag's value. */
  lemma UpdatePlanRecovers(c: BatchletConfig, arn: string)
    ensures (exists b :: UpdateContinuousBackups(b) in UpdatePlan(c, arn)) <==> RecoveryRequested(c)
    ensures forall b :: UpdateContinuousBackups(b) in UpdatePlan(c, arn) ==> b
  {
    var p := UpdatePlan(c, arn);
    assert forall x :: x in p <==> x in EncryptionPart(c) || x in TaggingPart(c, arn) || x in RecoveryPart(c);
    if RecoveryRequested(c) {
      assert UpdateContinuousBackups(true) in RecoveryPart(c);
    }
  }

  // ---------------------------------------------------------------------------
  // The service and the batchlet

  class TableService {
    const tableArn: string
    var present: bool
    var itemCount: nat
    var calls: seq<Call>

    /** An absent table holds no items. */
    ghost predicate Valid()
      reads this
    {
      !present ==> itemCount == 0
    }

    constructor (tableArn: string, present: bool, itemCount: nat)
      requires present || itemCount == 0
      ensures Valid()
      ensures this.tableArn == tableArn && this.present == present && this.itemCount == itemCount
      ensures calls == []
    {
      this.tableArn := tableArn;
      this.present := present;
      this.itemCount := itemCount;
      calls := [];
    }

    /** tableExists(table): a describe request, which fails exactly when the table is absent. */
    method TableExists() returns (found: bool)
      modifies this`calls
      ensures found == present
      ensures calls == old(calls) + [DescribeTable]
    {
      calls := calls + [DescribeTable];
      found := present;
    }

    /** The describe request of doUpdate, for the table's ARN. */
    method DescribeArn() returns (arn: string)
      requires present
      modifies this`calls
      ensures arn == tableArn
      ensures calls == old(calls) + [DescribeTable]
    {
      calls := calls + [DescribeTable];
      arn := tableArn;
    }

    method DeleteTable()
      requires present
      modifies this`present, this`itemCount, this`calls
      ensures Valid() && !present
      ensures calls == old(calls) + [Call.DeleteTable]
    {
      present := false;
      itemCount := 0;
      calls := calls + [Call.DeleteTable];
    }

    method WaitUntilTableNotExists()
      requires !present
      modifies this`calls
      ensures calls == old(calls) + [Call.WaitUntilTableNotExists]
    {
      calls := calls + [Call.WaitUntilTableNotExists];
    }

    method CreateTable(request: CreateRequest)
      requires !present
      modifies this`present, this`itemCount, this`calls
      ensures Valid() && present && itemCount == 0
      ensures calls == old(calls) + [Call.CreateTable(request)]
    {
      present := true;
      itemCount := 0;
      calls := calls + [Call.CreateTable(request)];
    }

    method WaitUntilTableExists()
      requires present
      modifies this`calls
      ensures calls == old(calls) + [Call.WaitUntilTableExists]
    {
      calls := calls + [Call.WaitUntilTableExists];
    }

    /** An update of the table's encryption; the response carries the table's ARN. */
    method UpdateTable(sse: SseSpecification) returns (arn: string)
      requires present
      modifies this`calls
      ensures arn == tableArn
      ensures calls == old(calls) + [Call.UpdateTable(sse)]
    {
      calls := calls + [Call.UpdateTable(sse)];
      arn := tableArn;
    }

    method TagResource(arn: string, tags: map<string, string>)
      requires present
      modifies this`calls
      ensures calls == old(calls) + [Call.TagResource(arn, tags)]
    {
      calls := calls + [Call.TagResource(arn, tags)];
    }

    method UpdateContinuousBackups(enabled: bool)
      requires present
      modifies this`calls
      ensures calls == old(calls) + [Call.UpdateContinuousBackups(enabled)]
    {
      calls := calls + [Call.UpdateContinuousBackups(enabled)];
    }
  }

  class DynamoDbTableBatchlet {
    const config: BatchletConfig
    const service: TableService

    constructor (config: BatchletConfig, service: TableService)
      ensures this.config == config && this.service == service
    {
      this.config := config;
      this.service := service;
    }

    /** doDelete(table): delete, then wait until the table is gone. */
    method DoDelete()
      requires service.present
      modifies service`present, service`itemCount, service`calls
      ensures service.Valid() && !service.present
      ensures service.calls == old(service.calls) + DeletePlan()
    {
      service.DeleteTable();
      service.WaitUntilTableNotExists();
    }

    /** doCreate(table): create with the configured indexes and throughput, then wait until
        the table exists. */
    method DoCreate()
      requires !service.present
      modifies service`present, service`itemCount, service`calls
      ensures service.Valid() && service.present && service.itemCount == 0
      ensures service.calls == old(service.calls) + CreatePlan(config)
    {
      service.CreateTable(CreateRequestOf(config));
      service.WaitUntilTableExists();
    }

    /** doUpdate(): encryption, tags and point-in-time recovery, each only when asked for;
        the ARN for tagging comes from the encryption response or else from a describe. */
    method DoUpdate()
      requires service.present
      modifies service`calls
      ensures service.calls == old(service.calls) + UpdatePlan(config, service.tableArn)
    {
      var tableArn: Option<string> := None;
      if config.kmsMasterKeyId.Some? && config.kmsMasterKeyId.value != [] {
        var arn := service.UpdateTable(SseSpecification(true, KMS, config.kmsMasterKeyId.value));
        tableArn := Some(arn);
      } else {
        assert service.calls == old(service.calls) + [];
      }
      ghost var afterSse := service.calls;
      assert tableArn.Some? <==> EncryptionRequested(config);
      if config.tableTags.Some? && |config.tableTags.value| > 0 && !config.dynamoDbLocal {
        if tableArn.None? {
          var arn := service.DescribeArn();
          tableArn := Some(arn);
        }
        service.TagResource(tableArn.value, config.tableTags.value);
      } else {
        assert service.calls == afterSse + [];
      }
      ghost var afterTags := service.calls;
      assert afterTags == afterSse + TaggingPart(config, service.tableArn);
      if config.pointInTimeRecoveryEnabled.Some? && !config.dynamoDbLocal {
        service.UpdateContinuousBackups(true);
      } else {
        assert service.calls == afterTags + [];
      }
      AppendAssoc(old(service.calls), EncryptionPart(config), TaggingPart(config, service.tableArn));
      AppendAssoc(old(service.calls), EncryptionPart(config) + TaggingPart(config, service.tableArn), RecoveryPart(config));
    }

    /** The switch of process(): one action, given whether the table existed. */
    method RunAction(action: Action, tableExists: bool)
      requires service.Valid() && tableExists == service.present
      modifies service`present, service`itemCount, service`calls
      ensures service.Valid()
      ensures service.calls == old(service.calls) + ActionPlan(config, action, tableExists, service.tableArn)
      ensures Effect(action, tableExists, old(service.itemCount), service.present, service.itemCount)
    {
      match action {
        case DELETE =>
          if tableExists {
            DoDelete();
          } else {
            assert service.calls == old(service.calls) + [];
          }
        case CREATE =>
          ghost var created := service.calls;
          if !tableExists {
            DoCreate();
          } else {
            assert service.calls == created + [];
          }
          DoUpdate();
          AppendAssoc(old(service.calls), if tableExists then [] else CreatePlan(config), UpdatePlan(config, service.tableArn));
        case UPDATE =>
          if tableExists {
            DoUpdate();
          } else {
            assert service.calls == old(service.calls) + [];
          }
        case TRUNCATE =>
          if tableExists {
            DoDelete();
          } else {
            assert service.calls == old(service.calls) + [];
          }
          DoCreate();
          AppendAssoc(old(service.calls), if tableExists then DeletePlan() else [], CreatePlan(config));
          DoUpdate();
          AppendAssoc(old(service.calls), (if tableExists then DeletePlan() else []) + CreatePlan(config),
                    UpdatePlan(config, service.tableArn));
      }
    }

    /** The body of process() once the action property has been read as `request`: the
        describe request unless there is no action, then the refusal or the action. */
    method Dispatch(request: Request) returns (r: Result<string, Error>)
      requires service.Valid()
      modifies service`present, service`itemCount, service`calls
      ensures service.Valid()
      ensures service.calls == old(service.calls) + RequestPlan(config, request, old(service.present), service.tableArn)
      ensures request.Unknown? <==> r.Err?
      ensures r.Err? ==> r.error == IllegalArgument(NoEnumConstant(request.upper))
      ensures r.Ok? ==> r.value == "COMPLETED"
      ensures request.Run? ==>
                Effect(request.action, old(service.present), old(service.itemCount), service.present, service.itemCount)
      ensures !request.Run? ==>
                service.present == old(service.present) && service.itemCount == old(service.itemCount)
    {
      r := Ok("COMPLETED");
      if !request.NoAction? {
        var tableExists := service.TableExists();
        match request {
          case Unknown(upper) =>
            r := Err(IllegalArgument(NoEnumConstant(upper)));
          case Run(action) =>
            RunAction(action, tableExists);
            AppendAssoc(old(service.calls), [DescribeTable], ActionPlan(config, action, tableExists, service.tableArn));
        }
      } else {
        assert service.calls == old(service.calls) + [];
      }
    }

    /**
     * process(): nothing at all without an action; otherwise the table's existence is
     * checked, the action looked up whatever its case, and run. DELETE removes an existing
     * table, CREATE creates an absent one and then updates it, UPDATE updates an existing
     * one, TRUNCATE deletes an existing one and then creates and updates it.
     */
    method Process() returns (r: Result<string, Error>)
      requires service.Valid()
      modifies service`present, service`itemCount, service`calls
      ensures service.Valid()
      ensures service.calls == old(service.calls) + ProcessPlan(config, old(service.present), service.tableArn)
      ensures RequestOf(config.action).Unknown? <==> r.Err?
      ensures r.Err? ==> r.error == IllegalArgument(NoEnumConstant(RequestOf(config.action).upper))
      ensures r.Ok? ==> r.value == "COMPLETED"
      ensures RequestOf(config.action).Run? ==>
                Effect(RequestOf(config.action).action, old(service.present), old(service.itemCount),
                       service.present, service.itemCount)
      ensures !RequestOf(config.action).Run? ==>
                service.present == old(service.present) && service.itemCount == old(service.itemCount)
    {
      // Action.valueOf is pure: looking the action up before the describe request that
      // precedes it in the source changes nothing but the order of two computations.
      var request := RequestOf(config.action);
      r := Dispatch(request);
    }
  }

  /** What the batchlet throws: only `Action.valueOf`'s refusal of an unknown name. */
  datatype Error = IllegalArgument(message: string)
}
