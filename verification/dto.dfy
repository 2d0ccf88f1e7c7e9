/**
  The request bodies of the core service's management endpoints and the
  class-validator rules declared on their DTO classes. A body is a JSON
  object; a DTO is a table of per-property rules, and a body is valid for a
  DTO when every property passes its rule. Properties a DTO does not list are
  not looked at.
*/
module Dto {

  /** A parsed JSON value. */
  datatype Value =
    | JNull
    | JBool(b: bool)
    | JNumber(n: real)
    | JString(s: string)
    | JArray(items: seq<Value>)
    | JObject(fields: map<string, Value>)

  /** A request body; a property that is `undefined` is absent from the map. */
  type Body = map<string, Value>

  /** One class-validator decorator. */
  datatype Check =
    | IsString
    | IsInt
    | Min(bound: int)
    | Max(bound: int)
    | IsObject
    | IsBoolean
    | IsIn(values: set<string>)

  /** The decorators of one property; `optional` is `@IsOptional()`. */
  datatype Rule = Rule(field: string, optional: bool, checks: seq<Check>)

  /** `Number.isInteger` */
  predicate IsInteger(n: real) {
    n.Floor as real == n
  }

  /** Whether a decorator accepts a value. */
  predicate Holds(c: Check, v: Value) {
    match c
    case IsString => v.JString?
    case IsInt => v.JNumber? && IsInteger(v.n)
    case Min(bound) => v.JNumber? && v.n >= bound as real
    case Max(bound) => v.JNumber? && v.n <= bound as real
    case IsObject => v.JObject?
    case IsBoolean => v.JBool?
    case IsIn(values) => v.JString? && v.s in values
  }

  /** `@IsOptional()` lets a missing or `null` property through without running the other decorators. */
  predicate Skipped(r: Rule, body: Body) {
    r.optional && (r.field !in body || body[r.field].JNull?)
  }

  /** Whether one property passes its rule; a missing required property fails every decorator. */
  predicate FieldValid(r: Rule, body: Body) {
    Skipped(r, body)
    || (r.field in body && forall i | 0 <= i < |r.checks| :: Holds(r.checks[i], body[r.field]))
  }

  /** Whether a body passes every rule of a DTO. */
  predicate Valid(dto: seq<Rule>, body: Body) {
    forall i | 0 <= i < |dto| :: FieldValid(dto[i], body)
  }

  /** The properties named by a DTO's rules. */
  function Fields(dto: seq<Rule>): set<string> {
    set i | 0 <= i < |dto| :: dto[i].field
  }

  /** The properties that fail, in declaration order: the validation errors. */
  function Validate(dto: seq<Rule>, body: Body): (errors: seq<string>)
    ensures |errors| == 0 <==> Valid(dto, body)
    ensures |errors| <= |dto|
    ensures forall j | 0 <= j < |errors| :: exists i | 0 <= i < |dto| :: dto[i].field == errors[j] && !FieldValid(dto[i], body)
    ensures forall i | 0 <= i < |dto| && !FieldValid(dto[i], body) :: dto[i].field in errors
  {
    if |dto| == 0 then []
    else
      var rest := Validate(dto[1..], body);
      assert forall i | 1 <= i < |dto| :: dto[i] == dto[1..][i - 1];
      if FieldValid(dto[0], body) then rest else [dto[0].field] + rest
  }

  /** Properties a DTO does not name are not looked at: changing one never changes validity. */
  lemma UnlistedFieldIgnored(dto: seq<Rule>, body: Body, k: string, v: Value)
    requires k !in Fields(dto)
    ensures Valid(dto, body[k := v]) <==> Valid(dto, body)
  {
    forall i | 0 <= i < |dto|
      ensures FieldValid(dto[i], body[k := v]) == FieldValid(dto[i], body)
    {
      assert dto[i].field in Fields(dto);
    }
  }

  /** What a valid body gives for one decorator of a rule that is not skipped. */
  lemma Demand(dto: seq<Rule>, i: nat, body: Body, c: Check)
    requires Valid(dto, body) && i < |dto| && c in dto[i].checks && !Skipped(dto[i], body)
    ensures dto[i].field in body && Holds(c, body[dto[i].field])
  {
    assert FieldValid(dto[i], body);
    var j :| 0 <= j < |dto[i].checks| && dto[i].checks[j] == c;
  }

  /** A DTO whose every rule is optional accepts the empty body. */
  lemma AllOptionalAcceptsEmpty(dto: seq<Rule>)
    requires forall i | 0 <= i < |dto| :: dto[i].optional
    ensures Valid(dto, map[])
  {
  }

  // Rules shared by several DTOs

  function Required(field: string, checks: seq<Check>): Rule { Rule(field, false, checks) }
  function Optional(field: string, checks: seq<Check>): Rule { Rule(field, true, checks) }

  const MaxPostsPerDay := Optional("maxPostsPerDay", [IsInt, Min(1), Max(100)])
  const MinPostInterval := Optional("minPostInterval", [IsInt, Min(1)])
  const SourceTypes := {"telegram", "twitter", "rss", "youtube", "instagram"}

  // Targets

  const CreateTargetDto := [
    Required("type", [IsString]),
    Required("externalId", [IsString]),
    Optional("name", [IsString]),
    Optional("description", [IsString]),
    Optional("language", [IsString]),
    Optional("timezone", [IsString]),
    MaxPostsPerDay,
    MinPostInterval,
    Optional("settings", [IsObject]),
    Optional("workSchedule", [IsObject]),
    Optional("accountId", [IsString])
  ]

  const UpdateTargetDto := [
    Optional("name", [IsString]),
    Optional("description", [IsString]),
    Optional("language", [IsString]),
    Optional("timezone", [IsString]),
    MaxPostsPerDay,
    MinPostInterval,
    Optional("settings", [IsObject]),
    Optional("workSchedule", [IsObject]),
    Optional("accountId", [IsString]),
    Optional("isActive", [IsBoolean]),
    Optional("metadata", [IsObject])
  ]

  /** Whether a property is missing or `null`. */
  predicate Absent(body: Body, field: string) {
    field !in body || body[field].JNull?
  }

  /** `maxPostsPerDay` passes exactly when it is absent or an integer from 1 to 100. */
  lemma MaxPostsPerDayRange(body: Body)
    ensures FieldValid(MaxPostsPerDay, body) <==>
      (Absent(body, "maxPostsPerDay")
       || (body["maxPostsPerDay"].JNumber? && IsInteger(body["maxPostsPerDay"].n)
           && 1.0 <= body["maxPostsPerDay"].n <= 100.0))
  {
    var r := MaxPostsPerDay;
    if !Absent(body, r.field) {
      var v := body[r.field];
      if FieldValid(r, body) {
        assert Holds(r.checks[0], v) && Holds(r.checks[1], v) && Holds(r.checks[2], v);
      }
      if v.JNumber? && IsInteger(v.n) && 1.0 <= v.n <= 100.0 {
        assert forall i | 0 <= i < |r.checks| :: Holds(r.checks[i], v);
      }
    }
  }

  /** `minPostInterval` passes exactly when it is absent or an integer of at least 1; there is no upper bound. */
  lemma MinPostIntervalUnbounded(body: Body)
    ensures FieldValid(MinPostInterval, body) <==>
      (Absent(body, "minPostInterval")
       || (body["minPostInterval"].JNumber? && IsInteger(body["minPostInterval"].n) && 1.0 <= body["minPostInterval"].n))
  {
    var r := MinPostInterval;
    if !Absent(body, r.field) {
      var v := body[r.field];
      if FieldValid(r, body) {
        assert Holds(r.checks[0], v) && Holds(r.checks[1], v);
      }
      if v.JNumber? && IsInteger(v.n) && 1.0 <= v.n {
        assert forall i | 0 <= i < |r.checks| :: Holds(r.checks[i], v);
      }
    }
  }

  /** Both target DTOs apply the same posting limits. */
  lemma TargetLimitsOnBothDtos(body: Body)
    ensures Valid(CreateTargetDto, body) ==> FieldValid(MaxPostsPerDay, body) && FieldValid(MinPostInterval, body)
    ensures Valid(UpdateTargetDto, body) ==> FieldValid(MaxPostsPerDay, body) && FieldValid(MinPostInterval, body)
  {
    if Valid(CreateTargetDto, body) {
      assert CreateTargetDto[6] == MaxPostsPerDay && CreateTargetDto[7] == MinPostInterval;
      assert FieldValid(CreateTargetDto[6], body) && FieldValid(CreateTargetDto[7], body);
    }
    if Valid(UpdateTargetDto, body) {
      assert UpdateTargetDto[4] == MaxPostsPerDay && UpdateTargetDto[5] == MinPostInterval;
      assert FieldValid(UpdateTargetDto[4], body) && FieldValid(UpdateTargetDto[5], body);
    }
  }

  /** A target is created only with a string `type` and a string `externalId`. */
  lemma CreateTargetNeedsTypeAndExternalId(body: Body)
    requires Valid(CreateTargetDto, body)
    ensures "type" in body && body["type"].JString?
    ensures "externalId" in body && body["externalId"].JString?
  {
    Demand(CreateTargetDto, 0, body, IsString);
    Demand(CreateTargetDto, 1, body, IsString);
  }

  /** Every target update property is optional, and `isActive` must be a boolean when given. */
  lemma UpdateTargetOptional(body: Body)
    ensures Valid(UpdateTargetDto, map[])
    ensures Valid(UpdateTargetDto, body) && !Absent(body, "isActive") ==> body["isActive"].JBool?
  {
    AllOptionalAcceptsEmpty(UpdateTargetDto);
    if Valid(UpdateTargetDto, body) && !Absent(body, "isActive") {
      Demand(UpdateTargetDto, 9, body, IsBoolean);
    }
  }

  /** `settings` and `workSchedule` must be objects when given; an array is not an object. */
  lemma TargetObjectsAreObjects(body: Body)
    requires Valid(CreateTargetDto, body)
    ensures !Absent(body, "settings") ==> body["settings"].JObject?
    ensures !Absent(body, "workSchedule") ==> body["workSchedule"].JObject?
  {
    if !Absent(body, "settings") {
      Demand(CreateTargetDto, 8, body, IsObject);
    }
    if !Absent(body, "workSchedule") {
      Demand(CreateTargetDto, 9, body, IsObject);
    }
  }

  // Sources

  const CreateSourceDto := [
    Required("type", [IsString, IsIn(SourceTypes)]),
    Required("externalId", [IsString]),
    Optional("name", [IsString]),
    Optional("description", [IsString]),
    Optional("avatarUrl", [IsString]),
    Optional("url", [IsString]),
    Optional("language", [IsString]),
    Optional("metadata", [IsObject])
  ]

  const UpdateSourceDto := [
    Optional("name", [IsString]),
    Optional("description", [IsString]),
    Optional("avatarUrl", [IsString]),
    Optional("url", [IsString]),
    Optional("language", [IsString]),
    Optional("metadata", [IsObject])
  ]

  const SetSourceActiveDto := [Required("isActive", [IsBoolean])]

  /** A source is created only with one of the five known types, a string external id and, if any, object metadata. */
  lemma CreateSourceShape(body: Body)
    requires Valid(CreateSourceDto, body)
    ensures "type" in body && body["type"].JString? && body["type"].s in SourceTypes
    ensures "externalId" in body && body["externalId"].JString?
    ensures !Absent(body, "metadata") ==> body["metadata"].JObject?
  {
    Demand(CreateSourceDto, 0, body, IsIn(SourceTypes));
    Demand(CreateSourceDto, 1, body, IsString);
    if !Absent(body, "metadata") {
      Demand(CreateSourceDto, 7, body, IsObject);
    }
  }

  /** An unknown source type is refused even when everything else is in order. */
  lemma UnknownSourceTypeRefused(body: Body)
    requires "type" in body && body["type"].JString? && body["type"].s !in SourceTypes
    ensures !Valid(CreateSourceDto, body)
  {
    assert !FieldValid(CreateSourceDto[0], body) by {
      assert !Holds(CreateSourceDto[0].checks[1], body["type"]);
    }
  }

  /**
    The source update DTO names no `type`, `externalId` or `isActive`: their
    values have no bearing on whether an update body is valid.
  */
  lemma UpdateSourceIgnoresIdentity(body: Body, v: Value)
    ensures Valid(UpdateSourceDto, body["type" := v]) <==> Valid(UpdateSourceDto, body)
    ensures Valid(UpdateSourceDto, body["externalId" := v]) <==> Valid(UpdateSourceDto, body)
    ensures Valid(UpdateSourceDto, body["isActive" := v]) <==> Valid(UpdateSourceDto, body)
  {
    assert Fields(UpdateSourceDto) == {"name", "description", "avatarUrl", "url", "language", "metadata"} by {
      assert forall i | 0 <= i < |UpdateSourceDto| :: UpdateSourceDto[i].field in {"name", "description", "avatarUrl", "url", "language", "metadata"};
      assert UpdateSourceDto[0].field == "name" && UpdateSourceDto[1].field == "description";
      assert UpdateSourceDto[2].field == "avatarUrl" && UpdateSourceDto[3].field == "url";
      assert UpdateSourceDto[4].field == "language" && UpdateSourceDto[5].field == "metadata";
    }
    UnlistedFieldIgnored(UpdateSourceDto, body, "type", v);
    UnlistedFieldIgnored(UpdateSourceDto, body, "externalId", v);
    UnlistedFieldIgnored(UpdateSourceDto, body, "isActive", v);
  }

  /** `isActive` is required and must be a boolean. */
  lemma SetSourceActiveNeedsBoolean(body: Body)
    ensures Valid(SetSourceActiveDto, body) <==> "isActive" in body && body["isActive"].JBool?
  {
    if "isActive" in body && body["isActive"].JBool? {
      assert FieldValid(SetSourceActiveDto[0], body);
    }
    if Valid(SetSourceActiveDto, body) {
      Demand(SetSourceActiveDto, 0, body, IsBoolean);
    }
  }

  // Workspaces

  const CreateWorkspaceDto := [Required("name", [IsString]), Optional("settings", [IsObject])]
  const UpdateWorkspaceDto := [Optional("name", [IsString]), Optional("settings", [IsObject])]
  /** The role is declared as `ADMIN`, `EDITOR` or `VIEWER` but only checked to be a string. */
  const AddWorkspaceUserDto := [Required("userId", [IsString]), Required("role", [IsString])]

  /** A workspace is created only with a string name and, if any, object settings. */
  lemma CreateWorkspaceShape(body: Body)
    ensures Valid(CreateWorkspaceDto, body) <==>
      ("name" in body && body["name"].JString? && (Absent(body, "settings") || body["settings"].JObject?))
  {
    if "name" in body && body["name"].JString? && (Absent(body, "settings") || body["settings"].JObject?) {
      assert FieldValid(CreateWorkspaceDto[0], body) && FieldValid(CreateWorkspaceDto[1], body);
    }
    if Valid(CreateWorkspaceDto, body) {
      Demand(CreateWorkspaceDto, 0, body, IsString);
      if !Absent(body, "settings") {
        Demand(CreateWorkspaceDto, 1, body, IsObject);
      }
    }
  }

  /** Every workspace update property is optional. */
  lemma UpdateWorkspaceOptional()
    ensures Valid(UpdateWorkspaceDto, map[])
  {
    AllOptionalAcceptsEmpty(UpdateWorkspaceDto);
  }

  /** Any string passes as a member role, including ones outside ADMIN, EDITOR and VIEWER. */
  lemma AnyRoleStringAccepted(userId: string, role: string)
    ensures Valid(AddWorkspaceUserDto, map["userId" := JString(userId), "role" := JString(role)])
  {
    var body := map["userId" := JString(userId), "role" := JString(role)];
    assert FieldValid(AddWorkspaceUserDto[0], body) && FieldValid(AddWorkspaceUserDto[1], body);
  }

  // Workspace donors

  const AddWorkspaceDonorDto := [Required("sourceId", [IsString]), Optional("settings", [IsObject])]
  const UpdateWorkspaceDonorDto := [Optional("isActive", [IsBoolean]), Optional("settings", [IsObject])]

  /** A donor is added only with a string source id and, if any, object settings. */
  lemma AddDonorShape(body: Body)
    ensures Valid(AddWorkspaceDonorDto, body) <==>
      ("sourceId" in body && body["sourceId"].JString? && (Absent(body, "settings") || body["settings"].JObject?))
  {
    if "sourceId" in body && body["sourceId"].JString? && (Absent(body, "settings") || body["settings"].JObject?) {
      assert FieldValid(AddWorkspaceDonorDto[0], body) && FieldValid(AddWorkspaceDonorDto[1], body);
    }
    if Valid(AddWorkspaceDonorDto, body) {
      Demand(AddWorkspaceDonorDto, 0, body, IsString);
      if !Absent(body, "settings") {
        Demand(AddWorkspaceDonorDto, 1, body, IsObject);
      }
    }
  }

  /** A donor update has no required property; `isActive` must be a boolean and `settings` an object when given. */
  lemma UpdateDonorShape(body: Body)
    ensures Valid(UpdateWorkspaceDonorDto, body) <==>
      ((Absent(body, "isActive") || body["isActive"].JBool?) && (Absent(body, "settings") || body["settings"].JObject?))
  {
    if (Absent(body, "isActive") || body["isActive"].JBool?) && (Absent(body, "settings") || body["settings"].JObject?) {
      assert FieldValid(UpdateWorkspaceDonorDto[0], body) && FieldValid(UpdateWorkspaceDonorDto[1], body);
    }
    if Valid(UpdateWorkspaceDonorDto, body) {
      if !Absent(body, "isActive") {
        Demand(UpdateWorkspaceDonorDto, 0, body, IsBoolean);
      }
      if !Absent(body, "settings") {
        Demand(UpdateWorkspaceDonorDto, 1, body, IsObject);
      }
    }
  }
}
