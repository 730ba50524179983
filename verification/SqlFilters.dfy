/**
 The WHERE clauses of the two memory searches: one built from query objects, the other
 from text fragments with named bind parameters. Both are evaluated with SQL's
 three-valued logic, because `project_id` and `session_id` may be null.
 */
module SqlFilters {
  import opened Options
  import opened Decimals
  import opened VectorText
  import opened Vectors

  type Id = nat

  datatype Document = Document(
    id: Id,
    workspaceId: Id,
    projectId: Option<Id>,
    sessionId: Option<Id>,
    visibility: string,
    status: string,
    deletedAt: Option<int>)

  /** One row of documents joined with their chunks and the chunks' embeddings. */
  datatype Joined = Joined(document: Document, chunkId: Id, embeddingModel: string, embedding: string)

  datatype Search = Search(
    workspaceId: Id,
    query: Vector,
    limit: int,
    projectId: Option<Id>,
    sessionId: Option<Id>,
    visibility: Option<seq<string>>,
    embeddingModel: Option<string>)

  // ----- SQL conditions -----

  datatype Value = IdValue(id: Id) | TextValue(text: string) | TimeValue(time: int) | NumberValue(number: int)

  datatype Column = WorkspaceId | Status | DeletedAt | Visibility | ProjectId | SessionId | EmbeddingModel

  datatype Operand = Literal(value: Value) | Bind(name: string)

  datatype Condition =
    | Equal(column: Column, operand: Operand)
    | NotEqual(column: Column, operand: Operand)
    | IsNull(column: Column)
    | In(column: Column, operands: seq<Operand>)
    | Or(left: Condition, right: Condition)

  datatype Truth = IsTrue | IsFalse | IsUnknown

  type Params = map<string, Value>

  function ColumnValue(row: Joined, column: Column): Option<Value>
  {
    match column
    case WorkspaceId => Some(IdValue(row.document.workspaceId))
    case Status => Some(TextValue(row.document.status))
    case DeletedAt => if row.document.deletedAt.Some? then Some(TimeValue(row.document.deletedAt.value)) else None
    case Visibility => Some(TextValue(row.document.visibility))
    case ProjectId => if row.document.projectId.Some? then Some(IdValue(row.document.projectId.value)) else None
    case SessionId => if row.document.sessionId.Some? then Some(IdValue(row.document.sessionId.value)) else None
    case EmbeddingModel => Some(TextValue(row.embeddingModel))
  }

  function OperandValue(operand: Operand, params: Params): Option<Value>
  {
    match operand
    case Literal(value) => Some(value)
    case Bind(name) => if name in params then Some(params[name]) else None
  }

  function Compare(a: Option<Value>, b: Option<Value>): Truth
  {
    if a.None? || b.None? then IsUnknown else if a == b then IsTrue else IsFalse
  }

  function NotTruth(t: Truth): Truth
  {
    match t
    case IsTrue => IsFalse
    case IsFalse => IsTrue
    case IsUnknown => IsUnknown
  }

  function OrTruth(t: Truth, u: Truth): Truth
  {
    if t.IsTrue? || u.IsTrue? then IsTrue
    else if t.IsFalse? && u.IsFalse? then IsFalse
    else IsUnknown
  }

  function EvalIn(value: Option<Value>, operands: seq<Operand>, params: Params): Truth
  {
    if operands == [] then IsFalse
    else OrTruth(Compare(value, OperandValue(operands[0], params)), EvalIn(value, operands[1..], params))
  }

  function Eval(condition: Condition, params: Params, row: Joined): Truth
  {
    match condition
    case Equal(column, operand) => Compare(ColumnValue(row, column), OperandValue(operand, params))
    case NotEqual(column, operand) => NotTruth(Compare(ColumnValue(row, column), OperandValue(operand, params)))
    case IsNull(column) => if ColumnValue(row, column).None? then IsTrue else IsFalse
    case In(column, operands) => EvalIn(ColumnValue(row, column), operands, params)
    case Or(left, right) => OrTruth(Eval(left, params, row), Eval(right, params, row))
  }

  /** WHERE keeps a row only when every conjunct is true; unknown is not enough. */
  predicate Selected(filters: seq<Condition>, params: Params, row: Joined)
  {
    forall i :: 0 <= i < |filters| ==> Eval(filters[i], params, row).IsTrue?
  }

  /** SQL's logic: a comparison with null is unknown, and so is whatever hangs on it. */
  lemma ThreeValuedLogic(a: Option<Value>, b: Option<Value>, t: Truth, u: Truth)
    ensures Compare(a, b).IsTrue? <==> a.Some? && b.Some? && a.value == b.value
    ensures Compare(a, b).IsFalse? <==> a.Some? && b.Some? && a.value != b.value
    ensures NotTruth(t).IsTrue? <==> t.IsFalse?
    ensures NotTruth(t).IsFalse? <==> t.IsTrue?
    ensures OrTruth(t, u).IsTrue? <==> t.IsTrue? || u.IsTrue?
    ensures OrTruth(t, u).IsFalse? <==> t.IsFalse? && u.IsFalse?
  {
  }

  // ----- the intended selection -----

  /** A list that is absent or empty filters nothing. */
  predicate AdmitsVisibility(search: Search, visibility: string)
  {
    search.visibility.None? || search.visibility.value == [] || visibility in search.visibility.value
  }

  /** Which documents a search may return, in plain two-valued terms. */
  predicate Reaches(search: Search, document: Document)
  {
    && document.workspaceId == search.workspaceId
    && document.status == "approved"
    && document.deletedAt.None?
    && AdmitsVisibility(search, document.visibility)
    && (search.projectId.Some? ==> document.visibility == "workspace" || document.projectId == search.projectId)
    && (search.sessionId.Some? ==> document.visibility != "session" || document.sessionId == search.sessionId)
  }

  predicate Eligible(search: Search, row: Joined)
  {
    && Reaches(search, row.document)
    && (search.embeddingModel.Some? ==> row.embeddingModel == search.embeddingModel.value)
  }

  // ----- the query-object search -----

  function Literals(values: seq<string>): (operands: seq<Operand>)
    ensures |operands| == |values|
    ensures forall i :: 0 <= i < |values| ==> operands[i] == Literal(TextValue(values[i]))
  {
    if values == [] then [] else [Literal(TextValue(values[0]))] + Literals(values[1..])
  }

  predicate FiltersVisibility(search: Search) { search.visibility.Some? && search.visibility.value != [] }

  function OrmFilters(search: Search): seq<Condition>
  {
    [Equal(WorkspaceId, Literal(IdValue(search.workspaceId))),
     Equal(Status, Literal(TextValue("approved"))),
     IsNull(DeletedAt)]
    + (if FiltersVisibility(search) then [In(Visibility, Literals(search.visibility.value))] else [])
    + (if search.projectId.Some? then
         [Or(Equal(Visibility, Literal(TextValue("workspace"))),
             Equal(ProjectId, Literal(IdValue(search.projectId.value))))]
       else [])
    + (if search.sessionId.Some? then
         [Or(NotEqual(Visibility, Literal(TextValue("session"))),
             Equal(SessionId, Literal(IdValue(search.sessionId.value))))]
       else [])
    + (if search.embeddingModel.Some? then
         [Equal(EmbeddingModel, Literal(TextValue(search.embeddingModel.value)))]
       else [])
  }

  // ----- the text search -----

  /** `f"visibility_{index}"` */
  function VisibilityKey(index: nat): string { "visibility_" + NatText(index) }

  function VisibilityBinds(count: nat): (names: seq<Operand>)
    ensures |names| == count
    ensures forall i :: 0 <= i < count ==> names[i] == Bind(VisibilityKey(i))
  {
    seq(count, i requires i >= 0 => Bind(VisibilityKey(i)))
  }

  function TextVisibility(search: Search): seq<Condition>
  {
    if FiltersVisibility(search) then [In(Visibility, VisibilityBinds(|search.visibility.value|))] else []
  }

  function TextProject(search: Search): seq<Condition>
  {
    if search.projectId.Some? then
      [Or(Equal(Visibility, Literal(TextValue("workspace"))), Equal(ProjectId, Bind("project_id")))]
    else []
  }

  function TextSession(search: Search): seq<Condition>
  {
    if search.sessionId.Some? then
      [Or(NotEqual(Visibility, Literal(TextValue("session"))), Equal(SessionId, Bind("session_id")))]
    else []
  }

  function TextModel(search: Search): seq<Condition>
  {
    if search.embeddingModel.Some? then [Equal(EmbeddingModel, Bind("embedding_model"))] else []
  }

  /** What the text of the statement says, fragment by fragment. */
  function TextFilters(search: Search): seq<Condition>
  {
    [Equal(WorkspaceId, Bind("workspace_id")),
     Equal(Status, Literal(TextValue("approved"))),
     IsNull(DeletedAt)]
    + TextVisibility(search)
    + TextProject(search)
    + TextSession(search)
    + TextModel(search)
  }

  /** Every bind name of the statement is bound to the search argument it stands for. */
  ghost predicate BindsSearch(search: Search, params: Params)
  {
    && Bound(params, "workspace_id", IdValue(search.workspaceId))
    && Bound(params, "query_embedding", TextValue(VectorToDb(search.query)))
    && Bound(params, "limit", NumberValue(search.limit))
    && (FiltersVisibility(search) ==> BindsVisibility(search.visibility.value, |search.visibility.value|, params))
    && (search.projectId.Some? ==> Bound(params, "project_id", IdValue(search.projectId.value)))
    && (search.sessionId.Some? ==> Bound(params, "session_id", IdValue(search.sessionId.value)))
    && (search.embeddingModel.Some? ==> Bound(params, "embedding_model", TextValue(search.embeddingModel.value)))
  }

  predicate Bound(params: Params, name: string, value: Value) { name in params && params[name] == value }

  ghost predicate BindsVisibility(values: seq<string>, count: nat, params: Params)
    requires count <= |values|
  {
    forall i :: 0 <= i < count ==> Bound(params, VisibilityKey(i), TextValue(values[i]))
  }

  lemma VisibilityKeyInjective(i: nat, j: nat)
    requires VisibilityKey(i) == VisibilityKey(j)
    ensures i == j
  {
    assert VisibilityKey(i)[11..] == NatText(i);
    assert VisibilityKey(j)[11..] == NatText(j);
    NatTextInjective(i, j);
  }

  /** Names not starting like a visibility key stay bound as they were. */
  ghost predicate KeepsOtherNames(given: Params, params: Params)
  {
    forall name: string :: name in given && name != [] && name[0] != 'v' ==> name in params && params[name] == given[name]
  }

  lemma KeptName(given: Params, params: Params, name: string, value: Value)
    requires KeepsOtherNames(given, params) && Bound(given, name, value)
    requires name != [] && name[0] != 'v'
    ensures Bound(params, name, value)
  {
  }

  lemma FixedNames()
    ensures forall name :: name in {"workspace_id", "query_embedding", "limit"} ==>
      name != [] && name[0] != 'v' && !IsScopeName(name)
  {
    assert "workspace_id"[0] == 'w' && "query_embedding"[0] == 'q' && "limit"[0] == 'l';
    assert "project_id"[0] == 'p' && "session_id"[0] == 's' && "embedding_model"[0] == 'e';
  }

  lemma VisibilityKeyHead(index: nat)
    ensures VisibilityKey(index) != [] && VisibilityKey(index)[0] == 'v'
  {
  }

  function VisibilityParams(values: seq<string>, count: nat): (params: Params)
    requires count <= |values|
    ensures forall name :: name in params ==> name != [] && name[0] == 'v'
  {
    if count == 0 then map[]
    else VisibilityParams(values, count - 1)[VisibilityKey(count - 1) := TextValue(values[count - 1])]
  }

  lemma {:induction false} VisibilityParamsBind(values: seq<string>, count: nat)
    requires count <= |values|
    ensures BindsVisibility(values, count, VisibilityParams(values, count))
  {
    if count == 0 {
    } else {
      VisibilityParamsBind(values, count - 1);
      forall i: nat | i < count - 1
        ensures VisibilityKey(i) != VisibilityKey(count - 1)
      {
        if VisibilityKey(i) == VisibilityKey(count - 1) {
          VisibilityKeyInjective(i, count - 1);
        }
      }
    }
  }

  function OptionalParam(name: string, value: Option<Value>): Params
  {
    if value.Some? then map[name := value.value] else map[]
  }

  function IdParam(id: Option<Id>): Option<Value> { if id.Some? then Some(IdValue(id.value)) else None }

  function TextParam(text: Option<string>): Option<Value> { if text.Some? then Some(TextValue(text.value)) else None }

  function ScopeParams(search: Search): Params
  {
    OptionalParam("project_id", IdParam(search.projectId))
    + OptionalParam("session_id", IdParam(search.sessionId))
    + OptionalParam("embedding_model", TextParam(search.embeddingModel))
  }

  lemma ScopeParamsBind(search: Search)
    ensures search.projectId.Some? ==> Bound(ScopeParams(search), "project_id", IdValue(search.projectId.value))
    ensures search.sessionId.Some? ==> Bound(ScopeParams(search), "session_id", IdValue(search.sessionId.value))
    ensures search.embeddingModel.Some? ==>
      Bound(ScopeParams(search), "embedding_model", TextValue(search.embeddingModel.value))
    ensures forall name :: name in ScopeParams(search) ==> name in {"project_id", "session_id", "embedding_model"}
  {
    FixedNames();
  }

  /** Parameters that bind a search always exist. */
  lemma ParamsExist(search: Search) returns (params: Params)
    ensures BindsSearch(search, params)
  {
    var fixed := map["workspace_id" := IdValue(search.workspaceId),
                     "query_embedding" := TextValue(VectorToDb(search.query)),
                     "limit" := NumberValue(search.limit)];
    FixedNames();
    ScopeParamsBind(search);
    params := fixed + ScopeParams(search);
    if FiltersVisibility(search) {
      VisibilityParamsBind(search.visibility.value, |search.visibility.value|);
      params := params + VisibilityParams(search.visibility.value, |search.visibility.value|);
    }
  }

  /**
   Assembles the statement's conditions and parameters as the text search does. The
   generated names do not collide, neither with each other nor with the fixed names.
   */
  method BuildTextFilters(search: Search) returns (filters: seq<Condition>, params: Params)
    ensures filters == TextFilters(search)
    ensures BindsSearch(search, params)
  {
    filters := [Equal(WorkspaceId, Bind("workspace_id")),
                Equal(Status, Literal(TextValue("approved"))),
                IsNull(DeletedAt)];
    params := map["workspace_id" := IdValue(search.workspaceId),
                  "query_embedding" := TextValue(VectorToDb(search.query)),
                  "limit" := NumberValue(search.limit)];
    ghost var start := params;
    FixedNames();
    filters, params := AddVisibilityFilter(search, filters, params);
    KeptName(start, params, "workspace_id", IdValue(search.workspaceId));
    KeptName(start, params, "query_embedding", TextValue(VectorToDb(search.query)));
    KeptName(start, params, "limit", NumberValue(search.limit));
    ghost var before := params;
    filters, params := AddScopeFilters(search, filters, params);
    forall i: nat | VisibilityKey(i) in before
      ensures Bound(params, VisibilityKey(i), before[VisibilityKey(i)])
    {
      VisibilityKeyHead(i);
    }
  }

  predicate IsScopeName(name: string) { name in {"project_id", "session_id", "embedding_model"} }

  /** The project, session and model fragments, each with its own parameter. */
  method AddScopeFilters(search: Search, given: seq<Condition>, bound: Params)
    returns (filters: seq<Condition>, params: Params)
    ensures filters == given + TextProject(search) + TextSession(search) + TextModel(search)
    ensures search.projectId.Some? ==> Bound(params, "project_id", IdValue(search.projectId.value))
    ensures search.sessionId.Some? ==> Bound(params, "session_id", IdValue(search.sessionId.value))
    ensures search.embeddingModel.Some? ==> Bound(params, "embedding_model", TextValue(search.embeddingModel.value))
    ensures forall name :: name in bound && !IsScopeName(name) ==> Bound(params, name, bound[name])
  {
    filters, params := given, bound;
    if search.projectId.Some? {
      filters := filters + [Or(Equal(Visibility, Literal(TextValue("workspace"))), Equal(ProjectId, Bind("project_id")))];
      params := params["project_id" := IdValue(search.projectId.value)];
    }
    if search.sessionId.Some? {
      filters := filters + [Or(NotEqual(Visibility, Literal(TextValue("session"))), Equal(SessionId, Bind("session_id")))];
      params := params["session_id" := IdValue(search.sessionId.value)];
    }
    if search.embeddingModel.Some? {
      filters := filters + [Equal(EmbeddingModel, Bind("embedding_model"))];
      params := params["embedding_model" := TextValue(search.embeddingModel.value)];
    }
  }

  /** The visibility fragment, present only for a list with entries. */
  method AddVisibilityFilter(search: Search, given: seq<Condition>, bound: Params)
    returns (filters: seq<Condition>, params: Params)
    ensures filters == given + TextVisibility(search)
    ensures FiltersVisibility(search) ==> BindsVisibility(search.visibility.value, |search.visibility.value|, params)
    ensures KeepsOtherNames(bound, params)
  {
    filters, params := given, bound;
    if FiltersVisibility(search) {
      var names: seq<Operand>;
      names, params := BindVisibility(search.visibility.value, params);
      filters := filters + [In(Visibility, names)];
    }
  }

  /** The loop over the visibility list: one fresh name and one parameter per entry. */
  method BindVisibility(values: seq<string>, given: Params) returns (names: seq<Operand>, params: Params)
    ensures names == VisibilityBinds(|values|)
    ensures BindsVisibility(values, |values|, params)
    ensures KeepsOtherNames(given, params)
  {
    names, params := [], given;
    for index := 0 to |values|
      invariant names == VisibilityBinds(index)
      invariant BindsVisibility(values, index, params)
      invariant KeepsOtherNames(given, params)
    {
      var key := VisibilityKey(index);
      assert key[0] == 'v';
      forall i | 0 <= i < index
        ensures VisibilityKey(i) != key
      {
        if VisibilityKey(i) == key {
          VisibilityKeyInjective(i, index);
        }
      }
      params := params[key := TextValue(values[index])];
      names := names + [Bind(key)];
    }
  }

  // ----- both statements select the eligible rows -----

  lemma {:induction false} InIsMembership(value: Value, operands: seq<Operand>, params: Params)
    requires forall i :: 0 <= i < |operands| ==> OperandValue(operands[i], params).Some?
    ensures EvalIn(Some(value), operands, params)
      == if exists i :: 0 <= i < |operands| && OperandValue(operands[i], params) == Some(value) then IsTrue else IsFalse
  {
    if operands == [] {
    } else {
      InIsMembership(value, operands[1..], params);
      if i :| 0 <= i < |operands| && OperandValue(operands[i], params) == Some(value) {
        if i > 0 {
          assert operands[1..][i - 1] == operands[i];
        }
      }
    }
  }

  lemma VisibilityIn(values: seq<string>, operands: seq<Operand>, params: Params, visibility: string)
    requires |operands| == |values|
    requires forall i :: 0 <= i < |values| ==> OperandValue(operands[i], params) == Some(TextValue(values[i]))
    ensures EvalIn(Some(TextValue(visibility)), operands, params).IsTrue? <==> visibility in values
  {
    InIsMembership(TextValue(visibility), operands, params);
    if visibility in values {
      var i :| 0 <= i < |values| && values[i] == visibility;
      assert OperandValue(operands[i], params) == Some(TextValue(visibility));
    }
  }

  /** The conjuncts in the order both statements list them, an absent one read as true. */
  lemma ConjunctionOfParts(
    base: seq<Condition>, a: seq<Condition>, b: seq<Condition>, c: seq<Condition>, d: seq<Condition>,
    params: Params, row: Joined)
    ensures Selected(base + a + b + c + d, params, row)
      <==> Selected(base, params, row) && Selected(a, params, row) && Selected(b, params, row)
           && Selected(c, params, row) && Selected(d, params, row)
  {
    SelectedConcat(base, a, params, row);
    SelectedConcat(base + a, b, params, row);
    SelectedConcat(base + a + b, c, params, row);
    SelectedConcat(base + a + b + c, d, params, row);
  }

  lemma SelectedConcat(a: seq<Condition>, b: seq<Condition>, params: Params, row: Joined)
    ensures Selected(a + b, params, row) <==> Selected(a, params, row) && Selected(b, params, row)
  {
    var c := a + b;
    assert forall i :: 0 <= i < |a| ==> c[i] == a[i];
    assert forall i :: 0 <= i < |b| ==> c[|a| + i] == b[i];
  }

  lemma SelectedOne(condition: Condition, params: Params, row: Joined)
    ensures Selected([condition], params, row) <==> Eval(condition, params, row).IsTrue?
  {
    assert [condition][0] == condition;
  }

  lemma BasePart(search: Search, workspace: Operand, params: Params, row: Joined)
    requires OperandValue(workspace, params) == Some(IdValue(search.workspaceId))
    ensures Selected([Equal(WorkspaceId, workspace), Equal(Status, Literal(TextValue("approved"))), IsNull(DeletedAt)], params, row)
      <==> row.document.workspaceId == search.workspaceId && row.document.status == "approved" && row.document.deletedAt.None?
  {
    var x, y, z := Equal(WorkspaceId, workspace), Equal(Status, Literal(TextValue("approved"))), IsNull(DeletedAt);
    assert [x, y, z] == [x] + [y] + [z];
    SelectedConcat([x] + [y], [z], params, row);
    SelectedConcat([x], [y], params, row);
    SelectedOne(x, params, row);
    SelectedOne(y, params, row);
    SelectedOne(z, params, row);
  }

  lemma VisibilityPart(search: Search, operands: seq<Operand>, params: Params, row: Joined)
    requires FiltersVisibility(search) ==> |operands| == |search.visibility.value|
    requires FiltersVisibility(search) ==> forall i :: 0 <= i < |operands| ==>
      OperandValue(operands[i], params) == Some(TextValue(search.visibility.value[i]))
    ensures Selected(if FiltersVisibility(search) then [In(Visibility, operands)] else [], params, row)
      <==> AdmitsVisibility(search, row.document.visibility)
  {
    if FiltersVisibility(search) {
      SelectedOne(In(Visibility, operands), params, row);
      VisibilityIn(search.visibility.value, operands, params, row.document.visibility);
    }
  }

  lemma ProjectPart(search: Search, operand: Operand, params: Params, row: Joined)
    requires search.projectId.Some? ==> OperandValue(operand, params) == Some(IdValue(search.projectId.value))
    ensures Selected(
        if search.projectId.Some? then
          [Or(Equal(Visibility, Literal(TextValue("workspace"))), Equal(ProjectId, operand))]
        else [], params, row)
      <==> (search.projectId.Some? ==> row.document.visibility == "workspace" || row.document.projectId == search.projectId)
  {
    SelectedOne(Or(Equal(Visibility, Literal(TextValue("workspace"))), Equal(ProjectId, operand)), params, row);
  }

  lemma SessionPart(search: Search, operand: Operand, params: Params, row: Joined)
    requires search.sessionId.Some? ==> OperandValue(operand, params) == Some(IdValue(search.sessionId.value))
    ensures Selected(
        if search.sessionId.Some? then
          [Or(NotEqual(Visibility, Literal(TextValue("session"))), Equal(SessionId, operand))]
        else [], params, row)
      <==> (search.sessionId.Some? ==> row.document.visibility != "session" || row.document.sessionId == search.sessionId)
  {
    SelectedOne(Or(NotEqual(Visibility, Literal(TextValue("session"))), Equal(SessionId, operand)), params, row);
  }

  lemma ModelPart(search: Search, operand: Operand, params: Params, row: Joined)
    requires search.embeddingModel.Some? ==> OperandValue(operand, params) == Some(TextValue(search.embeddingModel.value))
    ensures Selected(if search.embeddingModel.Some? then [Equal(EmbeddingModel, operand)] else [], params, row)
      <==> (search.embeddingModel.Some? ==> row.embeddingModel == search.embeddingModel.value)
  {
    SelectedOne(Equal(EmbeddingModel, operand), params, row);
  }

  /** The query-object statement selects exactly the eligible rows. */
  lemma OrmSelectsEligible(search: Search, row: Joined)
    ensures Selected(OrmFilters(search), map[], row) <==> Eligible(search, row)
  {
    var literals := if FiltersVisibility(search) then Literals(search.visibility.value) else [];
    var project := Literal(IdValue(if search.projectId.Some? then search.projectId.value else 0));
    var session := Literal(IdValue(if search.sessionId.Some? then search.sessionId.value else 0));
    var model := Literal(TextValue(if search.embeddingModel.Some? then search.embeddingModel.value else ""));
    BasePart(search, Literal(IdValue(search.workspaceId)), map[], row);
    VisibilityPart(search, literals, map[], row);
    ProjectPart(search, project, map[], row);
    SessionPart(search, session, map[], row);
    ModelPart(search, model, map[], row);
    ConjunctionOfParts(
      [Equal(WorkspaceId, Literal(IdValue(search.workspaceId))), Equal(Status, Literal(TextValue("approved"))), IsNull(DeletedAt)],
      if FiltersVisibility(search) then [In(Visibility, literals)] else [],
      if search.projectId.Some? then [Or(Equal(Visibility, Literal(TextValue("workspace"))), Equal(ProjectId, project))] else [],
      if search.sessionId.Some? then [Or(NotEqual(Visibility, Literal(TextValue("session"))), Equal(SessionId, session))] else [],
      if search.embeddingModel.Some? then [Equal(EmbeddingModel, model)] else [],
      map[], row);
  }

  /** So does the text statement, under the parameters bound for the search. */
  lemma TextSelectsEligible(search: Search, params: Params, row: Joined)
    requires BindsSearch(search, params)
    ensures Selected(TextFilters(search), params, row) <==> Eligible(search, row)
  {
    var binds := if FiltersVisibility(search) then VisibilityBinds(|search.visibility.value|) else [];
    var project, session, model := Bind("project_id"), Bind("session_id"), Bind("embedding_model");
    BasePart(search, Bind("workspace_id"), params, row);
    VisibilityPart(search, binds, params, row);
    ProjectPart(search, project, params, row);
    SessionPart(search, session, params, row);
    ModelPart(search, model, params, row);
    ConjunctionOfParts(
      [Equal(WorkspaceId, Bind("workspace_id")), Equal(Status, Literal(TextValue("approved"))), IsNull(DeletedAt)],
      if FiltersVisibility(search) then [In(Visibility, binds)] else [],
      if search.projectId.Some? then [Or(Equal(Visibility, Literal(TextValue("workspace"))), Equal(ProjectId, project))] else [],
      if search.sessionId.Some? then [Or(NotEqual(Visibility, Literal(TextValue("session"))), Equal(SessionId, session))] else [],
      if search.embeddingModel.Some? then [Equal(EmbeddingModel, model)] else [],
      params, row);
  }
}
