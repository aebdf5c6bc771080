/**
 * PFMSDefinitionToSwagger: turns one endpoint definition into OpenAPI 3
 * entries, namely named schemas under `components/schemas` and one Path Item
 * whose keys are per-method Operation Objects (sections 4.7.9 and 4.7.10 of
 * the OpenAPI Specification 3.0).
 *
 * The pure decisions are specification functions at module level; the class
 * holds the methods that change the shared document or the definition, each
 * proved against those functions.
 */
module DefinitionToSwagger {

  import opened Wrappers
  import opened Text
  import opened Envelopes
  import opened Definition
  import opened SwaggerSchemas
  import opened Document
  import opened Classifier

  // ----------------------------------------------------------------------
  // Component registration

  /** Insert-if-absent: the registry after `add_component_schema(key, data)`. */
  function Register(schemas: map<string, Fragment>, key: string, data: Fragment): (r: map<string, Fragment>)
    ensures r.Keys == schemas.Keys + {key}
    ensures forall k :: k in schemas ==> r[k] == schemas[k]
    ensures key !in schemas ==> r[key] == data
  {
    if key in schemas then schemas else schemas[key := data]
  }

  /** Registering a name a second time changes nothing, whatever the second fragment. */
  lemma RegisterIdempotent(schemas: map<string, Fragment>, key: string, data: Fragment, other: Fragment)
    ensures Register(Register(schemas, key, data), key, other) == Register(schemas, key, data)
  {
  }

  /** The two component names share one upper-cased code and differ only in their prefix. */
  function RequestComponentName(code: string): string {
    "Req" + Upper(code)
  }

  function ResponseComponentName(code: string): string {
    "Res" + Upper(code)
  }

  lemma ComponentNamesShareCode(code: string)
    ensures RequestComponentName(code)[3..] == ResponseComponentName(code)[3..] == Upper(code)
    ensures RequestComponentName(code) != ResponseComponentName(code)
    ensures |code| == 13 ==> |RequestComponentName(code)| == |ResponseComponentName(code)| == 16
  {
  }

  /** The request schema registered for a present request body. */
  function RequestSchema(rrType: string, body: Descriptor): Fragment {
    if IsBinaryUploadRequest(rrType) || IsFormRequest(rrType) then Raw(body)
    else if IsBulkRequest(rrType) then BulkRequest(body)
    else SingleRequest(body)
  }

  /** The response schema registered for a present response object. */
  function ResponseSchema(rrType: string, obj: Descriptor): Fragment {
    if IsPaginatedResponse(rrType) then PaginatedResponse(obj)
    else if IsListResponse(rrType) then BulkSuccessResponse(obj)
    else DataResponse(obj)
  }

  /**
   * The request shape wraps the given body and is chosen by the role alone:
   * raw exactly for binary-upload and form tags, bulk exactly for bulk tags,
   * single for every other tag.
   */
  lemma RequestSchemaChoice(rrType: string, body: Descriptor)
    ensures RequestSchema(rrType, body).IsRequestShape() && RequestSchema(rrType, body).body == body
    ensures RequestSchema(rrType, body) == Raw(body) <==> IsBinaryUploadRequest(rrType) || IsFormRequest(rrType)
    ensures RequestSchema(rrType, body) == BulkRequest(body) <==> IsBulkRequest(rrType)
    ensures RequestSchema(rrType, body) == SingleRequest(body) <==>
              !IsBulkRequest(rrType) && !IsBinaryUploadRequest(rrType) && !IsFormRequest(rrType)
  {
    PrefixRolesExclusive(rrType);
  }

  /**
   * Paginated is checked before list: the paginated envelope exactly for
   * paginated tags, bulk-success exactly for list tags that are not
   * paginated, the data envelope otherwise.
   */
  lemma ResponseSchemaChoice(rrType: string, obj: Descriptor)
    ensures ResponseSchema(rrType, obj).IsResponseShape() && ResponseSchema(rrType, obj).body == obj
    ensures ResponseSchema(rrType, obj) == PaginatedResponse(obj) <==> IsPaginatedResponse(rrType)
    ensures ResponseSchema(rrType, obj) == BulkSuccessResponse(obj) <==>
              IsListResponse(rrType) && !IsPaginatedResponse(rrType)
    ensures ResponseSchema(rrType, obj) == DataResponse(obj) <==>
              !IsListResponse(rrType) && !IsPaginatedResponse(rrType)
  {
  }

  /** A "PAGINATED_LIST" tag gets the paginated envelope; a "BULK_CREATE" body gets the bulk envelope. */
  lemma RoleExamples(item: Descriptor, payload: Descriptor)
    ensures IsListResponse("PAGINATED_LIST")
    ensures ResponseSchema("PAGINATED_LIST", item) == PaginatedResponse(item)
    ensures RequestSchema("BULK_CREATE", payload) == BulkRequest(payload)
  {
    assert "PAGINATED_LIST"[..9] == "PAGINATED";
    assert "PAGINATED_LIST"[10..] == "LIST";
    assert "BULK_CREATE"[..4] == "BULK";
    PrefixRolesExclusive("BULK_CREATE");
  }

  /** The registry after `add_request_response_schema(definition)`. */
  function RegisterRequest(schemas: map<string, Fragment>, v: DefinitionView): map<string, Fragment> {
    if v.requestBody.Some? then Register(schemas, v.requestComponent, RequestSchema(v.rrType, v.requestBody.value))
    else schemas
  }

  function RegisterSchemas(schemas: map<string, Fragment>, v: DefinitionView): map<string, Fragment> {
    var afterRequest := RegisterRequest(schemas, v);
    if v.responseObj.Some? then Register(afterRequest, v.responseComponent, ResponseSchema(v.rrType, v.responseObj.value))
    else afterRequest
  }

  /**
   * Registration never overwrites, adds a request component exactly when a
   * request body is present and a response component exactly when a response
   * object is present, and stores the chosen shapes under names that were free.
   */
  lemma RegisterSchemasOutcome(schemas: map<string, Fragment>, v: DefinitionView)
    requires v.requestComponent != v.responseComponent
    ensures forall k :: k in schemas ==> k in RegisterSchemas(schemas, v) && RegisterSchemas(schemas, v)[k] == schemas[k]
    ensures RegisterSchemas(schemas, v).Keys ==
              schemas.Keys
              + (if v.requestBody.Some? then {v.requestComponent} else {})
              + (if v.responseObj.Some? then {v.responseComponent} else {})
    ensures v.requestBody.Some? && v.requestComponent !in schemas ==>
              RegisterSchemas(schemas, v)[v.requestComponent] == RequestSchema(v.rrType, v.requestBody.value)
    ensures v.responseObj.Some? && v.responseComponent !in schemas ==>
              RegisterSchemas(schemas, v)[v.responseComponent] == ResponseSchema(v.rrType, v.responseObj.value)
  {
  }

  // ----------------------------------------------------------------------
  // Parameters

  /** `get_tuple_value`: Python indexing, with the default when the index is out of range. */
  function TupleValue<T>(data: seq<T>, index: int, default: T): (r: T)
    ensures 0 <= index < |data| ==> r == data[index]
    ensures -|data| <= index < 0 ==> r == data[|data| + index]
    ensures (index >= |data| || index < -|data|) ==> r == default
  {
    if 0 <= index < |data| then data[index]
    else if -|data| <= index < 0 then data[|data| + index]
    else default
  }

  /** A negative index reads the same item as its non-negative counterpart, never the default. */
  lemma TupleValueNegativeIndex<T>(data: seq<T>, i: int, default: T)
    requires 0 <= i < |data|
    ensures TupleValue(data, i - |data|, default) == TupleValue(data, i, default) == data[i]
  {
  }

  /** An entry contributes a parameter when it is a non-empty tuple. */
  predicate Contributes(e: Entry) {
    e.Tuple? && |e.items| != 0
  }

  /** The parameter built from a non-empty tuple: missing type and required flag take their defaults. */
  function ParameterOf(place: Place, items: seq<Value>): (p: Parameter)
    requires |items| != 0
    ensures p.place == place && p.name == items[0]
    ensures p.dataType == if |items| >= 2 then items[1] else STRING_TYPE
    ensures p.required == if |items| >= 3 then items[2] else Bool(false)
  {
    Parameter(place, TupleValue(items, 0, Null), TupleValue(items, 1, STRING_TYPE), TupleValue(items, 2, Bool(false)))
  }

  /** The parameters one group of entries contributes, in input order. */
  function Contributed(params: seq<Entry>, place: Place): (r: seq<Parameter>)
    ensures |r| <= |params|
    ensures forall i :: 0 <= i < |r| ==> r[i].place == place
  {
    if params == [] then []
    else (if Contributes(params[0]) then [ParameterOf(place, params[0].items)] else [])
         + Contributed(params[1..], place)
  }

  /** Contribution distributes over concatenation: input order is output order. */
  lemma {:induction false} ContributedAppend(a: seq<Entry>, b: seq<Entry>, place: Place)
    ensures Contributed(a + b, place) == Contributed(a, place) + Contributed(b, place)
  {
    if a == [] {
      assert a + b == b;
    } else {
      assert (a + b)[1..] == a[1..] + b;
      ContributedAppend(a[1..], b, place);
    }
  }

  /** A group contributes nothing exactly when none of its entries is a non-empty tuple. */
  lemma {:induction false} ContributedEmpty(params: seq<Entry>, place: Place)
    ensures Contributed(params, place) == [] <==> forall i :: 0 <= i < |params| ==> !Contributes(params[i])
  {
    if params != [] {
      ContributedEmpty(params[1..], place);
      assert forall i :: 1 <= i < |params| ==> params[i] == params[1..][i - 1];
    }
  }

  /** `get_parameters`: query entries, then path entries; None instead of an empty list. */
  function Parameters(queryParam: seq<Entry>, pathParams: seq<Entry>): Option<seq<Parameter>> {
    var all := Contributed(queryParam, Query) + Contributed(pathParams, Path);
    if |all| != 0 then Some(all) else None
  }

  /**
   * The parameter list is omitted exactly when no entry of either group is a
   * non-empty tuple; otherwise the query parameters come first, then the
   * path parameters.
   */
  lemma ParametersShape(queryParam: seq<Entry>, pathParams: seq<Entry>)
    ensures Parameters(queryParam, pathParams) == None <==>
              (forall i :: 0 <= i < |queryParam| ==> !Contributes(queryParam[i])) &&
              (forall i :: 0 <= i < |pathParams| ==> !Contributes(pathParams[i]))
    ensures Parameters(queryParam, pathParams).Some? ==>
              var ps := Parameters(queryParam, pathParams).value;
              var n := |Contributed(queryParam, Query)|;
              n <= |ps| &&
              (forall i :: 0 <= i < n ==> ps[i].place == Query) &&
              (forall i :: n <= i < |ps| ==> ps[i].place == Path)
  {
    ContributedEmpty(queryParam, Query);
    ContributedEmpty(pathParams, Path);
  }

  // ----------------------------------------------------------------------
  // Request body, responses and operations

  /** The request type after `get_request_body`: binary upload wins over form; otherwise untouched. */
  function ResolvedRequestType(rrType: string, current: string): string {
    if IsBinaryUploadRequest(rrType) then MULTIPART_FORM_DATA
    else if IsFormRequest(rrType) then FORM_DATA
    else current
  }

  lemma RequestTypeResolution(rrType: string, current: string)
    ensures IsBinaryUploadRequest(rrType) ==> ResolvedRequestType(rrType, current) == MULTIPART_FORM_DATA
    ensures IsFormRequest(rrType) ==> ResolvedRequestType(rrType, current) == FORM_DATA
    ensures !IsBinaryUploadRequest(rrType) && !IsFormRequest(rrType) ==> ResolvedRequestType(rrType, current) == current
    ensures ResolvedRequestType(rrType, ResolvedRequestType(rrType, current)) == ResolvedRequestType(rrType, current)
  {
    PrefixRolesExclusive(rrType);
  }

  /** The definition as `get_request_body` leaves it. */
  function Resolved(v: DefinitionView): DefinitionView {
    v.(requestType := ResolvedRequestType(v.rrType, v.requestType))
  }

  /** The request body built for a definition whose request type is already resolved. */
  function RequestBodyFor(v: DefinitionView): (r: Option<RequestBodyObject>)
    ensures r.Some? <==> v.requestBody.Some?
    ensures r.Some? ==> r.value.definition == v && (r.value.bulk <==> IsBulkRequest(v.rrType))
  {
    if v.requestBody.Some? then Some(RequestBodyObject(v, IsBulkRequest(v.rrType))) else None
  }

  /** `get_responses`: a response for a response object or a message-only definition. */
  function GetResponses(v: DefinitionView): (r: Option<ResponsesObject>)
    ensures r.Some? <==> v.responseObj.Some? || v.onlyMessage
    ensures r.Some? ==> r.value.definition == v
  {
    if v.responseObj.Some? then Some(ResponsesObject(v))
    else if v.onlyMessage then Some(ResponsesObject(v))
    else None
  }

  /** The Operation Object every method of a (resolved) definition receives. */
  function OperationFor(v: DefinitionView): (op: Operation)
    ensures op.requestBody == RequestBodyFor(v)
    ensures op.responses == GetResponses(v)
    ensures op.tags.Some? <==> |v.tags| != 0
    ensures op.tags.Some? ==> op.tags.value == v.tags
  {
    Operation(RequestBodyFor(v), GetResponses(v), if |v.tags| != 0 then Some(v.tags) else None)
  }

  /** The keys of the operations map: the lower-cased methods. */
  function LoweredMethods(methods: seq<string>): set<string> {
    set m | m in methods :: Lower(m)
  }

  /** `get_operations`: one entry per lower-cased method, None when there are no methods. */
  function Operations(methods: seq<string>, op: Operation): (r: Option<map<string, Operation>>)
    ensures r == None <==> |methods| == 0
    ensures r.Some? ==> forall m :: m in methods ==> Lower(m) in r.value && r.value[Lower(m)] == op
    ensures r.Some? ==> forall k :: k in r.value ==> exists m :: m in methods && Lower(m) == k
  {
    if |methods| == 0 then None
    else
      assert Lower(methods[0]) in LoweredMethods(methods);
      Some(map k | k in LoweredMethods(methods) :: op)
  }

  /** Lower-casing merges methods: there are never more operations than methods. */
  lemma {:induction false} LoweredMethodsBound(methods: seq<string>)
    ensures |LoweredMethods(methods)| <= |methods|
  {
    if methods != [] {
      LoweredMethodsBound(methods[1..]);
      assert LoweredMethods(methods) == LoweredMethods(methods[1..]) + {Lower(methods[0])} by {
        forall k | k in LoweredMethods(methods) ensures k in LoweredMethods(methods[1..]) + {Lower(methods[0])} {
          var m :| m in methods && Lower(m) == k;
          if m != methods[0] {
            assert m in methods[1..];
          }
        }
      }
    }
  }

  /**
   * GET and POST with a response object, no request body and one tag give
   * two operations, "get" and "post", each with responses and the tag and
   * without a request body.
   */
  lemma WidgetsExample(v: DefinitionView, obj: Descriptor)
    requires v.methods == ["GET", "POST"] && v.requestBody == None
    requires v.responseObj == Some(obj) && v.tags == ["widgets"]
    ensures Operations(v.methods, OperationFor(v)).Some?
    ensures Operations(v.methods, OperationFor(v)).value.Keys == {"get", "post"}
    ensures forall k :: k in Operations(v.methods, OperationFor(v)).value ==>
              var op := Operations(v.methods, OperationFor(v)).value[k];
              op.requestBody == None && op.responses.Some? && op.tags == Some(["widgets"])
  {
    assert Lower("GET") == "get";
    assert Lower("POST") == "post";
    var ops := Operations(v.methods, OperationFor(v)).value;
    assert "GET" in v.methods && "POST" in v.methods;
    forall k | k in ops ensures k == "get" || k == "post" {
      var m :| m in v.methods && Lower(m) == k;
    }
  }

  // ----------------------------------------------------------------------
  // The converter

  class PfmsDefinitionToSwagger {
    const specification: ApiSpec

    constructor (specification: ApiSpec)
      ensures this.specification == specification
    {
      this.specification := specification;
    }

    /** Insert-if-absent: an existing component is never overwritten. */
    method AddComponentSchema(key: string, data: Fragment)
      modifies specification
      ensures specification.schemas == Register(old(specification.schemas), key, data)
      ensures specification.paths == old(specification.paths)
    {
      if key !in specification.schemas {
        specification.Schema(key, data);
      }
    }

    /** Registers the two default message and error schemas, each only if absent. */
    method InitDefaultThings()
      modifies specification
      ensures specification.schemas ==
                Register(Register(old(specification.schemas), MESSAGE_RESPONSE, MessageResponse),
                         ERROR_DETAILS_RESPONSE, ErrorResponse)
      ensures specification.paths == old(specification.paths)
    {
      AddComponentSchema(MESSAGE_RESPONSE, MessageResponse);
      AddComponentSchema(ERROR_DETAILS_RESPONSE, ErrorResponse);
    }

    /** Names both components from one random code, `randomCode` standing for `get_random_string(13)`. */
    method PreProcessDefinition(definition: PfmsDefinition, randomCode: string)
      modifies definition`requestComponent, definition`responseComponent
      ensures definition.requestComponent == RequestComponentName(randomCode)
      ensures definition.responseComponent == ResponseComponentName(randomCode)
      ensures definition.requestComponent != definition.responseComponent
    {
      var componentCode := Upper(randomCode);
      definition.requestComponent := "Req" + componentCode;
      definition.responseComponent := "Res" + componentCode;
      ComponentNamesShareCode(randomCode);
    }

    method AddRequestResponseSchema(definition: PfmsDefinition)
      modifies specification
      ensures specification.schemas == RegisterSchemas(old(specification.schemas), definition.View())
      ensures specification.paths == old(specification.paths)
    {
      if definition.requestBody.Some? {
        var req;
        if IsBinaryUploadRequest(definition.rrType) || IsFormRequest(definition.rrType) {
          req := Raw(definition.requestBody.value);
        } else if IsBulkRequest(definition.rrType) {
          req := BulkRequest(definition.requestBody.value);
        } else {
          req := SingleRequest(definition.requestBody.value);
        }
        AddComponentSchema(definition.requestComponent, req);
      }
      if definition.responseObj.Some? {
        var res;
        if IsPaginatedResponse(definition.rrType) {
          res := PaginatedResponse(definition.responseObj.value);
        } else if IsListResponse(definition.rrType) {
          res := BulkSuccessResponse(definition.responseObj.value);
        } else {
          res := DataResponse(definition.responseObj.value);
        }
        AddComponentSchema(definition.responseComponent, res);
      }
    }

    /** `_process_parameters`: appends one parameter per non-empty tuple, in order. */
    method ProcessParameters(params: seq<Entry>, parameters: seq<Parameter>, place: Place)
      returns (result: seq<Parameter>)
      ensures result == parameters + Contributed(params, place)
    {
      result := parameters;
      var i := 0;
      while i < |params|
        invariant 0 <= i <= |params|
        invariant result == parameters + Contributed(params[..i], place)
      {
        var query := params[i];
        if query.Tuple? && |query.items| != 0 {
          var name := TupleValue(query.items, 0, Null);
          var dataType := TupleValue(query.items, 1, STRING_TYPE);
          var isRequired := TupleValue(query.items, 2, Bool(false));
          result := result + [Parameter(place, name, dataType, isRequired)];
        }
        assert params[..i + 1] == params[..i] + [params[i]];
        ContributedAppend(params[..i], [params[i]], place);
        i := i + 1;
      }
      assert params[..i] == params;
    }

    method GetParameters(definition: PfmsDefinition) returns (result: Option<seq<Parameter>>)
      ensures result == Parameters(definition.queryParam, definition.pathParams)
    {
      var parameters := ProcessParameters(definition.queryParam, [], Query);
      parameters := ProcessParameters(definition.pathParams, parameters, Path);
      assert parameters == Contributed(definition.queryParam, Query) + Contributed(definition.pathParams, Path);
      if |parameters| != 0 {
        return Some(parameters);
      }
      return None;
    }

    /** Resolves the request type on the definition, then builds the request body if there is one. */
    method GetRequestBody(definition: PfmsDefinition) returns (result: Option<RequestBodyObject>)
      modifies definition`requestType
      ensures definition.View() == Resolved(old(definition.View()))
      ensures result == RequestBodyFor(definition.View())
    {
      if IsBinaryUploadRequest(definition.rrType) {
        definition.requestType := MULTIPART_FORM_DATA;
      } else if IsFormRequest(definition.rrType) {
        definition.requestType := FORM_DATA;
      }
      if definition.requestBody.Some? {
        return Some(RequestBodyObject(definition.View(), IsBulkRequest(definition.rrType)));
      }
      return None;
    }

    /**
     * One operation per lower-cased method. The request type is resolved once
     * per method, so it changes only when there is at least one method.
     */
    method GetOperations(definition: PfmsDefinition) returns (result: Option<map<string, Operation>>)
      modifies definition`requestType
      ensures |definition.methods| == 0 ==> definition.View() == old(definition.View())
      ensures |definition.methods| != 0 ==> definition.View() == Resolved(old(definition.View()))
      ensures result == Operations(definition.methods, OperationFor(Resolved(old(definition.View()))))
    {
      ghost var resolved := Resolved(definition.View());
      ghost var op := OperationFor(resolved);
      var operations: map<string, Operation> := map[];
      var i := 0;
      while i < |definition.methods|
        invariant 0 <= i <= |definition.methods|
        invariant i == 0 ==> definition.View() == old(definition.View())
        invariant i != 0 ==> definition.View() == resolved
        invariant operations.Keys == LoweredMethods(definition.methods[..i])
        invariant forall k :: k in operations ==> operations[k] == op
      {
        var requestBody := GetRequestBody(definition);
        var responses := GetResponses(definition.View());
        var verb := Lower(definition.methods[i]);
        var operation := Operation(None, None, None);
        if requestBody.Some? {
          operation := operation.(requestBody := requestBody);
        }
        if responses.Some? {
          operation := operation.(responses := responses);
        }
        if |definition.tags| != 0 {
          operation := operation.(tags := Some(definition.tags));
        }
        assert operation == op;
        operations := operations[verb := operation];
        assert LoweredMethods(definition.methods[..i + 1]) == LoweredMethods(definition.methods[..i]) + {verb} by {
          assert definition.methods[..i + 1] == definition.methods[..i] + [definition.methods[i]];
        }
        i := i + 1;
      }
      assert definition.methods[..i] == definition.methods;
      if |definition.methods| != 0 {
        assert Lower(definition.methods[0]) in LoweredMethods(definition.methods);
        assert operations == Operations(definition.methods, op).value;
      }
      if |operations| != 0 {
        return Some(operations);
      }
      return None;
    }

    /** Submits the definition's path with its parameters and operations. */
    method Assemble(definition: PfmsDefinition)
      modifies specification, definition`requestType
      ensures specification.paths == old(specification.paths) + [PathItem(
                definition.url,
                Parameters(definition.queryParam, definition.pathParams),
                Operations(definition.methods, OperationFor(Resolved(old(definition.View())))))]
      ensures specification.schemas == old(specification.schemas)
      ensures |definition.methods| == 0 ==> definition.View() == old(definition.View())
      ensures |definition.methods| != 0 ==> definition.View() == Resolved(old(definition.View()))
    {
      var parameters := GetParameters(definition);
      var operations := GetOperations(definition);
      specification.Path(definition.url, parameters, operations);
    }

    /** The three fixed steps: name the components, register the schemas, assemble the path. */
    method Process(definition: PfmsDefinition, randomCode: string)
      modifies specification, definition`requestComponent, definition`responseComponent, definition`requestType
      ensures definition.requestComponent == RequestComponentName(randomCode)
      ensures definition.responseComponent == ResponseComponentName(randomCode)
      ensures |definition.methods| == 0 ==> definition.View() == Named(old(definition.View()), randomCode)
      ensures |definition.methods| != 0 ==> definition.View() == Resolved(Named(old(definition.View()), randomCode))
      ensures specification.schemas == RegisterSchemas(old(specification.schemas), Named(old(definition.View()), randomCode))
      ensures specification.paths == old(specification.paths) + [PathItem(
                definition.url,
                Parameters(definition.queryParam, definition.pathParams),
                Operations(definition.methods, OperationFor(Resolved(Named(old(definition.View()), randomCode)))))]
    {
      PreProcessDefinition(definition, randomCode);
      AddRequestResponseSchema(definition);
      Assemble(definition);
    }
  }

  /** The definition as pre-processing leaves it. */
  function Named(v: DefinitionView, randomCode: string): DefinitionView {
    v.(requestComponent := RequestComponentName(randomCode), responseComponent := ResponseComponentName(randomCode))
  }

  /**
   * After `process`, each present payload's component holds the shape its role
   * selects, provided its randomly drawn name was not already taken; existing
   * components are untouched.
   */
  lemma ProcessRegistersComponents(schemas: map<string, Fragment>, v: DefinitionView, randomCode: string)
    ensures forall k :: k in schemas ==> RegisterSchemas(schemas, Named(v, randomCode))[k] == schemas[k]
    ensures v.requestBody.Some? && RequestComponentName(randomCode) !in schemas ==>
              RegisterSchemas(schemas, Named(v, randomCode))[RequestComponentName(randomCode)] ==
              RequestSchema(v.rrType, v.requestBody.value)
    ensures v.responseObj.Some? && ResponseComponentName(randomCode) !in schemas ==>
              RegisterSchemas(schemas, Named(v, randomCode))[ResponseComponentName(randomCode)] ==
              ResponseSchema(v.rrType, v.responseObj.value)
  {
    ComponentNamesShareCode(randomCode);
    RegisterSchemasOutcome(schemas, Named(v, randomCode));
  }
}
