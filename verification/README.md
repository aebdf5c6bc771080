# pfms definition-to-swagger, modelled in Dafny

This project models `PFMSDefinitionToSwagger` of pf-marshmallow-swagger. The
class turns one endpoint definition into OpenAPI 3 entries: named schemas
under `components/schemas`, and one Path Item whose keys are per-method
Operation Objects (sections 4.7.9 and 4.7.10 of the OpenAPI Specification 3.0).
`process` runs three fixed steps:

1. Pre-processing names the request and response components from one random code.
2. Registration classifies the `rr_type` tag and picks an envelope for the request
   body and for the response object. It registers each one only if its name is free.
3. Assembly builds the parameter list and the method-to-operation map, then
   submits the path.

Files:

- `Wrappers.dfy`: `Option`, standing for Python's `None` or a present value.
- `Text.dfy`: `startswith`, `endswith`, `lower` and `upper`. The prefix and suffix tests are proved equal to "marker followed by text" and "text followed by marker". Upper-casing is proved to keep the length and leave no ASCII lower-case letter. `lower` has no lemma of its own.
- `Envelopes.dfy`: payload descriptors and the schema fragments built around them.
- `Definition.dfy`: the endpoint definition, a class whose component names and request type are updated in place.
- `SwaggerSchemas.dfy`: parameters, request bodies, responses and Operation Objects.
- `Document.dfy`: the shared specification document. It is a class holding the schema registry (a map) and the submitted paths (a sequence).
- `Classifier.dfy`: the five role predicates, and proofs that they are exactly marker tests and that the prefix roles exclude each other.
- `DefinitionToSwagger.dfy`: the specification functions for each step, the lemmas about them, and the class `PfmsDefinitionToSwagger`. Its methods change the document and the definition and are proved against those functions.

Collaborators that are not part of this model are opaque constructors that
record their arguments:

- the envelope builders: `single_request`, `bulk_request`, `paginated_response_def`, `bulk_success_data_response_def` and `data_response_def`;
- `get_parameter`, `get_request_body` and `get_response`;
- the marshmallow `MessageResponse` and `ErrorResponse` classes.

A builder that receives the whole definition receives a `DefinitionView`. This
is a value copy of every field at the moment of the call, so the request body
sees the request type that was resolved just before it was built.

The random code is a parameter of `PreProcessDefinition` and `Process`. It stands
for the result of `get_random_string(13)`.

Pre-processing draws one random code, upper-cases it, and uses it for both
component names. So the names always differ only in their `Req`/`Res` prefix
(`ComponentNamesShareCode`).

## Model

| member | source | states |
|---|---|---|
| `Classifier.RolesAreMarkerTests` | pfms/swagger/pfms_definition_to_swagger.py:32-55 | each of the five role predicates holds exactly when the tag is its marker ("BULK", "BINARY_UPLOAD", "POST_FORM", "PAGINATED") followed by any text, or for the list role any text followed by "LIST" |
| `Classifier.PrefixRolesExclusive` | pfms/swagger/pfms_definition_to_swagger.py:32-55 | at most one prefix role holds for any tag: bulk, binary upload, form and paginated pairwise exclude each other |
| `Classifier.ListCombinesWithPrefixRoles` | pfms/swagger/pfms_definition_to_swagger.py:47-55 | the list role is independent of the prefix roles: appending "LIST" to any tag gives the list role and keeps every prefix role the tag had |
| `DefinitionToSwagger.Register` | pfms/swagger/pfms_definition_to_swagger.py:19-21 | insert-if-absent: the registry gains exactly the key; every existing entry keeps its fragment; an absent key gets the new fragment |
| `DefinitionToSwagger.RegisterIdempotent` | pfms/swagger/pfms_definition_to_swagger.py:19-21 | a second registration under the same name changes nothing, whatever fragment it offers |
| `DefinitionToSwagger.PfmsDefinitionToSwagger.constructor` | pfms/swagger/pfms_definition_to_swagger.py:16-17 | the converter works on the document it is given |
| `DefinitionToSwagger.PfmsDefinitionToSwagger.AddComponentSchema` | pfms/swagger/pfms_definition_to_swagger.py:19-21 | the document's registry becomes the insert-if-absent registration of the key and its paths are unchanged |
| `Document.ApiSpec.Schema` | pfms/swagger/pfms_definition_to_swagger.py:21 | storing a schema requires a name not yet taken, adds that name and fragment to the registry, and leaves the paths alone |
| `DefinitionToSwagger.PfmsDefinitionToSwagger.InitDefaultThings` | pfms/swagger/pfms_definition_to_swagger.py:23-25 | the message schema, then the error-details schema, are each registered only if their names are free |
| `DefinitionToSwagger.ComponentNamesShareCode` | pfms/swagger/pfms_definition_to_swagger.py:27-30 | both component names end in the same upper-cased code, differ from each other, and have 16 characters for a 13-character code |
| `Text.UpperHasNoLowerCase` | pfms/swagger/pfms_definition_to_swagger.py:28 | the upper-cased code keeps its length and holds no lower-case ASCII letter |
| `DefinitionToSwagger.PfmsDefinitionToSwagger.PreProcessDefinition` | pfms/swagger/pfms_definition_to_swagger.py:27-30 | the definition's request component is "Req" and its response component is "Res", each followed by the upper-cased code; the two differ |
| `DefinitionToSwagger.RequestSchemaChoice` | pfms/swagger/pfms_definition_to_swagger.py:57-65 | the request shape always wraps the given body: raw exactly for binary-upload or form tags, bulk exactly for bulk tags, single exactly for the rest |
| `DefinitionToSwagger.ResponseSchemaChoice` | pfms/swagger/pfms_definition_to_swagger.py:67-74 | paginated before list: paginated envelope exactly for paginated tags, bulk-success exactly for list tags that are not paginated, data envelope otherwise |
| `DefinitionToSwagger.RoleExamples` | pfms/swagger/pfms_definition_to_swagger.py:57-74 | "PAGINATED_LIST" ends in LIST but registers the paginated envelope; a "BULK_CREATE" body registers the bulk envelope |
| `DefinitionToSwagger.RegisterSchemasOutcome` | pfms/swagger/pfms_definition_to_swagger.py:57-74 | with distinct names, registration never overwrites, adds the request name exactly when a body is present and the response name exactly when a response object is present, and stores the chosen shape under each free name |
| `DefinitionToSwagger.PfmsDefinitionToSwagger.AddRequestResponseSchema` | pfms/swagger/pfms_definition_to_swagger.py:57-74 | the registry becomes the request registration followed by the response registration of the definition; paths unchanged |
| `DefinitionToSwagger.TupleValueNegativeIndex` | pfms/swagger/pfms_definition_to_swagger.py:76-80 | as in Python indexing, a negative index reads the same item as its non-negative counterpart and never falls back to the default |
| `DefinitionToSwagger.ParameterOf` | pfms/swagger/pfms_definition_to_swagger.py:76-89 | a non-empty tuple gives a parameter at the given place named by its first item; a missing type defaults to `string` and a missing required flag to `False` |
| `DefinitionToSwagger.Contributed` | pfms/swagger/pfms_definition_to_swagger.py:82-90 | a group contributes at most one parameter per entry, all at the group's place |
| `DefinitionToSwagger.ContributedAppend` | pfms/swagger/pfms_definition_to_swagger.py:82-90 | contribution distributes over concatenation, so parameters come out in input order |
| `DefinitionToSwagger.ContributedEmpty` | pfms/swagger/pfms_definition_to_swagger.py:82-90 | a group contributes nothing exactly when none of its entries is a non-empty tuple |
| `DefinitionToSwagger.PfmsDefinitionToSwagger.ProcessParameters` | pfms/swagger/pfms_definition_to_swagger.py:82-90 | the loop leaves the given list followed by the group's contributed parameters |
| `DefinitionToSwagger.ParametersShape` | pfms/swagger/pfms_definition_to_swagger.py:92-99 | parameters are omitted (None, not an empty list) exactly when no entry of either group is a non-empty tuple; otherwise query parameters come first, then path parameters |
| `DefinitionToSwagger.PfmsDefinitionToSwagger.GetParameters` | pfms/swagger/pfms_definition_to_swagger.py:92-99 | the result is the query group's parameters followed by the path group's, or None when that is empty |
| `DefinitionToSwagger.RequestTypeResolution` | pfms/swagger/pfms_definition_to_swagger.py:101-105 | a binary-upload tag sets multipart form data, a form tag sets form data, any other tag leaves the request type; resolving twice equals resolving once |
| `DefinitionToSwagger.RequestBodyFor` | pfms/swagger/pfms_definition_to_swagger.py:106-108 | a request body exists exactly when the definition has one, is built from the definition as it stands, and is flagged bulk exactly for bulk tags |
| `DefinitionToSwagger.PfmsDefinitionToSwagger.GetRequestBody` | pfms/swagger/pfms_definition_to_swagger.py:101-108 | the definition's request type is resolved and nothing else changes; the result is the request body of the resolved definition |
| `DefinitionToSwagger.GetResponses` | pfms/swagger/pfms_definition_to_swagger.py:110-115 | a response exists exactly when a response object is present or the definition is message-only |
| `DefinitionToSwagger.OperationFor` | pfms/swagger/pfms_definition_to_swagger.py:123-129 | an operation carries the request body and responses when present and the tags only when non-empty; it may be empty |
| `DefinitionToSwagger.Operations` | pfms/swagger/pfms_definition_to_swagger.py:117-132 | None exactly when there are no methods; otherwise every lower-cased method is a key holding the operation and every key is some method lower-cased |
| `DefinitionToSwagger.LoweredMethodsBound` | pfms/swagger/pfms_definition_to_swagger.py:119-127 | lower-casing can only merge methods: there are never more operations than methods |
| `DefinitionToSwagger.WidgetsExample` | pfms/swagger/pfms_definition_to_swagger.py:117-132 | GET and POST with a response object, no body and tag "widgets" give exactly "get" and "post", each with responses and the tag and without a request body |
| `DefinitionToSwagger.PfmsDefinitionToSwagger.GetOperations` | pfms/swagger/pfms_definition_to_swagger.py:117-132 | the result is one operation per lower-cased method, or None for no methods; the request type is resolved only when there is at least one method |
| `Document.ApiSpec.Path` | pfms/swagger/pfms_definition_to_swagger.py:135-139 | submitting a path appends exactly that Path Item and leaves the schemas alone |
| `DefinitionToSwagger.PfmsDefinitionToSwagger.Assemble` | pfms/swagger/pfms_definition_to_swagger.py:134-139 | appends one Path Item with the URL, the parameters and the operations; schemas unchanged |
| `DefinitionToSwagger.PfmsDefinitionToSwagger.Process` | pfms/swagger/pfms_definition_to_swagger.py:141-144 | pre-process, then register, then assemble: the names come from the code, the registry gets the named definition's schemas, one path is appended, and the request type is resolved exactly when there is at least one method |
| `DefinitionToSwagger.ProcessRegistersComponents` | pfms/swagger/pfms_definition_to_swagger.py:141-144 | after processing, existing components are untouched, and each present payload's freshly named component holds the shape its role selects |

## Left out

- The specification document's library (apispec): its validation, serialization and merging of paths are not modelled. A path submission is one appended record. Storing a schema under a name already taken is a precondition violation in the model, standing for the library's refusal of duplicate names; the library's error itself is not modelled.
- The envelope and schema builders, and `get_parameter`, `get_request_body` and `get_response`. Their source is not part of this model. Each is a constructor that records its arguments.
- The constants `MESSAGE_RESPONSE`, `ERROR_DETAILS_RESPONSE`, `MULTIPART_FORM_DATA`, `FORM_DATA` and the `string` data type. Their source files are not part of this model. Their values are stand-ins, and no proof depends on the text.
- `get_random_string`: randomness is a parameter. Names are unique across definitions only with high probability, and the model does not capture that.
- Python truthiness. A payload is truthy exactly when it is present (`Option`). A missing `query_param`/`path_params` list is the empty sequence. A non-tuple entry is `NotATuple`. The built request body and responses are treated as always truthy.
- `str.lower` and `str.upper` are modelled for ASCII letters only. Unicode case mapping is not modelled.
- `methods` is a sequence in iteration order. All operations are equal, so the order does not change the resulting map.
- `_process_parameters` mutates the caller's list. The model passes the list in and returns the extended list, so aliasing of that list is not modelled.
- Exceptions raised by collaborators, and concurrent use of the shared document, are not modelled.
