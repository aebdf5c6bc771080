/**
 * The OpenAPI objects built for a path: parameters, request bodies, responses
 * and per-method operations. The builders of pfms/swagger/pfms_swagger_schemas.py
 * (get_parameter, get_request_body, get_response) and the constants of
 * pfms/swagger/pfms_swagger_cons.py and pfms/common/pfms_data_type.py are not
 * part of this model: each builder is a constructor recording its arguments,
 * and the constants carry stand-in values that no proof depends on.
 */
module SwaggerSchemas {

  import opened Wrappers
  import opened Definition

  /** Where a parameter lives: IN_QUERY or IN_PATH. */
  datatype Place = Query | Path

  /** get_parameter(place, name, data_type, is_required) */
  datatype Parameter = Parameter(place: Place, name: Value, dataType: Value, required: Value)

  /** get_request_body(definition, is_bulk): sees the definition as it is at the call. */
  datatype RequestBodyObject = RequestBodyObject(definition: DefinitionView, bulk: bool)

  /** get_response(definition) */
  datatype ResponsesObject = ResponsesObject(definition: DefinitionView)

  /**
   * An Operation Object (section 4.7.10 of the OpenAPI Specification 3.0)
   * restricted to the three keys the converter may set; `None` means the key
   * is absent from the dict.
   */
  datatype Operation = Operation(
    requestBody: Option<RequestBodyObject>,
    responses: Option<ResponsesObject>,
    tags: Option<seq<string>>)

  /** The default data type of a parameter (`string` of pfms_data_type). */
  const STRING_TYPE: Value := Str("string")

  /** Media types set on the definition for binary uploads and form posts. */
  const MULTIPART_FORM_DATA: string := "multipart/form-data"
  const FORM_DATA: string := "application/x-www-form-urlencoded"

  /** Component names of the two default schemas. */
  const MESSAGE_RESPONSE: string := "MessageResponse"
  const ERROR_DETAILS_RESPONSE: string := "ErrorDetailsResponse"
}
