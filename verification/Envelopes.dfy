/**
 * Schema fragments that end up under `components/schemas`.
 *
 * The payload descriptors (marshmallow schemas supplied by the caller) and the
 * envelope builders of pfms/pfapi/rr are not part of this model: a descriptor is
 * an opaque value, and each builder is a constructor that records which
 * envelope wraps which payload.
 */
module Envelopes {

  /** A caller-supplied request or response payload schema, compared by identity only. */
  datatype Descriptor = Descriptor(name: string)

  datatype Fragment =
    | Raw(body: Descriptor)                  // the request payload itself, no envelope
    | SingleRequest(body: Descriptor)        // single_request(body)
    | BulkRequest(body: Descriptor)          // bulk_request(body)
    | PaginatedResponse(body: Descriptor)    // paginated_response_def(body)
    | BulkSuccessResponse(body: Descriptor)  // bulk_success_data_response_def(body)
    | DataResponse(body: Descriptor)         // data_response_def(body)
    | MessageResponse                        // the MessageResponse schema class
    | ErrorResponse                          // the ErrorResponse schema class
  {
    /** Envelopes built around a request payload. */
    predicate IsRequestShape() {
      Raw? || SingleRequest? || BulkRequest?
    }

    /** Envelopes built around a response payload. */
    predicate IsResponseShape() {
      PaginatedResponse? || BulkSuccessResponse? || DataResponse?
    }
  }
}
