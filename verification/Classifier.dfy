/**
 * The five role predicates over a definition's `rr_type` tag
 * (PFMSDefinitionToSwagger._is_*). Each is one prefix or suffix test.
 */
module Classifier {

  import opened Text

  predicate IsBulkRequest(rrType: string) {
    StartsWith(rrType, "BULK")
  }

  predicate IsBinaryUploadRequest(rrType: string) {
    StartsWith(rrType, "BINARY_UPLOAD")
  }

  predicate IsFormRequest(rrType: string) {
    StartsWith(rrType, "POST_FORM")
  }

  predicate IsListResponse(rrType: string) {
    EndsWith(rrType, "LIST")
  }

  predicate IsPaginatedResponse(rrType: string) {
    StartsWith(rrType, "PAGINATED")
  }

  /**
   * Each predicate holds exactly when the tag is its marker followed, or for
   * the list role preceded, by arbitrary text.
   */
  lemma RolesAreMarkerTests(rrType: string)
    ensures IsBulkRequest(rrType) <==> exists rest :: rrType == "BULK" + rest
    ensures IsBinaryUploadRequest(rrType) <==> exists rest :: rrType == "BINARY_UPLOAD" + rest
    ensures IsFormRequest(rrType) <==> exists rest :: rrType == "POST_FORM" + rest
    ensures IsPaginatedResponse(rrType) <==> exists rest :: rrType == "PAGINATED" + rest
    ensures IsListResponse(rrType) <==> exists front :: rrType == front + "LIST"
  {
    StartsWithIsConcatenation(rrType, "BULK");
    StartsWithIsConcatenation(rrType, "BINARY_UPLOAD");
    StartsWithIsConcatenation(rrType, "POST_FORM");
    StartsWithIsConcatenation(rrType, "PAGINATED");
    EndsWithIsConcatenation(rrType, "LIST");
  }

  /**
   * The four prefix markers disagree within their first two characters, so at
   * most one prefix role holds for any tag; in particular binary upload and
   * form never compete, and bulk never competes with either.
   */
  lemma PrefixRolesExclusive(rrType: string)
    ensures IsBulkRequest(rrType) ==> !IsBinaryUploadRequest(rrType) && !IsFormRequest(rrType) && !IsPaginatedResponse(rrType)
    ensures IsBinaryUploadRequest(rrType) ==> !IsFormRequest(rrType) && !IsPaginatedResponse(rrType)
    ensures IsFormRequest(rrType) ==> !IsPaginatedResponse(rrType)
  {
    if IsBulkRequest(rrType) {
      assert rrType[..4][0] == 'B' && rrType[..4][1] == 'U';
    }
    if IsBinaryUploadRequest(rrType) {
      assert rrType[..13][0] == 'B' && rrType[..13][1] == 'I';
    }
    if IsFormRequest(rrType) {
      assert rrType[..9][1] == 'O';
    }
  }

  /**
   * The list role is independent of the prefix roles: any tag carrying a
   * prefix role keeps it when "LIST" is appended, and then carries the list
   * role as well.
   */
  lemma ListCombinesWithPrefixRoles(rrType: string)
    ensures IsListResponse(rrType + "LIST")
    ensures IsBulkRequest(rrType) ==> IsBulkRequest(rrType + "LIST")
    ensures IsBinaryUploadRequest(rrType) ==> IsBinaryUploadRequest(rrType + "LIST")
    ensures IsFormRequest(rrType) ==> IsFormRequest(rrType + "LIST")
    ensures IsPaginatedResponse(rrType) ==> IsPaginatedResponse(rrType + "LIST")
  {
  }
}
