/** The headers of a message in a folder. */
module Headers {
  import opened Wrappers
  import opened GoTypes
  import opened Url
  import opened Requests

  /** Query values of the headers endpoint: the delimiter, and whether to return the raw header block. */
  datatype GetUserEmailAccountsFolderMessageHeadersParams = GetUserEmailAccountsFolderMessageHeadersParams(
    delimiter: GoString,
    raw: bool)

  function GetUserEmailAccountsFolderMessageHeadersRequest(userID: GoString, accountLabel: GoString, folder: GoString, messageID: GoString,
                                                           queryValues: GetUserEmailAccountsFolderMessageHeadersParams)
    : ClientRequest<GetUserEmailAccountsFolderMessageHeadersParams>
  {
    ClientRequest(GET, FolderMessagePath(userID, accountLabel, folder, messageID) + Seg("headers"), Some(queryValues), None, userID, accountLabel)
  }

  /**
   * A GET of `.../folders/{esc folder}/messages/{esc messageID}/headers`, its
   * parameters as query values and no form values, tagged with the user id
   * and the account label.
   */
  lemma GetUserEmailAccountsFolderMessageHeadersRequestShape(userID: GoString, accountLabel: GoString, folder: GoString, messageID: GoString,
                                                             queryValues: GetUserEmailAccountsFolderMessageHeadersParams)
    ensures var r := GetUserEmailAccountsFolderMessageHeadersRequest(userID, accountLabel, folder, messageID, queryValues);
      r.httpMethod == GET && r.queryValues == Some(queryValues) && r.formValues.None?
      && r.userID == userID && r.accountLabel == accountLabel
      && Segments(r.path) == FolderMessageSegments(userID, accountLabel, folder, messageID) + ["headers"]
  {
    FolderMessagePathSegments(userID, accountLabel, folder, messageID);
    SegmentsSegFree(FolderMessagePath(userID, accountLabel, folder, messageID), "headers");
  }
}
