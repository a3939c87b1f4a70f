/** The body of a message in a folder. */
module Body {
  import opened Wrappers
  import opened GoTypes
  import opened Url
  import opened Requests

  /** Query values of the body endpoint: the delimiter and the body type wanted. */
  datatype GetUserEmailAccountsFolderMessageBodyParams = GetUserEmailAccountsFolderMessageBodyParams(
    delimiter: GoString,
    typ: GoString)

  function GetUserEmailAccountsFolderMessageBodyRequest(userID: GoString, accountLabel: GoString, folder: GoString, messageID: GoString,
                                                        queryValues: GetUserEmailAccountsFolderMessageBodyParams)
    : ClientRequest<GetUserEmailAccountsFolderMessageBodyParams>
  {
    ClientRequest(GET, FolderMessagePath(userID, accountLabel, folder, messageID) + Seg("body"), Some(queryValues), None, userID, accountLabel)
  }

  /**
   * A GET of `.../folders/{esc folder}/messages/{esc messageID}/body`, its
   * parameters as query values and no form values, tagged with the user id
   * and the account label.
   */
  lemma GetUserEmailAccountsFolderMessageBodyRequestShape(userID: GoString, accountLabel: GoString, folder: GoString, messageID: GoString,
                                                          queryValues: GetUserEmailAccountsFolderMessageBodyParams)
    ensures var r := GetUserEmailAccountsFolderMessageBodyRequest(userID, accountLabel, folder, messageID, queryValues);
      r.httpMethod == GET && r.queryValues == Some(queryValues) && r.formValues.None?
      && r.userID == userID && r.accountLabel == accountLabel
      && Segments(r.path) == FolderMessageSegments(userID, accountLabel, folder, messageID) + ["body"]
  {
    FolderMessagePathSegments(userID, accountLabel, folder, messageID);
    SegmentsSegFree(FolderMessagePath(userID, accountLabel, folder, messageID), "body");
  }
}
