/** The flags of a message in a folder. */
module Flags {
  import opened Wrappers
  import opened GoTypes
  import opened Url
  import opened Requests
  import opened Folders

  function GetUserEmailAccountsFolderMessageFlagsRequest(userID: GoString, accountLabel: GoString, folder: GoString, messageID: GoString,
                                                         queryValues: EmailAccountFolderDelimiterParam)
    : ClientRequest<EmailAccountFolderDelimiterParam>
  {
    ClientRequest(GET, FolderMessagePath(userID, accountLabel, folder, messageID) + Seg("flags"), Some(queryValues), None, userID, accountLabel)
  }

  /**
   * A GET of `.../folders/{esc folder}/messages/{esc messageID}/flags`, the
   * delimiter as query values and no form values, tagged with the user id
   * and the account label.
   */
  lemma GetUserEmailAccountsFolderMessageFlagsRequestShape(userID: GoString, accountLabel: GoString, folder: GoString, messageID: GoString,
                                                           queryValues: EmailAccountFolderDelimiterParam)
    ensures var r := GetUserEmailAccountsFolderMessageFlagsRequest(userID, accountLabel, folder, messageID, queryValues);
      r.httpMethod == GET && r.queryValues == Some(queryValues) && r.formValues.None?
      && r.userID == userID && r.accountLabel == accountLabel
      && Segments(r.path) == FolderMessageSegments(userID, accountLabel, folder, messageID) + ["flags"]
  {
    FolderMessagePathSegments(userID, accountLabel, folder, messageID);
    SegmentsSegFree(FolderMessagePath(userID, accountLabel, folder, messageID), "flags");
  }
}
