/**
 * Attachments of a message: the attachment record, which also stands for the
 * raw link the API returns when asked for one, and the two descriptors.
 */
module Attachments {
  import opened Wrappers
  import opened GoTypes
  import opened Url
  import opened Requests
  import opened Json
  import opened Folders

  /**
   * `GetUserEmailAccountsFolderMessageAttachmentsResponse`: the attachment's
   * metadata, or, when a link was requested, only `attachmentLink`.
   */
  datatype GetUserEmailAccountsFolderMessageAttachmentsResponse = GetUserEmailAccountsFolderMessageAttachmentsResponse(
    typ: GoString,
    fileName: GoString,
    bodySection: GoString,
    contentDisposition: GoString,
    messageID: GoString,
    xAttachmentID: GoString,
    size: int,
    attachmentID: int,
    attachmentLink: GoString)

  /** The zero value of the attachment record. */
  const ZeroAttachment := GetUserEmailAccountsFolderMessageAttachmentsResponse("", "", "", "", "", "", 0, 0, "")

  /** `bytes.HasPrefix(b, "{")`: the payload is a JSON object. */
  predicate StartsObject(b: GoString) {
    |b| >= 1 && b[0] == '{'
  }

  /**
   * `(*GetUserEmailAccountsFolderMessageAttachmentsResponse).UnmarshalJSON`: a
   * payload that does not open an object (the empty one included) becomes the
   * link of an otherwise zero record, without error; an object goes to the
   * structured decoder, whose error is returned with the receiver left as it
   * was, and whose result otherwise replaces the receiver.
   */
  method UnmarshalJSON(m: Ref<GetUserEmailAccountsFolderMessageAttachmentsResponse>, b: GoString,
                       decode: Decoder<GetUserEmailAccountsFolderMessageAttachmentsResponse>)
    returns (err: Option<Error>)
    modifies m
    ensures !StartsObject(b) ==> err.None? && m.value == ZeroAttachment.(attachmentLink := b)
    ensures StartsObject(b) && decode(b).Err? ==> err == Some(decode(b).error) && m.value == old(m.value)
    ensures StartsObject(b) && decode(b).Ok? ==> err.None? && m.value == decode(b).value
  {
    if !StartsObject(b) {
      m.value := ZeroAttachment;
      m.value := m.value.(attachmentLink := b);
      return None;
    }
    var tmp := decode(b);
    if tmp.Err? {
      return Some(tmp.error);
    }
    m.value := tmp.value;
    return None;
  }

  /** Query values of the single-attachment endpoint. */
  datatype GetUserEmailAccountsFolderMessageAttachmentParam = GetUserEmailAccountsFolderMessageAttachmentParam(
    delimiter: GoString,
    asLink: bool)

  /** `.../folders/{folder}/messages/{messageID}/attachments`. */
  function AttachmentsPath(userID: GoString, accountLabel: GoString, folder: GoString, messageID: GoString): GoString {
    FolderMessagePath(userID, accountLabel, folder, messageID) + Seg("attachments")
  }

  function GetUserEmailAccountsFolderMessageAttachmentsRequest(userID: GoString, accountLabel: GoString, folder: GoString, messageID: GoString,
                                                               queryValues: EmailAccountFolderDelimiterParam)
    : ClientRequest<EmailAccountFolderDelimiterParam>
  {
    ClientRequest(GET, AttachmentsPath(userID, accountLabel, folder, messageID), Some(queryValues), None, userID, accountLabel)
  }

  /** The attachment id is appended as it is, after the escaped folder and message id. */
  function GetUserEmailAccountsFolderMessageAttachmentRequest(userID: GoString, accountLabel: GoString, folder: GoString, messageID: GoString,
                                                              attachmentID: GoString, queryValues: GetUserEmailAccountsFolderMessageAttachmentParam)
    : ClientRequest<GetUserEmailAccountsFolderMessageAttachmentParam>
  {
    ClientRequest(GET, AttachmentsPath(userID, accountLabel, folder, messageID) + Seg(attachmentID), Some(queryValues), None, userID, accountLabel)
  }

  lemma AttachmentsPathSegments(userID: GoString, accountLabel: GoString, folder: GoString, messageID: GoString)
    ensures Segments(AttachmentsPath(userID, accountLabel, folder, messageID))
         == FolderMessageSegments(userID, accountLabel, folder, messageID) + ["attachments"]
  {
    FolderMessagePathSegments(userID, accountLabel, folder, messageID);
    SegmentsSegFree(FolderMessagePath(userID, accountLabel, folder, messageID), "attachments");
  }

  /**
   * The listing is a GET of `.../folders/{esc folder}/messages/{esc messageID}/attachments`
   * with the delimiter as query values.
   */
  lemma GetUserEmailAccountsFolderMessageAttachmentsRequestShape(userID: GoString, accountLabel: GoString, folder: GoString, messageID: GoString,
                                                                 queryValues: EmailAccountFolderDelimiterParam)
    ensures var r := GetUserEmailAccountsFolderMessageAttachmentsRequest(userID, accountLabel, folder, messageID, queryValues);
      r.httpMethod == GET && r.queryValues == Some(queryValues) && r.formValues.None?
      && r.userID == userID && r.accountLabel == accountLabel
      && Segments(r.path) == FolderMessageSegments(userID, accountLabel, folder, messageID) + ["attachments"]
  {
    AttachmentsPathSegments(userID, accountLabel, folder, messageID);
  }

  /**
   * The single attachment adds the raw attachment id after `/attachments`: its
   * segments are the id's own, so a `/`-free id is exactly one final segment.
   */
  lemma GetUserEmailAccountsFolderMessageAttachmentRequestShape(userID: GoString, accountLabel: GoString, folder: GoString, messageID: GoString,
                                                                attachmentID: GoString, queryValues: GetUserEmailAccountsFolderMessageAttachmentParam)
    ensures var r := GetUserEmailAccountsFolderMessageAttachmentRequest(userID, accountLabel, folder, messageID, attachmentID, queryValues);
      r.httpMethod == GET && r.queryValues == Some(queryValues) && r.formValues.None?
      && r.userID == userID && r.accountLabel == accountLabel
      && Segments(r.path) == FolderMessageSegments(userID, accountLabel, folder, messageID) + ["attachments"] + Segments(attachmentID)
  {
    AttachmentsPathSegments(userID, accountLabel, folder, messageID);
    SegmentsSeg(AttachmentsPath(userID, accountLabel, folder, messageID), attachmentID);
  }
}
