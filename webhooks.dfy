/**
 * Webhooks of a user: the address block of a callback's message data, whose
 * empty form arrives as a JSON array, and the descriptors of the webhook
 * endpoints.
 */
module Webhooks {
  import opened Wrappers
  import opened GoTypes
  import opened Url
  import opened Requests
  import opened Json
  import opened Addresses

  /** `WebhookMessageDataAddresses`: one sender, then lists of addresses. */
  datatype WebhookMessageDataAddresses = WebhookMessageDataAddresses(
    from: Address,
    to: seq<Address>,
    cc: seq<Address>,
    bcc: seq<Address>,
    sender: seq<Address>,
    replyTo: seq<Address>,
    returnPath: seq<Address>)

  /** The zero value of `WebhookMessageDataAddresses`. */
  const ZeroWebhookMessageDataAddresses := WebhookMessageDataAddresses(ZeroAddress, [], [], [], [], [], [])

  /** The exact payload the API sends for an empty address block. */
  const EmptyArray: GoString := "[]"

  /**
   * `(*WebhookMessageDataAddresses).UnmarshalJSON`: exactly `[]` resets the
   * receiver to the zero value; any other payload goes to the structured
   * decoder, whose error is returned with the receiver left as it was, and
   * whose result otherwise replaces the receiver.
   */
  method UnmarshalJSON(m: Ref<WebhookMessageDataAddresses>, b: GoString, decode: Decoder<WebhookMessageDataAddresses>)
    returns (err: Option<Error>)
    modifies m
    ensures b == EmptyArray ==> err.None? && m.value == ZeroWebhookMessageDataAddresses
    ensures b != EmptyArray && decode(b).Err? ==> err == Some(decode(b).error) && m.value == old(m.value)
    ensures b != EmptyArray && decode(b).Ok? ==> err.None? && m.value == decode(b).value
  {
    if b == EmptyArray {
      m.value := ZeroWebhookMessageDataAddresses;
      return None;
    }
    var tmp := decode(b);
    if tmp.Err? {
      return Some(tmp.error);
    }
    m.value := tmp.value;
    return None;
  }

  /** Form values of `CreateUserWebhook`; the callback URL is the required one. */
  datatype CreateUserWebhookParams = CreateUserWebhookParams(
    callbackURL: GoString,
    filterTo: GoString,
    filterFrom: GoString,
    filterCC: GoString,
    filterSubject: GoString,
    filterThread: GoString,
    filterNewImportant: GoString,
    filterFileName: GoString,
    filterFolderAdded: GoString,
    filterToDomain: GoString,
    filterFromDomain: GoString,
    bodyType: GoString,
    includeBody: bool,
    includeHeader: bool,
    receiveDrafts: bool,
    receiveAllChanges: bool,
    receiveHistorical: bool)

  /** Form values of `ModifyUserWebhook`. */
  datatype ModifyUserWebhookParams = ModifyUserWebhookParams(active: bool)

  /** `/lite/users/{userID}/webhooks`. */
  function WebhooksPath(userID: GoString): GoString {
    UserPath(userID) + Seg("webhooks")
  }

  /** `/lite/users/{userID}/webhooks/{webhookID}`, the webhook id inserted as it is. */
  function WebhookPath(userID: GoString, webhookID: GoString): GoString {
    WebhooksPath(userID) + Seg(webhookID)
  }

  function GetUserWebhooksRequest(userID: GoString): ClientRequest<NoValues> {
    ClientRequest(GET, WebhooksPath(userID), None, None, userID, "")
  }

  function GetUserWebhookRequest(userID: GoString, webhookID: GoString): ClientRequest<NoValues> {
    ClientRequest(GET, WebhookPath(userID, webhookID), None, None, userID, "")
  }

  function CreateUserWebhookRequest(userID: GoString, formValues: CreateUserWebhookParams): ClientRequest<CreateUserWebhookParams> {
    ClientRequest(POST, WebhooksPath(userID), None, Some(formValues), userID, "")
  }

  function ModifyUserWebhookRequest(userID: GoString, webhookID: GoString, formValues: ModifyUserWebhookParams): ClientRequest<ModifyUserWebhookParams> {
    ClientRequest(POST, WebhookPath(userID, webhookID), None, Some(formValues), userID, "")
  }

  function DeleteUserWebhookAccountRequest(userID: GoString, webhookID: GoString): ClientRequest<NoValues> {
    ClientRequest(DELETE, WebhookPath(userID, webhookID), None, None, userID, "")
  }

  lemma WebhooksPathSegments(userID: GoString)
    ensures Segments(WebhooksPath(userID)) == UserSegments(userID) + ["webhooks"]
  {
    UserPathSegments(userID);
    SegmentsSegFree(UserPath(userID), "webhooks");
  }

  /**
   * Listing and creating address `/lite/users/{userID}/webhooks`; only the
   * create carries form values, no descriptor carries query values, and the
   * user id tag is set while the account label tag stays empty.
   */
  lemma WebhookCollectionRequestsShape(userID: GoString, formValues: CreateUserWebhookParams)
    ensures var l := GetUserWebhooksRequest(userID);
      var c := CreateUserWebhookRequest(userID, formValues);
      l.httpMethod == GET && c.httpMethod == POST && l.path == c.path
      && Segments(l.path) == UserSegments(userID) + ["webhooks"]
      && l.queryValues.None? && l.formValues.None?
      && c.queryValues.None? && c.formValues == Some(formValues)
      && l.userID == c.userID == userID && l.accountLabel == c.accountLabel == ""
  {
    WebhooksPathSegments(userID);
  }

  /**
   * Get, modify and delete address `/lite/users/{userID}/webhooks/{webhookID}`
   * with GET, POST and DELETE; neither id is escaped, so the path's segments
   * are those of the raw ids; only the modify carries form values.
   */
  lemma WebhookRequestsShape(userID: GoString, webhookID: GoString, formValues: ModifyUserWebhookParams)
    ensures var g := GetUserWebhookRequest(userID, webhookID);
      var m := ModifyUserWebhookRequest(userID, webhookID, formValues);
      var d := DeleteUserWebhookAccountRequest(userID, webhookID);
      g.httpMethod == GET && m.httpMethod == POST && d.httpMethod == DELETE
      && g.path == m.path == d.path
      && Segments(g.path) == UserSegments(userID) + ["webhooks"] + Segments(webhookID)
      && g.queryValues.None? && g.formValues.None?
      && m.queryValues.None? && m.formValues == Some(formValues)
      && d.queryValues.None? && d.formValues.None?
      && g.userID == m.userID == d.userID == userID
      && g.accountLabel == m.accountLabel == d.accountLabel == ""
  {
    WebhooksPathSegments(userID);
    SegmentsSeg(WebhooksPath(userID), webhookID);
  }

  /**
   * Because the webhook id is not escaped, an id holding a `/` reaches past
   * the webhook segment: the path gets more segments than a well-formed id gives.
   */
  lemma RawWebhookIdSplits(userID: GoString, webhookID: GoString)
    requires !SlashFree(webhookID)
    ensures |Segments(WebhookPath(userID, webhookID))| > |UserSegments(userID)| + 2
  {
    WebhooksPathSegments(userID);
    SegmentsSeg(WebhooksPath(userID), webhookID);
    RawIdSplits(webhookID);
  }
}
