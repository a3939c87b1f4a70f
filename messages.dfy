/**
 * Messages of an e-mail account: the address block of a message, whose empty
 * form arrives as a JSON array, and the two message descriptors.
 */
module Messages {
  import opened Wrappers
  import opened GoTypes
  import opened Url
  import opened Requests
  import opened Json
  import opened Addresses

  /** Query values of the message endpoints; `limit` and `offset` only matter to the listing. */
  datatype GetUserEmailAccountsMessageParams = GetUserEmailAccountsMessageParams(
    delimiter: GoString,
    bodyType: GoString,
    includeBody: bool,
    includeFlags: bool,
    includeHeaders: GoString,
    limit: int,
    offset: int)

  /** `GetUsersEmailAccountMessageAddresses`: every role holds a list of addresses. */
  datatype GetUsersEmailAccountMessageAddresses = GetUsersEmailAccountMessageAddresses(
    from: seq<Address>,
    to: seq<Address>,
    cc: seq<Address>,
    bcc: seq<Address>,
    sender: seq<Address>,
    replyTo: seq<Address>)

  /** The zero value of `GetUsersEmailAccountMessageAddresses`. */
  const ZeroGetUsersEmailAccountMessageAddresses := GetUsersEmailAccountMessageAddresses([], [], [], [], [], [])

  /** The exact payload the API sends for an empty address block. */
  const EmptyArray: GoString := "[]"

  /**
   * `(*GetUsersEmailAccountMessageAddresses).UnmarshalJSON`: exactly `[]`
   * resets the receiver to the zero value; any other payload goes to the
   * structured decoder, whose error is returned with the receiver left as it
   * was, and whose result otherwise replaces the receiver.
   */
  method UnmarshalJSON(m: Ref<GetUsersEmailAccountMessageAddresses>, b: GoString, decode: Decoder<GetUsersEmailAccountMessageAddresses>)
    returns (err: Option<Error>)
    modifies m
    ensures b == EmptyArray ==> err.None? && m.value == ZeroGetUsersEmailAccountMessageAddresses
    ensures b != EmptyArray && decode(b).Err? ==> err == Some(decode(b).error) && m.value == old(m.value)
    ensures b != EmptyArray && decode(b).Ok? ==> err.None? && m.value == decode(b).value
  {
    if b == EmptyArray {
      m.value := ZeroGetUsersEmailAccountMessageAddresses;
      return None;
    }
    var tmp := decode(b);
    if tmp.Err? {
      return Some(tmp.error);
    }
    m.value := tmp.value;
    return None;
  }

  /** `/lite/users/{userID}/email_accounts/{accountLabel}/messages`. */
  function MessagesPath(userID: GoString, accountLabel: GoString): GoString {
    AccountPath(userID, accountLabel) + Seg("messages")
  }

  function GetUserEmailAccountsMessagesRequest(userID: GoString, accountLabel: GoString, queryValues: GetUserEmailAccountsMessageParams)
    : ClientRequest<GetUserEmailAccountsMessageParams>
  {
    ClientRequest(GET, MessagesPath(userID, accountLabel), Some(queryValues), None, userID, accountLabel)
  }

  function GetUserEmailAccountMessageRequest(userID: GoString, accountLabel: GoString, messageID: GoString, queryValues: GetUserEmailAccountsMessageParams)
    : ClientRequest<GetUserEmailAccountsMessageParams>
  {
    ClientRequest(GET, MessagesPath(userID, accountLabel) + Seg(QueryEscape(messageID)), Some(queryValues), None, userID, accountLabel)
  }

  lemma MessagesPathSegments(userID: GoString, accountLabel: GoString)
    ensures Segments(MessagesPath(userID, accountLabel)) == AccountSegments(userID, accountLabel) + ["messages"]
  {
    AccountPathSegments(userID, accountLabel);
    SegmentsSegFree(AccountPath(userID, accountLabel), "messages");
  }

  /** The listing is a GET ending at `/messages`, with no further segment. */
  lemma GetUserEmailAccountsMessagesRequestShape(userID: GoString, accountLabel: GoString, queryValues: GetUserEmailAccountsMessageParams)
    ensures var r := GetUserEmailAccountsMessagesRequest(userID, accountLabel, queryValues);
      r.httpMethod == GET && r.queryValues == Some(queryValues) && r.formValues.None?
      && r.userID == userID && r.accountLabel == accountLabel
      && Segments(r.path) == AccountSegments(userID, accountLabel) + ["messages"]
  {
    MessagesPathSegments(userID, accountLabel);
  }

  /**
   * The single message is a GET whose path ends in exactly one segment for
   * the escaped message id, which form decoding (`QueryUnescape`) turns back
   * into the id.
   */
  lemma GetUserEmailAccountMessageRequestShape(userID: GoString, accountLabel: GoString, messageID: GoString, queryValues: GetUserEmailAccountsMessageParams)
    ensures var r := GetUserEmailAccountMessageRequest(userID, accountLabel, messageID, queryValues);
      var s := Segments(r.path);
      r.httpMethod == GET && r.queryValues == Some(queryValues) && r.formValues.None?
      && r.userID == userID && r.accountLabel == accountLabel
      && s == AccountSegments(userID, accountLabel) + ["messages", QueryEscape(messageID)]
      && QueryUnescape(s[|s| - 1]) == Some(messageID)
  {
    var a := AccountSegments(userID, accountLabel);
    MessagesPathSegments(userID, accountLabel);
    SegmentsSegEscaped(MessagesPath(userID, accountLabel), messageID);
    assert a + ["messages"] + [QueryEscape(messageID)] == a + ["messages", QueryEscape(messageID)];
    UnescapeEscape(messageID);
  }
}
