# ciolite in Dafny

A model of the core of `ciolite`, the Go client library for the Lite Context.IO
API, with proofs about it. The model covers four pieces of logic:

- **Callback authentication.** `ValidateCallback` signs the decimal timestamp
  followed by the token with HMAC-SHA256 under the stored secret. It writes the
  digest as lowercase hexadecimal and compares that text with the signature.
  `NewCioLite` builds a client with the default host and a 120-second HTTP
  client.
- **Check-then-create of a folder.** `SafeCreateUserEmailAccountFolder` first
  tries a single-folder GET, then searches the folder listing, and creates the
  folder only when neither lookup finds it. It runs against `FolderService`, a
  class that stands for the remote API. The class answers each endpoint with a
  reply fixed in advance, logs every request descriptor it receives and counts
  the creates.
- **Shape-sniffing JSON decoders.** These are the three `UnmarshalJSON` methods
  with pointer receivers. The receiver `*m` is a `Json.Ref` cell, and
  `json.Unmarshal` is an abstract `Decoder`. In the two address types, the exact
  payload `[]` means the zero value. In the attachment type, a payload that does
  not open an object is kept as a raw link.
- **Request descriptors.** `clientRequest` becomes `Requests.ClientRequest`.
  Each endpoint function becomes a function that builds its descriptor.
  - Paths are written as `/`-separated pieces (`Url.Seg`).
  - `url.QueryEscape` and `url.QueryUnescape` are modelled byte for byte.
  - The lemmas give the path's segments (`Url.Segments`). They show that an
    escaped folder name or message id is always exactly one segment.
  - Under form decoding (`url.QueryUnescape`) that segment gives back the name
    exactly. Under path decoding (`url.PathUnescape`, modelled too) a space
    arrives as `+`, because `QueryEscape` writes a space as `+` and path
    decoding keeps `+` as it is.
  - The user id, the account label, the webhook id and the attachment id are
    inserted raw, so they contribute their own segments.

Go strings are byte strings. They are modelled as `GoTypes.GoString`, a sequence
of characters below 256 (one character per byte), so ASCII constants can be
written as Dafny string literals. `hex.EncodeToString`/`hex.DecodeString` and
`strconv.Itoa` are modelled concretely, together with `Strconv.Atoi`, which reads
the decimal text back. HMAC-SHA256 is a parameter of type `Ciolite.HmacSha256`:
any function from key and message to a 32-byte digest.

An empty secret is not rejected: `hashHmac` always returns 64 characters, so the
`len(hash) > 0` guard always holds (`Ciolite.EmptySecretNotRejected`).

Modules, one per Go file plus shared pieces:

- `Wrappers`, `GoTypes`, `Hex`, `Strconv`, `Url` and `Json` model the Go
  standard library pieces used.
- `Requests` holds the descriptor and the shared path prefixes.
- `Addresses` holds the address record.
- `Ciolite` models `ciolite.go`.
- `Folders`, `Webhooks`, `Messages`, `Attachments`, `Body`, `Flags` and
  `Headers` each model the `lite_users_…` source file of the same name.

## Model

| member | source | states |
|---|---|---|
| Ciolite.ValidateCallback | ciolite/ciolite.go:167-172 | The callback check itself, with no contract of its own. Ciolite.ValidateCallbackIff and the rejection lemmas below specify it |
| Ciolite.SignedMessage | ciolite/ciolite.go:169 | The signed text, with no contract of its own. Ciolite.SignedMessageParts specifies it |
| Strconv.Itoa | ciolite/ciolite.go:169 | The decimal text of the timestamp, with no contract of its own. Strconv.AtoiItoa and Strconv.ItoaShape specify it |
| Ciolite.NewCioLite | ciolite/ciolite.go:68-76 | The client keeps the key and the secret unchanged, uses `https://api.context.io` as host, has an HTTP client with a 120-second timeout, and has no hooks |
| Ciolite.HashHmac | ciolite/ciolite.go:175-181 | The hash is 64 characters long and contains only `0-9a-f`, and hex-decoding it gives back exactly the HMAC digest of the message under the secret |
| Ciolite.SignedMessageParts | ciolite/ciolite.go:169 | The signed text is the decimal timestamp followed directly by the token. The timestamp part is `-` and digits for a negative value and digits otherwise, and it parses back to the timestamp. The rest is exactly the token |
| Ciolite.ValidateCallbackIff | ciolite/ciolite.go:167-172 | A callback validates if and only if its signature is lowercase hex whose decoded bytes are the HMAC of the signed message under the stored secret |
| Ciolite.RejectsMalformedSignature | ciolite/ciolite.go:171 | A signature whose length is not 64, or that holds a character outside `0-9a-f`, never validates |
| Ciolite.RejectsUppercaseDigit | ciolite/ciolite.go:171 | A signature with any uppercase hex digit `A`-`F` never validates, even if it spells the right digest |
| Ciolite.EmptySecretNotRejected | ciolite/ciolite.go:170-171 | With an empty stored secret, the correct signature still validates: the non-empty-hash guard never rejects |
| Ciolite.ValidateCallbackUsesOnlySecret | ciolite/ciolite.go:167-172 | Two clients with the same secret give the same verdict whatever their key, host, HTTP client and hooks |
| Ciolite.MessageBoundaryAmbiguous | ciolite/ciolite.go:169 | Timestamp 1 with token "23" and timestamp 12 with token "3" sign the same text, so one signature validates both |
| Hex.EncodeToString | ciolite/ciolite.go:180 | The encoding is twice as long as the digest and holds only lowercase hex digits |
| Hex.DecodeEncode | ciolite/ciolite.go:180 | Hex-decoding the encoding of any byte string gives back that byte string |
| Hex.EncodeDecodeLower | ciolite/ciolite.go:180 | Every lowercase hex text that decodes is the encoding of what it decodes to |
| Hex.EncodeInjective | ciolite/ciolite.go:180 | Different digests always have different encodings |
| Strconv.FormatNat | ciolite/ciolite.go:169 | The decimal text of a natural number is non-empty, is made of digits only, and has no leading zero unless the number is 0 |
| Strconv.DigitsValueFormatNat | ciolite/ciolite.go:169 | The digits of a natural number read back as that number |
| Strconv.AtoiItoa | ciolite/ciolite.go:169 | Parsing `Itoa(i)` gives back `i`, for every integer |
| Strconv.ItoaShape | ciolite/ciolite.go:169 | `Itoa(i)` starts with `-` exactly when `i` is negative, and its remaining characters are digits |
| Url.EscapeByte | ciolite/lite_users_email_accounts_folders.go:70 | One input byte escapes to between 1 and 3 bytes, each an unreserved character, `+` or `%` |
| Url.QueryEscape | ciolite/lite_users_email_accounts_folders.go:70 | The escaped form is at least as long as the input and holds only unreserved characters, `+` and `%` |
| Url.UnescapeEscape | ciolite/lite_users_email_accounts_folders.go:70 | `QueryUnescape(QueryEscape(s))` always succeeds and gives back `s` |
| Url.PathUnescapeEscape | ciolite/lite_users_email_accounts_folders.go:70 | Decoded as a path segment, an escaped name comes back with every space turned into `+` and everything else unchanged |
| Url.PathRoundTripIff | ciolite/lite_users_email_accounts_folders.go:70 | Under path decoding, an escaped name decodes back to itself if and only if it contains no space |
| Url.PathDecodingConflatesSpaceAndPlus | ciolite/lite_users_email_accounts_folders.go:70 | The names " " and "+" escape differently (`+` and `%2B`) but both path-decode to "+" |
| Url.EscapeInjective | ciolite/lite_users_email_accounts_folders.go:70 | Two different names never escape to the same text |
| Url.EscapeUnreserved | ciolite/lite_users_email_accounts_folders.go:70 | Text made only of unreserved characters is left unchanged |
| Url.EscapedIsPathSafe | ciolite/lite_users_email_accounts_folders.go:70 | An escaped name contains none of `/`, `?`, `#` and space |
| Url.SegmentsSeg | ciolite/lite_users_email_accounts_folders.go:70 | Appending `/b` to a path appends the segments of `b` to the path's segments |
| Url.SegmentsSegEscaped | ciolite/lite_users_email_accounts_folders.go:70 | Appending `/` and an escaped name adds exactly one segment, whatever the name holds |
| Requests.UserPathSegments | ciolite/lite_users_webhooks.go:214 | `/lite/users/{userID}` splits into `""`, `lite`, `users` and the segments of the raw user id |
| Requests.AccountPathSegments | ciolite/lite_users_email_accounts_folders.go:48 | `/lite/users/{userID}/email_accounts/{label}` splits into the user segments, `email_accounts` and the segments of the raw label |
| Requests.RawIdSplits | ciolite/lite_users_email_accounts_folders.go:48 | A raw id that contains `/` spreads over at least two segments |
| Requests.AccountSegmentsFree | ciolite/lite_users_email_accounts_folders.go:48 | With `/`-free user id and label, the account prefix is exactly the six segments `""`, `lite`, `users`, userID, `email_accounts`, label |
| Requests.FolderPathSegments | ciolite/lite_users_email_accounts_folders.go:70 | The folder path ends in `folders` and one segment holding the escaped folder name |
| Requests.FolderMessagePathSegments | ciolite/lite_users_email_accounts_folders_messages_body.go:33 | The `/folders/{f}/messages/{m}` prefix adds `folders`, the escaped folder, `messages` and the escaped message id as four segments |
| Requests.FolderMessageSegmentsUnescape | ciolite/lite_users_email_accounts_folders_messages_body.go:33 | Under form decoding, the folder segment and the message segment of that prefix give back the folder name and the message id |
| Folders.GetUserEmailAccountsFoldersRequest | ciolite/lite_users_email_accounts_folders.go:46-52 | The listing descriptor, with no contract of its own. Folders.GetUserEmailAccountsFoldersRequestShape specifies it |
| Folders.GetUserEmailAccountFolderRequest | ciolite/lite_users_email_accounts_folders.go:68-74 | The single-folder descriptor, with no contract of its own. Folders.FolderRequestsShape specifies it |
| Folders.CreateUserEmailAccountFolderRequest | ciolite/lite_users_email_accounts_folders.go:91-97 | The create descriptor, with no contract of its own. Folders.FolderRequestsShape specifies it |
| Folders.GetUserEmailAccountsFoldersRequestShape | ciolite/lite_users_email_accounts_folders.go:43-61 | The listing is a GET ending at `/folders`, with the parameters as query values, no form values, and user id and label tags equal to the arguments |
| Folders.FolderRequestsShape | ciolite/lite_users_email_accounts_folders.go:65-106 | The single-folder GET and the create use the same path, whose last segment is the escaped folder and form-decodes back to it. The GET carries the delimiter as query values and the create (POST) as form values. Both are tagged with the user id and the label |
| Folders.FolderSegmentUnderPathDecoding | ciolite/lite_users_email_accounts_folders.go:70 | A server that path-decodes the folder segment reads the folder name with every space turned into `+` |
| Folders.FolderService.constructor | ciolite/lite_users_email_accounts_folders.go:111-138 | A service starts with the given replies, an empty request log and no creates |
| Folders.FolderService.GetUserEmailAccountFolder | ciolite/lite_users_email_accounts_folders.go:65-83 | Logs the single-folder GET descriptor and answers the configured reply. The create count is unchanged |
| Folders.FolderService.GetUserEmailAccountsFolders | ciolite/lite_users_email_accounts_folders.go:43-61 | Logs the listing descriptor and answers the configured reply. The create count is unchanged |
| Folders.FolderService.CreateUserEmailAccountFolder | ciolite/lite_users_email_accounts_folders.go:88-106 | Logs the create descriptor, answers the configured reply and increments the create counter. The counter keeps matching the log |
| Folders.CreateOutcome | ciolite/lite_users_email_accounts_folders.go:129-137 | A create error is returned as it is. Success false without an error becomes the "Unable to create folder" error. Success gives no error |
| Folders.ListingContains | ciolite/lite_users_email_accounts_folders.go:122-126 | The search answers true exactly when some listing entry's name equals the folder |
| Folders.SafeCreateUserEmailAccountFolder | ciolite/lite_users_email_accounts_folders.go:111-138 | If the single GET succeeds with the exact name: (false, no error) and only that GET is sent. Otherwise, if the listing (names only) succeeds and holds the name: (false, no error) and no create is sent. Otherwise exactly one create is sent and the result is true with the create's error mapping. Lookup errors are never returned |
| Webhooks.UnmarshalJSON | ciolite/lite_users_webhooks.go:191-206 | Exactly `[]` sets the zero addresses with no error. Any other payload is decoded: a decode error is returned and the receiver is unchanged; otherwise the receiver becomes the decoded value |
| Webhooks.GetUserWebhooksRequest | ciolite/lite_users_webhooks.go:212-216 | The listing descriptor, with no contract of its own. Webhooks.WebhookCollectionRequestsShape specifies it |
| Webhooks.CreateUserWebhookRequest | ciolite/lite_users_webhooks.go:254-259 | The create descriptor, with no contract of its own. Webhooks.WebhookCollectionRequestsShape specifies it |
| Webhooks.GetUserWebhookRequest | ciolite/lite_users_webhooks.go:231-235 | The get descriptor, with no contract of its own. Webhooks.WebhookRequestsShape specifies it |
| Webhooks.ModifyUserWebhookRequest | ciolite/lite_users_webhooks.go:275-280 | The modify descriptor, with no contract of its own. Webhooks.WebhookRequestsShape specifies it |
| Webhooks.DeleteUserWebhookAccountRequest | ciolite/lite_users_webhooks.go:295-299 | The delete descriptor, with no contract of its own. Webhooks.WebhookRequestsShape specifies it |
| Webhooks.WebhooksPathSegments | ciolite/lite_users_webhooks.go:214 | `/lite/users/{userID}/webhooks` splits into the user segments and `webhooks` |
| Webhooks.WebhookCollectionRequestsShape | ciolite/lite_users_webhooks.go:209-268 | Listing (GET) and creating (POST) use `/lite/users/{userID}/webhooks`. Only the create carries form values, neither carries query values, and the user id tag is set while the label tag is empty |
| Webhooks.WebhookRequestsShape | ciolite/lite_users_webhooks.go:228-308 | Get, modify and delete use the same path with GET, POST and DELETE. The path's segments are those of the raw user id and raw webhook id. Only the modify carries form values, and the user id tag is set while the label tag is empty |
| Webhooks.RawWebhookIdSplits | ciolite/lite_users_webhooks.go:233 | Because the webhook id is not escaped, an id containing `/` gives the path more segments than a well-formed id |
| Messages.UnmarshalJSON | ciolite/lite_users_email_accounts_messages.go:89-104 | Exactly `[]` sets the zero addresses with no error. Any other payload is decoded: a decode error is returned and the receiver is unchanged; otherwise the receiver becomes the decoded value |
| Messages.GetUserEmailAccountsMessagesRequest | ciolite/lite_users_email_accounts_messages.go:112-118 | The listing descriptor, with no contract of its own. Messages.GetUserEmailAccountsMessagesRequestShape specifies it |
| Messages.GetUserEmailAccountMessageRequest | ciolite/lite_users_email_accounts_messages.go:134-140 | The single-message descriptor, with no contract of its own. Messages.GetUserEmailAccountMessageRequestShape specifies it |
| Messages.MessagesPathSegments | ciolite/lite_users_email_accounts_messages.go:114 | `.../email_accounts/{label}/messages` splits into the account segments and `messages` |
| Messages.GetUserEmailAccountsMessagesRequestShape | ciolite/lite_users_email_accounts_messages.go:109-127 | The listing is a GET whose path ends at `messages` with no further segment. Query values are the parameters, there are no form values, and the tags equal the arguments |
| Messages.GetUserEmailAccountMessageRequestShape | ciolite/lite_users_email_accounts_messages.go:131-149 | The single message is a GET whose path ends in one segment holding the escaped message id, which form-decodes back to the id. Query values are the parameters, there are no form values, and the tags equal the arguments |
| Attachments.UnmarshalJSON | ciolite/lite_users_email_accounts_folders_messages_attachments.go:28-47 | A payload not starting with `{` (including the empty one) gives a zero record whose link is the whole payload, with no error, whatever the receiver held. An object is decoded: a decode error is returned and the receiver is unchanged; otherwise the receiver becomes the decoded value |
| Attachments.GetUserEmailAccountsFolderMessageAttachmentsRequest | ciolite/lite_users_email_accounts_folders_messages_attachments.go:54-60 | The listing descriptor, with no contract of its own. Attachments.GetUserEmailAccountsFolderMessageAttachmentsRequestShape specifies it |
| Attachments.GetUserEmailAccountsFolderMessageAttachmentRequest | ciolite/lite_users_email_accounts_folders_messages_attachments.go:82-88 | The single-attachment descriptor, with no contract of its own. Attachments.GetUserEmailAccountsFolderMessageAttachmentRequestShape specifies it |
| Attachments.AttachmentsPathSegments | ciolite/lite_users_email_accounts_folders_messages_attachments.go:56 | The attachments path is the folder/message prefix followed by `attachments` |
| Attachments.GetUserEmailAccountsFolderMessageAttachmentsRequestShape | ciolite/lite_users_email_accounts_folders_messages_attachments.go:51-69 | The listing is a GET of `.../folders/{esc f}/messages/{esc m}/attachments` with the delimiter as query values, no form values, and tags equal to the arguments |
| Attachments.GetUserEmailAccountsFolderMessageAttachmentRequestShape | ciolite/lite_users_email_accounts_folders_messages_attachments.go:79-97 | The single attachment is a GET whose path continues after `attachments` with the raw attachment id's own segments. Query values are the parameters, there are no form values, and the tags equal the arguments |
| Body.GetUserEmailAccountsFolderMessageBodyRequest | ciolite/lite_users_email_accounts_folders_messages_body.go:31-37 | The body descriptor, with no contract of its own. Body.GetUserEmailAccountsFolderMessageBodyRequestShape specifies it |
| Body.GetUserEmailAccountsFolderMessageBodyRequestShape | ciolite/lite_users_email_accounts_folders_messages_body.go:28-46 | A GET of `.../folders/{esc f}/messages/{esc m}/body`, with the delimiter and type as query values, no form values, and tags equal to the arguments |
| Flags.GetUserEmailAccountsFolderMessageFlagsRequest | ciolite/lite_users_email_accounts_folders_messages_flags.go:30-36 | The flags descriptor, with no contract of its own. Flags.GetUserEmailAccountsFolderMessageFlagsRequestShape specifies it |
| Flags.GetUserEmailAccountsFolderMessageFlagsRequestShape | ciolite/lite_users_email_accounts_folders_messages_flags.go:27-45 | A GET of `.../folders/{esc f}/messages/{esc m}/flags`, with the delimiter as query values, no form values, and tags equal to the arguments |
| Headers.GetUserEmailAccountsFolderMessageHeadersRequest | ciolite/lite_users_email_accounts_folders_messages_headers.go:30-36 | The headers descriptor, with no contract of its own. Headers.GetUserEmailAccountsFolderMessageHeadersRequestShape specifies it |
| Headers.GetUserEmailAccountsFolderMessageHeadersRequestShape | ciolite/lite_users_email_accounts_folders_messages_headers.go:27-45 | A GET of `.../folders/{esc f}/messages/{esc m}/headers`, with the delimiter and raw flag as query values, no form values, and tags equal to the arguments |

## Left out

- The request pipeline `doFormRequest` is not part of this model. That covers URL assembly from the host, request signing, retries, invoking the hooks and decoding the response. The hook fields appear in `Ciolite.CioLite` only as optional function values, and nothing calls them.
- `FolderService` stands in for that pipeline and the remote API. It answers each endpoint with a reply fixed when the service is built, whatever the arguments. The model therefore does not capture a server whose answers depend on the request or change between calls.
- The HTTP transport (`http.Client`) and `NewTestCioLiteServer` are I/O. Only the client's timeout is kept.
- HMAC-SHA256 is a parameter of the model rather than an implementation.
- Ciolite.HashHmac: the `panic` on a failed `Write` is not modelled, because writing to an in-memory hash never fails.
- `json.Unmarshal` is an abstract decoder. The JSON grammar, struct tags and `omitempty` are not modelled, so neither are the response records that are only decoded (webhook, message, body, flags and header responses, and the webhook callback).
- `Address` is declared outside the files modelled here. `Addresses.Address` assumes its two fields are the e-mail address and the display name.
- Strconv.Itoa: Go's `int` is 64 bits wide, while the model's timestamps are unbounded integers. The range restriction is not modelled because it does not change the digits of values inside the range.
- Go's nil slices are not distinguished from empty ones. The zero value of an address list is the empty sequence.
- The `Interface` declaration, the CRUD facade files (users, webhooks, OAuth providers, connect tokens, status callback URL, discovery), and an older variant of the headers endpoint that uses a different request type are not part of this model.
- Requests.FolderMessageSegmentsUnescape: the round trip it states holds under form decoding only. The folder and message ids go into the path via `url.QueryEscape`, which writes a space as `+`. A server that decodes path segments the RFC 3986 way keeps `+` literally and reads "Sent Items" as "Sent+Items"; `Url.PathRoundTripIff` and `Folders.FolderSegmentUnderPathDecoding` state this. How the API server actually decodes its paths is not part of this model.
- Webhooks.RawWebhookIdSplits: the user id, the account label, the webhook id and the attachment id are inserted unescaped, as in the code. The model proves what that does to the segments but does not treat it as a defect, because these ids are generated by the API.
