/**
 * The folder endpoints of an e-mail account, and the check-then-create
 * procedure run against a folder service whose replies are fixed in advance.
 */
module Folders {
  import opened Wrappers
  import opened GoTypes
  import opened Url
  import opened Requests

  /** Query values of the folder listing. */
  datatype GetUserEmailAccountsFoldersParams = GetUserEmailAccountsFoldersParams(includeNamesOnly: bool)

  /** One folder as the API describes it. */
  datatype GetUsersEmailAccountFoldersResponse = GetUsersEmailAccountFoldersResponse(
    name: GoString,
    symbolicName: GoString,
    nbMessages: int,
    nbUnseenMessages: int,
    delimiter: GoString,
    resourceURL: GoString)

  /** The optional folder delimiter, sent with single-folder requests. */
  datatype EmailAccountFolderDelimiterParam = EmailAccountFolderDelimiterParam(delimiter: GoString)

  datatype CreateEmailAccountFolderResponse = CreateEmailAccountFolderResponse(success: bool)

  /** `GetUserEmailAccountsFolders`: lists the folders of an account. */
  function GetUserEmailAccountsFoldersRequest(userID: GoString, accountLabel: GoString, queryValues: GetUserEmailAccountsFoldersParams)
    : ClientRequest<GetUserEmailAccountsFoldersParams>
  {
    ClientRequest(GET, AccountPath(userID, accountLabel) + Seg("folders"), Some(queryValues), None, userID, accountLabel)
  }

  /** `GetUserEmailAccountFolder`: describes one folder. */
  function GetUserEmailAccountFolderRequest(userID: GoString, accountLabel: GoString, folder: GoString, queryValues: EmailAccountFolderDelimiterParam)
    : ClientRequest<EmailAccountFolderDelimiterParam>
  {
    ClientRequest(GET, FolderPath(userID, accountLabel, folder), Some(queryValues), None, userID, accountLabel)
  }

  /** `CreateUserEmailAccountFolder`: creates a folder; the server refuses one that exists. */
  function CreateUserEmailAccountFolderRequest(userID: GoString, accountLabel: GoString, folder: GoString, formValues: EmailAccountFolderDelimiterParam)
    : ClientRequest<EmailAccountFolderDelimiterParam>
  {
    ClientRequest(POST, FolderPath(userID, accountLabel, folder), None, Some(formValues), userID, accountLabel)
  }

  /** The listing is a GET of `.../email_accounts/{accountLabel}/folders` with its parameters as query values. */
  lemma GetUserEmailAccountsFoldersRequestShape(userID: GoString, accountLabel: GoString, queryValues: GetUserEmailAccountsFoldersParams)
    ensures var r := GetUserEmailAccountsFoldersRequest(userID, accountLabel, queryValues);
      r.httpMethod == GET && r.queryValues == Some(queryValues) && r.formValues.None?
      && r.userID == userID && r.accountLabel == accountLabel
      && Segments(r.path) == AccountSegments(userID, accountLabel) + ["folders"]
  {
    AccountPathSegments(userID, accountLabel);
    SegmentsSegFree(AccountPath(userID, accountLabel), "folders");
  }

  /**
   * The single-folder GET and the create address the same path, whose last
   * segment is the escaped folder name, which form decoding (`QueryUnescape`)
   * turns back into the name; the GET carries the delimiter as query values,
   * the create as form values.
   */
  lemma FolderRequestsShape(userID: GoString, accountLabel: GoString, folder: GoString, values: EmailAccountFolderDelimiterParam)
    ensures var g := GetUserEmailAccountFolderRequest(userID, accountLabel, folder, values);
      var c := CreateUserEmailAccountFolderRequest(userID, accountLabel, folder, values);
      g.httpMethod == GET && c.httpMethod == POST && g.path == c.path
      && g.queryValues == Some(values) && g.formValues.None?
      && c.formValues == Some(values) && c.queryValues.None?
      && g.userID == c.userID == userID && g.accountLabel == c.accountLabel == accountLabel
      && Segments(g.path) == AccountSegments(userID, accountLabel) + ["folders", QueryEscape(folder)]
      && QueryUnescape(Segments(g.path)[|Segments(g.path)| - 1]) == Some(folder)
  {
    FolderPathSegments(userID, accountLabel, folder);
    UnescapeEscape(folder);
  }

  /**
   * A server that decodes the folder segment as a path segment reads the
   * name with each space turned into `+`: "Sent Items" arrives as "Sent+Items".
   */
  lemma FolderSegmentUnderPathDecoding(userID: GoString, accountLabel: GoString, folder: GoString)
    ensures var s := Segments(FolderPath(userID, accountLabel, folder));
      PathUnescape(s[|s| - 1]) == Some(SpacesAsPlus(folder))
  {
    FolderPathSegments(userID, accountLabel, folder);
    PathUnescapeEscape(folder);
  }

  /** One request the folder service received. */
  datatype FolderCall =
    | GetFolder(ClientRequest<EmailAccountFolderDelimiterParam>)
    | ListFolders(ClientRequest<GetUserEmailAccountsFoldersParams>)
    | CreateFolder(ClientRequest<EmailAccountFolderDelimiterParam>)

  /** How many of `calls` are creates. */
  function CountCreates(calls: seq<FolderCall>): nat {
    if calls == [] then 0
    else CountCreates(calls[..|calls| - 1]) + (if calls[|calls| - 1].CreateFolder? then 1 else 0)
  }

  /**
   * The remote folder API as seen through the request pipeline: each call is
   * logged with its descriptor and answered with the reply configured for
   * that endpoint (`Err` for a transport or API error).
   */
  class FolderService {
    var getReply: Result<GetUsersEmailAccountFoldersResponse, Error>
    var listReply: Result<seq<GetUsersEmailAccountFoldersResponse>, Error>
    var createReply: Result<CreateEmailAccountFolderResponse, Error>
    var calls: seq<FolderCall>
    var createCalls: nat

    /** The create counter agrees with the log. */
    predicate Valid()
      reads this
    {
      createCalls == CountCreates(calls)
    }

    constructor (getReply: Result<GetUsersEmailAccountFoldersResponse, Error>,
                 listReply: Result<seq<GetUsersEmailAccountFoldersResponse>, Error>,
                 createReply: Result<CreateEmailAccountFolderResponse, Error>)
      ensures Valid()
      ensures this.getReply == getReply && this.listReply == listReply && this.createReply == createReply
      ensures calls == [] && createCalls == 0
    {
      this.getReply := getReply;
      this.listReply := listReply;
      this.createReply := createReply;
      calls := [];
      createCalls := 0;
    }

    method GetUserEmailAccountFolder(userID: GoString, accountLabel: GoString, folder: GoString, queryValues: EmailAccountFolderDelimiterParam)
      returns (r: Result<GetUsersEmailAccountFoldersResponse, Error>)
      requires Valid()
      modifies this
      ensures Valid()
      ensures r == getReply
      ensures calls == old(calls) + [GetFolder(GetUserEmailAccountFolderRequest(userID, accountLabel, folder, queryValues))]
      ensures createCalls == old(createCalls)
      ensures getReply == old(getReply) && listReply == old(listReply) && createReply == old(createReply)
    {
      calls := calls + [GetFolder(GetUserEmailAccountFolderRequest(userID, accountLabel, folder, queryValues))];
      assert calls[..|calls| - 1] == old(calls);
      r := getReply;
    }

    method GetUserEmailAccountsFolders(userID: GoString, accountLabel: GoString, queryValues: GetUserEmailAccountsFoldersParams)
      returns (r: Result<seq<GetUsersEmailAccountFoldersResponse>, Error>)
      requires Valid()
      modifies this
      ensures Valid()
      ensures r == listReply
      ensures calls == old(calls) + [ListFolders(GetUserEmailAccountsFoldersRequest(userID, accountLabel, queryValues))]
      ensures createCalls == old(createCalls)
      ensures getReply == old(getReply) && listReply == old(listReply) && createReply == old(createReply)
    {
      calls := calls + [ListFolders(GetUserEmailAccountsFoldersRequest(userID, accountLabel, queryValues))];
      assert calls[..|calls| - 1] == old(calls);
      r := listReply;
    }

    method CreateUserEmailAccountFolder(userID: GoString, accountLabel: GoString, folder: GoString, formValues: EmailAccountFolderDelimiterParam)
      returns (r: Result<CreateEmailAccountFolderResponse, Error>)
      requires Valid()
      modifies this
      ensures Valid()
      ensures r == createReply
      ensures calls == old(calls) + [CreateFolder(CreateUserEmailAccountFolderRequest(userID, accountLabel, folder, formValues))]
      ensures createCalls == old(createCalls) + 1
      ensures getReply == old(getReply) && listReply == old(listReply) && createReply == old(createReply)
    {
      calls := calls + [CreateFolder(CreateUserEmailAccountFolderRequest(userID, accountLabel, folder, formValues))];
      assert calls[..|calls| - 1] == old(calls);
      createCalls := createCalls + 1;
      r := createReply;
    }
  }

  /** The error returned when the create answers without an error but with `success` false. */
  const UnableToCreateFolder := Error("Unable to create folder. CIO returned 200 but with Success=false")

  /** The single-folder GET found the folder: it succeeded and named exactly `folder`. */
  predicate FoundBySingleGet(reply: Result<GetUsersEmailAccountFoldersResponse, Error>, folder: GoString) {
    reply.Ok? && reply.value.name == folder
  }

  /** The listing found the folder: it succeeded and one entry is named exactly `folder`. */
  predicate FoundInListing(reply: Result<seq<GetUsersEmailAccountFoldersResponse>, Error>, folder: GoString) {
    reply.Ok? && exists j :: 0 <= j < |reply.value| && reply.value[j].name == folder
  }

  /** The error the procedure returns after a create. */
  function CreateOutcome(reply: Result<CreateEmailAccountFolderResponse, Error>): (err: Option<Error>)
    ensures reply.Err? ==> err == Some(reply.error)
    ensures reply.Ok? && !reply.value.success ==> err == Some(UnableToCreateFolder)
    ensures reply.Ok? && reply.value.success ==> err.None?
  {
    match reply
    case Err(e) => Some(e)
    case Ok(resp) => if resp.success then None else Some(UnableToCreateFolder)
  }

  /** The search of the listing for an entry named exactly `folder`. */
  method ListingContains(listing: seq<GetUsersEmailAccountFoldersResponse>, folder: GoString) returns (found: bool)
    ensures found <==> exists j :: 0 <= j < |listing| && listing[j].name == folder
  {
    var i := 0;
    while i < |listing|
      invariant 0 <= i <= |listing|
      invariant forall j :: 0 <= j < i ==> listing[j].name != folder
    {
      if listing[i].name == folder {
        return true;
      }
      i := i + 1;
    }
    return false;
  }

  /**
   * `SafeCreateUserEmailAccountFolder`: looks the folder up by a single GET,
   * then in the listing (names only), and creates it only when neither finds
   * it. Lookup errors are never returned; `created` is true exactly when the
   * create was issued, and the error then comes from the create alone.
   */
  method SafeCreateUserEmailAccountFolder(svc: FolderService, userID: GoString, accountLabel: GoString, folder: GoString, formValues: EmailAccountFolderDelimiterParam)
    returns (created: bool, err: Option<Error>)
    requires svc.Valid()
    modifies svc
    ensures svc.Valid()
    ensures svc.getReply == old(svc.getReply) && svc.listReply == old(svc.listReply) && svc.createReply == old(svc.createReply)
    ensures var get := GetFolder(GetUserEmailAccountFolderRequest(userID, accountLabel, folder, formValues));
      var list := ListFolders(GetUserEmailAccountsFoldersRequest(userID, accountLabel, GetUserEmailAccountsFoldersParams(true)));
      var create := CreateFolder(CreateUserEmailAccountFolderRequest(userID, accountLabel, folder, formValues));
      if FoundBySingleGet(old(svc.getReply), folder) then
        !created && err.None? && svc.calls == old(svc.calls) + [get]
      else if FoundInListing(old(svc.listReply), folder) then
        !created && err.None? && svc.calls == old(svc.calls) + [get, list]
      else
        created && err == CreateOutcome(old(svc.createReply)) && svc.calls == old(svc.calls) + [get, list, create]
    ensures svc.createCalls == old(svc.createCalls) + (if created then 1 else 0)
  {
    var existsResponse := svc.GetUserEmailAccountFolder(userID, accountLabel, folder, formValues);
    if existsResponse.Ok? && existsResponse.value.name == folder {
      return false, None;
    }

    var allFolders := svc.GetUserEmailAccountsFolders(userID, accountLabel, GetUserEmailAccountsFoldersParams(true));
    if allFolders.Ok? {
      var found := ListingContains(allFolders.value, folder);
      if found {
        return false, None;
      }
    }

    var createResponse := svc.CreateUserEmailAccountFolder(userID, accountLabel, folder, formValues);
    if createResponse.Err? {
      return true, Some(createResponse.error);
    }
    if !createResponse.value.success {
      return true, Some(UnableToCreateFolder);
    }
    return true, None;
  }
}
