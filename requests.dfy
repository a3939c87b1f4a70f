/**
 * The request descriptor every endpoint function hands to the (unmodelled)
 * request pipeline, and the path prefixes the endpoints share.
 */
module Requests {
  import opened Wrappers
  import opened GoTypes
  import opened Url

  datatype Method = GET | POST | DELETE

  /** The type of the values slot of a descriptor that carries no values. */
  datatype NoValues = NoValues

  /**
   * `clientRequest`: the HTTP method, the path (already formatted), the
   * parameters as query values or as form values, and the user id and account
   * label tags (empty when the endpoint does not set them).
   */
  datatype ClientRequest<V> = ClientRequest(
    httpMethod: Method,
    path: GoString,
    queryValues: Option<V>,
    formValues: Option<V>,
    userID: GoString,
    accountLabel: GoString)

  /** `/lite/users/{userID}`, with `userID` inserted as it is. */
  function UserPath(userID: GoString): GoString {
    Seg("lite") + Seg("users") + Seg(userID)
  }

  /** `/lite/users/{userID}/email_accounts/{accountLabel}`, both inserted as they are. */
  function AccountPath(userID: GoString, accountLabel: GoString): GoString {
    UserPath(userID) + Seg("email_accounts") + Seg(accountLabel)
  }

  /** The segments of `UserPath(userID)`: the raw id contributes its own segments. */
  function UserSegments(userID: GoString): seq<GoString> {
    ["", "lite", "users"] + Segments(userID)
  }

  function AccountSegments(userID: GoString, accountLabel: GoString): seq<GoString> {
    UserSegments(userID) + ["email_accounts"] + Segments(accountLabel)
  }

  lemma UserPathSegments(userID: GoString)
    ensures Segments(UserPath(userID)) == UserSegments(userID)
  {
    var p1 := Seg("lite");
    var p2 := p1 + Seg("users");
    assert Segments(p1) == ["", "lite"] by {
      assert [] + Seg("lite") == p1;
      SegmentsSegFree([], "lite");
    }
    assert Segments(p2) == ["", "lite", "users"] by {
      SegmentsSegFree(p1, "users");
    }
    SegmentsSeg(p2, userID);
  }

  lemma AccountPathSegments(userID: GoString, accountLabel: GoString)
    ensures Segments(AccountPath(userID, accountLabel)) == AccountSegments(userID, accountLabel)
  {
    var p := UserPath(userID) + Seg("email_accounts");
    assert Segments(p) == UserSegments(userID) + ["email_accounts"] by {
      UserPathSegments(userID);
      SegmentsSegFree(UserPath(userID), "email_accounts");
    }
    SegmentsSeg(p, accountLabel);
  }

  /** A raw id that holds a `/` spreads over two or more segments. */
  lemma {:induction false} RawIdSplits(s: GoString)
    requires !SlashFree(s)
    ensures |Segments(s)| >= 2
  {
    if s[0] != '/' {
      RawIdSplits(s[1..]);
    }
  }

  /** A raw `/`-free id is one segment of its own. */
  lemma AccountSegmentsFree(userID: GoString, accountLabel: GoString)
    requires SlashFree(userID) && SlashFree(accountLabel)
    ensures AccountSegments(userID, accountLabel) == ["", "lite", "users", userID, "email_accounts", accountLabel]
  {
    SegmentsSlashFree(userID);
    SegmentsSlashFree(accountLabel);
  }
  /** `.../email_accounts/{accountLabel}/folders/{folder}`, with the folder name escaped. */
  function FolderPath(userID: GoString, accountLabel: GoString, folder: GoString): GoString {
    AccountPath(userID, accountLabel) + Seg("folders") + Seg(QueryEscape(folder))
  }

  /** The folder name takes exactly one segment, whatever it holds. */
  lemma FolderPathSegments(userID: GoString, accountLabel: GoString, folder: GoString)
    ensures Segments(FolderPath(userID, accountLabel, folder)) == AccountSegments(userID, accountLabel) + ["folders", QueryEscape(folder)]
  {
    var p1 := AccountPath(userID, accountLabel) + Seg("folders");
    var a := AccountSegments(userID, accountLabel);
    assert Segments(p1) == a + ["folders"] by {
      AccountPathSegments(userID, accountLabel);
      SegmentsSegFree(AccountPath(userID, accountLabel), "folders");
    }
    SegmentsSegEscaped(p1, folder);
    assert a + ["folders"] + [QueryEscape(folder)] == a + ["folders", QueryEscape(folder)];
  }

  /**
   * `.../folders/{folder}/messages/{messageID}` with the folder and the
   * message id escaped, the prefix of the message content endpoints.
   */
  function FolderMessagePath(userID: GoString, accountLabel: GoString, folder: GoString, messageID: GoString): GoString {
    FolderPath(userID, accountLabel, folder) + Seg("messages") + Seg(QueryEscape(messageID))
  }

  function FolderMessageSegments(userID: GoString, accountLabel: GoString, folder: GoString, messageID: GoString): seq<GoString> {
    AccountSegments(userID, accountLabel) + ["folders", QueryEscape(folder), "messages", QueryEscape(messageID)]
  }

  /** The folder and the message id each take exactly one segment, whatever they hold. */
  lemma FolderMessagePathSegments(userID: GoString, accountLabel: GoString, folder: GoString, messageID: GoString)
    ensures Segments(FolderMessagePath(userID, accountLabel, folder, messageID)) == FolderMessageSegments(userID, accountLabel, folder, messageID)
  {
    var p2 := FolderPath(userID, accountLabel, folder);
    var p3 := p2 + Seg("messages");
    var f := AccountSegments(userID, accountLabel) + ["folders", QueryEscape(folder)];
    assert Segments(p3) == f + ["messages"] by {
      FolderPathSegments(userID, accountLabel, folder);
      SegmentsSegFree(p2, "messages");
    }
    SegmentsSegEscaped(p3, messageID);
    assert f + ["messages"] + [QueryEscape(messageID)] == FolderMessageSegments(userID, accountLabel, folder, messageID);
  }

  /**
   * Under form decoding (`QueryUnescape`) the two escaped segments of the
   * message prefix give back the folder and the message id.
   */
  lemma FolderMessageSegmentsUnescape(userID: GoString, accountLabel: GoString, folder: GoString, messageID: GoString)
    ensures var s := FolderMessageSegments(userID, accountLabel, folder, messageID);
      var n := |AccountSegments(userID, accountLabel)|;
      |s| == n + 4 && QueryUnescape(s[n + 1]) == Some(folder) && QueryUnescape(s[n + 3]) == Some(messageID)
  {
    UnescapeEscape(folder);
    UnescapeEscape(messageID);
  }
}
