/**
 The two record shapes of the flagging layer, the notification they are sent
 out in, and the default moderation status codes.

 Users, content types and timestamps are opaque: a user is the integer key of
 a user row, a content type the integer key of a content-type row, a timestamp
 an integer. A status is the string code stored in the summary's `status`
 column.
 */
module Models {

  datatype Option<T> = None | Some(value: T)

  type UserId = nat
  type ContentTypeId = nat
  type Timestamp = int
  type StatusCode = string

  /** The (content_type, object_id) pair that identifies a flagged item. */
  datatype ContentKey = ContentKey(contentType: ContentTypeId, objectId: nat)

  /**
   The summary row of one flagged item. Its primary key is its position in the
   summary table.
   */
  datatype FlaggedContent = FlaggedContent(
    key: ContentKey,
    creator: UserId,             // author of the flagged content, kept so it outlives the content
    status: StatusCode,
    moderator: Option<UserId>,   // moderator responsible for the last status change
    count: nat)

  /**
   One flag action. `flaggedContent` is the primary key of its summary row;
   its own primary key is its position in the instance table.
   */
  datatype FlagInstance = FlagInstance(
    flaggedContent: nat,
    user: UserId,
    whenAdded: Timestamp,
    whenRecalled: Option<Timestamp>,
    comment: string)

  /** The "content flagged" notification: the summary and the new instance. */
  datatype ContentFlagged = ContentFlagged(flaggedContent: FlaggedContent, flagInstance: FlagInstance)

  /** Default of the summary's `status` column. */
  const DefaultStatus: StatusCode := "1"

  /** The status choices used when the hosting application configures none. */
  function DefaultStatuses(): seq<(StatusCode, string)>
  {
    [ ("1", "flagged"),
      ("2", "flag rejected by moderator"),
      ("3", "creator notified"),
      ("4", "content removed by creator"),
      ("5", "content removed by moderator") ]
  }

  /** The column default is the first of the default choices, the one labelled "flagged". */
  lemma DefaultStatusIsFirstChoice()
    ensures DefaultStatuses()[0] == (DefaultStatus, "flagged")
  {
  }

  /** The status a new summary gets: the override when one is given, else the column default. */
  function StatusOr(status: Option<StatusCode>): StatusCode
  {
    match status
    case Some(s) => s
    case None => DefaultStatus
  }

  /**
   A summary row as the find-or-create step inserts it: `creator` and the
   optional `status` override from the defaults, every other column at its
   declared default (no moderator, count 1).
   */
  function NewSummary(key: ContentKey, creator: UserId, status: Option<StatusCode>): FlaggedContent
  {
    FlaggedContent(key, creator, StatusOr(status), None, 1)
  }

  /** An instance row as add_flag builds it; `when_recalled` keeps its null default. */
  function NewInstance(flaggedContent: nat, user: UserId, when: Timestamp, comment: string): FlagInstance
  {
    FlagInstance(flaggedContent, user, when, None, comment)
  }
}
