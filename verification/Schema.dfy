/**
 The tables of the store, as values.

 Rows are named by what identifies them to a reader: an account's user by its username, a change by
 the execution, list, user and direction it records.  Surrogate row ids, profile links and
 wall-clock columns are not represented.
 */
module Schema {

  datatype Option<+T> = None | Some(value: T)

  type AccountId = int
  datatype UploadId = UploadId(n: nat)
  type User = string
  /** Seconds since the epoch. */
  type Time = int

  /** The relationship lists an export can carry. */
  datatype Kind =
    | Followers | Following | CloseFriends | PendingRequests | RecentRequests
    | RecentlyUnfollowed | Blocked | Restricted | RemovedSuggestions | Favourited

  datatype Status = Pending | Processing | Completed | Failed

  datatype ChangeType = Followed | Unfollowed

  datatype Reason = YouBlocked | Renamed | StillFollowed | Vanished | Unknown

  /** Where an execution's date came from. */
  datatype Source = Unset | Manual | Declared | ArchiveEntry | Filename | UploadTime | ProcessingOrder

  datatype Totals = Totals(members: nat, added: nat, removed: nat)

  /** A row of `uploads`.  `totals` are the follower columns mirrored onto the row. */
  datatype Upload = Upload(
    account: AccountId, status: Status, uploadedAt: Time,
    takenAt: Option<Time>, source: Source,
    manualDate: Option<Time>, filenameDate: Option<Time>, allowPartial: bool,
    reprocessAt: Option<Time>,
    sequenceNo: Option<nat>, totals: Totals)

  /** The primary keys of `snapshot_members` and `upload_lists`. */
  datatype MemberKey = MemberKey(upload: UploadId, kind: Kind, user: User)
  datatype ListKey = ListKey(upload: UploadId, kind: Kind)

  /** A row of `changes`: what it records, and what was recorded about it. */
  datatype EventKey = EventKey(upload: UploadId, kind: Kind, user: User, change: ChangeType)
  datatype Event = Event(
    account: AccountId, prev: UploadId,
    reason: Option<Reason>, renamedTo: Option<User>, renamedFrom: Option<User>)

  datatype Db = Db(
    uploads: map<UploadId, Upload>,
    members: map<MemberKey, Option<Time>>,
    lists: map<ListKey, Totals>,
    changes: map<EventKey, Event>)

  /** One entry of a list handed to the store, and one list of an execution. */
  datatype Member = Member(username: User, followedAt: Option<Time>)
  datatype ListSnapshot = ListSnapshot(kind: Kind, members: seq<Member>)
}
