/**
 * The admin moderation workflow: the review queue built from pending student and
 * owner profiles, the dashboard statistics, and the approve/reject decisions that
 * write a status to the store and drop the decided entry from the queue.
 */
module AdminDashboard {
  import opened Wrappers
  import opened Seqs

  type Id = string

  /** A row as the store returns it; the workflow looks only at its primary key. */
  datatype Row = Row(id: Id, columns: map<string, string>)

  /** The `type` tags the queue attaches to pending accounts. */
  const StudentTag: string := "student"
  const OwnerTag: string := "owner"

  /** Status values written by the decisions. */
  const Pending: string := "pending"
  const Verified: string := "verified"
  const Rejected: string := "rejected"
  const Published: string := "published"

  /** A pending account in the review queue: its profile row and its `type` tag. */
  datatype PendingUser = PendingUser(row: Row, tag: string)

  /** The dashboard counters; `pendingVerifications` is decremented without a floor. */
  datatype Stats = Stats(totalUsers: nat, totalProperties: nat, totalBookings: nat, pendingVerifications: int)

  /** One update sent to the store: set `column` to `value` in the row of `table` keyed by `id`. */
  datatype Write = Update(table: string, column: string, value: string, id: Id)

  /** How the awaited store call ended: it returned (whatever it returned), or it threw. */
  datatype CallOutcome = Returned | Threw

  /** `rows || []`: a missing query result reads as no rows. */
  function OrEmpty(rows: Option<seq<Row>>): seq<Row> {
    rows.GetOr([])
  }

  /** Every row of `rows` with the tag attached, in order. */
  function Tagged(rows: seq<Row>, tag: string): (r: seq<PendingUser>)
    ensures |r| == |rows|
    ensures forall i :: 0 <= i < |rows| ==> r[i] == PendingUser(rows[i], tag)
  {
    seq(|rows|, i requires 0 <= i < |rows| => PendingUser(rows[i], tag))
  }

  /** The rows of the queue entries, in queue order. */
  function Rows(users: seq<PendingUser>): (r: seq<Row>)
    ensures |r| == |users|
    ensures forall i :: 0 <= i < |users| ==> r[i] == users[i].row
  {
    seq(|users|, i requires 0 <= i < |users| => users[i].row)
  }

  /** The queue entries carrying `tag`, as a filter predicate. */
  function HasTag(tag: string): PendingUser -> bool {
    (u: PendingUser) => u.tag == tag
  }

  /** The profile rows of the queue entries tagged `tag`, in queue order. */
  function RowsTagged(users: seq<PendingUser>, tag: string): seq<Row> {
    Rows(Filter(HasTag(tag), users))
  }

  /**
   * The review queue: all pending students tagged `student`, then all pending
   * owners tagged `owner`; a missing result counts as empty.
   */
  function MergePending(students: Option<seq<Row>>, owners: Option<seq<Row>>): (r: seq<PendingUser>)
    ensures |r| == |OrEmpty(students)| + |OrEmpty(owners)|
    ensures forall i :: 0 <= i < |r| ==> r[i].tag == StudentTag || r[i].tag == OwnerTag
    ensures forall i :: 0 <= i < |OrEmpty(students)| ==> r[i] == PendingUser(OrEmpty(students)[i], StudentTag)
    ensures forall j :: 0 <= j < |OrEmpty(owners)| ==>
              r[|OrEmpty(students)| + j] == PendingUser(OrEmpty(owners)[j], OwnerTag)
  {
    Tagged(OrEmpty(students), StudentTag) + Tagged(OrEmpty(owners), OwnerTag)
  }

  /** Selecting one tag from a run of entries that all carry one tag keeps all or nothing. */
  lemma {:induction false} FilterTagged(rows: seq<Row>, tag: string, wanted: string)
    ensures Filter(HasTag(wanted), Tagged(rows, tag)) == if tag == wanted then Tagged(rows, tag) else []
  {
    if tag == wanted {
      FilterKeepsAll(HasTag(wanted), Tagged(rows, tag));
    } else {
      FilterKeepsNone(HasTag(wanted), Tagged(rows, tag));
    }
  }

  /** The queue gives back the student rows and the owner rows it was built from, each in order. */
  lemma MergeSeparates(students: Option<seq<Row>>, owners: Option<seq<Row>>)
    ensures RowsTagged(MergePending(students, owners), StudentTag) == OrEmpty(students)
    ensures RowsTagged(MergePending(students, owners), OwnerTag) == OrEmpty(owners)
  {
    var s, o := Tagged(OrEmpty(students), StudentTag), Tagged(OrEmpty(owners), OwnerTag);
    FilterConcat(HasTag(StudentTag), s, o);
    FilterConcat(HasTag(OwnerTag), s, o);
    FilterTagged(OrEmpty(students), StudentTag, StudentTag);
    FilterTagged(OrEmpty(owners), OwnerTag, StudentTag);
    FilterTagged(OrEmpty(students), StudentTag, OwnerTag);
    FilterTagged(OrEmpty(owners), OwnerTag, OwnerTag);
  }

  /**
   * The statistics after loading: missing counts read as 0 and the pending
   * counter is the queue length plus the number of pending properties, a missing
   * property result counting as none.
   */
  function LoadedStats(users: seq<PendingUser>, properties: Option<seq<Row>>,
                       userCount: Option<nat>, propertyCount: Option<nat>, bookingCount: Option<nat>): (stats: Stats)
    ensures Agrees(users, OrEmpty(properties), stats)
    ensures stats.totalUsers == (if userCount.Some? then userCount.value else 0)
    ensures stats.totalProperties == (if propertyCount.Some? then propertyCount.value else 0)
    ensures stats.totalBookings == (if bookingCount.Some? then bookingCount.value else 0)
  {
    Stats(userCount.GetOr(0), propertyCount.GetOr(0), bookingCount.GetOr(0), |users| + |OrEmpty(properties)|)
  }

  /** The pending counter agrees with the two lists it summarises. */
  predicate Agrees(users: seq<PendingUser>, properties: seq<Row>, stats: Stats) {
    stats.pendingVerifications == |users| + |properties|
  }

  /** Right after loading, the counter is the number of students, owners and properties awaiting review. */
  lemma LoadedStatsAgree(students: Option<seq<Row>>, owners: Option<seq<Row>>, properties: Option<seq<Row>>,
                         userCount: Option<nat>, propertyCount: Option<nat>, bookingCount: Option<nat>)
    ensures var stats := LoadedStats(MergePending(students, owners), properties, userCount, propertyCount, bookingCount);
            && Agrees(MergePending(students, owners), OrEmpty(properties), stats)
            && stats.pendingVerifications == |OrEmpty(students)| + |OrEmpty(owners)| + |OrEmpty(properties)|
            && stats.totalUsers == (if userCount.Some? then userCount.value else 0)
            && stats.totalProperties == (if propertyCount.Some? then propertyCount.value else 0)
            && stats.totalBookings == (if bookingCount.Some? then bookingCount.value else 0)
  {
  }

  /** The status an account decision writes: `verified` on approval, `rejected` otherwise. */
  function UserStatus(approve: bool): (status: string)
    ensures status != Pending
    ensures status == Verified <==> approve
    ensures status == Rejected <==> !approve
  {
    if approve then Verified else Rejected
  }

  /** The status a listing decision writes: `published` on approval, `rejected` otherwise. */
  function PropertyStatus(approve: bool): (status: string)
    ensures status != Pending
    ensures status == Published <==> approve
    ensures status == Rejected <==> !approve
  {
    if approve then Published else Rejected
  }

  /**
   * The one write an account decision issues: `status` on `student_profiles` for
   * the `student` type, `verification_status` on `owner_profiles` for any other.
   */
  function UserWrite(userId: Id, userType: string, approve: bool): (w: Write)
    ensures w.id == userId && w.value == UserStatus(approve)
    ensures w.table == "student_profiles" <==> userType == StudentTag
    ensures w.table == "student_profiles" ==> w.column == "status"
    ensures w.table != "student_profiles" ==> w.table == "owner_profiles" && w.column == "verification_status"
  {
    if userType == StudentTag then Update("student_profiles", "status", UserStatus(approve), userId)
    else Update("owner_profiles", "verification_status", UserStatus(approve), userId)
  }

  /** The one write a listing decision issues: `status` on `properties`. */
  function PropertyWrite(propertyId: Id, approve: bool): (w: Write)
    ensures w.table == "properties" && w.column == "status" && w.id == propertyId
    ensures w.value == PropertyStatus(approve)
  {
    Update("properties", "status", PropertyStatus(approve), propertyId)
  }

  /** Deciding an entry of the queue writes to the table the entry was read from, keyed by its id. */
  lemma DecisionTargetsSourceTable(students: Option<seq<Row>>, owners: Option<seq<Row>>, k: nat, approve: bool)
    requires k < |MergePending(students, owners)|
    ensures var u := MergePending(students, owners)[k];
            var w := UserWrite(u.row.id, u.tag, approve);
            && w.id == u.row.id
            && (w.value == Verified <==> approve)
            && (k < |OrEmpty(students)| ==> w == Update("student_profiles", "status", UserStatus(approve), OrEmpty(students)[k].id))
            && (k >= |OrEmpty(students)| ==>
                  w == Update("owner_profiles", "verification_status", UserStatus(approve), OrEmpty(owners)[k - |OrEmpty(students)|].id))
  {
  }

  /** Queue entries whose id differs from `id`, as a filter predicate. */
  function UserIdIsNot(id: Id): PendingUser -> bool {
    (u: PendingUser) => u.row.id != id
  }

  /** Queue entries whose id is `id`, as a counting predicate. */
  function UserIdIs(id: Id): PendingUser -> bool {
    (u: PendingUser) => u.row.id == id
  }

  /** Listings whose id differs from `id`, as a filter predicate. */
  function PropertyIdIsNot(id: Id): Row -> bool {
    (p: Row) => p.id != id
  }

  /** Listings whose id is `id`, as a counting predicate. */
  function PropertyIdIs(id: Id): Row -> bool {
    (p: Row) => p.id == id
  }

  /** `pendingUsers.filter(user => user.id !== userId)`. */
  function RemoveUser(users: seq<PendingUser>, id: Id): (r: seq<PendingUser>)
    ensures forall u :: u in r ==> u.row.id != id
    ensures forall u :: u in users && u.row.id != id ==> u in r
    ensures |r| == |users| - Count(UserIdIs(id), users)
  {
    FilterLengthComplement(UserIdIsNot(id), UserIdIs(id), users);
    Filter(UserIdIsNot(id), users)
  }

  /** Removing an id from a queue cut in two removes it from both parts: the rest keep their order. */
  lemma RemoveUserKeepsOrder(a: seq<PendingUser>, b: seq<PendingUser>, id: Id)
    ensures RemoveUser(a + b, id) == RemoveUser(a, id) + RemoveUser(b, id)
  {
    FilterConcat(UserIdIsNot(id), a, b);
  }

  /** `pendingProperties.filter(prop => prop.id !== propertyId)`. */
  function RemoveProperty(properties: seq<Row>, id: Id): (r: seq<Row>)
    ensures forall p :: p in r ==> p.id != id
    ensures forall p :: p in properties && p.id != id ==> p in r
    ensures |r| == |properties| - Count(PropertyIdIs(id), properties)
  {
    FilterLengthComplement(PropertyIdIsNot(id), PropertyIdIs(id), properties);
    Filter(PropertyIdIsNot(id), properties)
  }

  /** Removing an id from a list cut in two removes it from both parts: the rest keep their order. */
  lemma RemovePropertyKeepsOrder(a: seq<Row>, b: seq<Row>, id: Id)
    ensures RemoveProperty(a + b, id) == RemoveProperty(a, id) + RemoveProperty(b, id)
  {
    FilterConcat(PropertyIdIsNot(id), a, b);
  }

  /** The counter after a decision: one less, whatever was removed; the totals untouched. */
  function Decremented(stats: Stats): (r: Stats)
    ensures stats.pendingVerifications - r.pendingVerifications == 1
    ensures r.(pendingVerifications := stats.pendingVerifications) == stats
  {
    stats.(pendingVerifications := stats.pendingVerifications - 1)
  }

  /**
   * A decision on an account keeps the counter in agreement with the lists exactly
   * when the decided id occurred once in the queue: with no match the counter drops
   * below the lists, with several matches it stays above them.
   */
  lemma UserDecisionAgrees(users: seq<PendingUser>, properties: seq<Row>, stats: Stats, id: Id)
    requires Agrees(users, properties, stats)
    ensures Agrees(RemoveUser(users, id), properties, Decremented(stats)) <==> Count(UserIdIs(id), users) == 1
    ensures Count(UserIdIs(id), users) == 0 ==>
              Decremented(stats).pendingVerifications == |RemoveUser(users, id)| + |properties| - 1
    ensures Count(UserIdIs(id), users) >= 2 ==>
              Decremented(stats).pendingVerifications > |RemoveUser(users, id)| + |properties|
  {
  }

  /**
   * A decision on a listing keeps the counter in agreement exactly when the id
   * occurred once; with no match the counter drops below the lists, with several
   * it stays above them.
   */
  lemma PropertyDecisionAgrees(users: seq<PendingUser>, properties: seq<Row>, stats: Stats, id: Id)
    requires Agrees(users, properties, stats)
    ensures Agrees(users, RemoveProperty(properties, id), Decremented(stats)) <==> Count(PropertyIdIs(id), properties) == 1
    ensures Count(PropertyIdIs(id), properties) == 0 ==>
              Decremented(stats).pendingVerifications == |users| + |RemoveProperty(properties, id)| - 1
    ensures Count(PropertyIdIs(id), properties) >= 2 ==>
              Decremented(stats).pendingVerifications > |users| + |RemoveProperty(properties, id)|
  {
  }

  /** The admin dashboard's state: the review queue, the pending listings, the counters and the store writes. */
  class Dashboard {
    var pendingUsers: seq<PendingUser>
    var pendingProperties: seq<Row>
    var stats: Stats
    /** Every update sent to the store, oldest first. */
    var writes: seq<Write>

    /** The dashboard before loading: empty lists and zero counters. */
    constructor ()
      ensures pendingUsers == [] && pendingProperties == []
      ensures stats == Stats(0, 0, 0, 0) && writes == []
      ensures CounterAgrees()
    {
      pendingUsers := [];
      pendingProperties := [];
      stats := Stats(0, 0, 0, 0);
      writes := [];
    }

    /** The pending counter equals the number of entries the two lists show. */
    predicate CounterAgrees()
      reads this
    {
      Agrees(pendingUsers, pendingProperties, stats)
    }

    /**
     * `fetchData`: with no signed-in user nothing changes. Otherwise the queue is
     * replaced by the merged pending students and owners, the pending listings are
     * replaced only when the query returned a list, and the counters are reloaded.
     * The store results are parameters.
     */
    method FetchData(signedIn: bool, students: Option<seq<Row>>, owners: Option<seq<Row>>,
                     properties: Option<seq<Row>>,
                     userCount: Option<nat>, propertyCount: Option<nat>, bookingCount: Option<nat>)
      modifies this
      ensures writes == old(writes)
      ensures !signedIn ==> pendingUsers == old(pendingUsers) && pendingProperties == old(pendingProperties)
                            && stats == old(stats)
      ensures signedIn ==> pendingUsers == MergePending(students, owners)
      ensures signedIn ==> pendingProperties == if properties.Some? then properties.value else old(pendingProperties)
      ensures signedIn ==> stats == LoadedStats(pendingUsers, properties, userCount, propertyCount, bookingCount)
      ensures signedIn && (properties.Some? || old(pendingProperties) == []) ==> CounterAgrees()
    {
      if signedIn {
        var allPendingUsers := MergePending(students, owners);
        pendingUsers := allPendingUsers;
        if properties.Some? {
          pendingProperties := properties.value;
        }
        stats := LoadedStats(allPendingUsers, properties, userCount, propertyCount, bookingCount);
      }
    }

    /**
     * `handleVerifyUser`: issue the one status write; unless the awaited call
     * threw, drop every queue entry with that id and decrement the counter by one.
     */
    method VerifyUser(userId: Id, userType: string, approve: bool, outcome: CallOutcome)
      modifies this
      ensures writes == old(writes) + [UserWrite(userId, userType, approve)]
      ensures pendingProperties == old(pendingProperties)
      ensures outcome == Threw ==> pendingUsers == old(pendingUsers) && stats == old(stats)
      ensures outcome == Returned ==> pendingUsers == RemoveUser(old(pendingUsers), userId)
                                      && stats == Decremented(old(stats))
      ensures outcome == Returned && old(CounterAgrees()) ==>
                (CounterAgrees() <==> Count(UserIdIs(userId), old(pendingUsers)) == 1)
    {
      writes := writes + [UserWrite(userId, userType, approve)];
      if outcome == Returned {
        if CounterAgrees() {
          UserDecisionAgrees(pendingUsers, pendingProperties, stats, userId);
        }
        pendingUsers := RemoveUser(pendingUsers, userId);
        stats := Decremented(stats);
      }
    }

    /**
     * `handleVerifyProperty`: issue the one status write; unless the awaited call
     * threw, drop every listing with that id and decrement the counter by one.
     */
    method VerifyProperty(propertyId: Id, approve: bool, outcome: CallOutcome)
      modifies this
      ensures writes == old(writes) + [PropertyWrite(propertyId, approve)]
      ensures pendingUsers == old(pendingUsers)
      ensures outcome == Threw ==> pendingProperties == old(pendingProperties) && stats == old(stats)
      ensures outcome == Returned ==> pendingProperties == RemoveProperty(old(pendingProperties), propertyId)
                                      && stats == Decremented(old(stats))
      ensures outcome == Returned && old(CounterAgrees()) ==>
                (CounterAgrees() <==> Count(PropertyIdIs(propertyId), old(pendingProperties)) == 1)
    {
      writes := writes + [PropertyWrite(propertyId, approve)];
      if outcome == Returned {
        if CounterAgrees() {
          PropertyDecisionAgrees(pendingUsers, pendingProperties, stats, propertyId);
        }
        pendingProperties := RemoveProperty(pendingProperties, propertyId);
        stats := Decremented(stats);
      }
    }
  }
}
