/**
 * `LeetcodeLocalRepositoryImpl`: the local profile cache. Six tables keyed by
 * username (user, question status, calendar, recent submissions, contest
 * ranking, badges) with get, save, delete, delete-all, per-user deletion across
 * all tables, clearing, and the expiry sweep.
 *
 * Every DAO call may throw. A `FaultPlan` says which DAO call of an operation,
 * counted from 0 in the order the operation makes them, throws first, and with
 * which message; `None` means no call throws. Reads turn the exception into an
 * `Error`; writes let it propagate (`Threw`), keeping the calls already made.
 */
module LocalRepository {
  import opened Wrappers
  import opened Resources

  /** A cached row: its key, the time it was fetched, and its other columns, carried opaquely. */
  datatype Entity = Entity(username: string, lastFetchTime: int, columns: string)

  /** The user-info domain model; its username is nullable. */
  datatype UserInfo = UserInfo(username: Option<string>, profile: string)

  /** `LeetCodeUserEntity.fromDomainModel(info, now)`. */
  function FromDomainModel(info: UserInfo, now: int): Entity
    requires info.username.Some?
  {
    Entity(info.username.value, now, info.profile)
  }

  /** `LeetCodeUserEntity.toDomainModel()`. */
  function ToDomainModel(e: Entity): UserInfo {
    UserInfo(Some(e.username), e.columns)
  }

  datatype Fault = Fault(call: nat, message: Option<string>)

  type FaultPlan = Option<Fault>

  /** How a writing operation ends: normally, or with the DAO's exception propagated. */
  datatype Completion = Completed | Threw(message: Option<string>)

  predicate FailsAt(plan: FaultPlan, call: nat) {
    plan.Some? && plan.value.call == call
  }

  /** The same plan seen from `n` calls later. */
  function Shift(plan: FaultPlan, n: nat): FaultPlan {
    if plan.Some? && plan.value.call >= n then Some(Fault(plan.value.call - n, plan.value.message)) else None
  }

  lemma ShiftShift(plan: FaultPlan, a: nat, b: nat)
    ensures Shift(Shift(plan, a), b) == Shift(plan, a + b)
  {
  }

  function Thrown(plan: FaultPlan): Completion
    requires plan.Some?
  {
    Threw(plan.value.message)
  }

  const UserNotFoundError: string := "User not found in cache"
  const DataNotFoundError: string := "Data not found in cache"
  const QuestionStatusNotFoundError: string := "User Question Status not found in cache"
  const CalendarNotFoundError: string := "User Profile Calendar not found in cache"
  const ContestRankingNotFoundError: string := "User Contest Ranking not found in cache"
  const BadgesNotFoundError: string := "User Badges not found in cache"

  /** `"Database error: ${e.message}"`; a null message is rendered as "null". */
  function DatabaseError(message: Option<string>): string {
    "Database error: " + message.GetOr("null")
  }

  type Table = map<string, Entity>

  /** What a single-row read returns: the row, the table's not-found error, or the storage error. */
  ghost predicate IsLookup<T>(r: Resource<T>, table: Table, username: string, plan: FaultPlan,
                              notFound: string, convert: Entity -> T)
  {
    if FailsAt(plan, 0) then r == Error(DatabaseError(plan.value.message), None)
    else if username in table then r == Success(convert(table[username]))
    else r == Error(notFound, None)
  }

  /** What a `getLast*FetchTime` returns: the row's fetch time; null when absent and on a storage error. */
  ghost predicate IsFetchTime(t: Option<int>, table: Table, username: string, plan: FaultPlan) {
    if !FailsAt(plan, 0) && username in table then t == Some(table[username].lastFetchTime) else t == None
  }

  /** The six tables, in the order `deleteUser` and `clearCache` visit them. */
  datatype Store = Store(
    users: Table,
    questionStatus: Table,
    calendars: Table,
    recentSubmissions: Table,
    contestRankings: Table,
    badges: Table)
  {
    /** The store with `username`'s row deleted from the first `n` tables. */
    function Without(username: string, n: nat): Store {
      Store(
        if 0 < n then users - {username} else users,
        if 1 < n then questionStatus - {username} else questionStatus,
        if 2 < n then calendars - {username} else calendars,
        if 3 < n then recentSubmissions - {username} else recentSubmissions,
        if 4 < n then contestRankings - {username} else contestRankings,
        if 5 < n then badges - {username} else badges)
    }

    /** The store with the first `n` tables emptied. */
    function Cleared(n: nat): Store {
      Store(
        if 0 < n then map[] else users,
        if 1 < n then map[] else questionStatus,
        if 2 < n then map[] else calendars,
        if 3 < n then map[] else recentSubmissions,
        if 4 < n then map[] else contestRankings,
        if 5 < n then map[] else badges)
    }

    /** The store with every row of the given usernames deleted from every table. */
    function Minus(names: set<string>): Store {
      Store(users - names, questionStatus - names, calendars - names,
            recentSubmissions - names, contestRankings - names, badges - names)
    }

    /** `username` has no row in any table. */
    predicate Forgets(username: string) {
      && username !in users && username !in questionStatus && username !in calendars
      && username !in recentSubmissions && username !in contestRankings && username !in badges
    }

    /** `username` has the same rows here as in `other`. */
    predicate SameRows(other: Store, username: string) {
      && Agree(users, other.users, username)
      && Agree(questionStatus, other.questionStatus, username)
      && Agree(calendars, other.calendars, username)
      && Agree(recentSubmissions, other.recentSubmissions, username)
      && Agree(contestRankings, other.contestRankings, username)
      && Agree(badges, other.badges, username)
    }

    function AllEmpty(): bool {
      users == questionStatus == calendars == recentSubmissions == contestRankings == badges == map[]
    }
  }

  predicate Agree(a: Table, b: Table, username: string) {
    (username in a <==> username in b) && (username in a ==> a[username] == b[username])
  }

  /**
   * `deleteUser(username)`: six deletions in table order; when call `c < 6`
   * throws, the first `c` are done and the exception propagates.
   */
  function DeleteUserFrom(s: Store, username: string, plan: FaultPlan): (out: (Store, Completion))
    ensures out.1.Completed? <==> !(plan.Some? && plan.value.call < 6)
    ensures out.1.Completed? ==> out.0 == s.Minus({username}) && out.0.Forgets(username)
    ensures forall other :: other != username ==> out.0.SameRows(s, other)
  {
    if plan.Some? && plan.value.call < 6 then (s.Without(username, plan.value.call), Thrown(plan))
    else (s.Without(username, 6), Completed)
  }

  /** `clearCache()`: six delete-alls in table order; a throwing call stops the rest. */
  function ClearFrom(s: Store, plan: FaultPlan): (out: (Store, Completion))
    ensures out.1.Completed? <==> !(plan.Some? && plan.value.call < 6)
    ensures out.1.Completed? ==> out.0.AllEmpty()
  {
    if plan.Some? && plan.value.call < 6 then (s.Cleared(plan.value.call), Thrown(plan))
    else (s.Cleared(6), Completed)
  }

  /**
   * The sweep over the expired usernames in the order the DAO lists them:
   * `deleteUser` for each, six DAO calls apiece, stopping at the first exception.
   */
  function Sweep(s: Store, order: seq<string>, plan: FaultPlan): (Store, Completion)
    decreases |order|
  {
    if order == [] then (s, Completed)
    else
      var (s1, done) := DeleteUserFrom(s, order[0], plan);
      if done.Threw? then (s1, done) else Sweep(s1, order[1..], Shift(plan, 6))
  }

  lemma MinusUnion(s: Store, a: set<string>, b: set<string>)
    ensures s.Minus(a).Minus(b) == s.Minus(a + b)
  {
  }

  /** The usernames a list mentions. */
  function Names(xs: seq<string>): set<string> {
    set u | u in xs
  }

  lemma NamesOfTail(xs: seq<string>, k: nat)
    requires 1 <= k <= |xs|
    ensures Names(xs[..k]) == {xs[0]} + Names(xs[1..][..k - 1])
  {
    assert xs[..k] == [xs[0]] + xs[1..][..k - 1];
  }

  /** Without a throwing call within its `6 * |order|` DAO calls, the sweep deletes every listed user everywhere. */
  lemma {:induction false} SweepCompletes(s: Store, order: seq<string>, plan: FaultPlan)
    requires !(plan.Some? && plan.value.call < 6 * |order|)
    ensures Sweep(s, order, plan) == (s.Minus(Names(order)), Completed)
    decreases |order|
  {
    if order == [] {
      assert Names(order) == {};
      assert s.Minus({}) == s;
    } else {
      var u := order[0];
      assert DeleteUserFrom(s, u, plan) == (s.Minus({u}), Completed);
      assert Sweep(s, order, plan) == Sweep(s.Minus({u}), order[1..], Shift(plan, 6));
      SweepCompletes(s.Minus({u}), order[1..], Shift(plan, 6));
      NamesOfTail(order, |order|);
      assert order[..|order|] == order;
      assert order[1..][..|order| - 1] == order[1..];
      assert Names(order) == {u} + Names(order[1..]);
      MinusUnion(s, {u}, Names(order[1..]));
    }
  }

  /**
   * When DAO call `c` of the sweep throws, the first `c / 6` users are deleted
   * everywhere, the next one from its first `c % 6` tables, and nothing else.
   */
  lemma {:induction false} SweepStops(s: Store, order: seq<string>, c: nat, m: Option<string>)
    requires c < 6 * |order|
    ensures Sweep(s, order, Some(Fault(c, m))) ==
            (s.Minus(Names(order[..c / 6])).Without(order[c / 6], c % 6), Threw(m))
    decreases |order|
  {
    var u := order[0];
    if c < 6 {
      assert Names(order[..c / 6]) == {} by { assert order[..c / 6] == []; }
      assert s.Minus({}) == s;
    } else {
      assert Shift(Some(Fault(c, m)), 6) == Some(Fault(c - 6, m));
      SweepStops(s.Minus({u}), order[1..], c - 6, m);
      NamesOfTail(order, c / 6);
      assert (c - 6) / 6 == c / 6 - 1 && (c - 6) % 6 == c % 6;
      assert order[1..][(c - 6) / 6] == order[c / 6];
      MinusUnion(s, {u}, Names(order[1..][..c / 6 - 1]));
    }
  }

  /** Rows of usernames the sweep does not list survive it unchanged, whether or not it throws. */
  lemma {:induction false} SweepKeepsUnlisted(s: Store, order: seq<string>, plan: FaultPlan, other: string)
    requires other !in order
    ensures Sweep(s, order, plan).0.SameRows(s, other)
    decreases |order|
  {
    if order != [] {
      var (s1, done) := DeleteUserFrom(s, order[0], plan);
      if done.Completed? {
        SweepKeepsUnlisted(s1, order[1..], Shift(plan, 6), other);
      }
    }
  }

  /** Continuing a completed sweep with one more user is one more `deleteUser`, six calls further on. */
  lemma {:induction false} SweepAppend(s: Store, order: seq<string>, u: string, plan: FaultPlan)
    requires Sweep(s, order, plan).1.Completed?
    ensures Sweep(s, order + [u], plan) == DeleteUserFrom(Sweep(s, order, plan).0, u, Shift(plan, 6 * |order|))
    decreases |order|
  {
    if order == [] {
      assert [u][1..] == [];
    } else {
      var (s1, done) := DeleteUserFrom(s, order[0], plan);
      assert (order + [u])[1..] == order[1..] + [u];
      SweepAppend(s1, order[1..], u, Shift(plan, 6));
      ShiftShift(plan, 6, 6 * (|order| - 1));
    }
  }

  /** The usernames whose user row the DAO's expiry query selects. */
  function ExpiredUsers(users: Table, expiryTimeMillis: int, isExpired: (Entity, int) -> bool): (e: set<string>)
    ensures forall u :: u in e <==> u in users && isExpired(users[u], expiryTimeMillis)
  {
    set u | u in users && isExpired(users[u], expiryTimeMillis)
  }

  class LeetcodeLocalRepositoryImpl {
    var users: Table
    var questionStatus: Table
    var calendars: Table
    var recentSubmissions: Table
    var contestRankings: Table
    var badges: Table

    function State(): Store
      reads this
    {
      Store(users, questionStatus, calendars, recentSubmissions, contestRankings, badges)
    }

    /** A repository over a database holding `initial`. */
    constructor (initial: Store)
      ensures State() == initial
    {
      users := initial.users;
      questionStatus := initial.questionStatus;
      calendars := initial.calendars;
      recentSubmissions := initial.recentSubmissions;
      contestRankings := initial.contestRankings;
      badges := initial.badges;
    }

    // ---- user table -------------------------------------------------------

    /** `getUserInfo`: the cached user, `Error("User not found in cache")`, or a database error. */
    method GetUserInfo(username: string, plan: FaultPlan) returns (r: Resource<UserInfo>)
      ensures IsLookup(r, users, username, plan, UserNotFoundError, ToDomainModel)
    {
      if FailsAt(plan, 0) {
        r := Error(DatabaseError(plan.value.message), None);
      } else if username in users {
        r := Success(ToDomainModel(users[username]));
      } else {
        r := Error(UserNotFoundError, None);
      }
    }

    /** `saveUserInfo`: writes (stamped `now`) only when the username is non-null. */
    method SaveUserInfo(info: UserInfo, now: int, plan: FaultPlan) returns (r: Completion)
      modifies this
      ensures info.username.None? ==> r == Completed && State() == old(State())
      ensures info.username.Some? && FailsAt(plan, 0) ==> r == Thrown(plan) && State() == old(State())
      ensures info.username.Some? && !FailsAt(plan, 0) ==>
                r == Completed && State() == old(State()).(users := old(users)[info.username.value := FromDomainModel(info, now)])
    {
      r := Completed;
      if info.username.Some? {
        if FailsAt(plan, 0) {
          r := Thrown(plan);
        } else {
          users := users[info.username.value := FromDomainModel(info, now)];
        }
      }
    }

    /** `getLastFetchTime`: the user row's fetch time, or null. */
    method GetLastFetchTime(username: string, plan: FaultPlan) returns (t: Option<int>)
      ensures IsFetchTime(t, users, username, plan)
    {
      t := if !FailsAt(plan, 0) && username in users then Some(users[username].lastFetchTime) else None;
    }

    // ---- question status table --------------------------------------------

    method GetUserQuestionStatus(username: string, plan: FaultPlan) returns (r: Resource<Entity>)
      ensures IsLookup(r, questionStatus, username, plan, QuestionStatusNotFoundError, e => e)
    {
      if FailsAt(plan, 0) {
        r := Error(DatabaseError(plan.value.message), None);
      } else if username in questionStatus {
        r := Success(questionStatus[username]);
      } else {
        r := Error(QuestionStatusNotFoundError, None);
      }
    }

    method SaveUserQuestionStatus(status: Entity, plan: FaultPlan) returns (r: Completion)
      modifies this
      ensures FailsAt(plan, 0) ==> r == Thrown(plan) && State() == old(State())
      ensures !FailsAt(plan, 0) ==>
                r == Completed && State() == old(State()).(questionStatus := old(questionStatus)[status.username := status])
    {
      if FailsAt(plan, 0) {
        r := Thrown(plan);
      } else {
        questionStatus := questionStatus[status.username := status];
        r := Completed;
      }
    }

    method DeleteUserQuestionStatus(username: string, plan: FaultPlan) returns (r: Completion)
      modifies this
      ensures FailsAt(plan, 0) ==> r == Thrown(plan) && State() == old(State())
      ensures !FailsAt(plan, 0) ==>
                r == Completed && State() == old(State()).(questionStatus := old(questionStatus) - {username})
    {
      if FailsAt(plan, 0) {
        r := Thrown(plan);
      } else {
        questionStatus := questionStatus - {username};
        r := Completed;
      }
    }

    method DeleteAllUserQuestionStatus(plan: FaultPlan) returns (r: Completion)
      modifies this
      ensures FailsAt(plan, 0) ==> r == Thrown(plan) && State() == old(State())
      ensures !FailsAt(plan, 0) ==> r == Completed && State() == old(State()).(questionStatus := map[])
    {
      if FailsAt(plan, 0) {
        r := Thrown(plan);
      } else {
        questionStatus := map[];
        r := Completed;
      }
    }

    method GetLastUserQuestionStatusFetchTime(username: string, plan: FaultPlan) returns (t: Option<int>)
      ensures IsFetchTime(t, questionStatus, username, plan)
    {
      t := if !FailsAt(plan, 0) && username in questionStatus then Some(questionStatus[username].lastFetchTime) else None;
    }

    // ---- calendar table ----------------------------------------------------

    method GetUserProfileCalender(username: string, plan: FaultPlan) returns (r: Resource<Entity>)
      ensures IsLookup(r, calendars, username, plan, CalendarNotFoundError, e => e)
    {
      if FailsAt(plan, 0) {
        r := Error(DatabaseError(plan.value.message), None);
      } else if username in calendars {
        r := Success(calendars[username]);
      } else {
        r := Error(CalendarNotFoundError, None);
      }
    }

    /** `saveUserProfileCalender(username, entity)`: the row goes under the entity's own username. */
    method SaveUserProfileCalender(username: string, calendar: Entity, plan: FaultPlan) returns (r: Completion)
      modifies this
      ensures FailsAt(plan, 0) ==> r == Thrown(plan) && State() == old(State())
      ensures !FailsAt(plan, 0) ==>
                r == Completed && State() == old(State()).(calendars := old(calendars)[calendar.username := calendar])
    {
      if FailsAt(plan, 0) {
        r := Thrown(plan);
      } else {
        calendars := calendars[calendar.username := calendar];
        r := Completed;
      }
    }

    method DeleteUserProfileCalender(username: string, plan: FaultPlan) returns (r: Completion)
      modifies this
      ensures FailsAt(plan, 0) ==> r == Thrown(plan) && State() == old(State())
      ensures !FailsAt(plan, 0) ==>
                r == Completed && State() == old(State()).(calendars := old(calendars) - {username})
    {
      if FailsAt(plan, 0) {
        r := Thrown(plan);
      } else {
        calendars := calendars - {username};
        r := Completed;
      }
    }

    method DeleteAllUserProfileCalender(plan: FaultPlan) returns (r: Completion)
      modifies this
      ensures FailsAt(plan, 0) ==> r == Thrown(plan) && State() == old(State())
      ensures !FailsAt(plan, 0) ==> r == Completed && State() == old(State()).(calendars := map[])
    {
      if FailsAt(plan, 0) {
        r := Thrown(plan);
      } else {
        calendars := map[];
        r := Completed;
      }
    }

    method GetLastUserProfileCalenderFetchTime(username: string, plan: FaultPlan) returns (t: Option<int>)
      ensures IsFetchTime(t, calendars, username, plan)
    {
      t := if !FailsAt(plan, 0) && username in calendars then Some(calendars[username].lastFetchTime) else None;
    }

    // ---- recent submissions table -----------------------------------------

    method GetRecentSubmissions(username: string, plan: FaultPlan) returns (r: Resource<Entity>)
      ensures IsLookup(r, recentSubmissions, username, plan, DataNotFoundError, e => e)
    {
      if FailsAt(plan, 0) {
        r := Error(DatabaseError(plan.value.message), None);
      } else if username in recentSubmissions {
        r := Success(recentSubmissions[username]);
      } else {
        r := Error(DataNotFoundError, None);
      }
    }

    method SaveRecentSubmissions(username: string, submissions: Entity, plan: FaultPlan) returns (r: Completion)
      modifies this
      ensures FailsAt(plan, 0) ==> r == Thrown(plan) && State() == old(State())
      ensures !FailsAt(plan, 0) ==>
                r == Completed && State() == old(State()).(recentSubmissions := old(recentSubmissions)[submissions.username := submissions])
    {
      if FailsAt(plan, 0) {
        r := Thrown(plan);
      } else {
        recentSubmissions := recentSubmissions[submissions.username := submissions];
        r := Completed;
      }
    }

    method DeleteRecentSubmissions(username: string, plan: FaultPlan) returns (r: Completion)
      modifies this
      ensures FailsAt(plan, 0) ==> r == Thrown(plan) && State() == old(State())
      ensures !FailsAt(plan, 0) ==>
                r == Completed && State() == old(State()).(recentSubmissions := old(recentSubmissions) - {username})
    {
      if FailsAt(plan, 0) {
        r := Thrown(plan);
      } else {
        recentSubmissions := recentSubmissions - {username};
        r := Completed;
      }
    }

    method DeleteAllRecentSubmissions(plan: FaultPlan) returns (r: Completion)
      modifies this
      ensures FailsAt(plan, 0) ==> r == Thrown(plan) && State() == old(State())
      ensures !FailsAt(plan, 0) ==> r == Completed && State() == old(State()).(recentSubmissions := map[])
    {
      if FailsAt(plan, 0) {
        r := Thrown(plan);
      } else {
        recentSubmissions := map[];
        r := Completed;
      }
    }

    method GetLastRecentSubmissionsFetchTime(username: string, plan: FaultPlan) returns (t: Option<int>)
      ensures IsFetchTime(t, recentSubmissions, username, plan)
    {
      t := if !FailsAt(plan, 0) && username in recentSubmissions then Some(recentSubmissions[username].lastFetchTime) else None;
    }

    // ---- contest ranking table --------------------------------------------

    method GetUserContestRanking(username: string, plan: FaultPlan) returns (r: Resource<Entity>)
      ensures IsLookup(r, contestRankings, username, plan, ContestRankingNotFoundError, e => e)
    {
      if FailsAt(plan, 0) {
        r := Error(DatabaseError(plan.value.message), None);
      } else if username in contestRankings {
        r := Success(contestRankings[username]);
      } else {
        r := Error(ContestRankingNotFoundError, None);
      }
    }

    method SaveUserContestRanking(username: string, ranking: Entity, plan: FaultPlan) returns (r: Completion)
      modifies this
      ensures FailsAt(plan, 0) ==> r == Thrown(plan) && State() == old(State())
      ensures !FailsAt(plan, 0) ==>
                r == Completed && State() == old(State()).(contestRankings := old(contestRankings)[ranking.username := ranking])
    {
      if FailsAt(plan, 0) {
        r := Thrown(plan);
      } else {
        contestRankings := contestRankings[ranking.username := ranking];
        r := Completed;
      }
    }

    method DeleteUserContestRanking(username: string, plan: FaultPlan) returns (r: Completion)
      modifies this
      ensures FailsAt(plan, 0) ==> r == Thrown(plan) && State() == old(State())
      ensures !FailsAt(plan, 0) ==>
                r == Completed && State() == old(State()).(contestRankings := old(contestRankings) - {username})
    {
      if FailsAt(plan, 0) {
        r := Thrown(plan);
      } else {
        contestRankings := contestRankings - {username};
        r := Completed;
      }
    }

    method DeleteAllUserContestRankings(plan: FaultPlan) returns (r: Completion)
      modifies this
      ensures FailsAt(plan, 0) ==> r == Thrown(plan) && State() == old(State())
      ensures !FailsAt(plan, 0) ==> r == Completed && State() == old(State()).(contestRankings := map[])
    {
      if FailsAt(plan, 0) {
        r := Thrown(plan);
      } else {
        contestRankings := map[];
        r := Completed;
      }
    }

    method GetLastUserContestRankingFetchTime(username: string, plan: FaultPlan) returns (t: Option<int>)
      ensures IsFetchTime(t, contestRankings, username, plan)
    {
      t := if !FailsAt(plan, 0) && username in contestRankings then Some(contestRankings[username].lastFetchTime) else None;
    }

    // ---- badges table -------------------------------------------------------

    method GetUserBadges(username: string, plan: FaultPlan) returns (r: Resource<Entity>)
      ensures IsLookup(r, badges, username, plan, BadgesNotFoundError, e => e)
    {
      if FailsAt(plan, 0) {
        r := Error(DatabaseError(plan.value.message), None);
      } else if username in badges {
        r := Success(badges[username]);
      } else {
        r := Error(BadgesNotFoundError, None);
      }
    }

    method SaveUserBadges(username: string, userBadges: Entity, plan: FaultPlan) returns (r: Completion)
      modifies this
      ensures FailsAt(plan, 0) ==> r == Thrown(plan) && State() == old(State())
      ensures !FailsAt(plan, 0) ==>
                r == Completed && State() == old(State()).(badges := old(badges)[userBadges.username := userBadges])
    {
      if FailsAt(plan, 0) {
        r := Thrown(plan);
      } else {
        badges := badges[userBadges.username := userBadges];
        r := Completed;
      }
    }

    method DeleteUserBadges(username: string, plan: FaultPlan) returns (r: Completion)
      modifies this
      ensures FailsAt(plan, 0) ==> r == Thrown(plan) && State() == old(State())
      ensures !FailsAt(plan, 0) ==>
                r == Completed && State() == old(State()).(badges := old(badges) - {username})
    {
      if FailsAt(plan, 0) {
        r := Thrown(plan);
      } else {
        badges := badges - {username};
        r := Completed;
      }
    }

    method DeleteAllUserBadges(plan: FaultPlan) returns (r: Completion)
      modifies this
      ensures FailsAt(plan, 0) ==> r == Thrown(plan) && State() == old(State())
      ensures !FailsAt(plan, 0) ==> r == Completed && State() == old(State()).(badges := map[])
    {
      if FailsAt(plan, 0) {
        r := Thrown(plan);
      } else {
        badges := map[];
        r := Completed;
      }
    }

    method GetLastUserBadgesFetchTime(username: string, plan: FaultPlan) returns (t: Option<int>)
      ensures IsFetchTime(t, badges, username, plan)
    {
      t := if !FailsAt(plan, 0) && username in badges then Some(badges[username].lastFetchTime) else None;
    }

    // ---- whole-cache operations ----------------------------------------------

    /** `deleteUser`: the user's row from each of the six tables, in table order. */
    method DeleteUser(username: string, plan: FaultPlan) returns (r: Completion)
      modifies this
      ensures (State(), r) == DeleteUserFrom(old(State()), username, plan)
    {
      ghost var s := State();
      assert State() == s.Without(username, 0);
      if FailsAt(plan, 0) { return Thrown(plan); }
      users := users - {username};
      assert State() == s.Without(username, 1);
      if FailsAt(plan, 1) { return Thrown(plan); }
      questionStatus := questionStatus - {username};
      assert State() == s.Without(username, 2);
      if FailsAt(plan, 2) { return Thrown(plan); }
      calendars := calendars - {username};
      assert State() == s.Without(username, 3);
      if FailsAt(plan, 3) { return Thrown(plan); }
      recentSubmissions := recentSubmissions - {username};
      assert State() == s.Without(username, 4);
      if FailsAt(plan, 4) { return Thrown(plan); }
      contestRankings := contestRankings - {username};
      assert State() == s.Without(username, 5);
      if FailsAt(plan, 5) { return Thrown(plan); }
      badges := badges - {username};
      assert State() == s.Without(username, 6);
      r := Completed;
    }

    /** `clearUserCache`: the same operation as `deleteUser`. */
    method ClearUserCache(username: string, plan: FaultPlan) returns (r: Completion)
      modifies this
      ensures (State(), r) == DeleteUserFrom(old(State()), username, plan)
    {
      r := DeleteUser(username, plan);
    }

    /** `clearCache`: the user table's delete-all, then the five table wrappers, in order. */
    method ClearCache(plan: FaultPlan) returns (r: Completion)
      modifies this
      ensures (State(), r) == ClearFrom(old(State()), plan)
    {
      ghost var s := State();
      if FailsAt(plan, 0) { return Thrown(plan); }
      users := map[];
      assert State() == s.Cleared(1);
      r := DeleteAllUserQuestionStatus(Shift(plan, 1));
      if r.Threw? {
        assert FailsAt(plan, 1) && State() == s.Cleared(1);
        return;
      }
      assert State() == s.Cleared(2);
      r := DeleteAllUserProfileCalender(Shift(plan, 2));
      if r.Threw? {
        assert FailsAt(plan, 2) && State() == s.Cleared(2);
        return;
      }
      assert State() == s.Cleared(3);
      r := DeleteAllRecentSubmissions(Shift(plan, 3));
      if r.Threw? {
        assert FailsAt(plan, 3) && State() == s.Cleared(3);
        return;
      }
      assert State() == s.Cleared(4);
      r := DeleteAllUserContestRankings(Shift(plan, 4));
      if r.Threw? {
        assert FailsAt(plan, 4) && State() == s.Cleared(4);
        return;
      }
      assert State() == s.Cleared(5);
      r := DeleteAllUserBadges(Shift(plan, 5));
      if r.Threw? {
        assert FailsAt(plan, 5) && State() == s.Cleared(5);
        return;
      }
      assert State() == s.Cleared(6);
    }

    /**
     * `cleanExpiredCache`: one DAO call lists the expired user rows, then
     * `deleteUser` runs for each listed username in list order; the first
     * exception ends the sweep and propagates.
     */
    method CleanExpiredCache(expiryTimeMillis: int, isExpired: (Entity, int) -> bool, plan: FaultPlan)
      returns (r: Completion, entries: seq<string>)
      modifies this
      ensures FailsAt(plan, 0) ==> r == Thrown(plan) && State() == old(State())
      ensures !FailsAt(plan, 0) ==>
                && IsListing(entries, ExpiredUsers(old(users), expiryTimeMillis, isExpired))
                && (State(), r) == Sweep(old(State()), entries, Shift(plan, 1))
    {
      entries := [];
      if FailsAt(plan, 0) { return Thrown(plan), entries; }
      entries := ListExpired(users, expiryTimeMillis, isExpired);
      ghost var s := State();
      r := Completed;
      for i := 0 to |entries|
        invariant r == Completed
        invariant (State(), Completed) == Sweep(s, entries[..i], Shift(plan, 1))
      {
        ghost var done := entries[..i + 1];
        assert entries[..i] + [entries[i]] == done;
        SweepAppend(s, entries[..i], entries[i], Shift(plan, 1));
        ShiftShift(plan, 1, 6 * i);
        r := DeleteUser(entries[i], Shift(plan, 1 + 6 * i));
        assert (State(), r) == Sweep(s, done, Shift(plan, 1));
        if r.Threw? {
          SweepAfterThrow(s, done, entries[i + 1..], Shift(plan, 1));
          assert done + entries[i + 1..] == entries;
          return;
        }
      }
      assert entries[..|entries|] == entries;
    }
  }

  /** `entries` lists each element of `names` exactly once. */
  ghost predicate IsListing(entries: seq<string>, names: set<string>) {
    && (forall i, j :: 0 <= i < j < |entries| ==> entries[i] != entries[j])
    && (set u | u in entries) == names
  }

  /**
   * The DAO's `getExpiredCacheEntries(expiryTimeMillis)`, reduced to the usernames
   * it lists: each selected user once, in an order the model leaves open.
   */
  method ListExpired(users: Table, expiryTimeMillis: int, isExpired: (Entity, int) -> bool)
    returns (entries: seq<string>)
    ensures IsListing(entries, ExpiredUsers(users, expiryTimeMillis, isExpired))
  {
    var remaining := ExpiredUsers(users, expiryTimeMillis, isExpired);
    entries := [];
    while remaining != {}
      invariant remaining !! (set u | u in entries)
      invariant remaining + (set u | u in entries) == ExpiredUsers(users, expiryTimeMillis, isExpired)
      invariant forall i, j :: 0 <= i < j < |entries| ==> entries[i] != entries[j]
      decreases remaining
    {
      var u :| u in remaining;
      entries := entries + [u];
      remaining := remaining - {u};
    }
  }

  /** Once the sweep has thrown, the users after the failing one are never reached. */
  lemma {:induction false} SweepAfterThrow(s: Store, done: seq<string>, rest: seq<string>, plan: FaultPlan)
    requires Sweep(s, done, plan).1.Threw?
    ensures Sweep(s, done + rest, plan) == Sweep(s, done, plan)
    decreases |done|
  {
    assert done != [];
    var (s1, r1) := DeleteUserFrom(s, done[0], plan);
    assert (done + rest)[0] == done[0];
    if r1.Completed? {
      assert (done + rest)[1..] == done[1..] + rest;
      SweepAfterThrow(s1, done[1..], rest, Shift(plan, 6));
    }
  }

  /** What a save writes, a get of the same user reads back. */
  lemma SavedUserIsFound(info: UserInfo, now: int, users: Table)
    requires info.username.Some?
    ensures IsLookup(Success(info), users[info.username.value := FromDomainModel(info, now)],
                     info.username.value, None, UserNotFoundError, ToDomainModel)
  {
  }

  /**
   * The sweep without a throwing DAO call: every expired user is gone from all
   * six tables, and every other user keeps all of its rows, in every table.
   */
  lemma CleanExpiredRemovesExactlyExpired(s: Store, order: seq<string>, plan: FaultPlan)
    requires !(plan.Some? && plan.value.call < 6 * |order|)
    ensures Sweep(s, order, plan).1 == Completed
    ensures forall u | u in order :: Sweep(s, order, plan).0.Forgets(u)
    ensures forall v | v !in order :: Sweep(s, order, plan).0.SameRows(s, v)
  {
    SweepCompletes(s, order, plan);
  }

  /** A user the expiry query does not select keeps every row in every table, even when the sweep throws. */
  lemma UnexpiredUsersSurviveSweep(s: Store, entries: seq<string>, expired: set<string>, plan: FaultPlan, v: string)
    requires IsListing(entries, expired) && v !in expired
    ensures Sweep(s, entries, plan).0.SameRows(s, v)
  {
    assert Names(entries) == expired;
    SweepKeepsUnlisted(s, entries, plan, v);
  }

  /**
   * The sweep when DAO call `c` throws: the exception propagates, the users
   * before the failing one are gone for good, and no row of any later user is
   * touched.
   */
  lemma CleanExpiredStopsAtFault(s: Store, order: seq<string>, c: nat, m: Option<string>)
    requires c < 6 * |order|
    ensures Sweep(s, order, Some(Fault(c, m))).1 == Threw(m)
    ensures forall i | 0 <= i < c / 6 :: Sweep(s, order, Some(Fault(c, m))).0.Forgets(order[i])
    ensures forall v | v !in order[..c / 6 + 1] :: Sweep(s, order, Some(Fault(c, m))).0.SameRows(s, v)
  {
    SweepStops(s, order, c, m);
    var out := Sweep(s, order, Some(Fault(c, m))).0;
    forall i | 0 <= i < c / 6 ensures out.Forgets(order[i]) {
      assert order[i] in order[..c / 6];
    }
    forall v | v !in order[..c / 6 + 1] ensures out.SameRows(s, v) {
      assert v !in order[..c / 6];
      assert v != order[c / 6] by { assert order[c / 6] == order[..c / 6 + 1][c / 6]; }
    }
  }
}
