/**
 * The cabinet: the root user's match ranking over the room's users, and the
 * permission checks that decide which tools are offered and what they render.
 */
module CabinetSystem {
  import opened Sequences
  import opened RoomStore
  import opened SystemStore

  /** The root user, left out of its own match list. */
  const RootUserId := "yara-001"

  /** An entry of the match list (the fixed `reasons` tags are not modelled). */
  datatype Match = Match(user: User, matchScore: real)

  /** `calculateMatchScore`: a base of 0.5, plus 0.3 of honesty, plus 0.2 of trust on its 0..4 scale. */
  function MatchScore(u: User): (score: real)
    ensures 0.0 <= u.honestyScore <= 1.0 && 0.0 <= u.trustLevel <= 4.0 ==> 0.5 <= score <= 1.0
  {
    0.5 + u.honestyScore * 0.3 + (u.trustLevel / 4.0) * 0.2
  }

  /** More honesty and more trust never lower the score; strictly more of either raises it. */
  lemma MatchScoreMonotone(u: User, v: User)
    requires u.honestyScore <= v.honestyScore && u.trustLevel <= v.trustLevel
    ensures MatchScore(u) <= MatchScore(v)
    ensures u.honestyScore < v.honestyScore || u.trustLevel < v.trustLevel ==> MatchScore(u) < MatchScore(v)
  {
  }

  function Rated(u: User): Match {
    Match(u, MatchScore(u))
  }

  function Score(m: Match): real {
    m.matchScore
  }

  predicate NotRoot(u: User) {
    u.id != RootUserId
  }

  /** The `map` step: each user paired with its score, position by position. */
  function Scored(users: seq<User>): (r: seq<Match>)
    ensures |r| == |users|
    ensures forall i :: 0 <= i < |r| ==> r[i] == Rated(users[i])
    ensures forall u :: multiset(r)[Rated(u)] == multiset(users)[u]
  {
    if users == [] then []
    else
      assert users == [users[0]] + users[1..];
      [Rated(users[0])] + Scored(users[1..])
  }

  /**
   * `findOptimalMatches`: everyone but the root user, each with its score, highest
   * score first. A user listed k times in the room is listed k times here.
   */
  function FindOptimalMatches(users: seq<User>): (r: seq<Match>)
    ensures |r| == |Filter(users, NotRoot)|
    ensures forall m :: m in r ==> m.user.id != RootUserId && m.matchScore == MatchScore(m.user)
    ensures forall u :: multiset(r)[Rated(u)] == if u.id == RootUserId then 0 else multiset(users)[u]
    ensures SortedDesc(r, Score)
  {
    var others := Filter(users, NotRoot);
    FilterCounts(users, NotRoot);
    var r := SortDesc(Scored(others), Score);
    forall m | m in r ensures m.user.id != RootUserId && m.matchScore == MatchScore(m.user) {
      assert m in multiset(Scored(others));
      var i :| 0 <= i < |Scored(others)| && Scored(others)[i] == m;
      assert others[i] in others;
    }
    r
  }

  /** Every user other than the root appears in the match list, and only with its own score. */
  lemma EveryOtherUserListed(users: seq<User>, u: User)
    requires u in users && u.id != RootUserId
    ensures Rated(u) in FindOptimalMatches(users)
    ensures forall m :: m in FindOptimalMatches(users) && m.user == u ==> m == Rated(u)
  {
    assert multiset(FindOptimalMatches(users))[Rated(u)] == multiset(users)[u] > 0;
  }

  /** The root user is never listed. */
  lemma RootNeverListed(users: seq<User>)
    ensures forall m :: m in FindOptimalMatches(users) ==> m.user.id != RootUserId
  {
  }

  /** The tools of the cabinet; `activeTool` starts at `Development`. */
  datatype Tool = Development | Analytics | Matching

  /** The tool buttons: development always, analytics and matching each behind its `read` permission. */
  function ToolButtons(role: Role): (tools: seq<Tool>)
    ensures 1 <= |tools| <= 3 && tools[0] == Development
    ensures Analytics in tools <==> HasPermission(role, "analytics", "read")
    ensures Matching in tools <==> HasPermission(role, "matching", "read")
  {
    [Development]
      + (if HasPermission(role, "analytics", "read") then [Analytics] else [])
      + (if HasPermission(role, "matching", "read") then [Matching] else [])
  }

  /** What a tool renders: a refusal, the personal metrics, the room statistics or the match list. */
  datatype ToolView =
    | Refused(reason: string)
    | PersonalMetrics(honestyScore: real, trustLevel: real)
    | RoomStatistics(userCount: nat, connectionCount: nat)
    | MatchList(matches: seq<Match>)

  /** `AnalyticsTool`: the statistics only when the role may read analytics. */
  function AnalyticsView(role: Role, users: seq<User>, connections: seq<Connection>): (v: ToolView)
    ensures v.RoomStatistics? <==> HasPermission(role, "analytics", "read")
    ensures v.RoomStatistics? ==> v.userCount == |users| && v.connectionCount == |connections|
    ensures !v.RoomStatistics? ==> v.Refused?
  {
    if !HasPermission(role, "analytics", "read") then Refused("Недостаточно прав для доступа к аналитике")
    else RoomStatistics(|users|, |connections|)
  }

  /** `MatchingTool`: the ranking only when the role may read matching. */
  function MatchingView(role: Role, users: seq<User>): (v: ToolView)
    ensures v.MatchList? <==> HasPermission(role, "matching", "read")
    ensures v.MatchList? ==> forall m :: m in v.matches ==> m.user.id != RootUserId
    ensures !v.MatchList? ==> v.Refused?
  {
    if !HasPermission(role, "matching", "read") then Refused("Недостаточно прав для доступа к системе матчинга")
    else MatchList(FindOptimalMatches(users))
  }

  /** The content area: the view of the active tool for the current user. */
  function ToolContent(activeTool: Tool, current: SystemUser, users: seq<User>, connections: seq<Connection>): (v: ToolView)
    ensures activeTool == Development ==> v == PersonalMetrics(current.honestyScore, current.trustLevel)
    ensures activeTool == Analytics ==> v == AnalyticsView(current.role, users, connections)
    ensures activeTool == Matching ==> v == MatchingView(current.role, users)
    ensures v.RoomStatistics? ==> activeTool == Analytics && HasPermission(current.role, "analytics", "read")
    ensures v.MatchList? ==> activeTool == Matching && HasPermission(current.role, "matching", "read")
  {
    match activeTool
    case Development => PersonalMetrics(current.honestyScore, current.trustLevel)
    case Analytics => AnalyticsView(current.role, users, connections)
    case Matching => MatchingView(current.role, users)
  }

  /**
   * Both roles of the permission table may read analytics and matching, so every
   * user is offered all three tools and the refusals are never rendered.
   */
  lemma EveryRoleSeesAllTools(role: Role, users: seq<User>, connections: seq<Connection>)
    ensures ToolButtons(role) == [Development, Analytics, Matching]
    ensures AnalyticsView(role, users, connections).RoomStatistics?
    ensures MatchingView(role, users).MatchList?
  {
    RoleCapabilities("analytics", "read");
    RoleCapabilities("matching", "read");
  }
}
