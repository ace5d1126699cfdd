/**
 * The 3D room's store: the current user with their intentions, the other users in
 * the room, the connections found between the current user and them, and the
 * interactions shown as auroras. Clock readings and random values are parameters.
 */
module RoomStore {
  import opened Wrappers
  import opened Sequences

  type Timestamp = int

  datatype IntentionType = Learning | Collaboration | Support | Creative | Social

  /** The string the source uses for each intention type. */
  function TypeName(t: IntentionType): string {
    match t
    case Learning => "learning"
    case Collaboration => "collaboration"
    case Support => "support"
    case Creative => "creative"
    case Social => "social"
  }

  datatype Intention = Intention(id: string, kind: IntentionType, description: string, emoji: string,
                                 priority: real, createdAt: Timestamp)

  datatype Position = Position(x: real, y: real, z: real)

  datatype User = User(id: string, name: string, position: Position, intentions: seq<Intention>,
                       primaryIntention: Option<Intention>, trustLevel: real, energy: real, honestyScore: real)

  datatype Connection = Connection(id: string, userId1: string, userId2: string, strength: real,
                                   sharedIntentions: seq<IntentionType>, createdAt: Timestamp)

  datatype Interaction = Interaction(id: string, userId1: string, userId2: string, kind: string, strength: real)

  /** The `Partial<User>` that `joinRoom` receives: every field may be missing. */
  datatype UserDraft = UserDraft(name: Option<string>, position: Option<Position>,
                                 intentions: Option<seq<Intention>>, primaryIntention: Option<Intention>,
                                 trustLevel: Option<real>, energy: Option<real>, honestyScore: Option<real>)

  function Priority(i: Intention): real { i.priority }

  /** The current user's intentions without any carrying the id `id`. */
  function WithoutIntention(intentions: seq<Intention>, id: string): seq<Intention> {
    Filter(intentions, (i: Intention) => i.id != id)
  }

  /** The intention list `setUserIntention` stores: older ones with other ids plus `intention`, highest priority first. */
  function Reprioritised(intentions: seq<Intention>, intention: Intention): seq<Intention> {
    SortDesc(WithoutIntention(intentions, intention.id) + [intention], Priority)
  }

  /**
   * The new list holds `intention` exactly once and no other intention with its id,
   * keeps every older intention with a different id as often as before, and is
   * ordered by priority, highest first.
   */
  lemma IntentionsAfterSet(intentions: seq<Intention>, intention: Intention)
    ensures var r := Reprioritised(intentions, intention);
      && multiset(r)[intention] == 1
      && (forall x :: x in r && x.id == intention.id ==> x == intention)
      && (forall x: Intention :: x.id != intention.id ==> multiset(r)[x] == multiset(intentions)[x])
      && |r| == |WithoutIntention(intentions, intention.id)| + 1
      && SortedDesc(r, Priority)
  {
    var kept := WithoutIntention(intentions, intention.id);
    var r := Reprioritised(intentions, intention);
    FilterCounts(intentions, (i: Intention) => i.id != intention.id);
    assert multiset(r) == multiset(kept) + multiset{intention};
    assert multiset(kept)[intention] == 0;
    forall x | x in r && x.id == intention.id ensures x == intention {
      assert x in multiset(kept) + multiset{intention};
    }
  }

  /** The primary intention is the first of the sorted list: one of maximal priority. */
  lemma PrimaryHasTopPriority(intentions: seq<Intention>, intention: Intention)
    ensures Reprioritised(intentions, intention) != []
    ensures var r := Reprioritised(intentions, intention);
      r[0] in r && forall x :: x in r ==> r[0].priority >= x.priority
  {
    var s := WithoutIntention(intentions, intention.id) + [intention];
    SortDescFirstIsMax(s, Priority);
    var r := Reprioritised(intentions, intention);
    forall x | x in r ensures r[0].priority >= x.priority {
      assert x in multiset(r);
      assert x in multiset(s);
    }
  }

  /** Squared Euclidean distance; `distance < d` is `SquaredDistance < d * d` for d > 0. */
  function SquaredDistance(p: Position, q: Position): (d: real)
    ensures d >= 0.0
  {
    (p.x - q.x) * (p.x - q.x) + (p.y - q.y) * (p.y - q.y) + (p.z - q.z) * (p.z - q.z)
  }

  function ProximityBonus(squaredDistance: real): real {
    if squaredDistance < 25.0 then 0.3 else if squaredDistance < 100.0 then 0.1 else 0.0
  }

  /** Optional chaining `user.primaryIntention?.type`: two users without a primary intention compare equal. */
  function PrimaryType(u: User): Option<IntentionType> {
    match u.primaryIntention
    case Some(i) => Some(i.kind)
    case None => None
  }

  /**
   * `calculateConnectionStrength`: 0.6 for the same primary type, 0.3 when closer than
   * 5 or 0.1 when closer than 10, plus 0.05 per unit of combined trust, capped at 1.
   */
  function ConnectionStrength(u1: User, u2: User): (s: real)
    ensures s <= 1.0
    ensures u1.trustLevel >= 0.0 && u2.trustLevel >= 0.0 ==> s >= 0.0
    ensures PrimaryType(u1) == PrimaryType(u2) && u1.trustLevel >= 0.0 && u2.trustLevel >= 0.0 ==> s >= 0.6
  {
    var strength := (if PrimaryType(u1) == PrimaryType(u2) then 0.6 else 0.0)
      + ProximityBonus(SquaredDistance(u1.position, u2.position))
      + (u1.trustLevel + u2.trustLevel) * 0.05;
    if strength <= 1.0 then strength else 1.0
  }

  /** Moving closer never weakens a connection, other things being equal. */
  lemma StrengthGrowsWithProximity(u1: User, u2: User, u3: User)
    requires PrimaryType(u2) == PrimaryType(u3) && u2.trustLevel == u3.trustLevel
    requires SquaredDistance(u1.position, u2.position) <= SquaredDistance(u1.position, u3.position)
    ensures ConnectionStrength(u1, u2) >= ConnectionStrength(u1, u3)
  {
  }

  /** The matching rule of `findMatchingUsers`: another user whose primary intention has `me`'s type. */
  predicate IsMatch(me: User, other: User) {
    && other.id != me.id
    && me.primaryIntention.Some?
    && other.primaryIntention.Some?
    && other.primaryIntention.value.kind == me.primaryIntention.value.kind
  }

  function Matches(users: seq<User>, me: User): seq<User> {
    Filter(users, (u: User) => IsMatch(me, u))
  }

  function ConnectionTo(me: User, other: User, clock: string, now: Timestamp): Connection
    requires me.primaryIntention.Some?
  {
    Connection("conn-" + me.id + "-" + other.id + "-" + clock, me.id, other.id,
               ConnectionStrength(me, other), [me.primaryIntention.value.kind], now)
  }

  function InteractionTo(me: User, other: User, clock: string): Interaction {
    Interaction("interaction-" + clock, me.id, other.id, "connection", ConnectionStrength(me, other))
  }

  /**
   * The connections `findMatchingUsers` builds while scanning `users` in order: one
   * per matching user, from `me` to that user, sharing `me`'s primary type.
   */
  function ConnectionsFor(users: seq<User>, me: User, clock: string, now: Timestamp): (r: seq<Connection>)
    requires me.primaryIntention.Some?
    ensures |r| <= |users|
    ensures forall j :: 0 <= j < |r| ==>
      && r[j].userId1 == me.id
      && r[j].userId2 != me.id
      && r[j].sharedIntentions == [me.primaryIntention.value.kind]
      && r[j].strength <= 1.0
  {
    if users == [] then []
    else
      var other := users[|users| - 1];
      ConnectionsFor(users[..|users| - 1], me, clock, now)
        + (if IsMatch(me, other) then [ConnectionTo(me, other, clock, now)] else [])
  }

  /** The interactions `findMatchingUsers` adds while scanning `users`, one per matching user. */
  function InteractionsFor(users: seq<User>, me: User, clock: string): (r: seq<Interaction>)
    ensures |r| <= |users|
    ensures forall j :: 0 <= j < |r| ==> r[j].userId1 == me.id && r[j].kind == "connection"
  {
    if users == [] then []
    else
      var other := users[|users| - 1];
      InteractionsFor(users[..|users| - 1], me, clock)
        + (if IsMatch(me, other) then [InteractionTo(me, other, clock)] else [])
  }

  /** Scanning one more user adds that user to the matches exactly when they match. */
  lemma MatchesSnoc(prefix: seq<User>, other: User, me: User)
    ensures Matches(prefix + [other], me) == Matches(prefix, me) + (if IsMatch(me, other) then [other] else [])
  {
    FilterAppend(prefix, [other], (u: User) => IsMatch(me, u));
    assert Filter([other], (u: User) => IsMatch(me, u)) == if IsMatch(me, other) then [other] else [];
  }

  /** The user each connection leads to. */
  function TargetIds(cs: seq<Connection>): seq<string> {
    Map(cs, (c: Connection) => c.userId2)
  }

  /** The user each interaction leads to. */
  function InteractionTargets(xs: seq<Interaction>): seq<string> {
    Map(xs, (x: Interaction) => x.userId2)
  }

  function Ids(us: seq<User>): seq<string> {
    Map(us, (u: User) => u.id)
  }

  /** Extra ids contributed by scanning `other`: its id when it matches, nothing otherwise. */
  function MatchedId(me: User, other: User): seq<string> {
    if IsMatch(me, other) then [other.id] else []
  }

  lemma ConnectionsStep(users: seq<User>, me: User, clock: string, now: Timestamp)
    requires users != [] && me.primaryIntention.Some?
    ensures TargetIds(ConnectionsFor(users, me, clock, now))
      == TargetIds(ConnectionsFor(users[..|users| - 1], me, clock, now)) + MatchedId(me, users[|users| - 1])
  {
  }

  lemma InteractionsStep(users: seq<User>, me: User, clock: string)
    requires users != []
    ensures InteractionTargets(InteractionsFor(users, me, clock))
      == InteractionTargets(InteractionsFor(users[..|users| - 1], me, clock)) + MatchedId(me, users[|users| - 1])
  {
  }

  lemma MatchesStep(users: seq<User>, me: User)
    requires users != []
    ensures Ids(Matches(users, me)) == Ids(Matches(users[..|users| - 1], me)) + MatchedId(me, users[|users| - 1])
  {
    var prefix, other := users[..|users| - 1], users[|users| - 1];
    assert users == prefix + [other];
    MatchesSnoc(prefix, other, me);
  }

  /**
   * There is exactly one connection and one interaction per matching user, and they
   * follow the room's order: the `j`-th of each leads to the `j`-th matching user.
   */
  lemma {:induction false} ConnectionsFollowMatches(users: seq<User>, me: User, clock: string, now: Timestamp)
    requires me.primaryIntention.Some?
    ensures TargetIds(ConnectionsFor(users, me, clock, now)) == Ids(Matches(users, me))
    ensures InteractionTargets(InteractionsFor(users, me, clock)) == Ids(Matches(users, me))
  {
    if users != [] {
      ConnectionsFollowMatches(users[..|users| - 1], me, clock, now);
      ConnectionsStep(users, me, clock, now);
      InteractionsStep(users, me, clock);
      MatchesStep(users, me);
    }
  }

  /** JavaScript `x || d` on a number: a missing value or 0 falls back to `d`. */
  function NumberOr(x: Option<real>, d: real): real {
    if x.Some? && x.value != 0.0 then x.value else d
  }

  /**
   * The user `joinRoom` appends: every falsy field of the draft replaced by its
   * default (name 'Аноним', random position, no intentions, trust 1, energy 0.5,
   * honesty 0.7).
   */
  function NewUser(draft: UserDraft, id: string, randomPosition: Position): (u: User)
    ensures u.id == id
    ensures u.name != "" && u.trustLevel != 0.0 && u.energy != 0.0 && u.honestyScore != 0.0
    ensures draft.name.Some? && draft.name.value != "" ==> u.name == draft.name.value
    ensures (draft.name.None? || draft.name == Some("")) ==> u.name == "Аноним"
    ensures draft.trustLevel.Some? && draft.trustLevel.value != 0.0 ==> u.trustLevel == draft.trustLevel.value
    ensures (draft.trustLevel.None? || draft.trustLevel == Some(0.0)) ==> u.trustLevel == 1.0
    ensures draft.energy.Some? && draft.energy.value != 0.0 ==> u.energy == draft.energy.value
    ensures (draft.energy.None? || draft.energy == Some(0.0)) ==> u.energy == 0.5
    ensures draft.honestyScore.Some? && draft.honestyScore.value != 0.0 ==> u.honestyScore == draft.honestyScore.value
    ensures (draft.honestyScore.None? || draft.honestyScore == Some(0.0)) ==> u.honestyScore == 0.7
    ensures draft.position.Some? ==> u.position == draft.position.value
    ensures draft.position.None? ==> u.position == randomPosition
    ensures draft.intentions.Some? ==> u.intentions == draft.intentions.value
    ensures draft.intentions.None? ==> u.intentions == []
    ensures u.primaryIntention == draft.primaryIntention
  {
    User(id,
         if draft.name.Some? && draft.name.value != "" then draft.name.value else "Аноним",
         if draft.position.Some? then draft.position.value else randomPosition,
         if draft.intentions.Some? then draft.intentions.value else [],
         draft.primaryIntention,
         NumberOr(draft.trustLevel, 1.0),
         NumberOr(draft.energy, 0.5),
         NumberOr(draft.honestyScore, 0.7))
  }

  function OthersThan(users: seq<User>, userId: string): seq<User> {
    Filter(users, (u: User) => u.id != userId)
  }

  function ConnectionsAvoiding(connections: seq<Connection>, userId: string): seq<Connection> {
    Filter(connections, (c: Connection) => c.userId1 != userId && c.userId2 != userId)
  }

  /** Leaving removes the user and every connection naming them, and only those. */
  lemma LeaveRemovesOnlyThatUser(users: seq<User>, connections: seq<Connection>, userId: string)
    ensures forall u :: u in OthersThan(users, userId) <==> u in users && u.id != userId
    ensures forall c :: c in ConnectionsAvoiding(connections, userId) <==>
      c in connections && c.userId1 != userId && c.userId2 != userId
    ensures forall a, b :: OthersThan(a + b, userId) == OthersThan(a, userId) + OthersThan(b, userId)
  {
    forall a, b ensures OthersThan(a + b, userId) == OthersThan(a, userId) + OthersThan(b, userId) {
      FilterAppend(a, b, (u: User) => u.id != userId);
    }
  }

  const InitialUser := User("user-1", "Вы", Position(0.0, 0.0, 0.0), [], None, 1.0, 0.8, 0.9)

  class Room {
    var users: seq<User>
    var currentUser: User
    var connections: seq<Connection>
    var activeInteractions: seq<Interaction>

    constructor ()
      ensures users == [] && currentUser == InitialUser && connections == [] && activeInteractions == []
    {
      users := [];
      currentUser := InitialUser;
      connections := [];
      activeInteractions := [];
    }

    /**
     * `setUserIntention`: replace any intention with the same id, sort by priority,
     * take the first as primary, then run the matching.
     */
    method SetUserIntention(intention: Intention, clock: string, now: Timestamp)
      modifies this
      ensures var r := Reprioritised(old(currentUser.intentions), intention);
        && r != []
        && currentUser == old(currentUser).(intentions := r, primaryIntention := Some(r[0]))
      ensures users == old(users)
      ensures connections == ConnectionsFor(users, currentUser, clock, now)
      ensures activeInteractions == old(activeInteractions) + InteractionsFor(users, currentUser, clock)
    {
      var updated := Reprioritised(currentUser.intentions, intention);
      currentUser := currentUser.(intentions := updated, primaryIntention := Some(updated[0]));
      var _ := FindMatchingUsers(clock, now);
    }

    /** `updateUserPosition`: move the current user. */
    method UpdateUserPosition(position: Position)
      modifies this
      ensures currentUser == old(currentUser).(position := position)
      ensures users == old(users) && connections == old(connections)
      ensures activeInteractions == old(activeInteractions)
    {
      currentUser := currentUser.(position := position);
    }

    /**
     * `findMatchingUsers`: without a primary intention, return nothing and change
     * nothing; otherwise replace the connections by one per matching user (adding an
     * interaction for each) and return them.
     */
    method FindMatchingUsers(clock: string, now: Timestamp) returns (found: seq<Connection>)
      modifies this
      ensures users == old(users) && currentUser == old(currentUser)
      ensures currentUser.primaryIntention.None? ==>
        found == [] && connections == old(connections) && activeInteractions == old(activeInteractions)
      ensures currentUser.primaryIntention.Some? ==>
        && found == ConnectionsFor(users, currentUser, clock, now)
        && connections == found
        && activeInteractions == old(activeInteractions) + InteractionsFor(users, currentUser, clock)
    {
      if currentUser.primaryIntention.None? {
        return [];
      }
      var me := currentUser;
      var newConnections: seq<Connection> := [];
      var i := 0;
      while i < |users|
        invariant 0 <= i <= |users|
        invariant users == old(users) && currentUser == me
        invariant newConnections == ConnectionsFor(users[..i], me, clock, now)
        invariant activeInteractions == old(activeInteractions) + InteractionsFor(users[..i], me, clock)
      {
        var other := users[i];
        assert users[..i + 1][..i] == users[..i];
        if other.id != me.id && other.primaryIntention.Some?
           && other.primaryIntention.value.kind == me.primaryIntention.value.kind {
          var strength := ConnectionStrength(me, other);
          newConnections := newConnections + [ConnectionTo(me, other, clock, now)];
          AddInteraction(me.id, other.id, "connection", strength, clock);
        }
        i := i + 1;
      }
      assert users[..i] == users;
      connections := newConnections;
      found := newConnections;
    }

    /** `joinRoom`: append one user built from the draft; everyone already here stays as is. */
    method JoinRoom(draft: UserDraft, clock: string, suffix: string, randomPosition: Position)
      modifies this
      ensures users == old(users) + [NewUser(draft, "user-" + clock + "-" + suffix, randomPosition)]
      ensures currentUser == old(currentUser) && connections == old(connections)
      ensures activeInteractions == old(activeInteractions)
    {
      users := users + [NewUser(draft, "user-" + clock + "-" + suffix, randomPosition)];
    }

    /** `leaveRoom`: drop the user and every connection that names them, keeping the rest in order. */
    method LeaveRoom(userId: string)
      modifies this
      ensures users == OthersThan(old(users), userId)
      ensures connections == ConnectionsAvoiding(old(connections), userId)
      ensures forall u :: u in users ==> u.id != userId
      ensures forall c :: c in connections ==> c.userId1 != userId && c.userId2 != userId
      ensures currentUser == old(currentUser) && activeInteractions == old(activeInteractions)
    {
      users := OthersThan(users, userId);
      connections := ConnectionsAvoiding(connections, userId);
    }

    /** `addInteraction`: append one interaction carrying the given fields and a clock-derived id. */
    method AddInteraction(userId1: string, userId2: string, kind: string, strength: real, clock: string)
      modifies this
      ensures activeInteractions == old(activeInteractions) + [Interaction("interaction-" + clock, userId1, userId2, kind, strength)]
      ensures users == old(users) && currentUser == old(currentUser) && connections == old(connections)
    {
      activeInteractions := activeInteractions + [Interaction("interaction-" + clock, userId1, userId2, kind, strength)];
    }
  }
}
