/**
 * The colour and connection logic of the 3D room: a user's sphere colour from its
 * primary intention, the aurora colours of orbits and interaction lines, and the
 * connections that make a user's aura and orbits appear.
 */
module EnhancedRoomSystem {
  import opened Wrappers
  import opened Sequences
  import opened RoomStore

  /** The colour of the `default` key, used when a user has no intention type. */
  const DefaultColor := "#9d4edd"

  /** The `colors` table of `getIntentionColor`. */
  const IntentionColors: map<string, string> := map[
    "learning" := "#4ecdc4",
    "collaboration" := "#45b7d1",
    "support" := "#96ceb4",
    "creative" := "#ff6b6b",
    "social" := "#ffd93d",
    "default" := DefaultColor]

  /**
   * `getIntentionColor`: `colors[intention?.type || 'default']`. A missing intention or
   * an empty type reads the default colour; a type outside the table reads nothing.
   */
  function IntentionColor(kind: Option<string>): (color: Option<string>)
    ensures kind.None? || kind == Some("") ==> color == Some(DefaultColor)
    ensures kind.Some? && kind.value != "" ==>
      (color.Some? <==> kind.value in IntentionColors) && (color.Some? ==> color.value == IntentionColors[kind.value])
  {
    var key := if kind.None? || kind.value == "" then "default" else kind.value;
    if key in IntentionColors then Some(IntentionColors[key]) else None
  }

  /** Every intention type of the room has its own colour, none of them the default one. */
  lemma EveryIntentionTypeColored(t: IntentionType)
    ensures IntentionColor(Some(TypeName(t))).Some?
    ensures IntentionColor(Some(TypeName(t))).value != DefaultColor
  {
  }

  /** Different intention types get different colours. */
  lemma IntentionColorsDiffer(s: IntentionType, t: IntentionType)
    requires s != t
    ensures IntentionColor(Some(TypeName(s))) != IntentionColor(Some(TypeName(t)))
  {
  }

  /** The sphere colour of a user: the colour of its primary intention's type. */
  function UserColor(primary: Option<Intention>): (color: Option<string>)
    ensures color.Some?
    ensures primary.None? ==> color == Some(DefaultColor)
  {
    IntentionColor(if primary.None? then None else Some(TypeName(primary.value.kind)))
  }

  /** The four colours `getAuroraColor` cycles through. */
  const AuroraColors: seq<string> := ["#4ecdc4", "#45b7d1", "#96ceb4", "#ff6b6b"]

  /** `Math.trunc`: rounds toward zero. */
  function Trunc(x: real): (t: int)
    ensures x >= 0.0 ==> t as real <= x < t as real + 1.0
    ensures x < 0.0 ==> t as real - 1.0 < x <= t as real
  {
    if x >= 0.0 then x.Floor else -((-x).Floor)
  }

  /** JavaScript's `%` on numbers: the remainder keeps the sign of the dividend. */
  function JsRemainder(x: real, m: real): (r: real)
    requires m > 0.0
  {
    x - m * Trunc(x / m) as real
  }

  /**
   * `getAuroraColor`: `colors[(level - 1) % 4]`. The remainder is a property key, so
   * only the numbers 0..3 hit the table; a negative or fractional remainder reads nothing.
   */
  function AuroraColor(level: real): (color: Option<string>)
    ensures color.Some? ==> color.value in AuroraColors
  {
    var r := JsRemainder(level - 1.0, |AuroraColors| as real);
    if r == r.Floor as real && 0 <= r.Floor < |AuroraColors| then Some(AuroraColors[r.Floor]) else None
  }

  /** For whole levels from 1 on, the colours repeat with period four, starting at the first. */
  lemma AuroraCycles(n: int)
    requires n >= 1
    ensures AuroraColor(n as real) == Some(AuroraColors[(n - 1) % 4])
  {
    var q, k := (n - 1) / 4, (n - 1) % 4;
    assert (n - 1) as real / 4.0 == q as real + k as real / 4.0;
    assert Trunc((n - 1) as real / 4.0) == q;
    assert JsRemainder(n as real - 1.0, 4.0) == k as real;
  }

  /**
   * Interaction strengths lie in [0, 1]; below 1 the remainder is negative, so only
   * strength exactly 1 gets a colour, the first one.
   */
  lemma StrengthColor(s: real)
    requires 0.0 <= s <= 1.0
    ensures AuroraColor(s).Some? <==> s == 1.0
    ensures s == 1.0 ==> AuroraColor(s) == Some(AuroraColors[0])
  {
    if s < 1.0 {
      assert Trunc((s - 1.0) / 4.0) == 0;
      assert JsRemainder(s - 1.0, 4.0) == s - 1.0;
      assert (s - 1.0).Floor == -1;
    } else {
      AuroraCycles(1);
    }
  }

  predicate Involves(c: Connection, userId: string) {
    c.userId1 == userId || c.userId2 == userId
  }

  /** `userConnections`: the connections naming the user on either side, in store order. */
  function UserConnections(connections: seq<Connection>, userId: string): (mine: seq<Connection>)
    ensures forall c :: c in mine <==> c in connections && Involves(c, userId)
  {
    Filter(connections, (c: Connection) => Involves(c, userId))
  }

  /** What `UserWithAura` draws for a user. */
  datatype AuraView = AuraView(auraShown: bool, sphereColor: Option<string>, emissiveIntensity: real,
                               orbitColors: seq<Option<string>>)

  /**
   * `UserWithAura`: the aura exactly when some connection names the user, a brighter
   * sphere then, and one orbit per such connection at levels 1, 2, ... coloured in turn.
   */
  function UserWithAura(connections: seq<Connection>, user: User): (v: AuraView)
    ensures v.auraShown <==> exists c :: c in connections && Involves(c, user.id)
    ensures v.emissiveIntensity == if v.auraShown then 0.5 else 0.1
    ensures v.sphereColor.Some?
    ensures |v.orbitColors| == |UserConnections(connections, user.id)|
    ensures v.orbitColors == [] <==> !v.auraShown
  {
    var mine := UserConnections(connections, user.id);
    var active := |mine| > 0;
    assert active ==> mine[0] in mine;
    AuraView(active, UserColor(user.primaryIntention), if active then 0.5 else 0.1,
             seq(|mine|, i requires 0 <= i < |mine| => AuroraColor((i + 1) as real)))
  }

  /** The k-th orbit (from 0) takes the k-th colour of the cycle; no orbit goes uncoloured. */
  lemma OrbitColors(connections: seq<Connection>, user: User)
    ensures forall k :: 0 <= k < |UserWithAura(connections, user).orbitColors| ==>
      UserWithAura(connections, user).orbitColors[k] == Some(AuroraColors[k % 4])
  {
    var v := UserWithAura(connections, user);
    forall k | 0 <= k < |v.orbitColors| ensures v.orbitColors[k] == Some(AuroraColors[k % 4]) {
      AuroraCycles(k + 1);
    }
  }
}
