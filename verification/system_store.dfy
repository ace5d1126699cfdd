/**
 * The shell's system store: the current user, the per-role permission table, and
 * the switch between the room and the cabinet.
 */
module SystemStore {
  import opened Wrappers

  datatype Mode = RoomMode | CabinetMode

  /** The roles the permission table has rows for. */
  datatype Role = Yara | Terminal

  /** The current user; the permission list and behaviour patterns it also carries are never read. */
  datatype SystemUser = SystemUser(id: string, name: string, role: Role, trustLevel: real, honestyScore: real)

  const InitialUser := SystemUser("yara-001", "Яра", Yara, 4.0, 0.95)

  const Modules: set<string> := {"matching", "analytics", "moderation", "system"}

  /** The level names of the table `{read: 1, write: 2, admin: 3}`; any other name has no rank. */
  function Rank(level: string): (r: Option<int>)
    ensures r.Some? <==> level in {"read", "write", "admin"}
    ensures r.Some? ==> 1 <= r.value <= 3
  {
    if level == "read" then Some(1)
    else if level == "write" then Some(2)
    else if level == "admin" then Some(3)
    else None
  }

  /** The permission table: yara is admin of every module, terminal may only read. */
  function Granted(role: Role, moduleName: string): (level: Option<string>)
    ensures level.Some? <==> moduleName in Modules
  {
    if moduleName in Modules then Some(match role case Yara => "admin" case Terminal => "read") else None
  }

  /**
   * `hasPermission`: the role's level for the module ranks at least as high as the
   * requested one; an unknown module or level compares `undefined` and fails.
   */
  function HasPermission(role: Role, moduleName: string, level: string): bool {
    var held := Granted(role, moduleName);
    held.Some? && Rank(held.value).Some? && Rank(level).Some? && Rank(held.value).value >= Rank(level).value
  }

  /** Access is granted exactly when both ranks exist and the held one is at least the requested one. */
  lemma PermissionIsRankComparison(role: Role, moduleName: string, level: string)
    ensures HasPermission(role, moduleName, level) <==>
      moduleName in Modules && level in {"read", "write", "admin"} &&
      Rank(if role == Yara then "admin" else "read").value >= Rank(level).value
  {
  }

  /** Granted at one level means granted at every lower level. */
  lemma PermissionMonotone(role: Role, moduleName: string, level: string, lower: string)
    requires HasPermission(role, moduleName, level)
    requires Rank(lower).Some? && Rank(level).Some? && Rank(lower).value <= Rank(level).value
    ensures HasPermission(role, moduleName, lower)
  {
  }

  /** yara passes every known module at every level; terminal passes exactly `read`. */
  lemma RoleCapabilities(moduleName: string, level: string)
    requires moduleName in Modules
    ensures Rank(level).Some? ==> HasPermission(Yara, moduleName, level)
    ensures HasPermission(Terminal, moduleName, level) <==> level == "read"
  {
  }

  /** Unknown modules and levels are refused to everyone. */
  lemma UnknownRefused(role: Role, moduleName: string, level: string)
    requires moduleName !in Modules || Rank(level).None?
    ensures !HasPermission(role, moduleName, level)
  {
  }

  /** `analyzeHonesty`: 0.7 + 0.2 + 0.1 capped at 1, whatever the user. */
  function AnalyzeHonesty(userId: string): (score: real)
    ensures 0.0 <= score <= 1.0
  {
    var total := 0.7 + 0.2 + 0.1;
    if total <= 1.0 then total else 1.0
  }

  class System {
    var currentMode: Mode
    var realityTransition: bool
    var currentUser: SystemUser

    constructor ()
      ensures currentMode == RoomMode && !realityTransition && currentUser == InitialUser
    {
      currentMode := RoomMode;
      realityTransition := false;
      currentUser := InitialUser;
    }

    /** The permission check against the current user's role. */
    function Allows(moduleName: string, level: string): (allowed: bool)
      reads this
      ensures allowed <==>
        (moduleName in Modules && Rank(level).Some? && (currentUser.role == Terminal ==> level == "read"))
    {
      HasPermission(currentUser.role, moduleName, level)
    }

    /** First step of `switchMode`: the transition flag goes up, the mode stays. */
    method BeginSwitchMode(mode: Mode)
      modifies this
      ensures realityTransition
      ensures currentMode == old(currentMode) && currentUser == old(currentUser)
    {
      realityTransition := true;
    }

    /** The timer's step of `switchMode`: the requested mode is in place and the flag is down. */
    method CompleteSwitchMode(mode: Mode)
      modifies this
      ensures currentMode == mode && !realityTransition
      ensures currentUser == old(currentUser)
    {
      currentMode := mode;
      realityTransition := false;
    }

    /** `setUserIntention`: only the honesty score changes, and the intention itself is not used. */
    method SetUserIntention(intentionId: string)
      modifies this
      ensures currentUser == old(currentUser).(honestyScore := AnalyzeHonesty(old(currentUser).id))
      ensures currentMode == old(currentMode) && realityTransition == old(realityTransition)
    {
      currentUser := currentUser.(honestyScore := AnalyzeHonesty(currentUser.id));
    }
  }
}
