# Spiritual system: a Dafny model of its stores and helpers

This project models the logic of the spiritual-system web application. The
rendering is left aside. The model covers:

- **Our chats** (`our_chats_store.dfy`, `our_chat_component.dfy`, `app.dfy`):
  - the persisted chat store: a map from chat id to chat, plus the active chat id;
  - the chat widget's create-or-switch effect and its send handlers;
  - the application shell: the first chat on start-up, new chats, and the placeholder
    AI reply built from the last three messages.
- **The room** (`room_store.dfy`):
  - the current user's intentions, re-sorted by priority;
  - the matching scan that replaces the connections and logs one interaction per
    match, and the connection strength;
  - joining, leaving and interactions.
- **The system stores**:
  - `system_store.dfy`: the permission table of the two roles (yara, terminal), the
    two-step mode switch and the honesty refresh;
  - `integrated_system_store.dfy`: the two-step reality toggle and the keyword-driven
    reply that quotes Frankl, Freud and Jung.
- **The cabinet** (`cabinet_system.dfy`): the root user's match ranking and the
  permission gating of its tools.
- **Utilities**:
  - `spiritual_algorithms.dfy`: vertical pressure and threshold insights;
  - `color_gradients.dfy`: the spectrum colour and the orbit radius;
  - `enhanced_room_system.dfy`: intention and aurora colours, and the connections that
    light a user's aura.
- **Shared pieces**:
  - `sequences.dfy`: the runtime's `filter` and its stable descending `sort`;
  - `text.dfy`: `join`, `includes`, `toLowerCase`;
  - `wrappers.dfy`: `Option`.

Stores whose actions update state in place are classes whose methods have `modifies`
clauses: `ChatsStore`, `App`, `Room`, `System` and `IntegratedSystem`. Pure helpers
are functions, each with lemmas about it.

The model follows the code where the code and the application's own wording differ:

- The welcome text (src/App.jsx:74) says AI replies live only for the session.
- In the code, `handleAiResponse` calls `handleSendMessage` with sender `ai`, which
  stores through `addOurMessage` exactly as for a user message. AI replies therefore land in the same persisted message list.
  `HandleAiResponse` states the new map exactly: the reply is appended after the earlier
  messages, and every other chat is left as it was.

Nondeterminism and timers are handled as follows:

- `Date.now()`, the random id suffix, `toLocaleDateString()` and the random start
  position are parameters of the actions that read them.
- The mode switch and the reality toggle each split at their `setTimeout` into two
  steps: `BeginSwitchMode`/`CompleteSwitchMode` and `BeginToggleReality`/`CompleteToggleReality`.
  The other timers are listed under "Left out".
- Numbers are `real`. A lookup keyed by a number, such as `pressureFactors[level]`,
  `colors[level]` or `colors[(level - 1) % 4]`, is modelled as the JavaScript
  property lookup it is: only the exact numbers that are keys hit the table.

## Model

| member | source | states |
|---|---|---|
| OurChatsStore.FirstMessageOfNewChat | src/store/ourChatsStore.js:10-41 | a chat created by `createOurChat` and then given its first message through `addOurMessage` is a record with the same id, title, participants `user` and `ai` and creation time, holding exactly that message, last updated when the message was added |
| OurChatsStore.WithMessage | src/store/ourChatsStore.js:37-41 | the entry written by `addOurMessage` has the earlier messages unchanged, then the new message last, and `updatedAt` set. A record keeps its id, title, participants and creation time. A missing entry becomes a fragment holding only the new message |
| OurChatsStore.EveryChatListed | src/store/ourChatsStore.js:59 | `Object.values` over an enumeration of the keys lists every stored chat and nothing that is not stored |
| OurChatsStore.ChatsStore.constructor | src/store/ourChatsStore.js:7-8 | no chats and a null active id |
| OurChatsStore.ChatsStore.CreateOurChat | src/store/ourChatsStore.js:10-24 | the map gains or replaces `chatId` with a fresh record (old messages are lost), titled "Наш диалог" unless a title is given. All other keys are unchanged, and the active id becomes `chatId` |
| OurChatsStore.ChatsStore.AddOurMessage | src/store/ourChatsStore.js:27-46 | returns the `our-<chat>-<clock>-<suffix>` id. Exactly one message is appended to that chat, last. Only that chat's entry changes (an absent chat becomes a fragment). The active id is unchanged |
| OurChatsStore.ChatsStore.SwitchOurChat | src/store/ourChatsStore.js:48-50 | the active id is set even when no chat is stored under it; the chats are unchanged |
| OurChatsStore.ChatsStore.GetActiveOurChat | src/store/ourChatsStore.js:52-55 | the chat under the active id; nothing for a dangling id; for a null id, the chat keyed `"null"` if any |
| OurChatsStore.ChatsStore.GetAllOurChats | src/store/ourChatsStore.js:57-62 | every stored chat exactly once (the keys enumerate the map without repeats, and the result is a permutation of the values), ordered by `updatedAt` non-increasing |
| OurChatsStore.ChatsStore.DeleteOurChat | src/store/ourChatsStore.js:64-74 | the key is gone and every other key is kept; the active id is cleared exactly when it named the deleted chat |
| Sequences.SortDesc | src/store/ourChatsStore.js:59-61 | the comparator sort `(a, b) => key(b) - key(a)`: same length, a permutation of the input, and ordered by key non-increasing |
| Sequences.SortDescFirstIsMax | src/stores/room-store.ts:83 | the first element of the sorted list is an input element with a maximal key |
| Sequences.Filter | src/stores/room-store.ts:165-168 | `filter`: every kept element satisfies the predicate, and membership is exactly "in the input and satisfies" |
| Sequences.FilterCounts | src/stores/room-store.ts:165-168 | `filter` keeps each satisfying value as often as the input holds it, and drops every other value entirely |
| Sequences.FilterAppend | src/stores/room-store.ts:165 | filtering distributes over concatenation, so kept elements keep their relative order |
| OurChatComponent.SyncChat | src/components/OurChatComponent.jsx:4-22 | with a truthy `chatId`, a missing chat is created (and becomes active) when auto-create is on, which is the default; otherwise the active id is switched even to a missing chat. A falsy id changes nothing |
| OurChatComponent.HandleSendMessage | src/components/OurChatComponent.jsx:26-37 | with no truthy active id: nothing stored, nothing returned. Otherwise `{text, sender, type: 'text'}` is appended as the active chat's last message and its id is returned. The sender defaults to `user` |
| OurChatComponent.HandleAiResponse | src/components/OurChatComponent.jsx:39-41 | the AI reply goes through the send handler with sender `ai`: with a truthy active id the map changes exactly as `addOurMessage` changes it. The earlier messages are kept, the reply is the active chat's last message, and every other chat is unchanged. With no truthy active id, nothing is stored |
| ChatApp.App.constructor | src/App.jsx:8 | the current chat id starts null |
| ChatApp.App.OnMount | src/App.jsx:15-22 | a first chat `our-chat-<clock>` titled "Мой первый диалог" is created and selected exactly when the store is empty; otherwise nothing changes |
| ChatApp.App.StartBrandNewChat | src/App.jsx:25-30 | creates and selects `our-chat-<clock>` with the "Новый диалог <date>" title, and returns its id |
| ChatApp.ContextWindow | src/App.jsx:42 | `slice(-3)`: the last min(3, n) messages, as a suffix of the history |
| ChatApp.RecentTexts | src/App.jsx:42-43 | the texts of the `slice(-3)` window are the last entries of the history's texts, in order |
| ChatApp.Reply | src/App.jsx:41-48 | the reply opens with the quoted user message and ends with the joined context, or with "нет истории" when the context is empty |
| ChatApp.ContextQuotesRecentTexts | src/App.jsx:41-44 | the k-th of the last three texts sits at its join offset in the context, followed by " \| " unless it is the newest |
| Text.JoinAt | src/App.jsx:44 | `join`: each part starts at its offset, and every part but the last is followed by the separator |
| Text.ContainsInfix | src/stores/integrated-system-store.ts:79 | `includes`: an occurrence inside a part is an occurrence in any text around it |
| Text.LowerChar | src/stores/integrated-system-store.ts:75 | `toLowerCase` on one character: each Latin and Russian capital becomes its own small letter (code point + 32, and Ё becomes ё), every other character is unchanged, and no capital remains |
| Text.LowerAppend | src/stores/integrated-system-store.ts:75 | lowercasing works piece by piece: the lower case of a concatenation is the concatenation of the lower cases |
| Text.LowerIdempotent | src/stores/integrated-system-store.ts:75 | lowercasing lowercase text changes nothing |
| RoomStore.IntentionsAfterSet | src/stores/room-store.ts:80-91 | the new list has the new intention exactly once and no other intention with its id. Every other intention keeps its multiplicity. The list is sorted by priority, highest first |
| RoomStore.PrimaryHasTopPriority | src/stores/room-store.ts:83 | the primary intention (first after sorting) has maximal priority among the stored intentions |
| RoomStore.SquaredDistance | src/stores/room-store.ts:203-207 | the squared Euclidean distance is non-negative (it stands in for `Math.sqrt` compared with 5 and 10) |
| RoomStore.ConnectionStrength | src/stores/room-store.ts:194-216 | the strength is capped at 1. It is at least 0 for non-negative trust, and at least 0.6 when, in addition, both primary types agree (including both absent) |
| RoomStore.StrengthGrowsWithProximity | src/stores/room-store.ts:203-210 | all else equal, a closer user never gets a weaker connection |
| RoomStore.ConnectionsFor | src/stores/room-store.ts:115-128 | each built connection runs from the current user to another user, shares the current primary type, and has strength at most 1 |
| RoomStore.InteractionsFor | src/stores/room-store.ts:130-136 | each logged interaction starts at the current user and has type `connection` |
| RoomStore.ConnectionsFollowMatches | src/stores/room-store.ts:115-138 | the j-th connection and the j-th interaction both lead to the j-th matching user, so there is exactly one of each per match, in room order |
| RoomStore.NewUser | src/stores/room-store.ts:146-155 | each falsy draft field falls back to its default: 'Аноним', the random position, no intentions, trust 1, energy 0.5, honesty 0.7. Every given or truthy field is kept: name, position, intentions, primary intention, trust, energy and honesty |
| RoomStore.LeaveRemovesOnlyThatUser | src/stores/room-store.ts:162-170 | leaving keeps exactly the other users and the connections that do not name the user, in order |
| RoomStore.Room.constructor | src/stores/room-store.ts:56-69 | no users, the default current user, no connections, no interactions |
| RoomStore.Room.SetUserIntention | src/stores/room-store.ts:80-95 | the intentions become the re-sorted list and the primary intention becomes its first entry; then the matching scan runs over the unchanged users |
| RoomStore.Room.UpdateUserPosition | src/stores/room-store.ts:97-105 | only the current user's position changes |
| RoomStore.Room.FindMatchingUsers | src/stores/room-store.ts:107-142 | without a primary intention: returns nothing and changes nothing. Otherwise the connections become exactly one per match (also returned), and one interaction per match is appended |
| RoomStore.Room.JoinRoom | src/stores/room-store.ts:144-160 | exactly one user, built from the draft, is appended; everything else is unchanged |
| RoomStore.Room.LeaveRoom | src/stores/room-store.ts:162-170 | users with that id and connections naming it are removed; the rest stays in order |
| RoomStore.Room.AddInteraction | src/stores/room-store.ts:172-181 | exactly one interaction with the given fields and an `interaction-<clock>` id is appended |
| SystemStore.Rank | src/stores/system-store.ts:111-112 | a level has a rank (1 to 3) exactly when it is `read`, `write` or `admin` |
| SystemStore.Granted | src/stores/system-store.ts:60-73 | a role holds a level exactly for the four known modules |
| SystemStore.PermissionIsRankComparison | src/stores/system-store.ts:106-116 | permission holds exactly when both ranks exist and the held rank is at least the requested one |
| SystemStore.System.Allows | src/stores/system-store.ts:106-116 | the store action reads the current user's role: access is granted exactly for a known module and a known level, and a terminal user gets only `read` |
| SystemStore.PermissionMonotone | src/stores/system-store.ts:106-116 | a permission at one level implies it at every lower level |
| SystemStore.RoleCapabilities | src/stores/system-store.ts:60-73 | yara passes every level of a known module; terminal passes exactly `read` |
| SystemStore.UnknownRefused | src/stores/system-store.ts:111-115 | an unknown module or level is refused to every role |
| SystemStore.AnalyzeHonesty | src/stores/system-store.ts:98-104 | the score lies in [0, 1] |
| SystemStore.System.constructor | src/stores/system-store.ts:40-58 | room mode, no transition, the yara root user |
| SystemStore.System.BeginSwitchMode | src/stores/system-store.ts:75-76 | the transition flag goes up; the mode and the user are unchanged |
| SystemStore.System.CompleteSwitchMode | src/stores/system-store.ts:78-83 | the requested mode is in place and the flag is down |
| SystemStore.System.SetUserIntention | src/stores/system-store.ts:86-96 | only the user's honesty score changes, to the analysed score; the intention is not used |
| IntegratedSystemStore.Other | src/stores/integrated-system-store.ts:29 | the toggle target always differs from the current reality |
| IntegratedSystemStore.IntegratedSystem.constructor | src/stores/integrated-system-store.ts:20-23 | starts in the cabinet with no transition |
| IntegratedSystemStore.IntegratedSystem.BeginToggleReality | src/stores/integrated-system-store.ts:26 | only the transition flag goes up |
| IntegratedSystemStore.IntegratedSystem.CompleteToggleReality | src/stores/integrated-system-store.ts:28-36 | the reality flips between cabinet and world and the flag is cleared |
| IntegratedSystemStore.IntegratedSystem.ToggleTwice | src/stores/integrated-system-store.ts:25-36 | two full toggles restore the starting reality, with the flag down |
| IntegratedSystemStore.Cited | src/stores/integrated-system-store.ts:79-89 | Frankl is cited iff the message has 'смысл' or 'цель'. Freud iff 'бессознательное' or 'сны'. Jung iff 'личность' or 'изменение'. Each at most once, in the order Frankl, Freud, Jung |
| IntegratedSystemStore.CitedLineOccurs | src/stores/integrated-system-store.ts:80-88 | every cited author's quote line occurs in the quoted block |
| IntegratedSystemStore.ComposeReply | src/stores/integrated-system-store.ts:74-93 | the appends build exactly the header, then the cited authors' lines in order, then the sources line |
| IntegratedSystemStore.ReplyShape | src/stores/integrated-system-store.ts:76-91 | every reply starts with the analysis header, ends with the sources line, and contains the quote line of each author whose keywords occur |
| IntegratedSystemStore.ProcessAIMessageWithKnowledge | src/stores/integrated-system-store.ts:45-94 | the reply for a message is the composed reply over the lowercased message and the built-in knowledge base |
| CabinetSystem.MatchScore | src/components/CabinetSystem.tsx:215-221 | for honesty in [0, 1] and trust in [0, 4] the score lies in [0.5, 1] |
| CabinetSystem.MatchScoreMonotone | src/components/CabinetSystem.tsx:215-221 | the score is monotone in honesty and in trust, and strictly increasing in each |
| CabinetSystem.Scored | src/components/CabinetSystem.tsx:175-179 | each user is paired with its own score, position by position, with multiplicities preserved |
| CabinetSystem.FindOptimalMatches | src/components/CabinetSystem.tsx:171-181 | the root user never appears. Every other user appears as often as in the room, each with its own score. The list is ordered by score non-increasing |
| CabinetSystem.EveryOtherUserListed | src/components/CabinetSystem.tsx:173-179 | every non-root user of the room is in the list, and only with its own score |
| CabinetSystem.RootNeverListed | src/components/CabinetSystem.tsx:174 | no entry is the root user |
| CabinetSystem.ToolButtons | src/components/CabinetSystem.tsx:18-41 | development is always offered first; analytics and matching each exactly when their `read` permission holds |
| CabinetSystem.AnalyticsView | src/components/CabinetSystem.tsx:117-137 | the statistics (user and connection counts) render exactly when analytics `read` holds; otherwise the refusal renders |
| CabinetSystem.MatchingView | src/components/CabinetSystem.tsx:163-183 | the match list renders exactly when matching `read` holds, and never lists the root; otherwise the refusal renders |
| CabinetSystem.ToolContent | src/components/CabinetSystem.tsx:44-48 | the content is the active tool's view: the personal metrics for development, the analytics view for analytics, the matching view for matching. Statistics or matches appear only for their own tool and permission |
| CabinetSystem.EveryRoleSeesAllTools | src/components/CabinetSystem.tsx:25-41 | both roles may read analytics and matching, so all three tools are offered and no refusal is ever rendered |
| SpiritualAlgorithms.PressureFactor | src/utils/spiritual-algorithms.ts:2-3 | levels 0..4 read their table factor (0.9, 0.7, 0.5, 0.3, 0.1); every other number falls back to 0.1 |
| SpiritualAlgorithms.VerticalPressure | src/utils/spiritual-algorithms.ts:1-4 | for a non-negative etalon force, the pressure lies between 0 and that force |
| SpiritualAlgorithms.PressureLinear | src/utils/spiritual-algorithms.ts:3 | the pressure is linear in the etalon force |
| SpiritualAlgorithms.PressureFallsWithLevel | src/utils/spiritual-algorithms.ts:2-3 | a deeper table level exerts strictly less pressure for a positive force |
| SpiritualAlgorithms.SumBounds | src/utils/spiritual-algorithms.ts:8 | the `reduce` sum of n conformities in [lo, hi] lies in [n·lo, n·hi] |
| SpiritualAlgorithms.Warnings | src/utils/spiritual-algorithms.ts:10-24 | the raised warnings: each at most once, exactly when its strict threshold is crossed, in the order conformity, cyclic, diagonal, etalon |
| SpiritualAlgorithms.PushInsights | src/utils/spiritual-algorithms.ts:6-27 | the four conditional pushes produce the messages of exactly the raised warnings, in order |
| SpiritualAlgorithms.GenerateInsights | src/utils/spiritual-algorithms.ts:6-27 | the insights are the source's messages for the raised warnings |
| SpiritualAlgorithms.InsightsMeaning | src/utils/spiritual-algorithms.ts:10-24 | at most four insights. A warning's message is present iff its threshold is crossed. The i-th insight is the i-th raised warning's message |
| SpiritualAlgorithms.MessageListed | src/utils/spiritual-algorithms.ts:11-23 | with distinct texts, a message is listed exactly when its warning is |
| SpiritualAlgorithms.InsightTextsDistinct | src/utils/spiritual-algorithms.ts:11-23 | the four warning texts differ pairwise |
| SpiritualAlgorithms.UniformLevels | src/utils/spiritual-algorithms.ts:8-12 | with five equal levels c, the conformity warning fires iff c < 0.3. Fewer levels read no higher, because the divisor stays 5 |
| ColorGradients.Spectrum | src/utils/color-gradients.ts:2-9 | every spectrum has eight colours |
| ColorGradients.OtherLevelsUseFirstSpectrum | src/utils/color-gradients.ts:9 | a level outside 0..3 uses the level-0 spectrum |
| ColorGradients.ColorIndex | src/utils/color-gradients.ts:10-11 | the index lies in 0..7 and is the floor of conformity·7, clamped |
| ColorGradients.ColorIndexMonotone | src/utils/color-gradients.ts:10-11 | the index is non-decreasing in conformity |
| ColorGradients.GetSpiritualColor | src/utils/color-gradients.ts:1-12 | the colour always belongs to the level's spectrum. Conformity at most 0 gives the first colour and at least 1 the last |
| ColorGradients.SameStepSameColor | src/utils/color-gradients.ts:10-11 | conformities in the same seventh of the scale share a colour |
| ColorGradients.CalculateOrbitRadius | src/utils/color-gradients.ts:14-16 | for activity in [0, 1] the radius lies in [0.1, 20] |
| ColorGradients.OrbitRadiusLinear | src/utils/color-gradients.ts:14-16 | the radius ignores the base radius and is linear in activity with slope 19.9 |
| EnhancedRoomSystem.IntentionColor | src/components/3d/EnhancedRoomSystem.tsx:189-199 | a missing intention or an empty type gets '#9d4edd'. Any other type gets its table colour if it is a key, and no colour otherwise |
| EnhancedRoomSystem.EveryIntentionTypeColored | src/components/3d/EnhancedRoomSystem.tsx:190-197 | each of the five intention types has a colour other than the default |
| EnhancedRoomSystem.IntentionColorsDiffer | src/components/3d/EnhancedRoomSystem.tsx:190-197 | different intention types get different colours |
| EnhancedRoomSystem.UserColor | src/components/3d/EnhancedRoomSystem.tsx:93 | a room user's sphere always has a colour, the default when it has no primary intention |
| EnhancedRoomSystem.Trunc | src/components/3d/EnhancedRoomSystem.tsx:203 | truncation toward zero, the quotient JavaScript's `%` uses |
| EnhancedRoomSystem.AuroraColor | src/components/3d/EnhancedRoomSystem.tsx:201-204 | any colour returned is one of the four aurora colours |
| EnhancedRoomSystem.AuroraCycles | src/components/3d/EnhancedRoomSystem.tsx:201-204 | an integer level n ≥ 1 gets colours[(n - 1) mod 4], so the colours cycle with period 4 |
| EnhancedRoomSystem.StrengthColor | src/components/3d/EnhancedRoomSystem.tsx:156 | for a strength in [0, 1], a colour exists iff the strength is exactly 1 (then the first colour); below 1 the remainder is negative and misses the table |
| EnhancedRoomSystem.UserConnections | src/components/3d/EnhancedRoomSystem.tsx:70-72 | exactly the connections naming the user on either side |
| EnhancedRoomSystem.UserWithAura | src/components/3d/EnhancedRoomSystem.tsx:70-109 | the aura shows iff some connection names the user; then the sphere is brighter. There is one orbit per such connection |
| EnhancedRoomSystem.OrbitColors | src/components/3d/EnhancedRoomSystem.tsx:102-109 | the k-th orbit (level k + 1) gets colours[k mod 4], so every orbit has a colour |

## Left out

- Persistence: the `persist` middleware and `localStorage` are left out. State is a plain value.
- `setUserGoals` (src/stores/integrated-system-store.ts:39-43) is not part of this model. It only writes to `localStorage` and to a `user` record that the shown store does not define.
- Timers:
  - The mode-switch and reality-toggle timers are separate completion steps; their interleaving with other actions is not modelled.
  - The removal of an interaction five seconds after it is added (src/stores/room-store.ts:183-189) is not modelled.
  - The start-up demo users (src/stores/room-store.ts:218-248) are not modelled.
  - The 1.5 s delay of the placeholder reply is not modelled.
- Time and randomness:
  - `Date.now()`, `Math.random()` and `toLocaleDateString()` are inputs, so ids are not claimed unique.
  - Two chats created in the same millisecond overwrite each other through `CreateOurChat`.
- RoomStore.Room.FindMatchingUsers: the scan reads the clock once. So all connection timestamps of one scan, and all interaction ids it logs, share one clock value, and the interaction ids coincide. The source reads `Date.now()` once per match and may see it advance during the scan.
- RoomStore.NewUser: the random start position is any position. The source draws x and z from [-10, 10) and sets y to 0 (src/stores/room-store.ts:149); no property here depends on that range.
- OurChatsStore.ChatsStore.AddOurMessage: the message's timestamp and the chat's updatedAt are modelled as one instant (`now`), whereas src/store/ourChatsStore.js reads the clock twice (lines 31 and 40). HandleSendMessage and HandleAiResponse inherit this.
- OurChatsStore.NewChat: the two clock reads for `createdAt` and `updatedAt` are modelled as one instant. The source may store two timestamps a millisecond apart.
- OurChatsStore.ChatsStore.GetAllOurChats:
  - The key order of `Object.values` is left open: any enumeration of the keys is allowed.
  - So the order of chats with equal `updatedAt` is not claimed.
  - Timestamps are milliseconds rather than ISO strings turned back into `Date`s.
- Sequences.SortDesc: the stability of `Array.prototype.sort` is not stated as a property. The function inserts ties after each other in input order.
- Floating point:
  - All numbers are exact reals. IEEE rounding, NaN and infinities are not modelled.
  - `Math.sqrt` is replaced by comparing the squared distance with 25 and 100.
- SystemStore.AnalyzeHonesty: computed over reals, the sum 0.7 + 0.2 + 0.1 is exactly 1. In doubles it is 0.9999999999999999, so the source returns that value.
- `Math.round` percentage displays and style values are not modelled.
- Text.LowerChar: `toLowerCase` is modelled for Basic Latin and the Russian alphabet only. All other characters are left unchanged.
- Roles: the role is one of the permission table's two keys.
  - A role outside the table would make `hasPermission` throw in the source; it cannot be expressed here.
  - The current user of the system store is always yara, so the cabinet's permission checks always pass.
- The knowledge base's concept lists are never read by the source and are left out. Every quote is kept in `Knowledge`, but only the first quote of each thinker is ever used, as in the source.
- The `reasons` tags of a match are the same two fixed strings for every user. They are not modelled.
- JavaScript property lookups are modelled for the keys that can occur. A key naming an `Object.prototype` member (such as `constructor` or `toString`) is not modelled: in JavaScript it would return a function instead of `undefined`. This affects `getIntentionColor`'s table and the chat map.
- User interface:
  - The 3D scene, shaders, per-frame animation and tab styling are not part of this model.
  - The UI panels are not part of this model either.
  - The `getIntentionColor` copies in DomeCitySystem.tsx and TimeCompressionPlane.tsx match the modelled one.
- The aura and orbit rendering is modelled through `UserWithAura`. A `TrustOrbit` with `isActive` false renders nothing, and this never happens, because the orbit list is empty exactly when the aura is off.
