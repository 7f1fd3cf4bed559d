# AdminSpy policy model

A Dafny model of the policy core of the AdminSpy CounterStrikeSharp plugin.
The plugin lets privileged players ("admins") read the opposing team's team chat
and hear all voice traffic. The model covers four pieces:

- **Privilege oracle** (`Permissions`). A player is privileged when any configured
  rule string matches. The rule's first character picks the host check: `@` asks
  for a permission flag, `#` for group membership, anything else for a command
  override. The host's answers are an uninterpreted `AdminOracle` value (three
  functions of player id and rule string). Indexing an empty rule string at 0 is
  an exception in the plugin. The model returns `IndexFault` for it, and each
  handler turns that into a `Faulted` outcome with no effect. The model does not
  forbid empty rules by a precondition.
- **Team-chat relay** (`TeamChat`). Only `say_team` is hooked (Plugin.cs:49). The decision is
  `Ignored` when chat spy is off, the sender is absent, the message is empty, or
  it starts with `/`, `!` or `@`. Otherwise it is the symbolic line (tag key,
  team-label key, sender name, dead-marker key, raw text) and the recipients.
  Recipients are the valid, privileged players who are neither the sender nor on
  the sender's team. Validity is `Players.ClientIsValid` (Plugin.cs:167-170):
  a valid controller, a valid pawn, not a bot, not HLTV, and connected. A
  recursive filter (`Recipients`) and the delivery loop as written
  (`DeliverRelay`) satisfy the same contract, which gives every recipient's
  multiplicity.
- **Voice routing** (`VoiceSpy`). The connect handler and the `css_voicespy`
  toggle are pure functions from a player snapshot to new voice flags, or to
  "unchanged". Voice flags are the host's byte-wide bit set (`bv8`).
- **Configuration adoption** (`Config`). Parsing a configuration warns when its
  version is below the held configuration's version, and always adopts it.
  `ReloadAll` runs a series of parses.

`Scenarios` works the shipped default configuration through concrete
situations: a cross-team relay, an invalid sender, a command message, a
privileged connect and an outdated file.

Facts about the program that the model keeps:

- The command-prefix check looks at the first character of the untrimmed
  message, so a leading space defeats it.
- The chat handler checks only that the sender is present, never that it is
  valid. A message from a present but invalid or disconnected sender is still
  relayed (`Scenarios.InvalidSenderStillRelayed`).
- The version warning compares against the version of the configuration held
  at that moment. After an older file has been adopted, that older version is
  the baseline for the next parse.
- The toggle command does not consult `voice-spy-enabled`.
- The toggle checks only the controller's `IsValid`, not the full
  `ClientIsValid`.

## Model

| member | source | states |
|---|---|---|
| Config.OnConfigParsed | Plugin.cs:37-45 | the new config is always adopted; a warning carrying (held version, new version) is produced iff the new version is below the held one |
| Config.ReloadAllAdoptsAndCompares | Plugin.cs:37-45 | over any series of parses the last file ends up held, and parse i warns iff its version is below the version adopted just before it (the starting config for i = 0) |
| Config.ReloadSameIsQuiet | Plugin.cs:37-45 | re-parsing the held configuration neither warns nor changes it |
| Permissions.KindOf | Plugin.cs:148-161 | a rule is a permission flag iff it starts with '@', a group iff it starts with '#', a command override otherwise |
| Permissions.HasPermissions | Plugin.cs:142-165 | the check faults iff some rule string is empty; otherwise it grants iff at least one rule matches under first-character dispatch (OR semantics) |
| Permissions.ClientHasPermissions | Plugin.cs:142-165 | the full-pass accumulator loop faults iff some rule is empty and otherwise grants iff some rule matches |
| Permissions.AnyMatchingRuleGrants | Plugin.cs:146-164 | any single matching rule of a well-formed list grants privilege, whichever it is |
| Permissions.NoRulesNoPrivilege | Plugin.cs:144-164 | an empty rule list yields "not privileged" and no fault |
| Permissions.RuleOrderIrrelevant | Plugin.cs:146-163 | two rule lists with the same rules, each as often, in any order, get the same verdict, fault included |
| Permissions.DefaultRulesMeaning | Plugin.cs:14-18 | under the shipped rules a player is privileged iff they hold "@css/chat" or are in group "#css/admin" |
| TeamChat.TeamLabel | Plugin.cs:124-140 | Terrorist maps to team.terrorist, CounterTerrorist to team.counterterrorist, every other value including an absent team to team.spectator |
| TeamChat.FormatLine | Plugin.cs:69-73 | the line carries the tag key, the sender's team label, the sender's name and the raw message; the dead marker is absent iff the sender's pawn is alive |
| TeamChat.Render | Plugin.cs:73 | the printed text begins with a space and ends with ": " followed by the raw message |
| TeamChat.Recipients | Plugin.cs:75-81 | faults iff some rule is empty and some player is valid; otherwise each player appears as often as in the player list if valid, privileged, not the sender and not on the sender's team, and never otherwise |
| TeamChat.DeliverRelay | Plugin.cs:75-81 | the delivery loop as written (validity checked before privilege) meets the same fault and multiplicity contract |
| TeamChat.OnPlayerTeamChat | Plugin.cs:53-83 | ignored iff chat spy is off, the sender is absent, the message is empty or its first character is '/', '!' or '@'; otherwise faulted iff the rules are malformed and a valid player exists, else relays the formatted line to exactly the cross-team privileged valid players |
| TeamChat.RelayReachesExactlyCrossTeamAdmins | Plugin.cs:75-81 | a player receives the relay iff it is listed, valid, privileged, not the sender and on a different team; same-team admins and the sender never do |
| TeamChat.OneCopyEach | Plugin.cs:75-81 | with distinct player ids every recipient receives exactly one copy |
| TeamChat.RelayIgnoresVoiceSetting | Plugin.cs:53-83 | the chat relay outcome does not depend on the voice-spy switch |
| VoiceSpy.OnPlayerConnect | Plugin.cs:85-104 | unchanged for an absent player, with voice spy off, or for an invalid controller; faulted iff the rules are malformed in the remaining case; otherwise the flags become exactly ListenAll if privileged, else exactly ListenTeam |
| VoiceSpy.OnVoiceSpyCommand | Plugin.cs:107-122 | served iff the invoker is present, valid and privileged; flags containing ListenAll become ListenTeam with the "default" reply, any other flags become ListenAll with the "listen all" reply |
| VoiceSpy.AfterToggle | Plugin.cs:107-122 | nothing but the voice flags ever changes; a valid privileged player's flags flip (containing ListenAll to ListenTeam, anything else to ListenAll); anyone else is left unchanged |
| VoiceSpy.ToggleTwiceRestores | Plugin.cs:112-121 | for a served player two toggles restore the original player iff the flags were exactly ListenAll or exactly ListenTeam |
| VoiceSpy.ToggleIgnoresVoiceSwitch | Plugin.cs:107-122 | the toggle outcome is the same whether voice spy is enabled or not |
| VoiceSpy.ConnectFlagsSurviveTwoToggles | Plugin.cs:95-121 | whatever flags the connect handler sets are restored by two toggles |
| Scenarios.CrossTeamScenario | Plugin.cs:53-83 | T sender "gg" with privileged CT players 2 and 3, privileged T player 4 and a CT bot: exactly 2 and 3 receive the line, which has the terrorist label and no dead marker |
| Scenarios.InvalidSenderStillRelayed | Plugin.cs:58-73 | a present sender with an invalid controller, disconnected, still has a plain message relayed under the default configuration |
| Scenarios.CommandNeverRelayed | Plugin.cs:65-67 | "!help" is ignored under every configuration |
| Scenarios.PrivilegedConnectListensAll | Plugin.cs:92-99 | a privileged player connecting under the default configuration gets ListenAll |
| Scenarios.OutdatedFileWarnsAndIsAdopted | Plugin.cs:39-44 | a version-0 file parsed over the version-1 default warns once and its flags are active at once |

## Left out

- Host registration (`Load`, the command listener and event handler plumbing) and the returned `HookResult`. The handlers always return `Continue`, so that result carries no decision. The team chat itself is still delivered by the host.
- `AdminManager`, `Utilities.GetPlayers`, `PrintToChat` and `ReplyToCommand` are host calls. They appear as the `AdminOracle` parameter, the player-list parameter and returned values.
- The text of localized strings, of `ChatColors` codes and of the toggle replies. The model uses symbolic keys (`LocKey`, `VoiceReply`) and an injected `Renderer`.
- TeamChat.Render: states only the leading space and the ": " + message tail of the printed text, not what the localizer returns for the template.
- The logger. The warning is a returned value carrying the two versions, not a log line.
- JSON property attributes and plugin metadata (name, author, description, version strings). They carry no behaviour.
- A `null` entry in the rule list (a JSON null) would raise a null-reference exception. Rule strings are never null in the model.
- What the host does with an exception thrown from a handler. The model records only that the handler faulted before any delivery or flag change.
- Delivery order. `Recipients` keeps the player-list order, but no property claims anything about it.
- Player identity is the snapshot's `id`. The reference comparison of controllers is modelled as id equality.
- `PlayerPawn?.IsValid` is one boolean per snapshot.
- The numeric values of the host's `VoiceFlags` enum come from the host library, which is not part of this model. The model uses ListenAll = 4 and ListenTeam = 16, and its properties rely only on these being distinct single bits.
- `ConfigVersion` is a 32-bit integer that is only compared, never computed with, so it is modelled as an unbounded `int`.
