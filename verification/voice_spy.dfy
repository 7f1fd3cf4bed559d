/**
 Voice routing: the flags a player's voice is set to when they connect, and
 the css_voicespy toggle privileged players use to switch between hearing
 everyone and hearing their own team. Each handler maps the player's current
 flags to new flags, or leaves them unchanged.
 */
module VoiceSpy {
  import opened Options
  import opened Players
  import opened Config
  import opened Permissions

  /** The effect of the connect handler on a player's voice flags. */
  datatype VoiceUpdate = Unchanged | UpdateFaulted | SetFlags(flags: VoiceFlags)

  /** OnPlayerConnect (full connection): privileged players hear everyone, the rest their team. */
  function OnPlayerConnect(cfg: PluginConfig, oracle: AdminOracle, player: Option<Player>): (u: VoiceUpdate)
    ensures player.None? || !cfg.voiceSpyEnabled ==> u == Unchanged
    ensures u == UpdateFaulted <==>
              player.Some? && cfg.voiceSpyEnabled && player.value.controllerValid && !WellFormed(cfg.adminFlags)
    ensures u.SetFlags? <==>
              player.Some? && cfg.voiceSpyEnabled && player.value.controllerValid && WellFormed(cfg.adminFlags)
    ensures u.SetFlags? ==> (u.flags == ListenAll <==> Privileged(oracle, cfg.adminFlags, player.value.id))
    ensures u.SetFlags? ==> (u.flags == ListenTeam <==> !Privileged(oracle, cfg.adminFlags, player.value.id))
  {
    if player.None? then Unchanged
    else if !cfg.voiceSpyEnabled then Unchanged
    else if !player.value.controllerValid then Unchanged
    else
      match HasPermissions(oracle, player.value.id, cfg.adminFlags)
      case IndexFault => UpdateFaulted
      case Decided(isAdmin) => SetFlags(if isAdmin then ListenAll else ListenTeam)
  }

  /** The confirmation sent back to the invoker of the toggle. */
  datatype VoiceReply = SetToDefault | SetToListenAll

  /** The flip the toggle applies: flags that include ListenAll fall back to ListenTeam, anything else becomes ListenAll. */
  function ToggleFlags(flags: VoiceFlags): VoiceFlags {
    if HasFlag(flags, ListenAll) then ListenTeam else ListenAll
  }

  /** The effect of the toggle command. */
  datatype ToggleOutcome = Declined | ToggleFaulted | Toggled(flags: VoiceFlags, reply: VoiceReply)

  /** OnVoiceSpyCommand: only a present, valid, privileged invoker is served. */
  function OnVoiceSpyCommand(cfg: PluginConfig, oracle: AdminOracle, player: Option<Player>): (t: ToggleOutcome)
    ensures player.None? ==> t == Declined
    ensures t == ToggleFaulted <==> player.Some? && player.value.controllerValid && !WellFormed(cfg.adminFlags)
    ensures t.Toggled? <==>
              player.Some? && player.value.controllerValid && Privileged(oracle, cfg.adminFlags, player.value.id)
    ensures t.Toggled? && HasFlag(player.value.voiceFlags, ListenAll) ==> t.flags == ListenTeam && t.reply == SetToDefault
    ensures t.Toggled? && !HasFlag(player.value.voiceFlags, ListenAll) ==> t.flags == ListenAll && t.reply == SetToListenAll
  {
    if player.None? || !player.value.controllerValid then Declined
    else
      match HasPermissions(oracle, player.value.id, cfg.adminFlags)
      case IndexFault => ToggleFaulted
      case Decided(isAdmin) =>
        if !isAdmin then Declined
        else
          var flags := ToggleFlags(player.value.voiceFlags);
          Toggled(flags, if flags == ListenTeam then SetToDefault else SetToListenAll)
  }

  /** The player after the toggle: a valid privileged invoker has its flags flipped,
      anyone else is left as is, and nothing but the flags ever changes. */
  function AfterToggle(cfg: PluginConfig, oracle: AdminOracle, p: Player): (q: Player)
    ensures q.(voiceFlags := p.voiceFlags) == p
    ensures p.controllerValid && Privileged(oracle, cfg.adminFlags, p.id) ==>
              q.voiceFlags == (if HasFlag(p.voiceFlags, ListenAll) then ListenTeam else ListenAll)
    ensures !(p.controllerValid && Privileged(oracle, cfg.adminFlags, p.id)) ==> q == p
  {
    match OnVoiceSpyCommand(cfg, oracle, Some(p))
    case Toggled(flags, _) => p.(voiceFlags := flags)
    case _ => p
  }

  /** Toggling twice returns a served player to their flags exactly when those
      were ListenAll or ListenTeam; any other flag combination is lost. */
  lemma ToggleTwiceRestores(cfg: PluginConfig, oracle: AdminOracle, p: Player)
    requires p.controllerValid && Privileged(oracle, cfg.adminFlags, p.id)
    ensures AfterToggle(cfg, oracle, AfterToggle(cfg, oracle, p)) == p
        <==> p.voiceFlags == ListenAll || p.voiceFlags == ListenTeam
  {
  }

  /** The toggle does not consult the voice-spy switch. */
  lemma ToggleIgnoresVoiceSwitch(cfg: PluginConfig, oracle: AdminOracle, player: Option<Player>, enabled: bool)
    ensures OnVoiceSpyCommand(cfg.(voiceSpyEnabled := enabled), oracle, player) == OnVoiceSpyCommand(cfg, oracle, player)
  {
  }

  /** The flags the connect handler sets are a fixed point of two toggles. */
  lemma ConnectFlagsSurviveTwoToggles(cfg: PluginConfig, oracle: AdminOracle, p: Player)
    requires OnPlayerConnect(cfg, oracle, Some(p)).SetFlags?
    ensures ToggleFlags(ToggleFlags(OnPlayerConnect(cfg, oracle, Some(p)).flags))
         == OnPlayerConnect(cfg, oracle, Some(p)).flags
  {
  }
}
