/** Optional values: the model's stand-in for the host's nullable references. */
module Options {

  datatype Option<+T> = None | Some(value: T)
}

/**
 Immutable snapshots of the host's player controllers, as the plugin reads them:
 team, liveness, validity of controller and pawn, bot/HLTV flags, connection
 state and the per-player voice flags the plugin manages.
 */
module Players {

  /** Identity of a player controller; two snapshots denote the same player iff their ids agree. */
  type PlayerId = int

  /** The host's team enumeration (None, Spectator, Terrorist, CounterTerrorist). */
  datatype Team = NoTeam | Spectator | Terrorist | CounterTerrorist

  /** The host's connection states of a player slot. */
  datatype ConnectedState =
    | NeverConnected
    | Connected
    | Connecting
    | Reconnecting
    | Disconnecting
    | Disconnected
    | Reserved

  /** The host's voice flags: a byte-wide bit set. */
  type VoiceFlags = bv8

  const Normal: VoiceFlags := 0
  const ListenAll: VoiceFlags := 4
  const ListenTeam: VoiceFlags := 16

  /** Enum.HasFlag: every bit of `flag` is set in `flags`. */
  predicate HasFlag(flags: VoiceFlags, flag: VoiceFlags) {
    flags & flag == flag
  }

  datatype Player = Player(
    id: PlayerId,
    name: string,
    team: Team,
    controllerValid: bool,   // the controller's IsValid
    pawnValid: bool,         // PlayerPawn is present and valid
    pawnAlive: bool,         // PawnIsAlive
    isBot: bool,
    isHltv: bool,
    connected: ConnectedState,
    voiceFlags: VoiceFlags
  )

  /** A real, fully connected human player with a live pawn handle. */
  predicate ClientIsValid(p: Player) {
    && p.controllerValid
    && p.pawnValid
    && !p.isBot
    && !p.isHltv
    && p.connected == Connected
  }

  /** Some player of the list passes ClientIsValid. */
  predicate HasValidPlayer(players: seq<Player>) {
    exists i :: 0 <= i < |players| && ClientIsValid(players[i])
  }

  /** No two snapshots of the list denote the same player. */
  predicate DistinctIds(players: seq<Player>) {
    forall i, j :: 0 <= i < j < |players| ==> players[i].id != players[j].id
  }
}
