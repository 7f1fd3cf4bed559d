/**
 Concrete situations the plugin is designed for, worked through the model
 with the shipped default configuration.
 */
module Scenarios {
  import opened Options
  import opened Players
  import opened Config
  import opened Permissions
  import opened TeamChat
  import opened VoiceSpy

  /** A connected human player with a valid pawn. */
  function Human(id: PlayerId, team: Team): Player {
    Player(id, "p", team, true, true, true, false, false, Connected, Normal)
  }

  /** Players 1, 2, 3 and 4 hold the "@css/chat" permission; nobody else holds anything. */
  function Admins(): AdminOracle {
    AdminOracle((id, flag) => flag == "@css/chat" && 1 <= id <= 4, (id, group) => false, (id, cmd) => false)
  }

  /** A Terrorist says "gg" to their team. Privileged players 2 and 3 are
      Counter-Terrorists and privileged player 4 is a Terrorist. Player 5 is a
      Counter-Terrorist bot without privileges. Only 2 and 3 get a copy. */
  lemma CrossTeamScenario()
    ensures var sender := Human(1, Terrorist);
            var bot := Human(5, CounterTerrorist).(isBot := true);
            var players := [sender, Human(2, CounterTerrorist), Human(3, CounterTerrorist), Human(4, Terrorist), bot];
            OnPlayerTeamChat(DefaultConfig, Admins(), Some(sender), "gg", players)
            == Relayed(ChatLine(StartlineTag, TeamTerrorist, "p", None, "gg"),
                       [Human(2, CounterTerrorist), Human(3, CounterTerrorist)])
  {
    var sender := Human(1, Terrorist);
    var p2, p3, p4 := Human(2, CounterTerrorist), Human(3, CounterTerrorist), Human(4, Terrorist);
    var bot := Human(5, CounterTerrorist).(isBot := true);
    var players := [sender, p2, p3, p4, bot];
    var rules := DefaultConfig.adminFlags;
    DefaultRulesMeaning(Admins(), 2);
    DefaultRulesMeaning(Admins(), 3);
    // Unfold the filter from the back of the list to the front.
    assert players[1..] == [p2, p3, p4, bot];
    assert [p2, p3, p4, bot][1..] == [p3, p4, bot];
    assert [p3, p4, bot][1..] == [p4, bot];
    assert [p4, bot][1..] == [bot];
    assert [bot][1..] == [];
    assert Recipients(Admins(), rules, sender, [bot]) == Some([]);
    assert Recipients(Admins(), rules, sender, [p4, bot]) == Some([]);
    assert HasPermissions(Admins(), p3.id, rules) == Decided(true);
    assert [p3] + [] == [p3];
    assert Recipients(Admins(), rules, sender, [p3, p4, bot]) == Some([p3]);
    assert HasPermissions(Admins(), p2.id, rules) == Decided(true);
    assert [p2] + [p3] == [p2, p3];
    assert Recipients(Admins(), rules, sender, [p2, p3, p4, bot]) == Some([p2, p3]);
  }

  /** The sender is only checked for presence, never for validity: a disconnected
      sender with an invalid controller still has the message relayed. */
  lemma InvalidSenderStillRelayed(oracle: AdminOracle, players: seq<Player>)
    ensures var stale := Human(9, Terrorist).(controllerValid := false, connected := Disconnected);
            OnPlayerTeamChat(DefaultConfig, oracle, Some(stale), "hi", players).Relayed?
  {
  }

  /** A command-looking message is never relayed, whatever the configuration. */
  lemma CommandNeverRelayed(cfg: PluginConfig, oracle: AdminOracle, sender: Option<Player>, players: seq<Player>)
    ensures OnPlayerTeamChat(cfg, oracle, sender, "!help", players) == Ignored
  {
  }

  /** A privileged player connecting with voice spy on hears everyone. */
  lemma PrivilegedConnectListensAll()
    ensures OnPlayerConnect(DefaultConfig, Admins(), Some(Human(2, CounterTerrorist))) == SetFlags(ListenAll)
  {
  }

  /** Parsing a version-0 file while version 1 is held warns once and adopts the file. */
  lemma OutdatedFileWarnsAndIsAdopted()
    ensures var file := DefaultConfig.(version := 0, chatSpyEnabled := false);
            ReloadAll(DefaultConfig, [file]) == (file, [true])
  {
    var file := DefaultConfig.(version := 0, chatSpyEnabled := false);
    assert [file][1..] == [];
    assert ReloadAll(file, []) == (file, []);
    assert OnConfigParsed(DefaultConfig, file).warning.Some?;
    assert OnConfigParsed(DefaultConfig, file).adopted == file;
    assert ReloadAll(DefaultConfig, [file]).0 == file;
    assert ReloadAll(DefaultConfig, [file]).1 == [true];
  }
}
