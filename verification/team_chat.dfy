/**
 The team-chat relay (OnPlayerTeamChat): a say_team message that is not a
 command is copied to every valid, privileged player of another team, as a
 line built from localization keys, the sender's name and the raw message.
 */
module TeamChat {
  import opened Options
  import opened Players
  import opened Config
  import opened Permissions

  /** Localization keys; their text belongs to the host's localizer. */
  datatype LocKey =
    | StartlineTag           // "startline.tag"
    | TeamTerrorist          // "team.terrorist"
    | TeamCounterTerrorist   // "team.counterterrorist"
    | TeamSpectator          // "team.spectator"
    | PlayerIsDead           // "player.isdead"
    | MessageFormatted       // "message.formatted"

  /** GetPlayerTeamColor: the label key of a (possibly absent) team. */
  function TeamLabel(team: Option<Team>): (k: LocKey)
    ensures k == TeamTerrorist <==> team == Some(Terrorist)
    ensures k == TeamCounterTerrorist <==> team == Some(CounterTerrorist)
    ensures k == TeamSpectator <==> team != Some(Terrorist) && team != Some(CounterTerrorist)
  {
    match team
    case Some(Terrorist) => TeamTerrorist
    case Some(CounterTerrorist) => TeamCounterTerrorist
    case _ => TeamSpectator
  }

  /** The symbolic pieces of a relayed line. */
  datatype ChatLine = ChatLine(
    tag: LocKey,
    teamLabel: LocKey,
    name: string,
    deadMarker: Option<LocKey>,   // None renders as the empty string
    text: string
  )

  /** The line relayed for a sender's message. */
  function FormatLine(sender: Player, message: string): (line: ChatLine)
    ensures line.tag == StartlineTag && line.name == sender.name && line.text == message
    ensures line.teamLabel == TeamLabel(Some(sender.team))
    ensures line.deadMarker.None? <==> sender.pawnAlive
    ensures line.deadMarker.Some? ==> line.deadMarker.value == PlayerIsDead
  {
    var dead := if sender.pawnAlive then None else Some(PlayerIsDead);
    ChatLine(StartlineTag, TeamLabel(Some(sender.team)), sender.name, dead, message)
  }

  /** The host's string services: the localizer (key with positional arguments) and the default chat color code. */
  datatype Renderer = Renderer(localize: (LocKey, seq<string>) -> string, defaultColor: string)

  /** The text the host prints: the formatted template, the default color, then ": " and the raw message. */
  function Render(line: ChatLine, r: Renderer): (s: string)
    ensures |s| >= |line.text| + 2
    ensures s[0] == ' '
    ensures s[|s| - |line.text| - 2..] == ": " + line.text
  {
    var dead := match line.deadMarker
                case None => ""
                case Some(k) => r.localize(k, []);
    var args := [r.localize(line.tag, []), r.localize(line.teamLabel, []), line.name, dead];
    " " + r.localize(MessageFormatted, args) + " " + r.defaultColor + ": " + line.text
  }

  /** A message starting with one of these characters is a command, not chat. */
  predicate IsCommandPrefix(c: char) {
    c == '/' || c == '!' || c == '@'
  }

  /** Who receives a copy of `sender`'s message: a valid, privileged player who is
      neither the sender nor on the sender's team. */
  predicate IsRecipient(oracle: AdminOracle, rules: seq<string>, sender: Player, q: Player) {
    && ClientIsValid(q)
    && Privileged(oracle, rules, q.id)
    && q.id != sender.id
    && q.team != sender.team
  }

  /** The recipients in player-list order, or None when the privilege check of
      the first valid player raises the empty-rule index exception. */
  function Recipients(oracle: AdminOracle, rules: seq<string>, sender: Player, players: seq<Player>)
    : (r: Option<seq<Player>>)
    ensures r.None? <==> !WellFormed(rules) && HasValidPlayer(players)
    ensures r.Some? ==> forall q :: multiset(r.value)[q]
                                   == (if IsRecipient(oracle, rules, sender, q) then multiset(players)[q] else 0)
    decreases |players|
  {
    if |players| == 0 then Some([])
    else
      var p := players[0];
      assert players == [p] + players[1..];
      assert HasValidPlayer(players) <==> ClientIsValid(p) || HasValidPlayer(players[1..]) by {
        if HasValidPlayer(players[1..]) {
          var i :| 0 <= i < |players[1..]| && ClientIsValid(players[1..][i]);
          assert players[i + 1] == players[1..][i];
        }
        if HasValidPlayer(players) && !ClientIsValid(p) {
          var i :| 0 <= i < |players| && ClientIsValid(players[i]);
          assert players[1..][i - 1] == players[i];
        }
      }
      if !ClientIsValid(p) then Recipients(oracle, rules, sender, players[1..])
      else
        match HasPermissions(oracle, p.id, rules)
        case IndexFault => None
        case Decided(isAdmin) =>
          match Recipients(oracle, rules, sender, players[1..])
          case None => None
          case Some(rest) =>
            Some(if isAdmin && p.id != sender.id && p.team != sender.team then [p] + rest else rest)
  }

  /** The delivery loop as written: walk the player list, ask ClientIsValid and
      only then the privilege check, skip the sender and its team, print to the rest. */
  method DeliverRelay(oracle: AdminOracle, rules: seq<string>, sender: Player, players: seq<Player>)
    returns (r: Option<seq<Player>>)
    ensures r.None? <==> !WellFormed(rules) && HasValidPlayer(players)
    ensures r.Some? ==> forall q :: multiset(r.value)[q]
                                   == (if IsRecipient(oracle, rules, sender, q) then multiset(players)[q] else 0)
  {
    var delivered: seq<Player> := [];
    var i := 0;
    while i < |players|
      invariant 0 <= i <= |players|
      invariant forall j :: 0 <= j < i ==> !WellFormed(rules) ==> !ClientIsValid(players[j])
      invariant forall q :: multiset(delivered)[q]
                            == (if IsRecipient(oracle, rules, sender, q) then multiset(players[..i])[q] else 0)
    {
      var p := players[i];
      assert players[..i + 1] == players[..i] + [p];
      if ClientIsValid(p) {
        var v := ClientHasPermissions(oracle, p.id, rules);
        if v.IndexFault? {
          return None;
        }
        if v.isAdmin && p.id != sender.id && p.team != sender.team {
          delivered := delivered + [p];
        }
      }
      i := i + 1;
    }
    assert players[..i] == players;
    return Some(delivered);
  }

  /** The outcome of one say_team message. */
  datatype ChatOutcome = Ignored | Faulted | Relayed(line: ChatLine, recipients: seq<Player>)

  /** OnPlayerTeamChat: the relay decision for one message. */
  function OnPlayerTeamChat(cfg: PluginConfig, oracle: AdminOracle, sender: Option<Player>,
                            message: string, players: seq<Player>): (o: ChatOutcome)
    ensures o == Ignored <==> !cfg.chatSpyEnabled || sender.None? || |message| == 0 || IsCommandPrefix(message[0])
    ensures o == Faulted <==> o != Ignored && !WellFormed(cfg.adminFlags) && HasValidPlayer(players)
    ensures o.Relayed? ==> o.line == FormatLine(sender.value, message)
    ensures o.Relayed? ==>
              forall q :: multiset(o.recipients)[q]
                          == (if IsRecipient(oracle, cfg.adminFlags, sender.value, q) then multiset(players)[q] else 0)
  {
    if !cfg.chatSpyEnabled then Ignored
    else if sender.None? || |message| == 0 then Ignored
    else if IsCommandPrefix(message[0]) then Ignored
    else
      match Recipients(oracle, cfg.adminFlags, sender.value, players)
      case None => Faulted
      case Some(rs) => Relayed(FormatLine(sender.value, message), rs)
  }

  /** A relayed message reaches exactly the valid privileged players of other teams,
      and no privileged team-mate and not the sender. */
  lemma RelayReachesExactlyCrossTeamAdmins(cfg: PluginConfig, oracle: AdminOracle, sender: Player,
                                            message: string, players: seq<Player>, q: Player)
    requires OnPlayerTeamChat(cfg, oracle, Some(sender), message, players).Relayed?
    ensures q in OnPlayerTeamChat(cfg, oracle, Some(sender), message, players).recipients
        <==> q in players && ClientIsValid(q) && Privileged(oracle, cfg.adminFlags, q.id)
             && q.id != sender.id && q.team != sender.team
  {
    var rs := OnPlayerTeamChat(cfg, oracle, Some(sender), message, players).recipients;
    assert q in rs <==> multiset(rs)[q] > 0;
    assert q in players <==> multiset(players)[q] > 0;
  }

  /** With a player list free of duplicate ids, each recipient gets exactly one copy. */
  lemma {:induction false} OneCopyEach(cfg: PluginConfig, oracle: AdminOracle, sender: Player,
                                       message: string, players: seq<Player>, q: Player)
    requires DistinctIds(players)
    requires OnPlayerTeamChat(cfg, oracle, Some(sender), message, players).Relayed?
    requires q in OnPlayerTeamChat(cfg, oracle, Some(sender), message, players).recipients
    ensures multiset(OnPlayerTeamChat(cfg, oracle, Some(sender), message, players).recipients)[q] == 1
  {
    var rs := OnPlayerTeamChat(cfg, oracle, Some(sender), message, players).recipients;
    assert multiset(rs)[q] > 0;
    DistinctAtMostOnce(players, q);
  }

  /** In a list without duplicate ids every snapshot occurs at most once. */
  lemma {:induction false} DistinctAtMostOnce(players: seq<Player>, q: Player)
    requires DistinctIds(players)
    ensures multiset(players)[q] <= 1
    decreases |players|
  {
    if |players| > 0 {
      var rest := players[1..];
      assert players == [players[0]] + rest;
      assert DistinctIds(rest) by {
        forall i, j | 0 <= i < j < |rest| ensures rest[i].id != rest[j].id {
          assert rest[i] == players[i + 1] && rest[j] == players[j + 1];
        }
      }
      DistinctAtMostOnce(rest, q);
    }
  }

  /** The relay decision never consults the voice setting. */
  lemma RelayIgnoresVoiceSetting(cfg: PluginConfig, oracle: AdminOracle, sender: Option<Player>,
                                 message: string, players: seq<Player>, voice: bool)
    ensures OnPlayerTeamChat(cfg.(voiceSpyEnabled := voice), oracle, sender, message, players)
         == OnPlayerTeamChat(cfg, oracle, sender, message, players)
  {
  }
}
