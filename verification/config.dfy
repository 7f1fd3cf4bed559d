/**
 The plugin configuration and its adoption on (re)load: a version older than
 the one currently held draws an operator warning, and the new configuration
 is adopted whatever its version.
 */
module Config {
  import opened Options

  datatype PluginConfig = PluginConfig(
    adminFlags: seq<string>,   // "admin-permission-flags": rule strings, see Permissions
    chatSpyEnabled: bool,      // "chat-spy-enabled"
    voiceSpyEnabled: bool,     // "voice-spy-enabled"
    version: int               // "ConfigVersion"
  )

  /** The configuration the plugin holds before any file has been parsed. */
  const DefaultConfig := PluginConfig(["@css/chat", "#css/admin"], true, true, 1)

  /** The operator warning: the version expected (held) and the version found. */
  datatype VersionWarning = VersionWarning(expected: int, current: int)

  datatype Reload = Reload(adopted: PluginConfig, warning: Option<VersionWarning>)

  /** OnConfigParsed: compare versions against the held configuration, then adopt. */
  function OnConfigParsed(held: PluginConfig, incoming: PluginConfig): (r: Reload)
    ensures r.adopted == incoming
    ensures r.warning.Some? <==> incoming.version < held.version
    ensures r.warning.Some? ==> r.warning.value == VersionWarning(held.version, incoming.version)
  {
    var warning := if incoming.version < held.version
                   then Some(VersionWarning(held.version, incoming.version))
                   else None;
    Reload(incoming, warning)
  }

  /** Parse a series of configuration files in order, starting from `held`:
      the configuration finally held and whether each parse warned. */
  function ReloadAll(held: PluginConfig, files: seq<PluginConfig>): (PluginConfig, seq<bool>)
    decreases |files|
  {
    if |files| == 0 then (held, [])
    else
      var r := OnConfigParsed(held, files[0]);
      var (final, warned) := ReloadAll(r.adopted, files[1..]);
      (final, [r.warning.Some?] + warned)
  }

  /** The baseline the i-th parse is compared against: the configuration adopted just before it. */
  function Baseline(held: PluginConfig, files: seq<PluginConfig>, i: nat): PluginConfig
    requires i < |files|
  {
    if i == 0 then held else files[i - 1]
  }

  /** After any series of parses the last file is the one held, and each parse
      warned exactly when its version is below the previously adopted one. */
  lemma {:induction false} ReloadAllAdoptsAndCompares(held: PluginConfig, files: seq<PluginConfig>)
    ensures |ReloadAll(held, files).1| == |files|
    ensures |files| > 0 ==> ReloadAll(held, files).0 == files[|files| - 1]
    ensures |files| == 0 ==> ReloadAll(held, files).0 == held
    ensures forall i :: 0 <= i < |files| ==>
              (ReloadAll(held, files).1[i] <==> files[i].version < Baseline(held, files, i).version)
    decreases |files|
  {
    if |files| > 0 {
      var rest := files[1..];
      ReloadAllAdoptsAndCompares(files[0], rest);
      var warned := ReloadAll(held, files).1;
      forall i | 0 <= i < |files|
        ensures warned[i] <==> files[i].version < Baseline(held, files, i).version
      {
        if i > 0 {
          assert files[i] == rest[i - 1];
          assert Baseline(held, files, i) == Baseline(files[0], rest, i - 1);
        }
      }
    }
  }

  /** Parsing the configuration already held never warns and changes nothing. */
  lemma ReloadSameIsQuiet(held: PluginConfig)
    ensures OnConfigParsed(held, held) == Reload(held, None)
  {
  }
}
