/** The environment file that the installer renders, and what reading it gives. */
module EnvironmentRendering {
  import opened StageTypes
  import opened Text
  import opened Environment

  const HEADER := "# Managed by stagecore-setup install. " + "Review before using --replace-config."
  const DATA_ROOT := "STAGECORE_DATA_ROOT"
  const VAULT_ROOT := "STAGECORE_VAULT_ROOT"
  const LISTEN := "STAGECORE_LISTEN"
  const TLS_LISTEN := "STAGECORE_OPERATOR_TLS_LISTEN"
  const PLUGIN_PATH := "STAGECORE_OSC_PLUGIN_PATH"

  /** The plugin path is joined from the installation root by the path library. */
  datatype Options = Options(dataRoot: string, vaultRoot: string, listen: string, tlsListen: string, pluginPath: string)

  function RenderedLines(o: Options): seq<string> {
    [HEADER, DATA_ROOT + "=" + o.dataRoot, VAULT_ROOT + "=" + o.vaultRoot, LISTEN + "=" + o.listen,
     TLS_LISTEN + "=" + o.tlsListen, PLUGIN_PATH + "=" + o.pluginPath, ""]
  }

  function RenderEnvironment(o: Options): string {
    Join(RenderedLines(o))
  }

  function Settings(o: Options): map<string, string> {
    map[DATA_ROOT := o.dataRoot, VAULT_ROOT := o.vaultRoot, LISTEN := o.listen, TLS_LISTEN := o.tlsListen,
        PLUGIN_PATH := o.pluginPath]
  }

  predicate OneLine(o: Options) {
    '\n' !in o.dataRoot && '\n' !in o.vaultRoot && '\n' !in o.listen && '\n' !in o.tlsListen && '\n' !in o.pluginPath
  }

  function AsRead(v: string): string {
    Unquote(Trim(v))
  }

  function AllAsRead(o: Options): Options {
    Options(AsRead(o.dataRoot), AsRead(o.vaultRoot), AsRead(o.listen), AsRead(o.tlsListen), AsRead(o.pluginPath))
  }

  lemma ReadOneMore(lines: seq<string>, line: string, values: map<string, string>)
    requires ReadLines(lines) == Some(values)
    ensures ReadLines(lines + [line]) == match ReadLine(line)
                                         case Skipped => Some(values)
                                         case Invalid => None
                                         case Setting(key, value) => Some(values[key := value])
  {
    hide ReadLine;
    assert (lines + [line])[..|lines|] == lines;
  }

  lemma HeaderIsSkipped()
    ensures ReadLine(HEADER) == Skipped && ReadLine("") == Skipped
  {
    hide Trim, Find, Unquote;
    assert HEADER[0] == '#' && HEADER[|HEADER| - 1] == '.';
    TrimIsTrimmed(HEADER);
    TrimIsTrimmed("");
  }

  lemma NameShape(key: string)
    requires key != "" && forall c | c in key :: 'A' <= c <= 'Z' || c == '_'
    ensures KeyShape(key)
  {
    assert key[0] in key && key[|key| - 1] in key;
  }

  /** A line of the rendered file sets its key to the value as it would be read. */
  lemma RenderedLine(key: string, value: string)
    requires key == DATA_ROOT || key == VAULT_ROOT || key == LISTEN || key == TLS_LISTEN || key == PLUGIN_PATH
    ensures ReadLine(key + "=" + value) == Setting(key, AsRead(value))
  {
    hide ReadLine, Trim, Unquote, KeyShape;
    NameShape(key);
    WrittenLine(key, value);
  }

  /** No two settings share a key. */
  lemma SettingsLookUp(o: Options)
    ensures var m := Settings(o);
            && m.Keys == {DATA_ROOT, VAULT_ROOT, LISTEN, TLS_LISTEN, PLUGIN_PATH}
            && m[DATA_ROOT] == o.dataRoot && m[VAULT_ROOT] == o.vaultRoot && m[LISTEN] == o.listen
            && m[TLS_LISTEN] == o.tlsListen && m[PLUGIN_PATH] == o.pluginPath
  {
    assert |DATA_ROOT| == 19 && |VAULT_ROOT| == 20 && |LISTEN| == 16 && |TLS_LISTEN| == 29 && |PLUGIN_PATH| == 25;
  }

  lemma RenderedReads(o: Options)
    ensures ReadLines(RenderedLines(o)) ==
            Some(Settings(AllAsRead(o)))
  {
    hide ReadLine, AsRead, ReadLines;
    HeaderIsSkipped();
    RenderedLine(DATA_ROOT, o.dataRoot);
    RenderedLine(VAULT_ROOT, o.vaultRoot);
    RenderedLine(LISTEN, o.listen);
    RenderedLine(TLS_LISTEN, o.tlsListen);
    RenderedLine(PLUGIN_PATH, o.pluginPath);
    var r := RenderedLines(o);
    var m1 := map[DATA_ROOT := AsRead(o.dataRoot)];
    var m2 := m1[VAULT_ROOT := AsRead(o.vaultRoot)];
    var m3 := m2[LISTEN := AsRead(o.listen)];
    var m4 := m3[TLS_LISTEN := AsRead(o.tlsListen)];
    var m5 := m4[PLUGIN_PATH := AsRead(o.pluginPath)];
    NothingRead();
    assert forall k | 0 <= k < |r| :: r[..k] + [r[k]] == r[..k + 1];
    ReadOneMore([], r[0], map[]);
    assert [] + [r[0]] == r[..1];
    ReadOneMore(r[..1], r[1], map[]);
    ReadOneMore(r[..2], r[2], m1);
    ReadOneMore(r[..3], r[3], m2);
    ReadOneMore(r[..4], r[4], m3);
    ReadOneMore(r[..5], r[5], m4);
    ReadOneMore(r[..6], r[6], m5);
    assert r[..7] == r;
  }

  lemma NothingRead()
    ensures ReadLines([]) == Some(map[])
  {
  }

  lemma RenderedScans(o: Options)
    ensures (forall l | l in RenderedLines(o) :: Scannable(l)) <==>
            Scannable(DATA_ROOT + "=" + o.dataRoot) && Scannable(VAULT_ROOT + "=" + o.vaultRoot) &&
            Scannable(LISTEN + "=" + o.listen) && Scannable(TLS_LISTEN + "=" + o.tlsListen) &&
            Scannable(PLUGIN_PATH + "=" + o.pluginPath)
  {
    hide Bytes;
    FewBytes(HEADER);
    FewBytes("");
    var r := RenderedLines(o);
    assert |HEADER| == 75;
    assert r[1] in r && r[2] in r && r[3] in r && r[4] in r && r[5] in r;
    assert forall l | l in r :: exists i :: 0 <= i < 7 && r[i] == l;
  }

  /** Every setting is stored exactly, one by one. */
  predicate AllStorable(o: Options) {
    && Storable(DATA_ROOT, o.dataRoot) && Storable(VAULT_ROOT, o.vaultRoot) && Storable(LISTEN, o.listen)
    && Storable(TLS_LISTEN, o.tlsListen) && Storable(PLUGIN_PATH, o.pluginPath)
  }

  /** Reading a rendered file gives back the rendered settings exactly when all of them are plain and
      none of them is too long. */
  lemma RenderReadsBack(o: Options)
    ensures ReadFile(Split(RenderEnvironment(o))) == Some(Settings(o)) <==> AllStorable(o)
  {
    RenderedScans(o);
    RenderedMeans(o);
    if OneLine(o) {
      RenderedStaysLines(o);
    } else {
      PlainIsOneLine(o.dataRoot, o.vaultRoot, o.listen, o.tlsListen, o.pluginPath);
    }
  }

  lemma RenderedMeans(o: Options)
    ensures ReadLines(Split(RenderEnvironment(o))) == Some(Settings(o)) <==>
            Plain(o.dataRoot) && Plain(o.vaultRoot) && Plain(o.listen) && Plain(o.tlsListen) && Plain(o.pluginPath)
  {
    hide Split, Join, ReadLines, Trim, Unquote, Trimmed, Settings, RenderedLines, Plain;
    if OneLine(o) {
      RenderedStaysLines(o);
      RenderedReads(o);
      PlainIsStable(o.dataRoot);
      PlainIsStable(o.vaultRoot);
      PlainIsStable(o.listen);
      PlainIsStable(o.tlsListen);
      PlainIsStable(o.pluginPath);
      SameSettings(o, AllAsRead(o));
    } else {
      SettingsLookUp(o);
      var key := if '\n' in o.dataRoot then DATA_ROOT else if '\n' in o.vaultRoot then VAULT_ROOT
                 else if '\n' in o.listen then LISTEN else if '\n' in o.tlsListen then TLS_LISTEN else PLUGIN_PATH;
      NewlineIsLost(Split(RenderEnvironment(o)), Settings(o), key);
      PlainIsOneLine(o.dataRoot, o.vaultRoot, o.listen, o.tlsListen, o.pluginPath);
    }
  }

  lemma PlainIsOneLine(a: string, b: string, c: string, d: string, e: string)
    ensures Plain(a) && Plain(b) && Plain(c) && Plain(d) && Plain(e) ==> OneLine(Options(a, b, c, d, e))
  {
  }

  lemma RenderedStaysLines(o: Options)
    requires OneLine(o)
    ensures Split(RenderEnvironment(o)) == RenderedLines(o)
  {
    hide Split, Join;
    HeaderIsOneLine();
    SettingIsOneLine(DATA_ROOT, o.dataRoot);
    SettingIsOneLine(VAULT_ROOT, o.vaultRoot);
    SettingIsOneLine(LISTEN, o.listen);
    SettingIsOneLine(TLS_LISTEN, o.tlsListen);
    SettingIsOneLine(PLUGIN_PATH, o.pluginPath);
    SplitJoin(RenderedLines(o));
  }

  lemma HeaderIsOneLine()
    ensures '\n' !in HEADER
  {
    assert '\n' !in "# Managed by stagecore-setup install. ";
    assert '\n' !in "Review before using --replace-config.";
  }

  lemma SettingIsOneLine(key: string, value: string)
    requires key == DATA_ROOT || key == VAULT_ROOT || key == LISTEN || key == TLS_LISTEN || key == PLUGIN_PATH
    requires '\n' !in value
    ensures '\n' !in key + "=" + value
  {
  }

  lemma SameSettings(o: Options, p: Options)
    ensures Settings(o) == Settings(p) <==> o == p
  {
    hide Settings;
    SettingsLookUp(o);
    SettingsLookUp(p);
  }

  const QUOTED_LISTEN: Options := Options("d", "v", QUOTED, "t", "p")

  lemma QuotedListenIsRead()
    ensures var o := QUOTED_LISTEN;
            && AsRead(o.dataRoot) == o.dataRoot && AsRead(o.vaultRoot) == o.vaultRoot && AsRead(o.listen) == "a"
            && AsRead(o.tlsListen) == o.tlsListen && AsRead(o.pluginPath) == o.pluginPath
            && !Plain(o.listen)
  {
    QuotesAreLost();
  }

  lemma ShortSetting(key: string, value: string)
    requires key == DATA_ROOT || key == VAULT_ROOT || key == LISTEN || key == TLS_LISTEN || key == PLUGIN_PATH
    requires |value| < 10
    ensures Scannable(key + "=" + value)
  {
    hide Scannable;
    assert |DATA_ROOT| == 19 && |VAULT_ROOT| == 20 && |LISTEN| == 16 && |TLS_LISTEN| == 29 && |PLUGIN_PATH| == 25;
    ShortLines(key + "=" + value);
  }

  /** A listen address in quotes is rendered as it is, and read without them. */
  lemma QuotedSettingIsNotStored()
    ensures ReadFile(Split(RenderEnvironment(QUOTED_LISTEN))) == Some(Settings(QUOTED_LISTEN.(listen := "a")))
    ensures !AllStorable(QUOTED_LISTEN)
  {
    hide Split, RenderEnvironment, RenderedLines, Settings, ReadLines, Scannable, AsRead, Plain;
    var o := QUOTED_LISTEN;
    QuotedListenIsRead();
    assert OneLine(o);
    RenderedStaysLines(o);
    RenderedReads(o);
    RenderedScans(o);
    ShortSetting(DATA_ROOT, o.dataRoot);
    ShortSetting(VAULT_ROOT, o.vaultRoot);
    ShortSetting(LISTEN, o.listen);
    ShortSetting(TLS_LISTEN, o.tlsListen);
    ShortSetting(PLUGIN_PATH, o.pluginPath);
  }
}
