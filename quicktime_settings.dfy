/**
 * The QuickTime-settings hook: builds a fresh settings dictionary for the
 * movie writer from the platform and the host's major version, and returns
 * it. Its keyword arguments are ignored and it touches no node, so it is a
 * function of those two values alone.
 */
module QuicktimeSettingsHook {
  import opened Knobs

  /** `execute`: the settings for the movie writer on this platform and major version. */
  function Execute(platform: string, major: int): (settings: KnobMap)
    ensures platform == Mac || platform == Windows ==>
      && |settings| == 4
      && settings.Keys == {FileType, Fps, Settings} + {if major > 8 then MetaCodec else Codec}
      && settings[FileType] == Text("mov")
      && settings[if major > 8 then MetaCodec else Codec] == Text("jpeg")
      && settings[Fps] == Float(QuickDailyFps)
      && settings[Settings] == SettingsBlob
    ensures platform == Linux ==>
      settings == map[FileType := Text("ffmpeg"), Format := Text("MOV format (mov)")]
    ensures platform != Mac && platform != Windows && platform != Linux ==> settings == map[]
  {
    var empty: KnobMap := map[];
    if platform == Mac || platform == Windows then
      var typed := empty[FileType := Text("mov")];
      var coded := if major > 8 then typed[MetaCodec := Text("jpeg")] else typed[Codec := Text("jpeg")];
      coded[Fps := Float(QuickDailyFps)][Settings := SettingsBlob]
    else if platform == Linux then
      empty[FileType := Text("ffmpeg")][Format := Text("MOV format (mov)")]
    else
      empty
  }

  /** On the QuickTime platforms exactly one of the two codec keys is present. */
  lemma ExecuteCodecKey(platform: string, major: int)
    requires platform == Mac || platform == Windows
    ensures (MetaCodec in Execute(platform, major)) <==> major > 8
    ensures (Codec in Execute(platform, major)) <==> major <= 8
    ensures SelectorCount(Execute(platform, major)) == 1
  {
  }
}
