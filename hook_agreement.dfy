/**
 * The plugin carries three codec tables: the one the application writes on
 * the movie writer itself, the QuickTime-settings hook's returned map, and
 * the codec hook's knob writes. These lemmas say where the three agree and
 * where they part.
 */
module HookAgreement {
  import opened Knobs
  import opened CodecSettings
  import opened QuicktimeSettingsHook
  import opened QuickDailies

  /** A platform on which the plugin uses the QuickTime writer. */
  predicate QuicktimePlatform(platform: string) {
    platform == Mac || platform == Windows
  }

  /** Before version 9 on the QuickTime platforms the two hooks write the same knobs and values. */
  lemma HooksAgreeBefore9(platform: string, v: NukeVersion)
    requires QuicktimePlatform(platform) && v.major <= 8
    ensures CodecWrites(platform, v) == Execute(platform, v.major)
  {
  }

  /**
   * From version 9 on, below the mov64 gate, the codec hook writes the
   * settings hook's map plus the mov64 quality knob.
   */
  lemma HooksAgreeFrom9(platform: string, v: NukeVersion)
    requires QuicktimePlatform(platform) && v.major >= 9 && !Mov64Gate(v)
    ensures CodecWrites(platform, v) == Execute(platform, v.major)[Mov64QualityMax := Text("3")]
  {
  }

  /** Past the gate the hooks part: the codec hook picks mov64 where the settings hook keeps mov. */
  lemma HooksPartPastGate(platform: string, v: NukeVersion)
    requires QuicktimePlatform(platform) && Mov64Gate(v)
    ensures CodecWrites(platform, v)[FileType] == Text("mov64")
    ensures Execute(platform, v.major)[FileType] == Text("mov")
    ensures Settings in Execute(platform, v.major) && Settings !in CodecWrites(platform, v)
  {
    GatedMov64(platform, v);
  }

  /** On Linux the hooks agree before version 9 and part from it on (ffmpeg against mov64). */
  lemma HooksOnLinux(v: NukeVersion)
    ensures v.major < 9 ==> CodecWrites(Linux, v) == Execute(Linux, v.major)
    ensures v.major >= 9 ==>
      && CodecWrites(Linux, v)[FileType] == Text("mov64")
      && Execute(Linux, v.major)[FileType] == Text("ffmpeg")
  {
    if v.major < 9 {
      LinuxFfmpeg(v);
    } else {
      LinuxMov64(v);
    }
  }

  /**
   * On the QuickTime platforms the application's own codec writes are the
   * settings hook's map for versions before 9: the old codec knob, not meta_codec.
   */
  lemma AppMatchesSettingsHook(platform: string, major: int)
    requires QuicktimePlatform(platform) && major <= 8
    ensures AppCodecWrites(platform) == Execute(platform, major)
  {
  }

  /**
   * On Linux the application writes the MOV format into the knob named
   * "codec", where both hooks write it into "format".
   */
  lemma AppLinuxUsesCodecKnob(major: nat)
    ensures AppCodecWrites(Linux)[Codec] == Execute(Linux, major)[Format]
    ensures Format !in AppCodecWrites(Linux) && Codec !in Execute(Linux, major)
    ensures major < 9 ==>
      AppCodecWrites(Linux)[Codec] == CodecWrites(Linux, NukeVersion(major, 0, 0))[Format]
  {
  }

  /**
   * Wherever any of the three writes QuickTime settings, it writes the same
   * blob (SettingsBlob, the one settings string SettingsBlobHex).
   */
  lemma SameSettingsBlob(platform: string, v: NukeVersion)
    requires QuicktimePlatform(platform) && !Mov64Gate(v)
    ensures AppCodecWrites(platform)[Settings] == Execute(platform, v.major)[Settings]
    ensures Execute(platform, v.major)[Settings] == CodecWrites(platform, v)[Settings]
    ensures CodecWrites(platform, v)[Settings] == SettingsBlob
  {
    LegacyMov(platform, v);
  }
}
