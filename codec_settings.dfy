/**
 * The codec hook: it configures a write node for the review movie by setting
 * knobs, choosing the branch from the platform and the host version triple
 * (major, minor, release). It returns nothing; the dictionary its docstring
 * announces is created empty and dropped.
 */
module CodecSettings {
  import opened Knobs

  datatype NukeVersion = NukeVersion(major: nat, minor: nat, release: nat)

  /** The version test guarding the mov64 branch off Linux. */
  predicate Mov64Gate(v: NukeVersion) {
    v.major >= 10 && (v.minor > 1 || v.release > 1)
  }

  /** Version 10.0v2 or later in the usual (major, minor, release) order. */
  predicate AtLeast10v2(v: NukeVersion) {
    v.major > 10 || (v.major == 10 && (v.minor > 0 || (v.minor == 0 && v.release >= 2)))
  }

  /** The knob writes the hook performs, as a map from knob name to value. */
  function CodecWrites(platform: string, v: NukeVersion): KnobMap
  {
    if platform == Linux then
      if v.major >= 9 then
        map[FileType := Text("mov64"), Mov64Codec := Text("jpeg"),
            Mov64QualityMax := Text("3")]
      else
        map[FileType := Text("ffmpeg"), Format := Text("MOV format (mov)")]
    else if Mov64Gate(v) then
      map[FileType := Text("mov64"), MetaCodec := Text("jpeg"),
          Mov64QualityMax := Text("3")]
    else if v.major >= 9 then
      map[FileType := Text("mov"), MetaCodec := Text("jpeg"), Mov64QualityMax := Text("3"),
          Fps := Float(QuickDailyFps), Settings := SettingsBlob]
    else
      map[FileType := Text("mov"), Codec := Text("jpeg"),
          Fps := Float(QuickDailyFps), Settings := SettingsBlob]
  }

  /** The node's knobs after the hook's writes, applied in the order the hook makes them. */
  function CodecApplied(knobs: KnobMap, platform: string, v: NukeVersion): KnobMap {
    if platform == Linux then
      if v.major >= 9 then
        knobs[FileType := Text("mov64")][Mov64Codec := Text("jpeg")][Mov64QualityMax := Text("3")]
      else
        knobs[FileType := Text("ffmpeg")][Format := Text("MOV format (mov)")]
    else if Mov64Gate(v) then
      knobs[FileType := Text("mov64")][MetaCodec := Text("jpeg")][Mov64QualityMax := Text("3")]
    else
      var typed := knobs[FileType := Text("mov")];
      var selected := if v.major >= 9
        then typed[MetaCodec := Text("jpeg")][Mov64QualityMax := Text("3")]
        else typed[Codec := Text("jpeg")];
      selected[Fps := Float(QuickDailyFps)][Settings := SettingsBlob]
  }

  /**
   * The writes in order amount to overlaying the hook's knob table: every
   * knob of the table gets its value and every other knob keeps its own.
   */
  lemma CodecAppliedIsOverlay(knobs: KnobMap, platform: string, v: NukeVersion)
    ensures CodecApplied(knobs, platform, v) == knobs + CodecWrites(platform, v)
  {
  }

  /**
   * `get_quicktime_settings`: writes the branch's knobs on the node and leaves
   * every other knob as it was. Nothing is returned.
   */
  method GetQuicktimeSettings(writeNode: WriteNode, platform: string, v: NukeVersion)
    modifies writeNode
    ensures writeNode.knobs == CodecApplied(old(writeNode.knobs), platform, v)
    ensures writeNode.knobs == old(writeNode.knobs) + CodecWrites(platform, v)
  {
    ghost var before := writeNode.knobs;
    if platform == Linux {
      if v.major >= 9 {
        writeNode.SetValue(FileType, Text("mov64"));
        writeNode.SetValue(Mov64Codec, Text("jpeg"));
        writeNode.SetValue(Mov64QualityMax, Text("3"));
      } else {
        writeNode.SetValue(FileType, Text("ffmpeg"));
        writeNode.SetValue(Format, Text("MOV format (mov)"));
      }
    } else if v.major >= 10 && (v.minor > 1 || v.release > 1) {
      writeNode.SetValue(FileType, Text("mov64"));
      writeNode.SetValue(MetaCodec, Text("jpeg"));
      writeNode.SetValue(Mov64QualityMax, Text("3"));
    } else {
      writeNode.SetValue(FileType, Text("mov"));
      if v.major >= 9 {
        writeNode.SetValue(MetaCodec, Text("jpeg"));
        writeNode.SetValue(Mov64QualityMax, Text("3"));
      } else {
        writeNode.SetValue(Codec, Text("jpeg"));
      }
      writeNode.SetValue(Fps, Float(QuickDailyFps));
      writeNode.SetValue(Settings, SettingsBlob);
    }
    CodecAppliedIsOverlay(before, platform, v);
  }

  /**
   * On every path the hook sets the file type and exactly one encoder-selecting
   * knob, touches nothing outside its eight knobs, and writes fps or the blob
   * only on the QuickTime path (never on Linux).
   */
  lemma CodecWritesShape(platform: string, v: NukeVersion)
    ensures var w := CodecWrites(platform, v);
      FileType in w
      && SelectorCount(w) == 1
      && w.Keys <= {FileType, Codec, MetaCodec, Mov64Codec, Format,
                       Mov64QualityMax, Fps, Settings}
      && (platform == Linux ==> MetaCodec !in w && Fps !in w && Settings !in w)
      && ((Settings in w) <==> platform != Linux && !Mov64Gate(v))
  {
  }

  /** Linux from version 9 on: the mov64 writer with the jpeg codec at quality 3. */
  lemma LinuxMov64(v: NukeVersion)
    requires v.major >= 9
    ensures var w := CodecWrites(Linux, v);
      w.Keys == {FileType, Mov64Codec, Mov64QualityMax}
      && w[FileType] == Text("mov64") && w[Mov64Codec] == Text("jpeg")
      && w[Mov64QualityMax] == Text("3")
  {
  }

  /** Linux before version 9: the ffmpeg writer in MOV format. */
  lemma LinuxFfmpeg(v: NukeVersion)
    requires v.major < 9
    ensures var w := CodecWrites(Linux, v);
      w.Keys == {FileType, Format}
      && w[FileType] == Text("ffmpeg") && w[Format] == Text("MOV format (mov)")
  {
  }

  /** Off Linux past the gate: mov64 with meta_codec, and neither fps nor the blob. */
  lemma GatedMov64(platform: string, v: NukeVersion)
    requires platform != Linux && Mov64Gate(v)
    ensures var w := CodecWrites(platform, v);
      w.Keys == {FileType, MetaCodec, Mov64QualityMax}
      && w[FileType] == Text("mov64") && w[MetaCodec] == Text("jpeg")
      && w[Mov64QualityMax] == Text("3")
  {
  }

  /**
   * Off Linux below the gate: the QuickTime writer with fps and the blob;
   * meta_codec and quality from version 9 on, the old codec knob before.
   */
  lemma LegacyMov(platform: string, v: NukeVersion)
    requires platform != Linux && !Mov64Gate(v)
    ensures var w := CodecWrites(platform, v);
      && w[FileType] == Text("mov") && w[Fps] == Float(QuickDailyFps)
      && w[Settings] == SettingsBlob
      && (v.major >= 9 ==>
            w.Keys == {FileType, MetaCodec, Mov64QualityMax, Fps, Settings}
            && w[MetaCodec] == Text("jpeg") && w[Mov64QualityMax] == Text("3"))
      && (v.major < 9 ==>
            w.Keys == {FileType, Codec, Fps, Settings} && w[Codec] == Text("jpeg"))
  {
  }

  /** The platform test comes first: on Linux the version gate is never consulted. */
  lemma LinuxIgnoresGate(v: NukeVersion, u: NukeVersion)
    requires (v.major >= 9) == (u.major >= 9)
    ensures CodecWrites(Linux, v) == CodecWrites(Linux, u)
  {
  }

  /** Every version the gate admits is 10.0v2 or later. */
  lemma Mov64GateOnlyFrom10v2(v: NukeVersion)
    requires Mov64Gate(v)
    ensures AtLeast10v2(v)
  {
  }

  /**
   * The converse fails: among versions from 10.0v2 on, the gate admits exactly
   * those with minor or release above 1, so 10.1v1 or 11.0v1 fall back to "mov".
   */
  lemma Mov64GateNotLexicographic(v: NukeVersion)
    requires AtLeast10v2(v)
    ensures Mov64Gate(v) <==> v.minor > 1 || v.release > 1
  {
  }

  /** The gate at the three telling versions, seen through the knobs written. */
  lemma GateExamples(platform: string)
    requires platform != Linux
    ensures CodecWrites(platform, NukeVersion(10, 0, 2))[FileType] == Text("mov64")
    ensures CodecWrites(platform, NukeVersion(10, 1, 1))[FileType] == Text("mov")
    ensures CodecWrites(platform, NukeVersion(11, 0, 1))[FileType] == Text("mov")
  {
    LegacyMov(platform, NukeVersion(10, 1, 1));
    LegacyMov(platform, NukeVersion(11, 0, 1));
  }
}
