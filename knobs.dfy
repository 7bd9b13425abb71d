/**
 * The host application's node parameters ("knobs") as far as the plugin
 * touches them: a knob is addressed by name and set to a string, an integer
 * or a floating-point value.
 */
module Knobs {

  datatype Option<+T> = None | Some(value: T) {
    function GetOr(default: T): T {
      match this
      case Some(v) => v
      case None => default
    }
  }

  /**
   * A value written with `setValue`. Floating-point values are kept as the
   * decimal literal the source writes; binary rounding is not modelled.
   * `SettingsBlob` stands for the string SettingsBlobHex.
   */
  datatype KnobValue = Text(s: string) | Int(i: int) | Float(r: real) | SettingsBlob

  /**
   * Vendor-private QuickTime encoder configuration that the plugin writes in
   * three places, character for character the same; kept verbatim, never decoded.
   */
  const SettingsBlobHex: string := "000000000000000000000000000019a7365616e0000000100000001000000000000018676696465000000010000000e00000000000000227370746c0000000100000000000000006a706567000000000018000003ff000000207470726c000000010000000000000000000000000017f9db00000000000000246472617400000001000000000000000000000000000000530000010000000100000000156d70736f00000001000000000000000000000000186d66726100000001000000000000000000000000000000187073667200000001000000000000000000000000000000156266726100000001000000000000000000000000166d70657300000001000000000000000000000000002868617264000000010000000000000000000000000000000000000000000000000000000000000016656e647300000001000000000000000000000000001663666c67000000010000000000000000004400000018636d66720000000100000000000000006170706c00000014636c75740000000100000000000000000000001c766572730000000100000000000000000003001c00010000"

  /** The text the host receives when a knob is set to v. */
  function TextOf(v: KnobValue): Option<string> {
    match v
    case Text(s) => Some(s)
    case SettingsBlob => Some(SettingsBlobHex)
    case _ => None
  }

  /** The knobs the plugin sets, each standing for the host's knob of that name. */
  datatype Knob =
    | File | FileType | Codec | MetaCodec | Mov64Codec | Mov64QualityMax | Format
    | Fps | Settings | Font | Message | BoxWidth | BoxHeight

  /** The name under which the host knows each knob. */
  function KnobName(k: Knob): string {
    match k
    case File => "file"
    case FileType => "file_type"
    case Codec => "codec"
    case MetaCodec => "meta_codec"
    case Mov64Codec => "mov64_codec"
    case Mov64QualityMax => "mov64_quality_max"
    case Format => "format"
    case Fps => "fps"
    case Settings => "settings"
    case Font => "font"
    case Message => "message"
    case BoxWidth => "box_width"
    case BoxHeight => "box_height"
  }

  type KnobMap = map<Knob, KnobValue>

  /** The frame rate every QuickTime configuration of the plugin writes. */
  const QuickDailyFps: real := 23.97599983

  /** Platform names as Python's `sys.platform` reports them. */
  const Windows: string := "win32"
  const Mac: string := "darwin"
  const Linux: string := "linux2"

  /** The knobs that pick the encoder; every codec configuration writes exactly one. */
  function SelectorCount(m: KnobMap): nat {
    (if Codec in m then 1 else 0) + (if MetaCodec in m then 1 else 0)
    + (if Mov64Codec in m then 1 else 0) + (if Format in m then 1 else 0)
  }

  /** A write node standing alone, as the codec hook receives it. */
  class WriteNode {
    var knobs: KnobMap

    constructor (initial: KnobMap)
      ensures knobs == initial
    {
      knobs := initial;
    }

    /** `write_node[name].setValue(v)`: that knob now holds v, no other knob changes. */
    method SetValue(k: Knob, v: KnobValue)
      modifies this
      ensures knobs == old(knobs)[k := v]
    {
      knobs := knobs[k := v];
    }
  }
}
