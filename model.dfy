/**
 * `LibCameraModel`: every option of `libcamera-vid` as a nullable field, the
 * six setters with logic, the two constructors, and `ToString()`, which
 * renders the options into one command line.
 */
module LibCamera {
  import opened Wrappers
  import opened Decimal
  import opened Text
  import opened CameraValues
  import opened CommandLine

  /** The program name every command line starts with. */
  const Program := "libcamera-vid"

  /**
   * The value of every option at one moment, in the order `ToString()`
   * renders them. `None` is C#'s `null`.
   */
  datatype Options = Options(
    camera: Option<uint32>,
    verbose: Option<uint16>,
    config: Option<string>,
    infoText: Option<string>,
    width: Option<uint32>,
    height: Option<uint32>,
    timeOut: Option<uint32>,
    output: Option<string>,
    postProcessFile: Option<string>,
    postProcessLibs: Option<string>,
    noPreview: Option<bool>,
    preview: Option<PreviewModel>,
    qtPreview: Option<bool>,
    fullscreen: Option<bool>,
    hFlip: Option<bool>,
    vFlip: Option<bool>,
    rotation: Option<bool>,
    roi: Option<ROIModel>,
    shutter: Option<uint32>,
    gain: Option<uint32>,
    metering: Option<MeteringEnum>,
    exposure: Option<ExposureEnum>,
    ev: Option<uint32>,
    awb: Option<AWBEnum>,
    awbGains: Option<AWBGainsModel>,
    flush: Option<bool>,
    wrap: Option<uint32>,
    brightness: Option<real>,
    contrast: Option<real>,
    saturation: Option<real>,
    sharpness: Option<real>,
    framerate: Option<int32>,
    denoise: Option<DenoiseEnum>,
    viewFinderWidth: Option<uint32>,
    viewFinderHeight: Option<uint32>,
    tuningFile: Option<string>,
    loresWidth: Option<uint32>,
    loresHeight: Option<uint32>,
    mode: Option<ModeModel>,
    viewFinderMode: Option<ModeModel>,
    bufferCount: Option<uint32>,
    viewFinderBufferCount: Option<uint32>,
    noRaw: Option<bool>,
    autoFocusMode: Option<AutoFocusModeEnum>,
    autoFocusRange: Option<AutoFocusRangeEnum>,
    autoFocusSpeed: Option<AutoFocusSpeedEnum>,
    autoFocusWindow: Option<ROIModel>,
    lensPosition: Option<string>,
    hdr: Option<HDREnum>,
    metadata: Option<string>,
    metadataFormat: Option<MetadataFormatEnum>,
    flickerPeriod: Option<FlickerPeriodModel>,
    bitrate: Option<BitrateModel>,
    profile: Option<string>,
    level: Option<uint32>,
    intra: Option<uint32>,
    inline: Option<bool>,
    codec: Option<CodecEnum>,
    savePts: Option<string>,
    quality: Option<uint32>,
    listen: Option<bool>,
    keyPress: Option<bool>,
    signal: Option<bool>,
    initial: Option<InitialEnum>,
    split: Option<bool>,
    segment: Option<uint32>,
    circular: Option<uint32>,
    frames: Option<uint32>,
    libavVideoCodec: Option<string>,
    libavVideoCodecOpts: Option<string>,
    libavFormat: Option<string>
  )

  /** Every option absent: the state both constructors leave behind. */
  const NoOptions: Options := Options(
    None, None, None, None, None, None, None, None, None, None, None, None,
    None, None, None, None, None, None, None, None, None, None, None, None,
    None, None, None, None, None, None, None, None, None, None, None, None,
    None, None, None, None, None, None, None, None, None, None, None, None,
    None, None, None, None, None, None, None, None, None, None, None, None,
    None, None, None, None, None, None, None, None, None, None, None
  )

  /** An unsigned option's value in decimal. */
  function Digits(o: Option<nat>): Option<string> {
    o.Map(NatToDecimal)
  }

  /** A signed option's value in decimal, with a leading `-` when negative. */
  function SignedDigits(o: Option<int>): Option<string> {
    o.Map(IntToDecimal)
  }

  /** A region's text, with its four doubles written by `fmt`. */
  function RoiText(o: Option<ROIModel>, fmt: real -> string): Option<string> {
    o.Map((v: ROIModel) => v.ToString(fmt))
  }

  /** The option's `PreviewModel` text. */
  function PreviewText(o: Option<PreviewModel>): Option<string> {
    o.Map((v: PreviewModel) => v.ToString())
  }

  /** The option's `MeteringEnum` name, lower-cased. */
  function MeteringText(o: Option<MeteringEnum>): Option<string> {
    o.Map((e: MeteringEnum) => ToLower(e.Name()))
  }

  /** The option's `ExposureEnum` name, lower-cased. */
  function ExposureText(o: Option<ExposureEnum>): Option<string> {
    o.Map((e: ExposureEnum) => ToLower(e.Name()))
  }

  /** The option's `AWBEnum` name, lower-cased. */
  function AWBText(o: Option<AWBEnum>): Option<string> {
    o.Map((e: AWBEnum) => ToLower(e.Name()))
  }

  /** The option's `AWBGainsModel` text. */
  function AWBGainsText(o: Option<AWBGainsModel>): Option<string> {
    o.Map((v: AWBGainsModel) => v.ToString())
  }

  /** The option's `DenoiseEnum` name, lower-cased. */
  function DenoiseText(o: Option<DenoiseEnum>): Option<string> {
    o.Map((e: DenoiseEnum) => ToLower(e.Name()))
  }

  /** The option's `ModeModel` text. */
  function ModeText(o: Option<ModeModel>): Option<string> {
    o.Map((v: ModeModel) => v.ToString())
  }

  /** The option's `AutoFocusModeEnum` name, lower-cased. */
  function AutoFocusModeText(o: Option<AutoFocusModeEnum>): Option<string> {
    o.Map((e: AutoFocusModeEnum) => ToLower(e.Name()))
  }

  /** The option's `AutoFocusRangeEnum` name, lower-cased. */
  function AutoFocusRangeText(o: Option<AutoFocusRangeEnum>): Option<string> {
    o.Map((e: AutoFocusRangeEnum) => ToLower(e.Name()))
  }

  /** The option's `AutoFocusSpeedEnum` name, lower-cased. */
  function AutoFocusSpeedText(o: Option<AutoFocusSpeedEnum>): Option<string> {
    o.Map((e: AutoFocusSpeedEnum) => ToLower(e.Name()))
  }

  /** The option's `HDREnum` name, lower-cased. */
  function HDRText(o: Option<HDREnum>): Option<string> {
    o.Map((e: HDREnum) => ToLower(e.Name()))
  }

  /** The option's `MetadataFormatEnum` name, lower-cased. */
  function MetadataFormatText(o: Option<MetadataFormatEnum>): Option<string> {
    o.Map((e: MetadataFormatEnum) => ToLower(e.Name()))
  }

  /** The option's `FlickerPeriodModel` text. */
  function FlickerPeriodText(o: Option<FlickerPeriodModel>): Option<string> {
    o.Map((v: FlickerPeriodModel) => v.ToString())
  }

  /** The option's `BitrateModel` text. */
  function BitrateText(o: Option<BitrateModel>): Option<string> {
    o.Map((v: BitrateModel) => v.ToString())
  }

  /** The option's `CodecEnum` name, lower-cased. */
  function CodecText(o: Option<CodecEnum>): Option<string> {
    o.Map((e: CodecEnum) => ToLower(e.Name()))
  }

  /** The option's `InitialEnum` name, lower-cased. */
  function InitialText(o: Option<InitialEnum>): Option<string> {
    o.Map((e: InitialEnum) => ToLower(e.Name()))
  }

  /**
   * The groups the options in `o` contribute, after the program name, in the
   * fixed order of `ToString()`. `fmt` is the runtime's `double`-to-text
   * conversion.
   */
  function Commands(o: Options, fmt: real -> string): Line {
    var l := Start(Program);
    var l := Add(l, "--camera", Value(Digits(o.camera)));
    var l := Add(l, "--verbose", Value(Digits(o.verbose)));
    var l := Add(l, "--config", Value(o.config));
    var l := Add(l, "--info-text", Value(o.infoText));
    var l := Add(l, "--width", Value(Digits(o.width)));
    var l := Add(l, "--height", Value(Digits(o.height)));
    var l := Add(l, "-t", Value(Digits(o.timeOut)));
    var l := Add(l, "--output", Value(o.output));
    var l := Add(l, "--post-process-file", Value(o.postProcessFile));
    var l := Add(l, "--post-process-libs", Value(o.postProcessLibs));
    var l := Add(l, "-n", Switch(o.noPreview == Some(true)));
    var l := Add(l, "-p", Value(PreviewText(o.preview)));
    var l := Add(l, "--qt-preview", Switch(o.qtPreview == Some(true)));
    var l := Add(l, "-f", Switch(o.fullscreen == Some(true) && o.qtPreview != Some(true)));
    var l := Add(l, "--hflip", Switch(o.hFlip == Some(true)));
    var l := Add(l, "--vflip", Switch(o.vFlip == Some(true)));
    var l := Add(l, "--rotation", Value(When(o.rotation == Some(true), "180")));
    var l := Add(l, "--roi", Value(RoiText(o.roi, fmt)));
    var l := Add(l, "--shutter", Value(Digits(o.shutter)));
    var l := Add(l, "--gain", Value(Digits(o.gain)));
    var l := Add(l, "--metering", Value(MeteringText(o.metering)));
    var l := Add(l, "--exposure", Value(ExposureText(o.exposure)));
    var l := Add(l, "--ev", Value(Digits(o.ev)));
    var l := Add(l, "--awb", Value(AWBText(o.awb)));
    var l := Add(l, "--awbgains", Value(AWBGainsText(o.awbGains)));
    var l := Add(l, "--flush", Switch(o.flush == Some(true)));
    var l := Add(l, "--wrap", Value(Digits(o.wrap)));
    var l := Add(l, "--brightness", Value(o.brightness.Map(fmt)));
    var l := Add(l, "--contrast", Value(o.contrast.Map(fmt)));
    var l := Add(l, "--saturation", Value(o.saturation.Map(fmt)));
    var l := Add(l, "--sharpness", Value(o.sharpness.Map(fmt)));
    var l := Add(l, "--framerate", Value(SignedDigits(o.framerate)));
    var l := Add(l, "--denoise", Value(DenoiseText(o.denoise)));
    var l := Add(l, "--viewfinder-width", Value(Digits(o.viewFinderWidth)));
    var l := Add(l, "--viewfinder-height", Value(Digits(o.viewFinderHeight)));
    var l := Add(l, "--tuning-file", Value(o.tuningFile));
    var l := Add(l, "--lores-width", Value(Digits(o.loresWidth)));
    var l := Add(l, "--lores-height", Value(Digits(o.loresHeight)));
    var l := Add(l, "--mode", Value(ModeText(o.mode)));
    var l := Add(l, "--viewfinder-mode", Value(ModeText(o.viewFinderMode)));
    var l := Add(l, "--buffer-count", Value(Digits(o.bufferCount)));
    var l := Add(l, "--viewfinder-buffer-count", Value(Digits(o.viewFinderBufferCount)));
    var l := Add(l, "--no-raw", Switch(o.noRaw == Some(true)));
    var l := Add(l, "--autofocus-mode", Value(AutoFocusModeText(o.autoFocusMode)));
    var l := Add(l, "--autofocus-range", Value(AutoFocusRangeText(o.autoFocusRange)));
    var l := Add(l, "--autofocus-speed", Value(AutoFocusSpeedText(o.autoFocusSpeed)));
    var l := Add(l, "--autofocus-window", Value(RoiText(o.autoFocusWindow, fmt)));
    var l := Add(l, "--lens-position", Value(o.lensPosition));
    var l := Add(l, "--hdr", Value(HDRText(o.hdr)));
    var l := Add(l, "--metadata", Value(o.metadata));
    var l := Add(l, "--metadata-format", Value(MetadataFormatText(o.metadataFormat)));
    var l := Add(l, "--flicker-period", Value(FlickerPeriodText(o.flickerPeriod)));
    var l := Add(l, "-b", Value(BitrateText(o.bitrate)));
    var l := Add(l, "--profile", Value(o.profile));
    var l := Add(l, "--level", Value(Digits(o.level)));
    var l := Add(l, "--intra", Value(Digits(o.intra)));
    var l := Add(l, "--inline", Switch(o.inline == Some(true)));
    var l := Add(l, "--codec", Value(CodecText(o.codec)));
    var l := Add(l, "--save-pts", Value(o.savePts));
    var l := Add(l, "-q", Value(Digits(o.quality)));
    var l := Add(l, "-l", Switch(o.listen == Some(true)));
    var l := Add(l, "-k", Switch(o.keyPress == Some(true)));
    var l := Add(l, "-s", Switch(o.signal == Some(true)));
    var l := Add(l, "-i", Value(InitialText(o.initial)));
    var l := Add(l, "--split", Switch(o.split == Some(true)));
    var l := Add(l, "--segment", Value(Digits(o.segment)));
    var l := Add(l, "--circular", Value(Digits(o.circular)));
    var l := Add(l, "--frames", Value(Digits(o.frames)));
    var l := Add(l, "--libav-video-codec", Value(o.libavVideoCodec));
    var l := Add(l, "--libav-video-codec-opts", Value(o.libavVideoCodecOpts));
    var l := Add(l, "--libav-format", Value(o.libavFormat));
    l
  }

  /** The command line for `o`. */
  function RenderLine(o: Options, fmt: real -> string): string {
    Written(Commands(o, fmt))
  }

  class LibCameraModel {
    /**
     * One field per option; `None` is C#'s `null`. Most are auto-properties,
     * which a caller assigns directly. `verbose`, `config`, `brightness`,
     * `contrast`, `saturation` and `sharpness` are the backing fields of the
     * properties with a setter and are meant to be written through
     * `SetVerbose`, `SetConfig`, ... .
     */
    var camera: Option<uint32>
    var verbose: Option<uint16>
    var config: Option<string>
    var infoText: Option<string>
    var width: Option<uint32>
    var height: Option<uint32>
    var timeOut: Option<uint32>
    var output: Option<string>
    var postProcessFile: Option<string>
    var postProcessLibs: Option<string>
    var noPreview: Option<bool>
    var preview: Option<PreviewModel>
    var fullscreen: Option<bool>
    var qtPreview: Option<bool>
    var hFlip: Option<bool>
    var vFlip: Option<bool>
    var rotation: Option<bool>
    var roi: Option<ROIModel>
    var shutter: Option<uint32>
    var gain: Option<uint32>
    var metering: Option<MeteringEnum>
    var exposure: Option<ExposureEnum>
    var ev: Option<uint32>
    var awb: Option<AWBEnum>
    var awbGains: Option<AWBGainsModel>
    var flush: Option<bool>
    var wrap: Option<uint32>
    var brightness: Option<real>
    var contrast: Option<real>
    var saturation: Option<real>
    var sharpness: Option<real>
    var framerate: Option<int32>
    var denoise: Option<DenoiseEnum>
    var viewFinderWidth: Option<uint32>
    var viewFinderHeight: Option<uint32>
    var tuningFile: Option<string>
    var loresWidth: Option<uint32>
    var loresHeight: Option<uint32>
    var mode: Option<ModeModel>
    var viewFinderMode: Option<ModeModel>
    var bufferCount: Option<uint32>
    var viewFinderBufferCount: Option<uint32>
    var noRaw: Option<bool>
    var autoFocusMode: Option<AutoFocusModeEnum>
    var autoFocusRange: Option<AutoFocusRangeEnum>
    var autoFocusSpeed: Option<AutoFocusSpeedEnum>
    var autoFocusWindow: Option<ROIModel>
    var lensPosition: Option<string>
    var hdr: Option<HDREnum>
    var metadata: Option<string>
    var metadataFormat: Option<MetadataFormatEnum>
    var flickerPeriod: Option<FlickerPeriodModel>
    var bitrate: Option<BitrateModel>
    var profile: Option<string>
    var level: Option<uint32>
    var intra: Option<uint32>
    var inline: Option<bool>
    var codec: Option<CodecEnum>
    var quality: Option<uint32>
    var savePts: Option<string>
    var listen: Option<bool>
    var keyPress: Option<bool>
    var signal: Option<bool>
    var initial: Option<InitialEnum>
    var split: Option<bool>
    var segment: Option<uint32>
    var circular: Option<uint32>
    var frames: Option<uint32>
    var libavVideoCodec: Option<string>
    var libavVideoCodecOpts: Option<string>
    var libavFormat: Option<string>

    /** Whether a handler is subscribed to `InvalidValueActionEvent`. */
    var subscribed: bool
    /** The field names the event has been raised with, oldest first. */
    var notified: seq<string>

    /** The options as they stand now. */
    function Snapshot(): Options
      reads this
    {
      Options(
        camera, verbose, config, infoText, width, height,
        timeOut, output, postProcessFile, postProcessLibs, noPreview, preview,
        qtPreview, fullscreen, hFlip, vFlip, rotation, roi,
        shutter, gain, metering, exposure, ev, awb,
        awbGains, flush, wrap, brightness, contrast, saturation,
        sharpness, framerate, denoise, viewFinderWidth, viewFinderHeight, tuningFile,
        loresWidth, loresHeight, mode, viewFinderMode, bufferCount, viewFinderBufferCount,
        noRaw, autoFocusMode, autoFocusRange, autoFocusSpeed, autoFocusWindow, lensPosition,
        hdr, metadata, metadataFormat, flickerPeriod, bitrate, profile,
        level, intra, inline, codec, savePts, quality,
        listen, keyPress, signal, initial, split, segment,
        circular, frames, libavVideoCodec, libavVideoCodecOpts, libavFormat
      )
    }

    /** The model without a handler: nothing can receive a notification. */
    constructor ()
      ensures Snapshot() == NoOptions && !subscribed && notified == []
    {
      camera := None; verbose := None; config := None; infoText := None; width := None;
      height := None; timeOut := None; output := None; postProcessFile := None; postProcessLibs := None;
      noPreview := None; preview := None; fullscreen := None; qtPreview := None; hFlip := None;
      vFlip := None; rotation := None; roi := None; shutter := None; gain := None;
      metering := None; exposure := None; ev := None; awb := None; awbGains := None;
      flush := None; wrap := None; brightness := None; contrast := None; saturation := None;
      sharpness := None; framerate := None; denoise := None; viewFinderWidth := None; viewFinderHeight := None;
      tuningFile := None; loresWidth := None; loresHeight := None; mode := None; viewFinderMode := None;
      bufferCount := None; viewFinderBufferCount := None; noRaw := None; autoFocusMode := None; autoFocusRange := None;
      autoFocusSpeed := None; autoFocusWindow := None; lensPosition := None; hdr := None; metadata := None;
      metadataFormat := None; flickerPeriod := None; bitrate := None; profile := None; level := None;
      intra := None; inline := None; codec := None; quality := None; savePts := None;
      listen := None; keyPress := None; signal := None; initial := None; split := None;
      segment := None; circular := None; frames := None; libavVideoCodec := None; libavVideoCodecOpts := None;
      libavFormat := None;
      subscribed := false;
      notified := [];
    }

    /**
     * The model built with a handler. `handler` says whether the delegate
     * passed in is non-null; subscribing `null` leaves the event without one.
     */
    constructor WithDelegate(handler: bool)
      ensures Snapshot() == NoOptions && subscribed == handler && notified == []
    {
      camera := None; verbose := None; config := None; infoText := None; width := None;
      height := None; timeOut := None; output := None; postProcessFile := None; postProcessLibs := None;
      noPreview := None; preview := None; fullscreen := None; qtPreview := None; hFlip := None;
      vFlip := None; rotation := None; roi := None; shutter := None; gain := None;
      metering := None; exposure := None; ev := None; awb := None; awbGains := None;
      flush := None; wrap := None; brightness := None; contrast := None; saturation := None;
      sharpness := None; framerate := None; denoise := None; viewFinderWidth := None; viewFinderHeight := None;
      tuningFile := None; loresWidth := None; loresHeight := None; mode := None; viewFinderMode := None;
      bufferCount := None; viewFinderBufferCount := None; noRaw := None; autoFocusMode := None; autoFocusRange := None;
      autoFocusSpeed := None; autoFocusWindow := None; lensPosition := None; hdr := None; metadata := None;
      metadataFormat := None; flickerPeriod := None; bitrate := None; profile := None; level := None;
      intra := None; inline := None; codec := None; quality := None; savePts := None;
      listen := None; keyPress := None; signal := None; initial := None; split := None;
      segment := None; circular := None; frames := None; libavVideoCodec := None; libavVideoCodecOpts := None;
      libavFormat := None;
      subscribed := handler;
      notified := [];
    }

    /** `InvalidValueActionEvent?.Invoke(name)`: only a subscribed handler hears it. */
    method InvalidValueAction(name: string)
      modifies this`notified
      ensures notified == old(notified) + (if subscribed then [name] else [])
    {
      if subscribed {
        notified := notified + [name];
      }
    }

    /** Any level above 2 is reported; the level is stored in every case. */
    method SetVerbose(value: Option<uint16>)
      modifies this`verbose, this`notified
      ensures verbose == value
      ensures notified == old(notified) + (if subscribed && value.Some? && value.value > 2 then ["Verbose"] else [])
    {
      if value.Some? && (value.value < 0 || value.value > 2) {
        InvalidValueAction("Verbose");
      }
      verbose := value;
    }

    /**
     * The `"-"` case first stores `"config.txt"`, but the assignment right
     * after it overwrites that, so the value is always stored as given.
     */
    method SetConfig(value: Option<string>)
      modifies this`config
      ensures config == value
    {
      if value.Some? && value.value == "-" {
        config := Some("config.txt");
      }
      config := value;
    }

    /** A brightness outside [-1, 1] is reported; it is stored in every case. */
    method SetBrightness(value: Option<real>)
      modifies this`brightness, this`notified
      ensures brightness == value
      ensures notified == old(notified)
                        + (if subscribed && value.Some? && !(-1.0 <= value.value <= 1.0) then ["Brightness"] else [])
    {
      if value.Some? && (value.value < -1.0 || value.value > 1.0) {
        InvalidValueAction("Brightness");
      }
      brightness := value;
    }

    /** A contrast outside [0, 1] is reported; it is stored in every case. */
    method SetContrast(value: Option<real>)
      modifies this`contrast, this`notified
      ensures contrast == value
      ensures notified == old(notified)
                        + (if subscribed && value.Some? && !(0.0 <= value.value <= 1.0) then ["Contrast"] else [])
    {
      if value.Some? && (value.value < 0.0 || value.value > 1.0) {
        InvalidValueAction("Contrast");
      }
      contrast := value;
    }

    /** A saturation outside [0, 1] is reported; it is stored in every case. */
    method SetSaturation(value: Option<real>)
      modifies this`saturation, this`notified
      ensures saturation == value
      ensures notified == old(notified)
                        + (if subscribed && value.Some? && !(0.0 <= value.value <= 1.0) then ["Saturation"] else [])
    {
      if value.Some? && (value.value < 0.0 || value.value > 1.0) {
        InvalidValueAction("Saturation");
      }
      saturation := value;
    }

    /** A sharpness outside [0, 1] is reported; it is stored in every case. */
    method SetSharpness(value: Option<real>)
      modifies this`sharpness, this`notified
      ensures sharpness == value
      ensures notified == old(notified)
                        + (if subscribed && value.Some? && !(0.0 <= value.value <= 1.0) then ["Sharpness"] else [])
    {
      if value.Some? && (value.value < 0.0 || value.value > 1.0) {
        InvalidValueAction("Sharpness");
      }
      sharpness := value;
    }

    /** `ToString()`: appends one group per present option to the program name. */
    method ToString(fmt: real -> string) returns (s: string)
      ensures s == RenderLine(Snapshot(), fmt)
    {
      var o := Snapshot();
      s := Program;
      s := AppendValue(s, "--camera", Digits(o.camera));
      s := AppendValue(s, "--verbose", Digits(o.verbose));
      s := AppendValue(s, "--config", o.config);
      s := AppendValue(s, "--info-text", o.infoText);
      s := AppendValue(s, "--width", Digits(o.width));
      s := AppendValue(s, "--height", Digits(o.height));
      s := AppendValue(s, "-t", Digits(o.timeOut));
      s := AppendValue(s, "--output", o.output);
      s := AppendValue(s, "--post-process-file", o.postProcessFile);
      s := AppendValue(s, "--post-process-libs", o.postProcessLibs);
      s := AppendFlag(s, "-n", o.noPreview == Some(true));
      s := AppendValue(s, "-p", PreviewText(o.preview));
      s := AppendFlag(s, "--qt-preview", o.qtPreview == Some(true));
      s := AppendFlag(s, "-f", o.fullscreen == Some(true) && o.qtPreview != Some(true));
      s := AppendFlag(s, "--hflip", o.hFlip == Some(true));
      s := AppendFlag(s, "--vflip", o.vFlip == Some(true));
      s := AppendValue(s, "--rotation", When(o.rotation == Some(true), "180"));
      s := AppendValue(s, "--roi", RoiText(o.roi, fmt));
      s := AppendValue(s, "--shutter", Digits(o.shutter));
      s := AppendValue(s, "--gain", Digits(o.gain));
      s := AppendValue(s, "--metering", MeteringText(o.metering));
      s := AppendValue(s, "--exposure", ExposureText(o.exposure));
      s := AppendValue(s, "--ev", Digits(o.ev));
      s := AppendValue(s, "--awb", AWBText(o.awb));
      s := AppendValue(s, "--awbgains", AWBGainsText(o.awbGains));
      s := AppendFlag(s, "--flush", o.flush == Some(true));
      s := AppendValue(s, "--wrap", Digits(o.wrap));
      s := AppendValue(s, "--brightness", o.brightness.Map(fmt));
      s := AppendValue(s, "--contrast", o.contrast.Map(fmt));
      s := AppendValue(s, "--saturation", o.saturation.Map(fmt));
      s := AppendValue(s, "--sharpness", o.sharpness.Map(fmt));
      s := AppendValue(s, "--framerate", SignedDigits(o.framerate));
      s := AppendValue(s, "--denoise", DenoiseText(o.denoise));
      s := AppendValue(s, "--viewfinder-width", Digits(o.viewFinderWidth));
      s := AppendValue(s, "--viewfinder-height", Digits(o.viewFinderHeight));
      s := AppendValue(s, "--tuning-file", o.tuningFile);
      s := AppendValue(s, "--lores-width", Digits(o.loresWidth));
      s := AppendValue(s, "--lores-height", Digits(o.loresHeight));
      s := AppendValue(s, "--mode", ModeText(o.mode));
      s := AppendValue(s, "--viewfinder-mode", ModeText(o.viewFinderMode));
      s := AppendValue(s, "--buffer-count", Digits(o.bufferCount));
      s := AppendValue(s, "--viewfinder-buffer-count", Digits(o.viewFinderBufferCount));
      s := AppendFlag(s, "--no-raw", o.noRaw == Some(true));
      s := AppendValue(s, "--autofocus-mode", AutoFocusModeText(o.autoFocusMode));
      s := AppendValue(s, "--autofocus-range", AutoFocusRangeText(o.autoFocusRange));
      s := AppendValue(s, "--autofocus-speed", AutoFocusSpeedText(o.autoFocusSpeed));
      s := AppendValue(s, "--autofocus-window", RoiText(o.autoFocusWindow, fmt));
      s := AppendValue(s, "--lens-position", o.lensPosition);
      s := AppendValue(s, "--hdr", HDRText(o.hdr));
      s := AppendValue(s, "--metadata", o.metadata);
      s := AppendValue(s, "--metadata-format", MetadataFormatText(o.metadataFormat));
      s := AppendValue(s, "--flicker-period", FlickerPeriodText(o.flickerPeriod));
      s := AppendValue(s, "-b", BitrateText(o.bitrate));
      s := AppendValue(s, "--profile", o.profile);
      s := AppendValue(s, "--level", Digits(o.level));
      s := AppendValue(s, "--intra", Digits(o.intra));
      s := AppendFlag(s, "--inline", o.inline == Some(true));
      s := AppendValue(s, "--codec", CodecText(o.codec));
      s := AppendValue(s, "--save-pts", o.savePts);
      s := AppendValue(s, "-q", Digits(o.quality));
      s := AppendFlag(s, "-l", o.listen == Some(true));
      s := AppendFlag(s, "-k", o.keyPress == Some(true));
      s := AppendFlag(s, "-s", o.signal == Some(true));
      s := AppendValue(s, "-i", InitialText(o.initial));
      s := AppendFlag(s, "--split", o.split == Some(true));
      s := AppendValue(s, "--segment", Digits(o.segment));
      s := AppendValue(s, "--circular", Digits(o.circular));
      s := AppendValue(s, "--frames", Digits(o.frames));
      s := AppendValue(s, "--libav-video-codec", o.libavVideoCodec);
      s := AppendValue(s, "--libav-video-codec-opts", o.libavVideoCodecOpts);
      s := AppendValue(s, "--libav-format", o.libavFormat);
      RenderLineGroups(o, fmt);
    }
  }

  /**
   * The text of the line: the program name followed by the group of every
   * option, in the fixed order. A group is empty for an absent option.
   */
  lemma {:induction false} RenderLineGroups(o: Options, fmt: real -> string)
    ensures RenderLine(o, fmt) == Program
      + Group("--camera", Value(Digits(o.camera)))
      + Group("--verbose", Value(Digits(o.verbose)))
      + Group("--config", Value(o.config))
      + Group("--info-text", Value(o.infoText))
      + Group("--width", Value(Digits(o.width)))
      + Group("--height", Value(Digits(o.height)))
      + Group("-t", Value(Digits(o.timeOut)))
      + Group("--output", Value(o.output))
      + Group("--post-process-file", Value(o.postProcessFile))
      + Group("--post-process-libs", Value(o.postProcessLibs))
      + Group("-n", Switch(o.noPreview == Some(true)))
      + Group("-p", Value(PreviewText(o.preview)))
      + Group("--qt-preview", Switch(o.qtPreview == Some(true)))
      + Group("-f", Switch(o.fullscreen == Some(true) && o.qtPreview != Some(true)))
      + Group("--hflip", Switch(o.hFlip == Some(true)))
      + Group("--vflip", Switch(o.vFlip == Some(true)))
      + Group("--rotation", Value(When(o.rotation == Some(true), "180")))
      + Group("--roi", Value(RoiText(o.roi, fmt)))
      + Group("--shutter", Value(Digits(o.shutter)))
      + Group("--gain", Value(Digits(o.gain)))
      + Group("--metering", Value(MeteringText(o.metering)))
      + Group("--exposure", Value(ExposureText(o.exposure)))
      + Group("--ev", Value(Digits(o.ev)))
      + Group("--awb", Value(AWBText(o.awb)))
      + Group("--awbgains", Value(AWBGainsText(o.awbGains)))
      + Group("--flush", Switch(o.flush == Some(true)))
      + Group("--wrap", Value(Digits(o.wrap)))
      + Group("--brightness", Value(o.brightness.Map(fmt)))
      + Group("--contrast", Value(o.contrast.Map(fmt)))
      + Group("--saturation", Value(o.saturation.Map(fmt)))
      + Group("--sharpness", Value(o.sharpness.Map(fmt)))
      + Group("--framerate", Value(SignedDigits(o.framerate)))
      + Group("--denoise", Value(DenoiseText(o.denoise)))
      + Group("--viewfinder-width", Value(Digits(o.viewFinderWidth)))
      + Group("--viewfinder-height", Value(Digits(o.viewFinderHeight)))
      + Group("--tuning-file", Value(o.tuningFile))
      + Group("--lores-width", Value(Digits(o.loresWidth)))
      + Group("--lores-height", Value(Digits(o.loresHeight)))
      + Group("--mode", Value(ModeText(o.mode)))
      + Group("--viewfinder-mode", Value(ModeText(o.viewFinderMode)))
      + Group("--buffer-count", Value(Digits(o.bufferCount)))
      + Group("--viewfinder-buffer-count", Value(Digits(o.viewFinderBufferCount)))
      + Group("--no-raw", Switch(o.noRaw == Some(true)))
      + Group("--autofocus-mode", Value(AutoFocusModeText(o.autoFocusMode)))
      + Group("--autofocus-range", Value(AutoFocusRangeText(o.autoFocusRange)))
      + Group("--autofocus-speed", Value(AutoFocusSpeedText(o.autoFocusSpeed)))
      + Group("--autofocus-window", Value(RoiText(o.autoFocusWindow, fmt)))
      + Group("--lens-position", Value(o.lensPosition))
      + Group("--hdr", Value(HDRText(o.hdr)))
      + Group("--metadata", Value(o.metadata))
      + Group("--metadata-format", Value(MetadataFormatText(o.metadataFormat)))
      + Group("--flicker-period", Value(FlickerPeriodText(o.flickerPeriod)))
      + Group("-b", Value(BitrateText(o.bitrate)))
      + Group("--profile", Value(o.profile))
      + Group("--level", Value(Digits(o.level)))
      + Group("--intra", Value(Digits(o.intra)))
      + Group("--inline", Switch(o.inline == Some(true)))
      + Group("--codec", Value(CodecText(o.codec)))
      + Group("--save-pts", Value(o.savePts))
      + Group("-q", Value(Digits(o.quality)))
      + Group("-l", Switch(o.listen == Some(true)))
      + Group("-k", Switch(o.keyPress == Some(true)))
      + Group("-s", Switch(o.signal == Some(true)))
      + Group("-i", Value(InitialText(o.initial)))
      + Group("--split", Switch(o.split == Some(true)))
      + Group("--segment", Value(Digits(o.segment)))
      + Group("--circular", Value(Digits(o.circular)))
      + Group("--frames", Value(Digits(o.frames)))
      + Group("--libav-video-codec", Value(o.libavVideoCodec))
      + Group("--libav-video-codec-opts", Value(o.libavVideoCodecOpts))
      + Group("--libav-format", Value(o.libavFormat))
  {
    var l := Start(Program);
    WrittenAdd(l, "--camera", Value(Digits(o.camera)));
    l := Add(l, "--camera", Value(Digits(o.camera)));
    WrittenAdd(l, "--verbose", Value(Digits(o.verbose)));
    l := Add(l, "--verbose", Value(Digits(o.verbose)));
    WrittenAdd(l, "--config", Value(o.config));
    l := Add(l, "--config", Value(o.config));
    WrittenAdd(l, "--info-text", Value(o.infoText));
    l := Add(l, "--info-text", Value(o.infoText));
    WrittenAdd(l, "--width", Value(Digits(o.width)));
    l := Add(l, "--width", Value(Digits(o.width)));
    WrittenAdd(l, "--height", Value(Digits(o.height)));
    l := Add(l, "--height", Value(Digits(o.height)));
    WrittenAdd(l, "-t", Value(Digits(o.timeOut)));
    l := Add(l, "-t", Value(Digits(o.timeOut)));
    WrittenAdd(l, "--output", Value(o.output));
    l := Add(l, "--output", Value(o.output));
    WrittenAdd(l, "--post-process-file", Value(o.postProcessFile));
    l := Add(l, "--post-process-file", Value(o.postProcessFile));
    WrittenAdd(l, "--post-process-libs", Value(o.postProcessLibs));
    l := Add(l, "--post-process-libs", Value(o.postProcessLibs));
    WrittenAdd(l, "-n", Switch(o.noPreview == Some(true)));
    l := Add(l, "-n", Switch(o.noPreview == Some(true)));
    WrittenAdd(l, "-p", Value(PreviewText(o.preview)));
    l := Add(l, "-p", Value(PreviewText(o.preview)));
    WrittenAdd(l, "--qt-preview", Switch(o.qtPreview == Some(true)));
    l := Add(l, "--qt-preview", Switch(o.qtPreview == Some(true)));
    WrittenAdd(l, "-f", Switch(o.fullscreen == Some(true) && o.qtPreview != Some(true)));
    l := Add(l, "-f", Switch(o.fullscreen == Some(true) && o.qtPreview != Some(true)));
    WrittenAdd(l, "--hflip", Switch(o.hFlip == Some(true)));
    l := Add(l, "--hflip", Switch(o.hFlip == Some(true)));
    WrittenAdd(l, "--vflip", Switch(o.vFlip == Some(true)));
    l := Add(l, "--vflip", Switch(o.vFlip == Some(true)));
    WrittenAdd(l, "--rotation", Value(When(o.rotation == Some(true), "180")));
    l := Add(l, "--rotation", Value(When(o.rotation == Some(true), "180")));
    WrittenAdd(l, "--roi", Value(RoiText(o.roi, fmt)));
    l := Add(l, "--roi", Value(RoiText(o.roi, fmt)));
    WrittenAdd(l, "--shutter", Value(Digits(o.shutter)));
    l := Add(l, "--shutter", Value(Digits(o.shutter)));
    WrittenAdd(l, "--gain", Value(Digits(o.gain)));
    l := Add(l, "--gain", Value(Digits(o.gain)));
    WrittenAdd(l, "--metering", Value(MeteringText(o.metering)));
    l := Add(l, "--metering", Value(MeteringText(o.metering)));
    WrittenAdd(l, "--exposure", Value(ExposureText(o.exposure)));
    l := Add(l, "--exposure", Value(ExposureText(o.exposure)));
    WrittenAdd(l, "--ev", Value(Digits(o.ev)));
    l := Add(l, "--ev", Value(Digits(o.ev)));
    WrittenAdd(l, "--awb", Value(AWBText(o.awb)));
    l := Add(l, "--awb", Value(AWBText(o.awb)));
    WrittenAdd(l, "--awbgains", Value(AWBGainsText(o.awbGains)));
    l := Add(l, "--awbgains", Value(AWBGainsText(o.awbGains)));
    WrittenAdd(l, "--flush", Switch(o.flush == Some(true)));
    l := Add(l, "--flush", Switch(o.flush == Some(true)));
    WrittenAdd(l, "--wrap", Value(Digits(o.wrap)));
    l := Add(l, "--wrap", Value(Digits(o.wrap)));
    WrittenAdd(l, "--brightness", Value(o.brightness.Map(fmt)));
    l := Add(l, "--brightness", Value(o.brightness.Map(fmt)));
    WrittenAdd(l, "--contrast", Value(o.contrast.Map(fmt)));
    l := Add(l, "--contrast", Value(o.contrast.Map(fmt)));
    WrittenAdd(l, "--saturation", Value(o.saturation.Map(fmt)));
    l := Add(l, "--saturation", Value(o.saturation.Map(fmt)));
    WrittenAdd(l, "--sharpness", Value(o.sharpness.Map(fmt)));
    l := Add(l, "--sharpness", Value(o.sharpness.Map(fmt)));
    WrittenAdd(l, "--framerate", Value(SignedDigits(o.framerate)));
    l := Add(l, "--framerate", Value(SignedDigits(o.framerate)));
    WrittenAdd(l, "--denoise", Value(DenoiseText(o.denoise)));
    l := Add(l, "--denoise", Value(DenoiseText(o.denoise)));
    WrittenAdd(l, "--viewfinder-width", Value(Digits(o.viewFinderWidth)));
    l := Add(l, "--viewfinder-width", Value(Digits(o.viewFinderWidth)));
    WrittenAdd(l, "--viewfinder-height", Value(Digits(o.viewFinderHeight)));
    l := Add(l, "--viewfinder-height", Value(Digits(o.viewFinderHeight)));
    WrittenAdd(l, "--tuning-file", Value(o.tuningFile));
    l := Add(l, "--tuning-file", Value(o.tuningFile));
    WrittenAdd(l, "--lores-width", Value(Digits(o.loresWidth)));
    l := Add(l, "--lores-width", Value(Digits(o.loresWidth)));
    WrittenAdd(l, "--lores-height", Value(Digits(o.loresHeight)));
    l := Add(l, "--lores-height", Value(Digits(o.loresHeight)));
    WrittenAdd(l, "--mode", Value(ModeText(o.mode)));
    l := Add(l, "--mode", Value(ModeText(o.mode)));
    WrittenAdd(l, "--viewfinder-mode", Value(ModeText(o.viewFinderMode)));
    l := Add(l, "--viewfinder-mode", Value(ModeText(o.viewFinderMode)));
    WrittenAdd(l, "--buffer-count", Value(Digits(o.bufferCount)));
    l := Add(l, "--buffer-count", Value(Digits(o.bufferCount)));
    WrittenAdd(l, "--viewfinder-buffer-count", Value(Digits(o.viewFinderBufferCount)));
    l := Add(l, "--viewfinder-buffer-count", Value(Digits(o.viewFinderBufferCount)));
    WrittenAdd(l, "--no-raw", Switch(o.noRaw == Some(true)));
    l := Add(l, "--no-raw", Switch(o.noRaw == Some(true)));
    WrittenAdd(l, "--autofocus-mode", Value(AutoFocusModeText(o.autoFocusMode)));
    l := Add(l, "--autofocus-mode", Value(AutoFocusModeText(o.autoFocusMode)));
    WrittenAdd(l, "--autofocus-range", Value(AutoFocusRangeText(o.autoFocusRange)));
    l := Add(l, "--autofocus-range", Value(AutoFocusRangeText(o.autoFocusRange)));
    WrittenAdd(l, "--autofocus-speed", Value(AutoFocusSpeedText(o.autoFocusSpeed)));
    l := Add(l, "--autofocus-speed", Value(AutoFocusSpeedText(o.autoFocusSpeed)));
    WrittenAdd(l, "--autofocus-window", Value(RoiText(o.autoFocusWindow, fmt)));
    l := Add(l, "--autofocus-window", Value(RoiText(o.autoFocusWindow, fmt)));
    WrittenAdd(l, "--lens-position", Value(o.lensPosition));
    l := Add(l, "--lens-position", Value(o.lensPosition));
    WrittenAdd(l, "--hdr", Value(HDRText(o.hdr)));
    l := Add(l, "--hdr", Value(HDRText(o.hdr)));
    WrittenAdd(l, "--metadata", Value(o.metadata));
    l := Add(l, "--metadata", Value(o.metadata));
    WrittenAdd(l, "--metadata-format", Value(MetadataFormatText(o.metadataFormat)));
    l := Add(l, "--metadata-format", Value(MetadataFormatText(o.metadataFormat)));
    WrittenAdd(l, "--flicker-period", Value(FlickerPeriodText(o.flickerPeriod)));
    l := Add(l, "--flicker-period", Value(FlickerPeriodText(o.flickerPeriod)));
    WrittenAdd(l, "-b", Value(BitrateText(o.bitrate)));
    l := Add(l, "-b", Value(BitrateText(o.bitrate)));
    WrittenAdd(l, "--profile", Value(o.profile));
    l := Add(l, "--profile", Value(o.profile));
    WrittenAdd(l, "--level", Value(Digits(o.level)));
    l := Add(l, "--level", Value(Digits(o.level)));
    WrittenAdd(l, "--intra", Value(Digits(o.intra)));
    l := Add(l, "--intra", Value(Digits(o.intra)));
    WrittenAdd(l, "--inline", Switch(o.inline == Some(true)));
    l := Add(l, "--inline", Switch(o.inline == Some(true)));
    WrittenAdd(l, "--codec", Value(CodecText(o.codec)));
    l := Add(l, "--codec", Value(CodecText(o.codec)));
    WrittenAdd(l, "--save-pts", Value(o.savePts));
    l := Add(l, "--save-pts", Value(o.savePts));
    WrittenAdd(l, "-q", Value(Digits(o.quality)));
    l := Add(l, "-q", Value(Digits(o.quality)));
    WrittenAdd(l, "-l", Switch(o.listen == Some(true)));
    l := Add(l, "-l", Switch(o.listen == Some(true)));
    WrittenAdd(l, "-k", Switch(o.keyPress == Some(true)));
    l := Add(l, "-k", Switch(o.keyPress == Some(true)));
    WrittenAdd(l, "-s", Switch(o.signal == Some(true)));
    l := Add(l, "-s", Switch(o.signal == Some(true)));
    WrittenAdd(l, "-i", Value(InitialText(o.initial)));
    l := Add(l, "-i", Value(InitialText(o.initial)));
    WrittenAdd(l, "--split", Switch(o.split == Some(true)));
    l := Add(l, "--split", Switch(o.split == Some(true)));
    WrittenAdd(l, "--segment", Value(Digits(o.segment)));
    l := Add(l, "--segment", Value(Digits(o.segment)));
    WrittenAdd(l, "--circular", Value(Digits(o.circular)));
    l := Add(l, "--circular", Value(Digits(o.circular)));
    WrittenAdd(l, "--frames", Value(Digits(o.frames)));
    l := Add(l, "--frames", Value(Digits(o.frames)));
    WrittenAdd(l, "--libav-video-codec", Value(o.libavVideoCodec));
    l := Add(l, "--libav-video-codec", Value(o.libavVideoCodec));
    WrittenAdd(l, "--libav-video-codec-opts", Value(o.libavVideoCodecOpts));
    l := Add(l, "--libav-video-codec-opts", Value(o.libavVideoCodecOpts));
    WrittenAdd(l, "--libav-format", Value(o.libavFormat));
    l := Add(l, "--libav-format", Value(o.libavFormat));
  }

  // ------------------------------------------------------------ renderings

  /** With no option set, no group is added: the line is the bare program name. */
  lemma NoOptionsRenderProgram(fmt: real -> string)
    ensures Commands(NoOptions, fmt) == Start(Program)
    ensures RenderLine(NoOptions, fmt) == Program
  {
  }

  /** `noPreview` set to `false` renders exactly as `noPreview` absent. */
  lemma NoPreviewFalseIsAbsent(o: Options, fmt: real -> string)
    ensures Commands(o.(noPreview := Some(false)), fmt) == Commands(o.(noPreview := None), fmt)
  {
  }

  /** `qtPreview` set to `false` renders exactly as `qtPreview` absent. */
  lemma QtPreviewFalseIsAbsent(o: Options, fmt: real -> string)
    ensures Commands(o.(qtPreview := Some(false)), fmt) == Commands(o.(qtPreview := None), fmt)
  {
  }

  /** `fullscreen` set to `false` renders exactly as `fullscreen` absent. */
  lemma FullscreenFalseIsAbsent(o: Options, fmt: real -> string)
    ensures Commands(o.(fullscreen := Some(false)), fmt) == Commands(o.(fullscreen := None), fmt)
  {
  }

  /** `hFlip` set to `false` renders exactly as `hFlip` absent. */
  lemma HFlipFalseIsAbsent(o: Options, fmt: real -> string)
    ensures Commands(o.(hFlip := Some(false)), fmt) == Commands(o.(hFlip := None), fmt)
  {
  }

  /** `vFlip` set to `false` renders exactly as `vFlip` absent. */
  lemma VFlipFalseIsAbsent(o: Options, fmt: real -> string)
    ensures Commands(o.(vFlip := Some(false)), fmt) == Commands(o.(vFlip := None), fmt)
  {
  }

  /** `rotation` set to `false` renders exactly as `rotation` absent. */
  lemma RotationFalseIsAbsent(o: Options, fmt: real -> string)
    ensures Commands(o.(rotation := Some(false)), fmt) == Commands(o.(rotation := None), fmt)
  {
  }

  /** `flush` set to `false` renders exactly as `flush` absent. */
  lemma FlushFalseIsAbsent(o: Options, fmt: real -> string)
    ensures Commands(o.(flush := Some(false)), fmt) == Commands(o.(flush := None), fmt)
  {
  }

  /** `noRaw` set to `false` renders exactly as `noRaw` absent. */
  lemma NoRawFalseIsAbsent(o: Options, fmt: real -> string)
    ensures Commands(o.(noRaw := Some(false)), fmt) == Commands(o.(noRaw := None), fmt)
  {
  }

  /** `inline` set to `false` renders exactly as `inline` absent. */
  lemma InlineFalseIsAbsent(o: Options, fmt: real -> string)
    ensures Commands(o.(inline := Some(false)), fmt) == Commands(o.(inline := None), fmt)
  {
  }

  /** `listen` set to `false` renders exactly as `listen` absent. */
  lemma ListenFalseIsAbsent(o: Options, fmt: real -> string)
    ensures Commands(o.(listen := Some(false)), fmt) == Commands(o.(listen := None), fmt)
  {
  }

  /** `keyPress` set to `false` renders exactly as `keyPress` absent. */
  lemma KeyPressFalseIsAbsent(o: Options, fmt: real -> string)
    ensures Commands(o.(keyPress := Some(false)), fmt) == Commands(o.(keyPress := None), fmt)
  {
  }

  /** `signal` set to `false` renders exactly as `signal` absent. */
  lemma SignalFalseIsAbsent(o: Options, fmt: real -> string)
    ensures Commands(o.(signal := Some(false)), fmt) == Commands(o.(signal := None), fmt)
  {
  }

  /** `split` set to `false` renders exactly as `split` absent. */
  lemma SplitFalseIsAbsent(o: Options, fmt: real -> string)
    ensures Commands(o.(split := Some(false)), fmt) == Commands(o.(split := None), fmt)
  {
  }

  /** Once `--qt-preview` is on, `fullscreen` has no effect on the line. */
  lemma QtPreviewSuppressesFullscreen(o: Options, f: Option<bool>, fmt: real -> string)
    requires o.qtPreview == Some(true)
    ensures Commands(o.(fullscreen := f), fmt) == Commands(o.(fullscreen := None), fmt)
  {
  }

  /** `-f` alone is emitted when `qtPreview` is absent or false. */
  lemma FullscreenWithoutQtPreview(q: Option<bool>, fmt: real -> string)
    requires q != Some(true)
    ensures Commands(NoOptions.(fullscreen := Some(true), qtPreview := q), fmt) == Then(Start(Program), "-f", None)
  {
  }

  /** With both on, only `--qt-preview` is emitted. */
  lemma QtPreviewWithFullscreen(f: Option<bool>, fmt: real -> string)
    ensures Commands(NoOptions.(qtPreview := Some(true), fullscreen := f), fmt) == Then(Start(Program), "--qt-preview", None)
  {
  }

  /** `rotation == true` is `--rotation 180`. */
  lemma RotationIsHalfTurn(fmt: real -> string)
    ensures Commands(NoOptions.(rotation := Some(true)), fmt) == Then(Start(Program), "--rotation", Some("180"))
  {
  }

  /** A number is written in decimal after its flag. */
  lemma CameraAlone(n: uint32, fmt: real -> string)
    ensures Commands(NoOptions.(camera := Some(n)), fmt) == Then(Start(Program), "--camera", Some(NatToDecimal(n)))
  {
  }

  /** A string is appended verbatim, `"-"` included. */
  lemma ConfigAlone(c: string, fmt: real -> string)
    ensures Commands(NoOptions.(config := Some(c)), fmt) == Then(Start(Program), "--config", Some(c))
  {
  }

  /** A line of one valued group is written `program flag value`. */
  lemma RenderOne(o: Options, fmt: real -> string, flag: string, value: string)
    requires Commands(o, fmt) == Then(Start(Program), flag, Some(value))
    ensures RenderLine(o, fmt) == Program + " " + flag + " " + value
  {
    WrittenOne(Program, flag, Some(value));
  }

  /** Groups appear in the fixed order, first option first. */
  lemma FirstBeforeLast(n: uint32, format: string, fmt: real -> string)
    ensures Commands(NoOptions.(camera := Some(n), libavFormat := Some(format)), fmt)
         == Then(Then(Start(Program), "--camera", Some(NatToDecimal(n))), "--libav-format", Some(format))
  {
  }

  /** An enum renders as its declared name, lower-cased: `Spot` is `spot`. */
  lemma MeteringSpotText()
    ensures MeteringText(Some(MeteringEnum.Spot)) == Some("spot")
  {
    LowerCasedName("Spot", "spot");
  }

  /** `SingleExp` is `singleexp`. */
  lemma HDRSingleExpText()
    ensures HDRText(Some(HDREnum.SingleExp)) == Some("singleexp")
  {
    LowerCasedName("SingleExp", "singleexp");
  }

  /** The `DenoiseEnum` names are declared in lower case, so they render unchanged. */
  lemma DenoiseNamesUnchanged(e: DenoiseEnum)
    ensures DenoiseText(Some(e)) == Some(e.Name())
  {
    ToLowerKeepsLower(e.Name());
  }

  /** `Yuv420` is `yuv420`. */
  lemma CodecYuv420Text()
    ensures CodecText(Some(CodecEnum.Yuv420)) == Some("yuv420")
  {
    LowerCasedName("Yuv420", "yuv420");
  }

  // ------------------------------------------------------------- sessions

  /** A model just built, with or without a handler, renders the bare program name. */
  method FreshModelsRenderProgram(fmt: real -> string) returns (plain: string, handled: string)
    ensures plain == Program && handled == Program
  {
    var m := new LibCameraModel();
    plain := m.ToString(fmt);
    var h := new LibCameraModel.WithDelegate(true);
    handled := h.ToString(fmt);
    NoOptionsRenderProgram(fmt);
  }

  /** Rendering only reads the model, so two renderings in a row agree. */
  method RenderTwice(m: LibCameraModel, fmt: real -> string) returns (first: string, second: string)
    ensures first == second
    ensures first == RenderLine(m.Snapshot(), fmt)
  {
    first := m.ToString(fmt);
    second := m.ToString(fmt);
  }

  /** The line of the session below: five options, in the fixed order. */
  lemma SessionLine(fmt: real -> string)
    ensures Commands(NoOptions.(camera := Some(0), verbose := Some(3), width := Some(640),
                                brightness := Some(0.5), contrast := Some(2.0)), fmt)
         == Then(Then(Then(Then(Then(Start(Program), "--camera", Some("0")), "--verbose", Some("3")),
                               "--width", Some("640")), "--brightness", Some(fmt(0.5))), "--contrast", Some(fmt(2.0)))
  {
    assert NatToDecimal(640) == "640" by {
      assert NatToDecimal(64) == "64" by {
        assert NatToDecimal(6) == "6";
      }
    }
  }

  /**
   * Auto-properties are assigned without a report; the setters report an
   * out-of-range verbosity and contrast, once each and in order, and store
   * the values anyway. An in-range brightness is not reported.
   */
  method ExampleSession() returns (log: seq<string>, camera: Option<uint32>, verbose: Option<uint16>,
                                    width: Option<uint32>, brightness: Option<real>, contrast: Option<real>)
    ensures log == ["Verbose", "Contrast"]
    ensures camera == Some(0) && verbose == Some(3) && width == Some(640)
    ensures brightness == Some(0.5) && contrast == Some(2.0)
  {
    var m := new LibCameraModel.WithDelegate(true);
    m.camera := Some(0);
    m.SetVerbose(Some(3));
    m.width := Some(640);
    m.SetBrightness(Some(0.5));
    m.SetContrast(Some(2.0));
    log, camera, verbose, width := m.notified, m.camera, m.verbose, m.width;
    brightness, contrast := m.brightness, m.contrast;
  }
}
