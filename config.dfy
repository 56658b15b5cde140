/** The settings object the terminal and the shell read and update in place. */
module Settings {
  import opened Enums

  const DefaultImageStorePath := "/var/tmp/gpterm/generated_images"

  class Config {
    var colorTheme: ThemeMode
    var useCodeFormat: bool
    var displayAdvanced: bool
    var useVoice: bool
    var voiceName: string
    var voiceOver: bool
    var voiceStop: VoiceStop
    var imageSize: int
    var imageView: bool
    var imageStore: string
    var model: GptModel

    /** The defaults in force before a configuration file is loaded. */
    constructor ()
      ensures colorTheme == Dark && !useCodeFormat && !displayAdvanced
      ensures useVoice && voiceName == "Karen" && !voiceOver && voiceStop == Period
      ensures imageSize == 256 && imageView && imageStore == DefaultImageStorePath
      ensures model == Davinci
    {
      colorTheme := Dark;
      useCodeFormat := false;
      displayAdvanced := false;
      useVoice := true;
      voiceName := "Karen";
      voiceOver := false;
      voiceStop := Period;
      imageSize := 256;
      imageView := true;
      imageStore := DefaultImageStorePath;
      model := Davinci;
    }
  }
}
