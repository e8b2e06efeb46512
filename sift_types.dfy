/** The SIFT data types shared by every adapter: identifiers, components,
    devices and intents (types/types.go and the per-kind type files). */
module SiftTypes {
  import opened Common

  /** Universally identifies a device across systems. */
  datatype ExternalDeviceID = ExternalDeviceID(manufacturer: string, id: string)

  /** Universally identifies a component: its device and its name. */
  datatype ExternalComponentID = ExternalComponentID(device: ExternalDeviceID, name: string)

  /** A locally assigned device number (int64). */
  type DeviceID = int

  /** Locally identifies a component within a SIFT service. */
  datatype ComponentID = ComponentID(name: string, deviceID: DeviceID)

  datatype BaseComponent = BaseComponent(make: string, model: string)

  datatype MediaPlayerState = MediaPlayerState(playState: string, mediaType: string, source: string)

  datatype SpeakerState = SpeakerState(isOnline: bool, outputInPercent: u8)

  const ComponentTypeLightEmitter := "light_emitter"
  const ComponentTypeMediaPlayer := "media_player"
  const ComponentTypeSpeaker := "speaker"

  const MediaTypeVideo := "VIDEO"

  /** A functional unit of a device; the kind is the component's Type(). */
  datatype Component =
    | LightEmitter(base: BaseComponent, brightnessInPercent: u8)
    | MediaPlayer(base: BaseComponent, state: MediaPlayerState)
    | Speaker(base: BaseComponent, speaker: SpeakerState)
  {
    function Type(): string
    {
      match this
      case LightEmitter(_, _) => ComponentTypeLightEmitter
      case MediaPlayer(_, _) => ComponentTypeMediaPlayer
      case Speaker(_, _) => ComponentTypeSpeaker
    }
  }

  /** A physical unit holding zero or more components, indexed by name. */
  datatype Device = Device(name: string, isOnline: bool, components: map<string, Component>)

  /** A desire for a component to behave in a particular way. */
  datatype Intent =
    | SetLightEmitterIntent(brightnessInPercent: u8)
    | SetMediaPlayerIntent(playState: string)
    | SetSpeakerIntent(outputInPercent: u8)
}
