/** The enumerations the core reads: the completion models, the voice stop
    policy and the colour theme. */
module Enums {
  import opened Wrappers

  /** The four GPT-3 engines; `Value` is the engine id sent to the service. */
  datatype GptModel = Davinci | Curie | Babbage | Ada
  {
    function Name(): string {
      match this
      case Davinci => "davinci"
      case Curie => "curie"
      case Babbage => "babbage"
      case Ada => "ada"
    }

    function Value(): string {
      match this
      case Davinci => "text-davinci-003"
      case Curie => "text-curie-001"
      case Babbage => "text-babbage-001"
      case Ada => "text-ada-001"
    }
  }

  /** The member names in declaration order, as `[e.name for e in GptModel]`. */
  const ModelNames: seq<string> := ["davinci", "curie", "babbage", "ada"]

  /** `GptModel[name]`; `None` stands for the `KeyError` of an unknown name. */
  function ModelByName(name: string): (m: Option<GptModel>)
    ensures m.Some? <==> name in ModelNames
    ensures m.Some? ==> m.value.Name() == name
  {
    if name == "davinci" then Some(Davinci)
    else if name == "curie" then Some(Curie)
    else if name == "babbage" then Some(Babbage)
    else if name == "ada" then Some(Ada)
    else None
  }

  /** Every model is found again under its own name. */
  lemma ModelByNameOfName(m: GptModel)
    ensures ModelByName(m.Name()) == Some(m)
  {
  }

  /** Whether a spoken sentence ends at a period or at a newline. */
  datatype VoiceStop = Period | Newline
  {
    function Name(): string {
      if this == Period then "period" else "newline"
    }

    /** The other policy, as `/voice-stop` switches to it. */
    function Toggled(): (t: VoiceStop)
      ensures t != this
    {
      if this == Newline then Period else Newline
    }
  }

  datatype ThemeMode = Dark | Light
  {
    function Name(): string {
      if this == Dark then "dark" else "light"
    }

    /** The other theme, as `/theme` switches to it. */
    function Toggled(): (t: ThemeMode)
      ensures t != this
    {
      if this == Light then Dark else Light
    }
  }
}
