/** server/server/services/speech_recognition/factory.py: the provider enum and the
    lookup from provider to recognition-service class. */
module SpeechFactory {
  import opened Wrappers

  /** `SpeechRecognitionProvider`, a string enum. */
  datatype SpeechProvider = Vosk

  function ProviderValue(p: SpeechProvider): string {
    match p
    case Vosk => "vosk"
  }

  /** The service classes the factory can hand out: a class, not an instance, so
      nothing is connected. */
  datatype ServiceClass = VoskServiceClass

  /** The `services` mapping. */
  const Services: map<string, ServiceClass> := map["vosk" := VoskServiceClass]

  /** `ValueError("Unsupported speech recognition provider: ...")` */
  datatype FactoryError = UnsupportedSpeechProvider(provider: string)

  /** `get_speech_recognition_service(provider)`. The argument is the provider's string
      value, since a `str` enum member compares equal to its value. */
  function GetSpeechRecognitionService(provider: string): (r: Result<ServiceClass, FactoryError>)
    ensures r.Success? <==> provider in Services
    ensures r.Success? ==> r.value == Services[provider]
    ensures r.Failure? ==> r.error == UnsupportedSpeechProvider(provider)
  {
    if provider !in Services then Failure(UnsupportedSpeechProvider(provider))
    else Success(Services[provider])
  }

  /** The mapping's domain is exactly the values of the enum. */
  lemma MappingCoversEnum(s: string)
    ensures s in Services <==> exists p :: ProviderValue(p) == s
  {
    if s in Services {
      assert ProviderValue(Vosk) == s;
    }
  }

  /** Every enum member is supported; `vosk` gives the Vosk class. */
  lemma EveryProviderSucceeds(p: SpeechProvider)
    ensures GetSpeechRecognitionService(ProviderValue(p)).Success?
    ensures p == Vosk ==> GetSpeechRecognitionService(ProviderValue(p)).value == VoskServiceClass
  {
  }
}
