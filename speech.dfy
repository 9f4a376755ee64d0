/**
 * `textToSpeech` of the voice-call controller (Backend/controllers/call.controller.js):
 * the primary provider (ElevenLabs, with the configured voice), then, only if
 * that call throws, exactly one fallback provider (VoiceRSS), then `null`.
 * Whatever it returns is a string or null; it never throws.
 *
 * The providers are an oracle from an attempt to the audio bytes (None when the
 * request throws). The function also returns the list of attempts it made, so
 * that the number and order of provider calls can be stated.
 */
module Speech {
  import opened Common
  import JsString
  import Base64

  datatype Attempt = Primary(voiceId: string, text: string) | Fallback(text: string)

  /** The two environment variables; unset or empty counts as missing. */
  datatype TtsConfig = TtsConfig(apiKey: Option<string>, voiceId: Option<string>)

  datatype TtsOutcome = TtsOutcome(audioUrl: Option<string>, attempts: seq<Attempt>)

  predicate Configured(cfg: TtsConfig) {
    JsString.Truthy(cfg.apiKey) && JsString.Truthy(cfg.voiceId)
  }

  function TextToSpeech(cfg: TtsConfig, text: string, synth: Attempt -> Option<seq<Base64.byte>>): (r: TtsOutcome)
    ensures !Configured(cfg) ==> r == TtsOutcome(None, [])
    ensures Configured(cfg) ==> 1 <= |r.attempts| <= 2 && r.attempts[0] == Primary(cfg.voiceId.value, text)
    ensures Configured(cfg) ==> (|r.attempts| == 2 <==> synth(Primary(cfg.voiceId.value, text)).None?)
    ensures |r.attempts| == 2 ==> r.attempts[1] == Fallback(text)
    ensures r.audioUrl.Some? ==>
      (r.attempts != [] && synth(r.attempts[|r.attempts| - 1]).Some?
       && r.audioUrl.value == Base64.AudioDataUri(synth(r.attempts[|r.attempts| - 1]).value))
    ensures r.audioUrl.None? ==> forall a :: a in r.attempts ==> synth(a).None?
  {
    if !Configured(cfg) then
      TtsOutcome(None, [])
    else
      var primary := Primary(cfg.voiceId.value, text);
      match synth(primary)
      case Some(audio) => TtsOutcome(Some(Base64.AudioDataUri(audio)), [primary])
      case None =>
        match synth(Fallback(text))
        case Some(audio) => TtsOutcome(Some(Base64.AudioDataUri(audio)), [primary, Fallback(text)])
        case None => TtsOutcome(None, [primary, Fallback(text)])
  }

  /** A returned audio URL always carries, unchanged, the bytes of the provider that answered. */
  lemma AudioUrlCarriesProviderBytes(cfg: TtsConfig, text: string, synth: Attempt -> Option<seq<Base64.byte>>)
    requires TextToSpeech(cfg, text, synth).audioUrl.Some?
    ensures exists a :: (a in TextToSpeech(cfg, text, synth).attempts && synth(a).Some?
      && Base64.ParseAudioDataUri(TextToSpeech(cfg, text, synth).audioUrl.value) == synth(a))
  {
    var r := TextToSpeech(cfg, text, synth);
    var a := r.attempts[|r.attempts| - 1];
    Base64.AudioDataUriRoundTrip(synth(a).value);
  }
}
