/**
 * The Polly voice chosen for a target language: a fixed table of seven
 * language codes with "Joanna" as the fallback for every other code
 * (`voice_map.get(target_lang, "Joanna")`).
 */
module Voices {

  const DefaultVoice: string := "Joanna"

  const VoiceMap: map<string, string> :=
    map["es" := "Lupe", "fr" := "Celine", "de" := "Marlene",
        "hi" := "Aditi", "ja" := "Mizuki", "zh" := "Zhiyu", "en" := "Joanna"]

  /** The seven voices the table can produce. */
  const KnownVoices: set<string> := {"Lupe", "Celine", "Marlene", "Aditi", "Mizuki", "Zhiyu", "Joanna"}

  /** Total lookup: every language code gets a voice. */
  function VoiceFor(lang: string): (voice: string)
    ensures voice in KnownVoices
    ensures lang !in {"es", "fr", "de", "hi", "ja", "zh", "en"} ==> voice == DefaultVoice
    ensures voice != DefaultVoice ==> lang in VoiceMap && lang != "en"
  {
    if lang in VoiceMap then VoiceMap[lang] else DefaultVoice
  }

  /** The table entry by entry, and the fallback. */
  lemma VoiceTable(other: string)
    requires other !in {"es", "fr", "de", "hi", "ja", "zh", "en"}
    ensures VoiceFor("es") == "Lupe" && VoiceFor("fr") == "Celine"
    ensures VoiceFor("de") == "Marlene" && VoiceFor("hi") == "Aditi"
    ensures VoiceFor("ja") == "Mizuki" && VoiceFor("zh") == "Zhiyu"
    ensures VoiceFor("en") == "Joanna"
    ensures VoiceFor(other) == "Joanna"
  {
  }
}
