/** The two-bucket audio multipliers of common/model-ratio.go. */
module AudioRatio {
  import opened Strings

  /** The audio-input multiplier: 40 for `gpt-4o-audio` models, 20 for every other name. */
  function GetAudioRatio(name: string): (r: real)
    ensures r == 40.0 <==> HasPrefix(name, "gpt-4o-audio")
    ensures r != 40.0 ==> r == 20.0
  {
    AudioPrefixesDisjoint(name);
    if HasPrefix(name, "gpt-4o-realtime") then 20.0
    else if HasPrefix(name, "gpt-4o-audio") then 40.0
    else 20.0
  }

  /** No name is both a realtime and an audio model: the prefixes differ at their eighth character. */
  lemma AudioPrefixesDisjoint(name: string)
    ensures !(HasPrefix(name, "gpt-4o-realtime") && HasPrefix(name, "gpt-4o-audio"))
  {
    if HasPrefix(name, "gpt-4o-realtime") {
      assert name[7] == "gpt-4o-realtime"[7] == 'r';
      MismatchNotPrefix(name, "gpt-4o-audio", 7);
    }
  }

  /** The audio-output multiplier: 2 for every name, realtime or not. */
  function GetAudioCompletionRatio(name: string): (r: real)
    ensures r == 2.0
  {
    if HasPrefix(name, "gpt-4o-realtime") then 2.0 else 2.0
  }
}
