/** The diffusion prompts: what the user typed, or what Whisper heard, followed by
    a fixed style suffix that steers the model towards a flat sticker on a white
    backdrop. The two flows use different suffixes. */
module Prompts {

  const TextStyle := ", cute cartoon sticker, bold outlines, colorful vector art, white background"
  const VoiceStyle := ", cartoon style sticker, bold outlines, colorful vector, white background"

  function Styled(subject: string, style: string): (prompt: string)
    ensures |prompt| == |subject| + |style|
    ensures prompt[..|subject|] == subject && prompt[|subject|..] == style
  {
    subject + style
  }

  /** The prompt of the text flow. */
  function TextPrompt(text: string): (prompt: string)
    ensures |prompt| == |text| + |TextStyle|
    ensures prompt[..|text|] == text && prompt[|text|..] == TextStyle
  {
    Styled(text, TextStyle)
  }

  /** The prompt of the voice flow, built from the transcription. */
  function VoicePrompt(transcription: string): (prompt: string)
    ensures |prompt| == |transcription| + |VoiceStyle|
    ensures prompt[..|transcription|] == transcription && prompt[|transcription|..] == VoiceStyle
  {
    Styled(transcription, VoiceStyle)
  }

  /** Removes a style suffix, when the string ends with it. */
  function Unstyled(prompt: string, style: string): (subject: Option<string>)
    ensures subject.Some? ==> Styled(subject.value, style) == prompt
  {
    if |style| <= |prompt| && prompt[|prompt| - |style|..] == style
    then Some(prompt[..|prompt| - |style|])
    else None
  }

  datatype Option<+T> = None | Some(value: T)

  /** The user's text is recovered verbatim from the prompt. */
  lemma PromptRoundTrip(subject: string, style: string)
    ensures Unstyled(Styled(subject, style), style) == Some(subject)
  {
  }

  /** A text prompt and a voice prompt are never the same string, whatever the
      user said or typed: the suffixes differ at the character just before
      ", white background" ('t' of "art" against 'r' of "vector"). */
  lemma TextAndVoicePromptsDiffer(text: string, transcription: string)
    ensures TextPrompt(text) != VoicePrompt(transcription)
  {
    var t, v := TextPrompt(text), VoicePrompt(transcription);
    var tail := |", white background"|;
    assert t[|t| - tail - 1] == TextStyle[|TextStyle| - tail - 1] == 't';
    assert v[|v| - tail - 1] == VoiceStyle[|VoiceStyle| - tail - 1] == 'r';
  }
}
