/** The values of src/utils/constants.js that the core reads. */
module Constants {

  /** Message roles as stored in a chat's content. */
  const YOU: string := "you"
  const AI: string := "ai"

  /** Role tags of the generation API's transcript. */
  const USER: string := "user"
  const MODEL: string := "model"

  const DEFAULT_AI_MODEL: string := "gemini-1.5-pro"
  const DEFAULT_OUTPUT_TOKENS: int := 1000

  /** The models offered by the settings page, in display order. */
  const MODELS: seq<string> := [
    "gemini-1.5-pro",
    "gemini-1.5-flash",
    "gemini-1.5-flash-8b",
    "gemini-1.0-pro",
    "gemini-2.0-flash",
    "gemini-2.0-flash-lite",
    "gemini-2.0-pro-exp-02-05",
    "gemini-2.0-flash-exp-image-generation"
  ]

  /** The threshold values the settings page offers (None, Low, Medium, High). */
  const BLOCK_NONE: string := "BLOCK_NONE"
  const BLOCK_LOW_AND_ABOVE: string := "BLOCK_LOW_AND_ABOVE"
  const BLOCK_MEDIUM_AND_ABOVE: string := "BLOCK_MEDIUM_AND_ABOVE"
  const BLOCK_ONLY_HIGH: string := "BLOCK_ONLY_HIGH"

  /** The keys of the safety-settings object. */
  const HARASSMENT: string := "harassment"
  const HATE_SPEECH: string := "hate_speech"
  const SEXUAL: string := "sexual"
  const DANGEROUS: string := "dangerous"

  const DEFAULT_SAFETY_SETTINGS: map<string, string> :=
    map[HARASSMENT := BLOCK_NONE, HATE_SPEECH := BLOCK_NONE, SEXUAL := BLOCK_NONE, DANGEROUS := BLOCK_NONE]
}
