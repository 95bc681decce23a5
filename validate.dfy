/** Normalisation of the request's topic text and mode. */
module Validate {
  import opened Wrappers
  import opened Strings
  import opened Json

  const MaxTopicLength: nat := 200

  /** `String(str).trim().slice(0, 200)`: a prefix of the trimmed input, at
      most 200 characters, and the whole trimmed input when that fits. */
  function SanitizeInput(s: string): (r: string)
    ensures |r| <= MaxTopicLength
    ensures |r| <= |Trim(s)| && r == Trim(s)[..|r|]
    ensures |Trim(s)| <= MaxTopicLength ==> r == Trim(s)
    ensures |Trim(s)| > MaxTopicLength ==> |r| == MaxTopicLength
  {
    Take(Trim(s), MaxTopicLength)
  }

  /** A topic with some non-blank text keeps it: the sanitised topic is not
      empty and does not start with white space (it may end with white space
      when the 200-character cut falls inside the text). */
  lemma SanitizeKeepsText(s: string)
    requires Trim(s) != ""
    ensures SanitizeInput(s) != ""
    ensures !IsSpace(SanitizeInput(s)[0])
  {
  }

  /** The request modes. */
  datatype Mode = Normal | Math

  /** The mode as it appears in the payload. */
  function ModeName(m: Mode): (r: string)
    ensures r == "math" || r == "normal"
    ensures r == "math" <==> m == Math
  {
    if m == Math then "math" else "normal"
  }

  /** `mode === 'math' ? 'math' : 'normal'`, for a request field that may be
      absent (`None`) or any JSON value. */
  function NormalizeMode(raw: Option<Json>): (m: Mode)
    ensures m == Math <==> raw == Some(JString("math"))
  {
    if raw == Some(JString("math")) then Math else Normal
  }

  /** Normalising the name of a normalised mode gives the same mode. */
  lemma NormalizeModeIdempotent(raw: Option<Json>)
    ensures NormalizeMode(Some(JString(ModeName(NormalizeMode(raw))))) == NormalizeMode(raw)
  {
  }
}
