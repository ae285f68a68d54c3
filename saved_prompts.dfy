/** The `saved_prompts` history records both the chat box and the
    enhance-prompt route write, and the title rule they share. */
module SavedPrompts {
  import opened Js

  /** How many characters of the prompt a history title keeps. */
  const TitleLength: nat := 50

  /** What is appended to a title that was cut short. */
  const Ellipsis: string := "..."

  /** `prompt.substring(0, 50) + (prompt.length > 50 ? "..." : "")`: the
      title opens with the prompt's first 50 characters (all of them when it
      is shorter), it is the prompt itself when that fits, and it goes past
      50 characters, by exactly the ellipsis, only when the prompt does. */
  function Title(prompt: string): (t: string)
    ensures |prompt| <= TitleLength ==> t == prompt
    ensures |prompt| > TitleLength ==>
              |t| == TitleLength + |Ellipsis| && t[..TitleLength] == prompt[..TitleLength]
              && t[TitleLength..] == Ellipsis
    ensures |t| > TitleLength <==> |prompt| > TitleLength
  {
    Prefix(prompt, TitleLength) + (if |prompt| > TitleLength then Ellipsis else "")
  }

  /** A title is already its own title: shortening it again changes nothing. */
  lemma TitleIdempotent(prompt: string)
    ensures Title(Title(prompt)) == Title(prompt)
  {
    var t := Title(prompt);
    if |prompt| > TitleLength {
      assert t[..TitleLength] + Ellipsis == t;
    }
  }

  /** One row of `saved_prompts`: the chat box stores no enhanced text, the
      route does. */
  datatype HistoryEntry = HistoryEntry(prompt: string, enhancedPrompt: Option<string>, title: string)
}
