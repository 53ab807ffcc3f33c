/**
 * The recent-prompts card (src/components/RecentPrompts.tsx): nothing is rendered
 * for an empty list; otherwise one button per saved prompt, labelled with the
 * description cut to 100 characters plus "..." when longer, and selecting a
 * button hands back the full description.
 */
module RecentPrompts {
  import opened Wrappers

  /** A saved prompt record as the card receives it. */
  datatype PromptRecord = PromptRecord(id: string, description: string, createdAt: string)

  /** One rendered button: its label and the description its click passes on. */
  datatype PromptButton = PromptButton(key: string, text: string, selects: string)

  const LabelLimit: nat := 100
  const Ellipsis: string := "..."

  /** The button label for `description`. */
  function Label(description: string): (shown: string)
    ensures |description| <= LabelLimit ==> shown == description
    ensures |description| > LabelLimit ==>
      |shown| == LabelLimit + |Ellipsis|
      && shown[..LabelLimit] == description[..LabelLimit]
      && shown[LabelLimit..] == Ellipsis
  {
    if |description| > LabelLimit then description[..LabelLimit] + Ellipsis else description
  }

  /** Every label is at most 103 characters and starts with the description's first min(100, length) characters. */
  lemma LabelBounds(description: string)
    ensures |Label(description)| <= LabelLimit + |Ellipsis|
    ensures var n := if |description| < LabelLimit then |description| else LabelLimit;
      n <= |Label(description)| && Label(description)[..n] == description[..n]
  {
  }

  function Button(prompt: PromptRecord): PromptButton {
    PromptButton(prompt.id, Label(prompt.description), prompt.description)
  }

  /** The card: `None` (renders nothing) for no prompts, else one button per prompt in order. */
  function RenderRecentPrompts(prompts: seq<PromptRecord>): (card: Option<seq<PromptButton>>)
    ensures card.None? <==> prompts == []
    ensures card.Some? ==>
      |card.value| == |prompts|
      && forall i :: 0 <= i < |prompts| ==>
           card.value[i].selects == prompts[i].description
           && card.value[i].text == Label(prompts[i].description)
           && card.value[i].key == prompts[i].id
  {
    if |prompts| == 0 then None
    else Some(seq(|prompts|, i requires 0 <= i < |prompts| => Button(prompts[i])))
  }
}
