/**
 * The generate handler of the project form (src/components/ProjectInput.tsx,
 * handleGenerate): a blank description is ignored; otherwise the loading flag and
 * the loading-message index are set and the description is recorded in the
 * most-recently-used list of prompts, which keeps at most five entries.
 */
module ProjectInput {

  /** The number of entries the recent-prompts list keeps. */
  const RecentCapacity: nat := 5

  /**
   * The characters `String.prototype.trim` removes: ECMAScript's WhiteSpace
   * (tab, vertical tab, form feed, space, no-break space, byte-order mark and the
   * Unicode space separators) and LineTerminator (LF, CR, U+2028, U+2029).
   */
  predicate IsTrimmable(c: char) {
    c == '\t' || c == '\n' || c == '\U{000B}' || c == '\U{000C}' || c == '\r' || c == ' '
    || c == '\U{00A0}' || c == '\U{1680}' || ('\U{2000}' <= c <= '\U{200A}')
    || c == '\U{2028}' || c == '\U{2029}' || c == '\U{202F}' || c == '\U{205F}'
    || c == '\U{3000}' || c == '\U{FEFF}'
  }

  function TrimStart(s: string): string {
    if s != [] && IsTrimmable(s[0]) then TrimStart(s[1..]) else s
  }

  function TrimEnd(s: string): string {
    if s != [] && IsTrimmable(s[|s| - 1]) then TrimEnd(s[..|s| - 1]) else s
  }

  /** `s.trim()`: the string without its leading and trailing white space. */
  function Trim(s: string): string {
    TrimEnd(TrimStart(s))
  }

  /** `!s.trim()`: the trimmed string is empty, hence falsy. */
  predicate IsBlank(s: string) {
    Trim(s) == ""
  }

  lemma {:induction false} TrimStartEmpty(s: string)
    ensures TrimStart(s) == "" <==> forall i :: 0 <= i < |s| ==> IsTrimmable(s[i])
  {
    if s != [] && IsTrimmable(s[0]) {
      TrimStartEmpty(s[1..]);
      assert forall i :: 1 <= i < |s| ==> s[i] == s[1..][i - 1];
    }
  }

  lemma {:induction false} TrimEndEmpty(s: string)
    ensures TrimEnd(s) == "" <==> forall i :: 0 <= i < |s| ==> IsTrimmable(s[i])
  {
    if s != [] && IsTrimmable(s[|s| - 1]) {
      TrimEndEmpty(s[..|s| - 1]);
    }
  }

  /** The blank-input guard rejects exactly the descriptions made only of white space. */
  lemma BlankIffAllWhiteSpace(s: string)
    ensures IsBlank(s) <==> forall i :: 0 <= i < |s| ==> IsTrimmable(s[i])
  {
    TrimStartEmpty(s);
    TrimEndEmpty(TrimStart(s));
    if TrimStart(s) != "" {
      // A non-empty TrimStart result starts with a character that is kept.
      assert !IsTrimmable(TrimStart(s)[0]) by { TrimStartHead(s); }
    }
  }

  lemma {:induction false} TrimStartHead(s: string)
    requires TrimStart(s) != ""
    ensures !IsTrimmable(TrimStart(s)[0])
  {
    if s != [] && IsTrimmable(s[0]) {
      TrimStartHead(s[1..]);
    }
  }

  /**
   * `recentPrompts.includes(d) ? recentPrompts : [d, ...recentPrompts.slice(0, 4)]`:
   * the list after recording description `d`.
   */
  function RecordPrompt(recent: seq<string>, d: string): (updated: seq<string>)
    ensures d in updated
    ensures d in recent ==> updated == recent
    ensures d !in recent ==> |updated| <= RecentCapacity && updated[0] == d
  {
    if d in recent then recent
    else [d] + recent[..if |recent| < RecentCapacity - 1 then |recent| else RecentCapacity - 1]
  }

  predicate NoDuplicates(s: seq<string>) {
    forall i, j :: 0 <= i < j < |s| ==> s[i] != s[j]
  }

  /**
   * A new description goes to the front; after it come the first four old entries,
   * in their old order; the rest are dropped.
   */
  lemma RecordNewPrompt(recent: seq<string>, d: string)
    requires d !in recent
    ensures var updated := RecordPrompt(recent, d);
      |updated| == 1 + (if |recent| < 4 then |recent| else 4)
      && updated[0] == d
      && forall i :: 1 <= i < |updated| ==> updated[i] == recent[i - 1]
  {
  }

  /** The list never grows beyond five entries. */
  lemma RecordPromptBounded(recent: seq<string>, d: string)
    requires |recent| <= RecentCapacity
    ensures |RecordPrompt(recent, d)| <= RecentCapacity
  {
  }

  /** A list without duplicates stays without duplicates. */
  lemma RecordPromptKeepsDistinct(recent: seq<string>, d: string)
    requires NoDuplicates(recent)
    ensures NoDuplicates(RecordPrompt(recent, d))
  {
    var updated := RecordPrompt(recent, d);
    if d !in recent {
      forall i, j | 0 <= i < j < |updated|
        ensures updated[i] != updated[j]
      {
        if i == 0 {
          assert updated[j] == recent[j - 1];
        } else {
          assert updated[i] == recent[i - 1] && updated[j] == recent[j - 1];
        }
      }
    }
  }

  /**
   * The state handleGenerate reads and writes: the description typed so far, the
   * loading flag, the index of the loading message and the recent prompts.
   */
  class ProjectInputState {
    var projectDescription: string
    var isLoading: bool
    var loadingMessageIndex: int
    var recentPrompts: seq<string>

    /** At most five recent prompts, none twice. */
    ghost predicate Valid()
      reads this
    {
      |recentPrompts| <= RecentCapacity && NoDuplicates(recentPrompts)
    }

    constructor (description: string, recent: seq<string>)
      ensures projectDescription == description && recentPrompts == recent
      ensures !isLoading && loadingMessageIndex == 0
    {
      projectDescription := description;
      isLoading := false;
      loadingMessageIndex := 0;
      recentPrompts := recent;
    }

    /** The description typed into the text area (`onChange`). */
    method SetProjectDescription(d: string)
      modifies this`projectDescription
      ensures projectDescription == d
    {
      projectDescription := d;
    }

    /**
     * handleGenerate up to the simulated call: a blank description changes nothing;
     * otherwise loading starts with message 0 and the description is recorded.
     */
    method HandleGenerate()
      modifies this
      ensures projectDescription == old(projectDescription)
      ensures IsBlank(projectDescription) ==>
        isLoading == old(isLoading) && loadingMessageIndex == old(loadingMessageIndex)
        && recentPrompts == old(recentPrompts)
      ensures !IsBlank(projectDescription) ==>
        isLoading && loadingMessageIndex == 0
        && recentPrompts == RecordPrompt(old(recentPrompts), projectDescription)
        && projectDescription in recentPrompts
      ensures old(Valid()) ==> Valid()
    {
      if IsBlank(projectDescription) {
        return;
      }
      isLoading := true;
      loadingMessageIndex := 0;
      if projectDescription !in recentPrompts {
        recentPrompts := RecordPrompt(recentPrompts, projectDescription);
      }
      if old(Valid()) {
        RecordPromptKeepsDistinct(old(recentPrompts), projectDescription);
      }
    }
  }
}
