/**
 * src/components/ChatWindow.jsx: which stored messages are shown, which of
 * them carry a regenerate control and the index that control reports, and the
 * typing indicator's dot cycle.
 */
module ChatWindow {
  import opened Records
  import opened Constants
  import opened Seqs
  import opened Text

  /** The text every character-introduction message starts with. */
  const INTRO_PREFIX: string := "Role play as, Character Name:"

  /** A message the window takes for the character-introduction prompt. */
  predicate IsIntroPrompt(m: Message) {
    m.role == YOU && m.txt != "" && StartsWith(m.txt, INTRO_PREFIX)
  }

  /**
   * The first displayed index: two past the first introduction prompt, or 0
   * when there is none (every message is shown).
   */
  function StartIndex(messages: seq<Message>): (r: nat)
    ensures r == 0 <==> forall i :: 0 <= i < |messages| ==> !IsIntroPrompt(messages[i])
    ensures r != 0 ==> 2 <= r <= |messages| + 1 && IsIntroPrompt(messages[r - 2])
                       && forall i :: 0 <= i < r - 2 ==> !IsIntroPrompt(messages[i])
  {
    var k := FindIndex(messages, IsIntroPrompt);
    if k != -1 then k + 2 else 0
  }

  /** `messages.slice(startIndex)`: empty when the start lies past the end. */
  function VisibleMessages(messages: seq<Message>): (v: seq<Message>)
    ensures StartIndex(messages) <= |messages| ==> |v| == |messages| - StartIndex(messages)
    ensures StartIndex(messages) > |messages| ==> v == []
    ensures forall i :: 0 <= i < |v| ==> v[i] == messages[i + StartIndex(messages)]
  {
    var start := StartIndex(messages);
    if start <= |messages| then messages[start..] else []
  }

  /** Only assistant messages carry a regenerate control. */
  predicate HasRegenerateControl(m: Message) {
    m.role == AI
  }

  /** The index reported to the page for the i-th displayed message. */
  function RegenerateIndex(messages: seq<Message>, i: nat): int {
    i + StartIndex(messages)
  }

  /**
   * The control on the i-th displayed message reports that very message's
   * index in the stored content, and that index passes the page's range guard;
   * the control is offered exactly on the assistant replies.
   */
  lemma RegenerateTargetsShownMessage(messages: seq<Message>, i: nat)
    requires i < |VisibleMessages(messages)|
    ensures 0 <= RegenerateIndex(messages, i) < |messages|
    ensures messages[RegenerateIndex(messages, i)] == VisibleMessages(messages)[i]
    ensures HasRegenerateControl(VisibleMessages(messages)[i]) <==> messages[RegenerateIndex(messages, i)].role == AI
  {
  }

  /** A chat without an introduction prompt is shown whole. */
  lemma NoIntroShowsAll(messages: seq<Message>)
    requires forall i :: 0 <= i < |messages| ==> !IsIntroPrompt(messages[i])
    ensures VisibleMessages(messages) == messages
  {
  }

  /** Everything up to and including the acknowledgement after the introduction is hidden. */
  lemma IntroAndBeforeHidden(messages: seq<Message>, k: nat)
    requires k < |messages| && IsIntroPrompt(messages[k])
    requires forall i :: 0 <= i < k ==> !IsIntroPrompt(messages[i])
    ensures VisibleMessages(messages) == if k + 2 <= |messages| then messages[k + 2..] else []
  {
    assert StartIndex(messages) != 0;
  }

  /** One tick of the typing indicator: one more dot, wrapping from three back to one. */
  function NextTypingDots(prev: string): (r: string)
    ensures |prev| < 3 ==> r == prev + "."
    ensures |prev| >= 3 ==> r == "."
  {
    if |prev| < 3 then prev + "." else "."
  }

  /** The indicator after `n` ticks from its initial ".". */
  function DotsAfter(n: nat): string {
    if n == 0 then "." else NextTypingDots(DotsAfter(n - 1))
  }

  /** The indicator cycles through ".", "..", "..." with period three. */
  lemma {:induction false} DotsCycle(n: nat)
    ensures |DotsAfter(n)| == n % 3 + 1
    ensures forall i :: 0 <= i < |DotsAfter(n)| ==> DotsAfter(n)[i] == '.'
  {
    if n > 0 {
      DotsCycle(n - 1);
    }
  }
}
