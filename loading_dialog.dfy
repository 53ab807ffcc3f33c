/**
 * The loading dialog (src/components/LoadingDialog.tsx): while open, an interval
 * advances `messageIndex` by one modulo the number of messages, and the dialog
 * shows the message at that index.
 */
module LoadingDialog {

  datatype Icon = Bot | Ghost | Brain | Laugh

  datatype FunnyMessage = FunnyMessage(text: string, icon: Icon)

  const FunnyMessages: seq<FunnyMessage> := [
    FunnyMessage("Teaching AI to count on its digital fingers...", Bot),
    FunnyMessage("Consulting with our ghost developers...", Ghost),
    FunnyMessage("Processing with our quantum abacus...", Brain),
    FunnyMessage("Negotiating hours with our AI team...", Laugh)
  ]

  /** `(prev + 1) % funnyMessages.length`; JavaScript's `%` agrees with Dafny's on non-negative operands. */
  function NextIndex(prev: nat): (next: nat)
    ensures next < |FunnyMessages|
    ensures prev < |FunnyMessages| - 1 ==> next == prev + 1
    ensures prev == |FunnyMessages| - 1 ==> next == 0
  {
    (prev + 1) % |FunnyMessages|
  }

  /** The index after `steps` interval ticks from `start`. */
  function Advance(start: nat, steps: nat): nat {
    if steps == 0 then start else NextIndex(Advance(start, steps - 1))
  }

  /** After any number of ticks from a valid index the index is `(start + steps) % 4`, hence in bounds. */
  lemma {:induction false} AdvanceIsModular(start: nat, steps: nat)
    requires start < |FunnyMessages|
    ensures Advance(start, steps) == (start + steps) % |FunnyMessages|
    ensures Advance(start, steps) < |FunnyMessages|
  {
    if steps > 0 {
      AdvanceIsModular(start, steps - 1);
      var k := |FunnyMessages|;
      var m := (start + steps - 1) % k;
      assert (m + 1) % k == (start + steps) % k by {
        assert start + steps - 1 == k * ((start + steps - 1) / k) + m;
      }
    }
  }

  /** Four ticks bring the index back to where it was. */
  lemma FourTicksCycle(start: nat)
    requires start < |FunnyMessages|
    ensures Advance(start, 4) == start
  {
    AdvanceIsModular(start, 4);
  }

  class LoadingDialogState {
    var open: bool
    var messageIndex: nat

    ghost predicate Valid()
      reads this
    {
      messageIndex < |FunnyMessages|
    }

    /** `useState(0)`. */
    constructor (open: bool)
      ensures Valid() && this.open == open && messageIndex == 0
    {
      this.open := open;
      messageIndex := 0;
    }

    /** The `open` prop changes; the interval starts or is cleared, the index stays. */
    method SetOpen(open: bool)
      modifies this`open
      ensures this.open == open
    {
      this.open := open;
    }

    /** One interval tick: only an open dialog has an interval running. */
    method Tick()
      requires Valid()
      modifies this`messageIndex
      ensures Valid()
      ensures messageIndex == if open then NextIndex(old(messageIndex)) else old(messageIndex)
    {
      if open {
        messageIndex := (messageIndex + 1) % |FunnyMessages|;
      }
    }

    /** `funnyMessages[messageIndex]`: always a valid lookup. */
    function CurrentMessage(): (m: FunnyMessage)
      requires Valid()
      reads this
      ensures m in FunnyMessages
    {
      FunnyMessages[messageIndex]
    }
  }
}
