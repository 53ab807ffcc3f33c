/**
 * The technical-constraints card (src/components/TechnicalConstraints.tsx): the
 * constraint text is shown as one item per non-empty line
 * (`split('\n').filter(Boolean)`), and a small edit state machine (Refine, typing,
 * Cancel, Save) drives a text area whose content is never written back.
 */
module TechnicalConstraints {

  /**
   * `s.split(sep)` for a one-character separator: the pieces between separators,
   * including empty ones; there is always one more piece than separators.
   */
  function Split(s: string, sep: char): (pieces: seq<string>)
    ensures |pieces| >= 1
    ensures forall i :: 0 <= i < |pieces| ==> sep !in pieces[i]
  {
    if s == [] then [""]
    else
      var rest := Split(s[1..], sep);
      if s[0] == sep then [""] + rest
      else [[s[0]] + rest[0]] + rest[1..]
  }

  /** `pieces.join(sep)`: the pieces with `sep` between neighbours; `[]` joins to "". */
  function Join(pieces: seq<string>, sep: char): string {
    if pieces == [] then ""
    else if |pieces| == 1 then pieces[0]
    else pieces[0] + [sep] + Join(pieces[1..], sep)
  }

  /** `filter(Boolean)` on strings: keep the non-empty ones, in order. */
  function NonEmpty(pieces: seq<string>): (kept: seq<string>)
    ensures forall i :: 0 <= i < |kept| ==> kept[i] != ""
    ensures |kept| <= |pieces|
  {
    if pieces == [] then []
    else if pieces[0] == "" then NonEmpty(pieces[1..])
    else [pieces[0]] + NonEmpty(pieces[1..])
  }

  /** The constraints the card lists for the text `technicalConstraints`. */
  function ParseConstraints(technicalConstraints: string): (constraints: seq<string>)
    ensures forall i :: 0 <= i < |constraints| ==> constraints[i] != ""
    ensures forall i :: 0 <= i < |constraints| ==> '\n' !in constraints[i]
  {
    NonEmptyKeepsProperty(Split(technicalConstraints, '\n'));
    NonEmpty(Split(technicalConstraints, '\n'))
  }

  lemma {:induction false} NonEmptyKeepsProperty(pieces: seq<string>)
    requires forall i :: 0 <= i < |pieces| ==> '\n' !in pieces[i]
    ensures forall i :: 0 <= i < |NonEmpty(pieces)| ==> '\n' !in NonEmpty(pieces)[i]
  {
    if pieces != [] {
      NonEmptyKeepsProperty(pieces[1..]);
    }
  }

  /** Splitting loses nothing: joining the pieces back gives the text. */
  lemma {:induction false} JoinSplit(s: string, sep: char)
    ensures Join(Split(s, sep), sep) == s
  {
    if s != [] {
      JoinSplit(s[1..], sep);
      var rest := Split(s[1..], sep);
      if s[0] == sep {
        assert Split(s, sep) == [""] + rest;
        assert ([""] + rest)[1..] == rest;
        assert Join([""] + rest, sep) == "" + [sep] + Join(rest, sep);
        assert [s[0]] + s[1..] == s;
      } else {
        var pieces := Split(s, sep);
        assert pieces[0] == [s[0]] + rest[0];
        if |rest| == 1 {
          assert pieces == [[s[0]] + rest[0]];
          assert [s[0]] + s[1..] == s;
        } else {
          assert pieces[1..] == rest[1..];
          assert Join(rest, sep) == rest[0] + [sep] + Join(rest[1..], sep);
          assert [s[0]] + s[1..] == s;
        }
      }
    }
  }

  /** Text made of separator-free pieces splits back into exactly those pieces. */
  lemma {:induction false} SplitJoin(pieces: seq<string>, sep: char)
    requires |pieces| >= 1
    requires forall i :: 0 <= i < |pieces| ==> sep !in pieces[i]
    ensures Split(Join(pieces, sep), sep) == pieces
  {
    if |pieces| == 1 {
      SplitFree(pieces[0], sep);
    } else {
      SplitJoin(pieces[1..], sep);
      SplitPrefix(pieces[0], Join(pieces[1..], sep), sep);
      assert pieces[0] + [sep] + Join(pieces[1..], sep) == pieces[0] + ([sep] + Join(pieces[1..], sep));
    }
  }

  /** A string without the separator is a single piece. */
  lemma {:induction false} SplitFree(s: string, sep: char)
    requires sep !in s
    ensures Split(s, sep) == [s]
  {
    if s != [] {
      SplitFree(s[1..], sep);
      assert [s[0]] + s[1..] == s;
    }
  }

  /** A separator-free head followed by a separator starts a new piece. */
  lemma {:induction false} SplitPrefix(head: string, tail: string, sep: char)
    requires sep !in head
    ensures Split(head + ([sep] + tail), sep) == [head] + Split(tail, sep)
  {
    var s := head + ([sep] + tail);
    if head == [] {
      assert s == [sep] + tail;
      assert s[1..] == tail;
    } else {
      assert s[1..] == head[1..] + ([sep] + tail);
      SplitPrefix(head[1..], tail, sep);
      assert [head[0]] + head[1..] == head;
    }
  }

  lemma {:induction false} NonEmptyOfNonEmpty(pieces: seq<string>)
    requires forall i :: 0 <= i < |pieces| ==> pieces[i] != ""
    ensures NonEmpty(pieces) == pieces
  {
    if pieces != [] {
      NonEmptyOfNonEmpty(pieces[1..]);
    }
  }

  /**
   * Round trip: constraints that are non-empty and free of line breaks, joined with
   * "\n" (as the form stores them), are listed back exactly, in order.
   */
  lemma ParseJoinedConstraints(constraints: seq<string>)
    requires forall i :: 0 <= i < |constraints| ==> constraints[i] != "" && '\n' !in constraints[i]
    ensures ParseConstraints(Join(constraints, '\n')) == constraints
  {
    if constraints == [] {
      assert Split("", '\n') == [""];
    } else {
      SplitJoin(constraints, '\n');
      NonEmptyOfNonEmpty(constraints);
    }
  }

  /**
   * The listed constraints are exactly the non-empty lines of the text: joining the
   * lines gives the text back, and a string is listed if and only if it is a
   * non-empty line.
   */
  lemma ParsedAreLines(technicalConstraints: string)
    ensures Join(Split(technicalConstraints, '\n'), '\n') == technicalConstraints
    ensures forall c :: c in ParseConstraints(technicalConstraints) <==>
      c in Split(technicalConstraints, '\n') && c != ""
  {
    JoinSplit(technicalConstraints, '\n');
    NonEmptySubset(Split(technicalConstraints, '\n'));
    NonEmptyComplete(Split(technicalConstraints, '\n'));
  }

  lemma {:induction false} NonEmptySubset(pieces: seq<string>)
    ensures forall c :: c in NonEmpty(pieces) ==> c in pieces
  {
    if pieces != [] {
      NonEmptySubset(pieces[1..]);
    }
  }

  lemma {:induction false} NonEmptyComplete(pieces: seq<string>)
    ensures forall c :: c in pieces && c != "" ==> c in NonEmpty(pieces)
  {
    if pieces != [] {
      NonEmptyComplete(pieces[1..]);
      assert forall c :: c in pieces ==> c == pieces[0] || c in pieces[1..];
    }
  }

  /**
   * The filter keeps order: the kept lines of a text in two parts are the kept lines
   * of the first part followed by those of the second.
   */
  lemma {:induction false} NonEmptyAppend(a: seq<string>, b: seq<string>)
    ensures NonEmpty(a + b) == NonEmpty(a) + NonEmpty(b)
  {
    if a == [] {
      assert a + b == b;
    } else {
      assert (a + b)[1..] == a[1..] + b;
      NonEmptyAppend(a[1..], b);
    }
  }

  /**
   * In order: the text `head` (without a line break) on its own line before `tail`
   * lists `head` (when non-empty) followed by what `tail` lists.
   */
  lemma ParseLineThenRest(head: string, tail: string)
    requires '\n' !in head
    ensures ParseConstraints(head + "\n" + tail)
         == (if head == "" then [] else [head]) + ParseConstraints(tail)
  {
    assert head + "\n" + tail == head + (['\n'] + tail);
    SplitPrefix(head, tail, '\n');
    NonEmptyAppend([head], Split(tail, '\n'));
    assert NonEmpty([head]) == (if head == "" then [] else [head]) by {
      assert [head][1..] == [];
    }
  }

  /** What the card body shows: the text area while editing, the list otherwise. */
  datatype View = EditingView(text: string) | ListView(constraints: seq<string>)

  /**
   * The card's state: the `technicalConstraints` prop and the two `useState` cells.
   * `editedConstraints` starts as the prop of the first render only.
   */
  class ConstraintsCard {
    var technicalConstraints: string
    var isEditing: bool
    var editedConstraints: string

    constructor (prop: string)
      ensures technicalConstraints == prop && !isEditing && editedConstraints == prop
    {
      technicalConstraints := prop;
      isEditing := false;
      editedConstraints := prop;
    }

    function Display(): View
      reads this
    {
      if isEditing then EditingView(editedConstraints) else ListView(ParseConstraints(technicalConstraints))
    }

    /** The parent re-renders with a new prop; the state cells keep their values. */
    method ReceiveProp(prop: string)
      modifies this`technicalConstraints
      ensures technicalConstraints == prop
    {
      technicalConstraints := prop;
    }

    /** Refine: start editing from the current prop. */
    method Refine()
      modifies this`isEditing, this`editedConstraints
      ensures isEditing && editedConstraints == technicalConstraints
      ensures Display() == EditingView(technicalConstraints)
    {
      isEditing := true;
      editedConstraints := technicalConstraints;
    }

    /** Typing in the text area. */
    method EditText(text: string)
      modifies this`editedConstraints
      ensures editedConstraints == text && isEditing == old(isEditing)
    {
      editedConstraints := text;
    }

    /** Cancel: stop editing and restore the text from the prop. */
    method Cancel()
      modifies this`isEditing, this`editedConstraints
      ensures !isEditing && editedConstraints == technicalConstraints
      ensures Display() == ListView(ParseConstraints(technicalConstraints))
    {
      isEditing := false;
      editedConstraints := technicalConstraints;
    }

    /**
     * Save: only leave editing mode. The edited text is kept but not shown: the list
     * is still parsed from the prop, so it is the list shown before editing.
     */
    method Save()
      modifies this`isEditing
      ensures !isEditing && editedConstraints == old(editedConstraints)
      ensures Display() == ListView(ParseConstraints(technicalConstraints))
    {
      isEditing := false;
    }
  }

  /** Whatever is typed between Refine and Save, the list shown afterwards is unchanged. */
  method RefineEditSave(card: ConstraintsCard, text: string)
    requires !card.isEditing
    modifies card
    ensures card.Display() == old(card.Display())
    ensures card.editedConstraints == text
  {
    card.Refine();
    card.EditText(text);
    card.Save();
  }
}
