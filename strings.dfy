/** Facts about building strings by concatenation, shared by the text-producing models. */
module Strings {

  /** The concatenation of `parts`, first part first. */
  function Concat(parts: seq<string>): string {
    if parts == [] then "" else parts[0] + Concat(parts[1..])
  }

  /** The text of the items of `xs` rendered one after another, item `i` by `render(i, xs[i])`. */
  function RenderAll<T>(xs: seq<T>, render: (nat, T) -> string): string {
    Concat(seq(|xs|, i requires 0 <= i < |xs| => render(i, xs[i])))
  }

  lemma {:induction false} ConcatSnoc(parts: seq<string>, last: string)
    ensures Concat(parts + [last]) == Concat(parts) + last
  {
    if parts != [] {
      assert (parts + [last])[1..] == parts[1..] + [last];
      ConcatSnoc(parts[1..], last);
      AppendAssoc(parts[0], Concat(parts[1..]), last);
    }
  }

  /** Rendering one more item appends its text to what the earlier items gave. */
  lemma RenderAllSnoc<T>(xs: seq<T>, render: (nat, T) -> string, k: nat)
    requires k < |xs|
    ensures RenderAll(xs[..k + 1], render) == RenderAll(xs[..k], render) + render(k, xs[k])
  {
    var longer := xs[..k + 1];
    var shorter := xs[..k];
    var parts := seq(|shorter|, i requires 0 <= i < |shorter| => render(i, shorter[i]));
    assert seq(|longer|, i requires 0 <= i < |longer| => render(i, longer[i])) == parts + [render(k, xs[k])];
    ConcatSnoc(parts, render(k, xs[k]));
  }

  lemma AppendAssoc(a: string, b: string, c: string)
    ensures a + b + c == a + (b + c)
  {
  }

  lemma AppendAssoc3(a: string, b: string, c: string, d: string)
    ensures a + b + c + d == a + (b + c + d)
  {
  }

  lemma PrefixOfAppend(a: string, b: string)
    ensures |a| <= |a + b| && (a + b)[..|a|] == a
  {
  }

  lemma SuffixOfAppend(a: string, b: string)
    ensures |b| <= |a + b| && (a + b)[|a + b| - |b|..] == b
  {
  }
}
