/** Terminal styling of printed text, abstracted from the escape codes the
    styling library emits. A piece of output is a sequence of segments, each
    with a colour and a bold flag; when styling is disabled process-wide a
    segment prints as its text alone, so the output is the concatenation of
    the texts. */
module Paint {

  datatype Color = Unstyled | White | Blue | Purple | Red | Yellow

  datatype Segment = Segment(color: Color, bold: bool, text: string)

  /** Text printed by a format string itself, outside any styled value. */
  function Plain(text: string): Segment {
    Segment(Unstyled, false, text)
  }

  function Styled(color: Color, text: string): Segment {
    Segment(color, false, text)
  }

  function StyledBold(color: Color, text: string): Segment {
    Segment(color, true, text)
  }

  /** The bytes written when styling is disabled: every segment's text, in
      order, with nothing added or removed. */
  function Strip(segs: seq<Segment>): (out: string)
    ensures out == [] <==> forall i | 0 <= i < |segs| :: segs[i].text == []
    decreases |segs|
  {
    if segs == [] then []
    else Strip(segs[..|segs| - 1]) + segs[|segs| - 1].text
  }

  /** Stripping distributes over successive prints. */
  lemma {:induction false} StripAppend(a: seq<Segment>, b: seq<Segment>)
    ensures Strip(a + b) == Strip(a) + Strip(b)
    decreases |b|
  {
    if b != [] {
      var b' := b[..|b| - 1];
      assert (a + b)[..|a + b| - 1] == a + b';
      StripAppend(a, b');
    } else {
      assert a + b == a;
    }
  }

  lemma StripSingle(s: Segment)
    ensures Strip([s]) == s.text
  {
    assert [s][..0] == [];
  }

  /** Stripping a print that starts with one segment. */
  lemma StripCons(s: Segment, rest: seq<Segment>)
    ensures Strip([s] + rest) == s.text + Strip(rest)
  {
    StripAppend([s], rest);
    StripSingle(s);
  }
}
