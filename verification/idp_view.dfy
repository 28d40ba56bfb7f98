/**
 * The output card of the IDP generator section: which panel it shows for a
 * given action state, whether the error alert is shown, and how the plan
 * text is turned into paragraphs (one per line, the first `**`-delimited
 * segment of a line in bold).
 */
module IdpView {
  import opened Wrappers
  import Text
  import IdpAction

  const BoldMarker := "**"

  /** A rendered line: verbatim text, or a bold segment followed by plain text. */
  datatype Paragraph = Verbatim(text: string) | Emphasised(bold: string, after: string)

  /** What the card body shows. */
  datatype Panel = Plan(paragraphs: seq<Paragraph>) | Placeholder

  /** The state the section starts in, before the form is submitted. */
  const InitialState := IdpAction.State(false, "", None)

  /**
   * One line of the plan. A line containing `**` is split on it and shows
   * `parts[1]` in bold followed by `parts[2]` (nothing when there is no
   * third part); any other line is shown as it is.
   */
  function RenderLine(line: string): Paragraph {
    if Text.Contains(line, BoldMarker) then
      var parts := Text.Split(line, BoldMarker);
      Text.ContainsIffSeveralPieces(line, BoldMarker);
      Emphasised(parts[1], if |parts| > 2 then parts[2] else "")
    else Verbatim(line)
  }

  /** The plan text split on line breaks, each line rendered in order. */
  function RenderPlan(idp: string): (paragraphs: seq<Paragraph>) {
    var lines := Text.Split(idp, "\n");
    seq(|lines|, i requires 0 <= i < |lines| => RenderLine(lines[i]))
  }

  /** The card shows the plan only after a success that carries data, the placeholder otherwise. */
  function ShownPanel(state: IdpAction.State): Panel {
    if state.success && state.data.Some? then Plan(RenderPlan(state.data.value.idp)) else Placeholder
  }

  /** The error alert and its text, shown after a failure with a non-empty message. */
  function ShownAlert(state: IdpAction.State): Option<string> {
    if !state.success && state.message != "" then Some(state.message) else None
  }

  /**
   * There is one paragraph per line, in order: as many as there are line
   * breaks plus one, and the lines they come from are the plan text's
   * lines, none holding a line break, that join back into the text.
   */
  lemma PlanParagraphs(idp: string)
    ensures var lines := Text.Split(idp, "\n");
            |RenderPlan(idp)| == multiset(idp)['\n'] + 1
            && |RenderPlan(idp)| == |lines|
            && Text.Join(lines, "\n") == idp
            && forall i :: 0 <= i < |lines| ==>
                 RenderPlan(idp)[i] == RenderLine(lines[i]) && '\n' !in lines[i]
  {
    var lines := Text.Split(idp, "\n");
    Text.SplitCount(idp, '\n');
    Text.SplitJoin(idp, "\n");
    Text.SplitPiecesFree(idp, "\n");
    forall i | 0 <= i < |lines| ensures '\n' !in lines[i] {
      if '\n' in lines[i] {
        var k :| 0 <= k < |lines[i]| && lines[i][k] == '\n';
        ContainsChar(lines[i], k);
        assert false;
      }
    }
  }

  /** A line holding a line break at position `k` contains the one-character text "\n". */
  lemma {:induction false} ContainsChar(s: string, k: nat)
    requires k < |s| && s[k] == '\n'
    ensures Text.Contains(s, "\n")
    decreases k
  {
    if k > 0 {
      ContainsChar(s[1..], k - 1);
    } else {
      assert s[..1] == "\n";
    }
  }

  /** A line without `**` is shown verbatim. */
  lemma PlainLineVerbatim(line: string)
    requires !Text.Contains(line, BoldMarker)
    ensures RenderLine(line) == Verbatim(line)
  {
  }

  /**
   * How `line` is laid out around the markers: a prefix, the marker, the bold
   * segment, and either the end of the line, or the marker, the trailing
   * segment and a dropped rest that is empty or starts with the marker.
   */
  predicate Arrangement(line: string, pre: string, bold: string, after: string, dropped: string) {
    (line == pre + BoldMarker + bold && after == "" && dropped == "")
    || (line == pre + BoldMarker + bold + BoldMarker + after + dropped
        && (dropped == "" || Text.StartsWith(dropped, BoldMarker)))
  }

  /**
   * The arrangement `split` finds, matching markers from the left without
   * overlap: each marker is the first one to start after the segment before
   * it, so no marker starts inside that segment, not even one whose second
   * star is the first star of the marker that follows (in `"**a***b"` the
   * bold segment is `"a"`, not `"a*"`).
   */
  predicate Layout(line: string, pre: string, bold: string, after: string, dropped: string) {
    !Text.Contains(pre + "*", BoldMarker)
    && ((line == pre + BoldMarker + bold && after == "" && dropped == "")
        || (line == pre + BoldMarker + bold + BoldMarker + after + dropped
            && !Text.Contains(bold + "*", BoldMarker)
            && (dropped == ""
                || (Text.StartsWith(dropped, BoldMarker) && !Text.Contains(after + "*", BoldMarker)))))
  }

  /** What follows the third piece of a split line, markers included. */
  function DroppedRest(parts: seq<string>): string
    requires |parts| >= 2
  {
    if |parts| <= 3 then "" else BoldMarker + Text.Join(parts[3..], BoldMarker)
  }

  /** Joining the pieces of a line lays them out around the first two markers. */
  lemma JoinedLayout(parts: seq<string>)
    requires |parts| >= 2
    ensures Arrangement(Text.Join(parts, BoldMarker), parts[0], parts[1],
                   if |parts| > 2 then parts[2] else "", DroppedRest(parts))
  {
    var m := BoldMarker;
    var line := Text.Join(parts, m);
    assert line == parts[0] + m + Text.Join(parts[1..], m);
    if |parts| == 2 {
      assert Text.Join(parts[1..], m) == parts[1];
    } else {
      var dropped := DroppedRest(parts);
      assert parts[1..][1..] == parts[2..];
      assert Text.Join(parts[1..], m) == parts[1] + m + Text.Join(parts[2..], m);
      JoinThird(parts);
      Associate(parts[0], m, parts[1], parts[2], dropped);
      assert line == parts[0] + m + parts[1] + m + parts[2] + dropped;
      assert dropped != "" ==> dropped[..|m|] == m;
    }
  }

  /** The pieces from the third on join into the third piece and the dropped rest. */
  lemma JoinThird(parts: seq<string>)
    requires |parts| >= 3
    ensures Text.Join(parts[2..], BoldMarker) == parts[2] + DroppedRest(parts)
  {
    var m := BoldMarker;
    if |parts| > 3 {
      assert parts[2..][1..] == parts[3..];
      assert Text.Join(parts[2..], m) == parts[2] + m + Text.Join(parts[3..], m);
    }
  }

  /** Regrouping the concatenation of a split line. */
  lemma Associate(a: string, m: string, b: string, c: string, d: string)
    ensures a + m + (b + m + (c + d)) == a + m + b + m + c + d
  {
  }

  /**
   * A line containing `**` shows in bold the segment between its first and
   * second marker (all of the rest when there is only one marker), then the
   * segment between the second and third; what comes before the first marker
   * and from the third marker on is not shown. Markers are the leftmost
   * non-overlapping occurrences of `**`.
   */
  lemma EmphasisedLine(line: string)
    requires Text.Contains(line, BoldMarker)
    ensures RenderLine(line).Emphasised?
    ensures !Text.Contains(RenderLine(line).bold, BoldMarker)
    ensures !Text.Contains(RenderLine(line).after, BoldMarker)
    ensures exists pre: string, dropped: string ::
              !Text.Contains(pre, BoldMarker)
              && Layout(line, pre, RenderLine(line).bold, RenderLine(line).after, dropped)
  {
    var parts := Text.Split(line, BoldMarker);
    Text.ContainsIffSeveralPieces(line, BoldMarker);
    Text.SplitJoin(line, BoldMarker);
    Text.SplitPiecesFree(line, BoldMarker);
    assert !Text.Contains("", BoldMarker);
    Text.SplitLeftmost(line, BoldMarker);
    assert BoldMarker[..|BoldMarker| - 1] == "*";
    JoinedLayout(parts);
    assert !Text.Contains(parts[0], BoldMarker);
    assert Layout(line, parts[0], RenderLine(line).bold, RenderLine(line).after, DroppedRest(parts));
  }

  /**
   * Where asterisks run three deep, `split` takes the first two as the
   * marker: `"**a***b"` shows `"a"` in bold followed by `"*b"`, and the
   * layout that would put `"a*"` in bold is not a leftmost one.
   */
  lemma OverlappingMarkers()
    ensures RenderLine("**a***b") == Emphasised("a", "*b")
    ensures !Layout("**a***b", "", "a*", "b", "")
  {
    var line := "**a***b";
    var t := "a***b";
    assert Text.StartsWith(line, BoldMarker) && line[2..] == t;
    assert t[..2][0] == 'a' && t[1..] == "***b";
    assert Text.StartsWith(t[1..], BoldMarker) && t[1..][2..] == "*b";
    assert "*b"[..2][1] == 'b' && "*b"[1..] == "b" && "b"[1..] == "";
    assert Text.Split("", BoldMarker) == [""];
    assert "b"[0] == 'b' && ['b'] + "" == "b";
    assert Text.Split("b", BoldMarker) == ["b"];
    assert "*b"[0] == '*' && ['*'] + "b" == "*b";
    assert Text.Split("*b", BoldMarker) == ["*b"];
    assert Text.Split("***b", BoldMarker) == ["", "*b"];
    assert t[0] == 'a' && ['a'] + "" == "a";
    assert Text.Split(t, BoldMarker) == ["a", "*b"];
    assert Text.Split(line, BoldMarker) == ["", "a", "*b"];
    var wrong := "a*" + "*";
    assert wrong[1..] == BoldMarker && Text.StartsWith(wrong[1..], BoldMarker);
    assert Text.Contains(wrong, BoldMarker);
  }

  /** The initial state shows neither a plan nor an alert. */
  lemma InitialShowsNothing()
    ensures ShownPanel(InitialState) == Placeholder
    ensures ShownAlert(InitialState) == None
  {
  }

  /**
   * After any reply of the action the card shows exactly one of the plan and
   * the alert: the plan, a non-empty text, after a success; the alert with
   * the action's message after a failure.
   */
  lemma ReplyShowsPlanOrAlert(prevState: IdpAction.State, form: IdpAction.IdpForm,
                              generate: IdpAction.IdpInput -> IdpAction.GeneratorOutcome)
    ensures var state := IdpAction.HandleGenerateIdp(prevState, form, generate).state;
            (ShownPanel(state).Plan? <==> state.success)
            && (ShownAlert(state) == if state.success then None else Some(state.message))
            && (state.success ==> state.data.Some? && state.data.value.idp != "")
  {
  }
}
