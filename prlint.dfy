/** The pull-request lint run: the three regular-expression tests come in as
    booleans, the comment templates are filled with the patterns' source text,
    a first-match-wins chain picks one of five outcomes, and the run yields the
    review to post together with the cleanup of earlier automation reviews. */
module PrLint {
  import opened Strings
  import Dismissal

  /** Placeholder in a configured comment template, replaced by its pattern's source. */
  const RegexPlaceholder := "%regex%"
  /** Placeholder in the trigger note, replaced by the trigger pattern's source. */
  const TriggerPlaceholder := "%re%"
  const TriggerNote := "The PR title matches the regex: "
  /** Message attached to every dismissal; the source's literal, kept character for character. */
  const PullRequestPassedComment :=
    "\U{F0}\U{178}\U{2018} Pull Request looks good to me! \U{F0}\U{178}\U{2019}\U{AF}"

  /** The two review events the action posts. */
  datatype Event = Approve | RequestChanges

  /** The configured inputs: the pattern sources and the four comment templates. */
  datatype Inputs = Inputs(
    triggerSource: string,
    bodySource: string,
    titleSource: string,
    bodyFailedTemplate: string,
    bodyPassedTemplate: string,
    titleFailedTemplate: string,
    titlePassedTemplate: string)

  /** Results of the three regular-expression tests. */
  datatype Tests = Tests(titleHasTrigger: bool, bodyMatches: bool, titleMatches: bool)

  /** The five branches of the decision chain, in priority order. */
  datatype Outcome =
    | TriggerBodyAndTitleFailed
    | TriggerBodyFailed
    | TitleFailed
    | AllPassed
    | TitlePassed

  /** What the run decides: the branch taken, the review to post, and the message
      for dismissing earlier reviews when cleanup happens at all. */
  datatype Decision = Decision(outcome: Outcome, event: Event, comment: string, dismissMessage: Option<string>)

  /** A review to create on the pull request. */
  datatype ReviewRequest = ReviewRequest(body: string, event: Event)

  /** A template with its first placeholder replaced by the pattern source. */
  function Fill(template: string, source: string): string {
    ReplaceFirst(template, RegexPlaceholder, source)
  }

  function BodyFailedComment(inp: Inputs): string { Fill(inp.bodyFailedTemplate, inp.bodySource) }
  function BodyPassedComment(inp: Inputs): string { Fill(inp.bodyPassedTemplate, inp.bodySource) }
  function TitleFailedComment(inp: Inputs): string { Fill(inp.titleFailedTemplate, inp.titleSource) }
  function TitlePassedComment(inp: Inputs): string { Fill(inp.titlePassedTemplate, inp.titleSource) }

  /** A template whose first placeholder follows a `%`-free prefix becomes that prefix,
      the pattern source and the rest of the template unchanged, so any later
      placeholder is left in place. */
  lemma FillFirstPlaceholder(before: string, after: string, source: string)
    requires '%' !in before
    ensures Fill(before + RegexPlaceholder + after, source) == before + source + after
  {
    ReplaceFirstAfterPrefix(before, RegexPlaceholder, after, source);
  }

  /** A template without a placeholder is used as it is. */
  lemma FillWithoutPlaceholder(template: string, source: string)
    requires Absent(template, RegexPlaceholder)
    ensures Fill(template, source) == template
  {
  }

  /** The comment of a trigger branch: the trigger note, whose first `%re%` is replaced
      by the trigger pattern's source, followed by `tail`. */
  function TriggerComment(inp: Inputs, tail: string): string {
    ReplaceFirst(TriggerNote + TriggerPlaceholder + tail, TriggerPlaceholder, inp.triggerSource)
  }

  /** The `%re%` replaced is the one in the note, so the tail is kept verbatim even
      when the filled comments in it contain `%re%`. */
  lemma TriggerCommentText(inp: Inputs, tail: string)
    ensures TriggerComment(inp, tail) == TriggerNote + inp.triggerSource + tail
  {
    ReplaceFirstAfterPrefix(TriggerNote, TriggerPlaceholder, tail, inp.triggerSource);
  }

  /** The branch table stated condition by condition, each guard complete on its own
      rather than relying on the earlier branches having failed. */
  predicate Selects(o: Outcome, t: Tests) {
    match o
    case TriggerBodyAndTitleFailed => t.titleHasTrigger && !t.bodyMatches && !t.titleMatches
    case TriggerBodyFailed => t.titleHasTrigger && !t.bodyMatches && t.titleMatches
    case TitleFailed => !t.titleMatches && (!t.titleHasTrigger || t.bodyMatches)
    case AllPassed => t.titleHasTrigger && t.bodyMatches && t.titleMatches
    case TitlePassed => !t.titleHasTrigger && t.titleMatches
  }

  /** The decision chain of the run, first matching branch wins. */
  function Decide(inp: Inputs, t: Tests): (d: Decision)
    // exactly one branch is selected for every combination of test results
    ensures forall o :: Selects(o, t) <==> d.outcome == o
    ensures d.event == Approve <==> t.titleMatches && !(t.titleHasTrigger && !t.bodyMatches)
    ensures !t.titleMatches ==> d.event == RequestChanges
    ensures t.titleHasTrigger && !t.bodyMatches ==> d.event == RequestChanges
    // earlier reviews are cleaned up exactly when approving, with the fixed message
    ensures d.dismissMessage == (if d.event == Approve then Some(PullRequestPassedComment) else None)
    ensures d.outcome == TitleFailed ==> d.comment == TitleFailedComment(inp)
    ensures d.outcome == AllPassed ==> d.comment == TitlePassedComment(inp) + "\n\n" + BodyPassedComment(inp)
    ensures d.outcome == TitlePassed ==> d.comment == TitlePassedComment(inp)
  {
    if t.titleHasTrigger && !t.bodyMatches && !t.titleMatches then
      Decision(TriggerBodyAndTitleFailed, RequestChanges,
        TriggerComment(inp, ",\nand " + BodyFailedComment(inp) + "\n\nAlso, " + TitleFailedComment(inp)),
        None)
    else if t.titleHasTrigger && !t.bodyMatches then
      Decision(TriggerBodyFailed, RequestChanges,
        TriggerComment(inp, ",\nand " + BodyFailedComment(inp)),
        None)
    else if !t.titleMatches then
      Decision(TitleFailed, RequestChanges, TitleFailedComment(inp), None)
    else if t.titleHasTrigger && t.bodyMatches && t.titleMatches then
      Decision(AllPassed, Approve, TitlePassedComment(inp) + "\n\n" + BodyPassedComment(inp),
        Some(PullRequestPassedComment))
    else
      Decision(TitlePassed, Approve, TitlePassedComment(inp), Some(PullRequestPassedComment))
  }

  /** When the trigger matches but both the body and the title fail, the comment is the
      trigger note naming the trigger source, then the body-failed comment, then the
      title-failed comment; placeholders inside the filled comments are not touched. */
  lemma TriggerBodyAndTitleFailedComment(inp: Inputs, t: Tests)
    requires t.titleHasTrigger && !t.bodyMatches && !t.titleMatches
    ensures Decide(inp, t).event == RequestChanges
    ensures Decide(inp, t).comment ==
              TriggerNote + inp.triggerSource
              + (",\nand " + BodyFailedComment(inp) + "\n\nAlso, " + TitleFailedComment(inp))
  {
    TriggerCommentText(inp, ",\nand " + BodyFailedComment(inp) + "\n\nAlso, " + TitleFailedComment(inp));
  }

  /** When the trigger matches and the body fails but the title passes, the comment is
      the trigger note naming the trigger source followed by the body-failed comment. */
  lemma TriggerBodyFailedComment(inp: Inputs, t: Tests)
    requires t.titleHasTrigger && !t.bodyMatches && t.titleMatches
    ensures Decide(inp, t).event == RequestChanges
    ensures Decide(inp, t).comment == TriggerNote + inp.triggerSource + (",\nand " + BodyFailedComment(inp))
  {
    TriggerCommentText(inp, ",\nand " + BodyFailedComment(inp));
  }

  /** The first branch also needs a failing title: with a passing title, a matching
      trigger and a failing body take the second branch, whose comment has no
      title-failed part. */
  lemma PassingTitleTakesTriggerBodyFailed(inp: Inputs)
    ensures Decide(inp, Tests(true, false, true)).outcome == TriggerBodyFailed
    ensures Decide(inp, Tests(true, false, true)).comment ==
              TriggerNote + inp.triggerSource + (",\nand " + BodyFailedComment(inp))
  {
    TriggerBodyFailedComment(inp, Tests(true, false, true));
  }

  /** Approval happens only when the title passes and the trigger does not demand a
      body that failed; with the trigger and both tests passing, the praise combines
      both passed comments, otherwise only the title's. */
  lemma ApprovalComment(inp: Inputs, t: Tests)
    requires Decide(inp, t).event == Approve
    ensures t.titleMatches && !(t.titleHasTrigger && !t.bodyMatches)
    ensures Decide(inp, t).comment ==
              if t.titleHasTrigger then TitlePassedComment(inp) + "\n\n" + BodyPassedComment(inp)
              else TitlePassedComment(inp)
  {
    var d := Decide(inp, t);
    assert Selects(d.outcome, t);
  }

  /** The whole run over the reviews the forge would list: exactly one review is
      created, and earlier automation reviews are cleaned up only when approving.
      No order between the cleanup calls and the new review is implied. */
  method Run(inp: Inputs, t: Tests, listed: seq<Dismissal.Review>)
    returns (cleanup: seq<Dismissal.Action>, review: ReviewRequest)
    ensures review.body == Decide(inp, t).comment && review.event == Decide(inp, t).event
    ensures review.event == RequestChanges ==> cleanup == []
    ensures review.event == Approve ==> cleanup == Dismissal.Plan(listed, PullRequestPassedComment)
  {
    var d := Decide(inp, t);
    cleanup := [];
    if d.dismissMessage.Some? {
      cleanup := Dismissal.DismissReviews(listed, d.dismissMessage.value);
    }
    review := ReviewRequest(d.comment, d.event);
  }
}
