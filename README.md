# pr-lint-action in Dafny

A model of the GitHub Action that lints a pull request. It tests the pull
request's title and body against configured regular expressions. It then posts
one review: an approval, or a request for changes.

The model has three modules:

- `Strings` (`strings.dfy`): the first-occurrence string replacement that
  JavaScript's `String.prototype.replace` performs with a plain-string pattern.
  The search is `IndexFrom` and the replacement is `ReplaceFirst`.
- `PrLint` (`prlint.dfy`): the decision chain of `run`, the templating, and
  `Run`. `Decide` is a total pure function over three test results (the
  trigger pattern on the title, the body pattern on the body, the title
  pattern on the title). It yields one of five outcomes, each with a review
  event, a review comment and an optional dismissal message. The four comment
  templates have their first `%regex%` replaced by their pattern's source
  text. The trigger branches build a composite comment whose first `%re%` is
  replaced by the trigger pattern's source. `Run` yields the review to create
  and the cleanup actions over a given review listing.
- `Dismissal` (`dismissal.dfy`): what `dismissReviews` does. The method
  `DismissReviews` walks the listed reviews in order and emits one action per
  review of `github-actions[bot]`: `Dismiss(id, message)` when the review
  state is `CHANGES_REQUESTED`, `DeletePending(id)` when it is `PENDING`, and
  nothing otherwise. It is proved equal to `Plan`, a filter (`Selected`)
  followed by a map (`Actions`).

The regular-expression engine is not modelled. Its three results are
inputs (`Tests`), and so are the patterns' `.source` strings (`Inputs`).

Branch 1 (src/index.ts:100) also requires the title to fail. So a matching
trigger, a failing body and a passing title take branch 2
(`TriggerBodyFailed`): the trigger note and the body-failed comment, without
the title-failed part (`PrLint.PassingTitleTakesTriggerBodyFailed`).

## Model

| member | source | states |
|---|---|---|
| Strings.IndexFrom | src/index.ts:78-80 | the position found is an occurrence of the pattern, and no earlier position at or after the start holds one; none is found only when no occurrence exists there |
| Strings.ReplaceFirst | src/index.ts:78-92 | an absent pattern leaves the string unchanged; otherwise only the leftmost occurrence is replaced, and the text before and after it is kept |
| Strings.ReplaceFirstAfterPrefix | src/index.ts:107-110 | when the text before an occurrence has no character that starts the pattern, that occurrence is replaced and the rest, including later occurrences, is kept verbatim |
| Strings.LaterOccurrenceSurvives | src/index.ts:78-92 | an occurrence of the pattern after the first one is still present in the result, shifted by the replacement's length difference |
| PrLint.FillFirstPlaceholder | src/index.ts:78-92 | a template's first `%regex%` after a `%`-free prefix becomes the pattern source, and a later `%regex%` stays |
| PrLint.FillWithoutPlaceholder | src/index.ts:78-92 | a template without `%regex%` is used unchanged |
| PrLint.Decide | src/index.ts:96-145 | exactly one of the five branches is selected for every combination of test results, each branch by its own guard; approval happens iff the title passes and not (trigger matches and body fails); a failing title, or a matching trigger with a failing body, always requests changes; the dismissal message is present exactly when approving and is the fixed passed message; the comments of the title-failed, all-passed and title-passed branches |
| PrLint.TriggerCommentText | src/index.ts:107-110 | the trigger note's `%re%` is the one replaced by the trigger source, and the text after the note is kept verbatim even when it contains `%re%` |
| PrLint.TriggerBodyAndTitleFailedComment | src/index.ts:100-111 | trigger matches, body and title fail: request changes, with the comment `The PR title matches the regex: ` + trigger source + `,\nand ` + body-failed comment + `\n\nAlso, ` + title-failed comment |
| PrLint.TriggerBodyFailedComment | src/index.ts:112-122 | trigger matches, body fails, title passes: request changes, with the comment `The PR title matches the regex: ` + trigger source + `,\nand ` + body-failed comment |
| PrLint.PassingTitleTakesTriggerBodyFailed | src/index.ts:100-122 | a matching trigger with a failing body and a passing title takes the second branch, not the first: request changes with the trigger note and the body-failed comment only |
| PrLint.ApprovalComment | src/index.ts:129-145 | an approval implies the title passed and not (trigger matched and body failed); its comment is title-passed + `\n\n` + body-passed when the trigger matched, otherwise title-passed alone |
| PrLint.Run | src/index.ts:94-145 | exactly one review is created, carrying the decided comment and event; a request for changes does no cleanup; an approval first plans the cleanup of the listed reviews with the fixed passed message |
| Dismissal.ActionOf | src/index.ts:40-58 | a qualifying review gives a call on its own id: a dismissal with the given message iff the state is `CHANGES_REQUESTED`, otherwise a deletion |
| Dismissal.Selected | src/index.ts:34-40 | the selected reviews are listed reviews of `github-actions[bot]` in state `CHANGES_REQUESTED` or `PENDING`, and there are no more of them than listed reviews |
| Dismissal.SelectedComplete | src/index.ts:34-59 | every listed review of `github-actions[bot]` in state `CHANGES_REQUESTED` or `PENDING` is selected, so it gets an action |
| Dismissal.Actions | src/index.ts:34-61 | one action per selected review, the k-th action belonging to the k-th review |
| Dismissal.SelectedAppend | src/index.ts:34 | selection distributes over concatenation of listings, so it preserves listing order |
| Dismissal.ActionsAppend | src/index.ts:34 | actions of a concatenation are the concatenation of the actions |
| Dismissal.PlanAppend | src/index.ts:34-61 | the plan of a concatenated listing is the concatenation of the plans: each review is handled on its own, in listing order |
| Dismissal.PlanSingle | src/index.ts:38-59 | one bot review in state `CHANGES_REQUESTED` gives `[Dismiss(id, message)]`, one in state `PENDING` gives `[DeletePending(id)]`, and any other review gives nothing |
| Dismissal.ForeignReviewIgnored | src/index.ts:38 | inserting a review by a different author anywhere in the listing does not change the plan |
| Dismissal.PlanTouchesOnlyBotReviews | src/index.ts:38-59 | every planned action targets the id of a listed bot review: a dismissal with the given message when that review requests changes, a deletion when it is pending |
| Dismissal.DismissReviews | src/index.ts:26-61 | the loop over the listing produces exactly the filter-then-map plan |

## Left out

- Regular-expression evaluation (`new RegExp`, `.test`, `.source`, src/index.ts:70-98): a foreign engine. The three test results and the pattern sources are inputs. A malformed pattern, which would abort the run, is not represented.
- Strings.ReplaceFirst: the `$&`, `$1` and `$$` sequences that JavaScript's `replace` expands in its replacement string are not modelled. The replacement is literal, so pattern sources containing `$` sequences are outside the model.
- Platform input and context (`getInput`, `github.context`, the token, src/index.ts:8-11): these become the `Inputs` and `Tests` parameters. A missing title or body defaults to `""` before testing (src/index.ts:66, 68), which only affects the test results given as input.
- GitHub client calls (`createReview`, `listReviews`, `dismissReview`, `deletePendingReview`): represented by the `ReviewRequest` and `Action` values the run would send. The review listing is the `listed` parameter of `PrLint.Run`, and the owner, repository and pull number are not modelled.
- The review listing: `listed` stands for the one page returned by a single `listReviews` call without pagination (src/index.ts:28-32), so bot reviews beyond that page are not part of what the model sees. A listed review without a user, whose `review.user.login` (src/index.ts:36, 38) would throw and stop the walk, is not represented: every `Review` has a login.
- All `debug`, `info` and `error` logging: it has no effect on the outcome.
- Asynchrony: `dismissReviews` and `createReview` are not awaited (src/index.ts:111, 134, 137), so the cleanup and the new review may reach the forge in any order. PrLint.Run returns them separately and claims no order between them. Failed calls and the top-level catch, which only logs (src/index.ts:148-150), are not modelled.
- The passed message (src/index.ts:94) is kept character for character as the mis-decoded emoji text of the source, as an opaque constant.
