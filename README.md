# GitLab Terraform Plan Summarizer — a verified model

The userscript `index.js` runs on a GitLab job page that shows a Terraform
plan. It reads the rendered log lines and does four things:

- It finds the plan-summary line `<N> to add, <N> to change, <N> to destroy.`.
- It files every other line under each operation category whose marker the
  line's markup contains. The categories are Destroy, Replace, Create and
  In-place Update.
- It checks that the category sizes agree with the declared totals.
- It appends summary lines after the log. These are numbered from the last
  log line's number onwards.

This project models that pipeline in Dafny and proves what it computes.

| module | file | models |
|---|---|---|
| `Wrappers` | `wrappers.dfy` | `Option`, for `undefined` and missing matches |
| `Text` | `text.dfy` | `indexOf`, `split('# ')?.[1] ?? text`, `join` |
| `Decimal` | `decimal.dfy` | `${n}` and `Number(s)` on digit strings |
| `Plan` | `plan.dfy` | the categories, their names and markers, and the `planSummary` regex, written as a hand-made matcher |
| `Classifier` | `classifier.dfy` | the classification loop of `findLines` |
| `Reconciler` | `reconciler.dfy` | the `resultCount` fold and the mismatch test of `addSummaryLogs` |
| `Synthesizer` | `synthesizer.dfy` | the summary lines of `addSummaryLogs` and `createLog` |
| `Summarizer` | `summarizer.dfy` | `findLines` end to end |

How the model is put together:

- **Input lines.** A log line is a `LogLine` holding three things:
  - its display number (the text of its first child);
  - its inner HTML, in which the regex and the markers are looked for;
  - the text of its second child, from which the resource name is cut.
- **The two textual tests are a parameter.** The classifier is stated over a
  `Rules` value that bundles the declaration test and the marker of each
  category. `Classifier.ScriptRules` holds the script's own tests:
  `Plan.FindDeclaration` and `Plan.Marker`. The classifier and pipeline
  lemmas hold for any rules, so also for these.
  `Summarizer.ScriptDeclarationLine` applies them to the script's rules.
- **Output lines.** A summary line is a `SummaryLine(number, entry)`. The entry is
  one of three kinds:
  - a `Message(color, text)` made by `createLog`;
  - a `Count(color, category, count)`, the count line `createLog` makes for a
    category; `TextOf` gives its text `* <name> Count: <n>`;
  - a `Resource(indent, name)`: a copied log line cut down to its resource
    name, behind an indent bar of the category's colour.
- **Imperative shape.** The loops of the source are methods with loop
  invariants, and each is proved against a specification function:
  - `FindLines` and `FileLine` against `Classified` and `LastDeclaration`;
  - `CountBuckets` and `AddCategory` against `Total`;
  - `FirstMismatch` against the declared numbers;
  - `AddSummaryLogs`, `AppendSections`, `AppendSection`, `AppendDetails`
    and `AppendLine` against `Numbered(Body(...))`.

  Loop bodies are their own methods: the marker loop of one line, the
  `resultCount` callback, the per-category pass of the output loop and its
  inner loop over the category's lines.
  The counter `lineCount` is an in/out parameter that every appended line
  increments.

Where the script's behaviour differs from a natural reading of what it is
meant to do, the model follows the code:

- Categories are keyed, and therefore matched and printed, in the order
  Destroy, Replace, Create, Update (`index.js:41-46`). This is not the
  enumeration order of `Operation`.
- On agreement the summary has 7 + N lines, not 6 + N. The extra line is the
  "* Plan Result:" line (`index.js:119-121`). Each count line is directly
  followed by its own category's detail lines (`index.js:122-171`).
- Markers are not exclusive. A line holding two markers is filed under both,
  because the marker loop has no `break` (`index.js:58-62`).
- When several lines declare a plan summary, the last one wins
  (`index.js:54-56`).
- A resource name is the piece between the first and the second `# `, not
  everything after the first one (`index.js:164-165`).

## Model

| member | source | states |
|---|---|---|
| `Text.IndexFromFirst` | index.js:59 | `indexOf` returns the first position where the marker occurs, and reports absence only when it occurs nowhere |
| `Text.ResourceNameSplit` | index.js:164-165 | without `# ` the resource name is the whole text; otherwise it starts right after the first `# `, contains no `# `, and ends at the end of the text or at the next `# ` |
| `Decimal.NatToString` | index.js:121 | a printed count is a non-empty string of digits with no leading zero |
| `Decimal.ParsePrinted` | index.js:107 | reading a printed count back as a number gives the count |
| `Plan.OperationsListsAll` | index.js:41-46 | the key order lists every category |
| `Plan.NamesDistinct` | index.js:15-20 | the four labels `Create`, `Replace`, `In-place Update` and `Destroy` are pairwise different, so each category keys its own list |
| `Plan.DigitRun` | index.js:39 | a `[0-9]+` group takes the whole run of digits: what follows is the end or a non-digit |
| `Plan.FindFromSucceeds` | index.js:54 | `planSummary.test` succeeds exactly when the pattern matches at some position |
| `Plan.FindFromLeftmost` | index.js:55 | the groups returned by `match` are those of the leftmost match |
| `Plan.MatchPrefixShape` | index.js:39 | the matcher accepts a text exactly when it starts with three non-empty digit runs, each followed by its literal, then one character that is not a line terminator; the declaration returned holds the three runs read as numbers, leading zeros allowed |
| `Plan.MatchesPrinted` | index.js:39 | a summary line as Terraform prints it matches at its start, and its three groups read back as the printed numbers |
| `Plan.DeclarationFound` | index.js:39 | a printed summary is found anywhere in a line; when the text before it does not end in a digit and does not contain ` to add, `, its own three numbers are the ones returned |
| `Classifier.LastDeclarationWins` | index.js:52-57 | no declaration exactly when no line declares one; otherwise it is the declaration of the last line that declares one |
| `Classifier.ClassifiedMembers` | index.js:53-62 | a category's list holds exactly the lines of the log that are not declaration lines and contain the category's marker |
| `Classifier.ClassifiedAppend` | index.js:53-62 | classifying a concatenation gives the concatenation of the lists, so each list keeps log order |
| `Classifier.FiledUnderEveryMarker` | index.js:58-62 | a line of any log that holds the markers of two categories is in the lists of both |
| `Classifier.FileLine` | index.js:58-62 | the marker loop appends the line to the list of every category whose marker it contains, and leaves every other list unchanged |
| `Classifier.FindLines` | index.js:41-63 | the loop leaves the last declaration, a list for each of the four categories, and as each list exactly the classified lines in log order |
| `Reconciler.Rank` | index.js:98 | each bucket has its position in the order add, change, destroy |
| `Reconciler.TotalOfAll` | index.js:99-105 | a bucket total is the sum, over the four categories in key order, of the sizes of those that contribute to it |
| `Reconciler.BucketTotals` | index.js:93-105 | add = `Create` + `Replace`, change = `Update`, destroy = `Replace` + `Destroy` |
| `Reconciler.ValidatedMeans` | index.js:106-107 | the lists agree with the declaration exactly when the three bucket equations hold |
| `Reconciler.ValidatedAccounts` | index.js:93-107 | on agreement the lists account for every declared change, a replacement counting twice, and no more replacements than additions or destructions |
| `Reconciler.AddCategory` | index.js:99-104 | the callback for one category adds its size to each bucket it contributes to and to no other bucket |
| `Reconciler.CountBuckets` | index.js:98-105 | `resultCount` ends with the three bucket totals |
| `Reconciler.FirstMismatch` | index.js:106-116 | no mismatch is reported exactly when every bucket equals its declared number; a reported bucket differs, and every bucket before it agrees |
| `Synthesizer.CountColor` | index.js:123-135 | a count line is red exactly for a non-empty Replace or Destroy list, and green otherwise |
| `Synthesizer.IndentColor` | index.js:136-150 | the indent bar is red exactly for Replace and Destroy, green exactly for Create, and yellow exactly for Update |
| `Synthesizer.PlanResultListsCounts` | index.js:119-121 | the plan-result line is `* Plan Result: ` followed by `<name> Count: <n>` for the four categories in key order, joined by `, ` |
| `Synthesizer.DetailsAt` | index.js:154-170 | the k-th detail line of a category shows the resource name of its k-th classified line, behind the category's indent colour |
| `Synthesizer.SectionsLength` | index.js:122-171 | each category adds one count line and one line per classified line |
| `Synthesizer.SectionOrder` | index.js:122-171 | the sections come in the order Destroy, Replace, Create, Update, each count line directly followed by its category's detail lines |
| `Synthesizer.SectionShape` | index.js:122-170 | a section is the coloured `* <name> Count: <n>` line followed by one resource line per classified line, in list order |
| `Synthesizer.MismatchShape` | index.js:88-116 | a mismatch gives exactly a green empty spacer, the cyan header and the red alert |
| `Synthesizer.ValidatedShape` | index.js:88-171 | agreement gives 7 + N lines: the spacer, the header, the green plan-result line, then the four sections in key order |
| `Synthesizer.NumberedAt` | index.js:88-157 | the i-th appended line is numbered `lineCount + 1 + i` and shows the i-th entry |
| `Synthesizer.NumbersIncrease` | index.js:88-157 | the appended line numbers strictly increase |
| `Synthesizer.AppendLine` | index.js:71-80 | `appendChild(createLog(++lineCount, ...))` appends the entry under the next number and increments the counter |
| `Synthesizer.AppendSection` | index.js:122-170 | one pass of the category loop appends exactly that category's section, numbered on from the counter |
| `Synthesizer.AppendDetails` | index.js:154-170 | the inner loop appends one resource line per classified line of the category, in list order, each under the next number |
| `Synthesizer.AppendSections` | index.js:122-171 | the category loop appends the sections of all categories in key order |
| `Synthesizer.AddSummaryLogs` | index.js:82-177 | the appended lines are the summary body, numbered from `lineCount + 1` |
| `Summarizer.FindLinesAndSummarize` | index.js:22-69 | `findLines` appends nothing to an empty log or to one without a declaration, and otherwise the summary of the last declaration, numbered after the last line |
| `Summarizer.BodyNotEmpty` | index.js:88-90 | every summary has at least the spacer, the header and one more line |
| `Summarizer.NoDeclarationNoSummary` | index.js:64-68 | no line is appended exactly when no log line declares a plan summary |
| `Summarizer.SummaryLength` | index.js:88-171 | with a declaration the summary is 3 lines on a mismatch and 7 + N lines on agreement |
| `Summarizer.SummaryNumbering` | index.js:64-157 | the summary lines are numbered one by one, starting at the last log line's number plus one |
| `Summarizer.ScriptDeclarationLine` | index.js:39-57 | with the script's tests, a line carrying a printed plan summary, where the text before the summary does not end in a digit and does not contain ` to add, ` (as when the line-number anchor ends in `</a>`), declares exactly those numbers and is filed under no category |
| `Summarizer.ScriptMarkerFiled` | index.js:28-62 | with the script's tests, a line that is not a plan-summary line and whose markup holds a category's marker is filed under that category |
| `Summarizer.ExampleAgreement` | index.js:93-171 | a plan of 2 to add, 1 to change and 1 to destroy with lists Create 2, Update 1, Replace 0, Destroy 1 is validated and summarized in 11 lines |

## Left out

- Polling is not modelled: the retries of `waitUntilInitialized` and `initializer` on a timer (`index.js:179-202`). It is asynchronous plumbing around the one call to `findLines`.
- The DOM is not modelled:
  - reading the lines with `getElementsByClassName` (the lines are the input sequence);
  - `cloneNode` and the new `id` of a copied line (only its number is kept);
  - removing the siblings of the name span, and `classList.remove('term-bold')`;
  - `insertAdjacentHTML` of the indent bar and of the trailing separator span;
  - where `insertBefore` places the summary.
  A `Resource` entry stands for the resulting line.
- The HTML template of `createLog` is not modelled; only the number, colour and text of a line are kept. The markup of the appended lines is therefore not modelled either. Feeding the summary back into the classifier is outside the model.
- The last line's number is read with `Number(...)` on its first child; the model takes it as a given natural number.
- JavaScript numbers are doubles, but line numbers and counts are unbounded naturals here. `Number(...)` of a declared total is exact decimal reading, so precision loss above 2^53 is not modelled.
- Only the one pattern used (`index.js:39`) is matched, by a hand-written matcher. It takes three greedy digit groups, the three literals, and one final character other than a line terminator. It is not a general regular-expression engine.
- `console.log` diagnostics are not modelled.
