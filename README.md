# Fulcrum LLM-ops and the forecasting app, modelled in Dafny

This project models the deterministic core of a repository with three parts, and proves what that core promises.

- **The Fulcrum LLM-ops dashboard backend.** It covers:
  - the heuristic confidence score of a finished run;
  - the prompt library with versioned templates and `{{ name }}` placeholders;
  - the alert rules and the alert table;
  - the metrics, runs, compare, replay, guardrails, evaluations and API-key endpoints;
  - the run store over MLflow: status translation, listing filters, artifact naming, `update_run` and the confidence recomputation;
  - the guardrail wrapper with its per-policy violation counters and its "active" or "monitor" decision.
- **The command-line forecasting app.** It covers:
  - its guardrail wrapper, which classifies exception messages;
  - the custom toxic-language, competitor and PII validators;
  - the check on user text;
  - paragraph chunking of documents;
  - the sequential step pipeline;
  - the parsing of KPI lines for the dashboard cards.
- **The `ai_confidence` library.** It covers the aggregation of retrieval quality, groundedness and policy into a 0–100 confidence with caps and gates, the routing of that score, the retrieval-quality heuristic and the judge helpers.
- **Three dashboard pages.** It covers:
  - the Replay Studio: stage editors with overrides, the replay-from cursor, request building, pending flags and the last result;
  - the metrics page's recent-runs table: filters, sort and sort toggle;
  - the compare page's selection of two to four runs.

Pure computations are Dafny functions with lemmas about them. Code that updates state step by step becomes imperative Dafny: a class whose methods modify its fields, or a method whose loops carry invariants. Each method's contract states its result or its new state outright, mostly through a specification function about which lemmas are proved. The alert and prompt tables, the wrappers' stats, the pipeline context and the page states are classes. Chunking, listing, tallying, binning, the alert rules and the pipeline run are loops.

Some things are parameters of the operations that use them:
- MLflow;
- the LLM clients and the Guardrails `Guard`;
- the PII regular expressions;
- `json.loads` and `JSON.parse`;
- `float(str)` and `Date` parsing;
- uuids and clocks;
- the server calls of the pages.

The backend confidence's weights and score are integer hundredths, and the `confidence` metric logged from it is that score divided by 100; the replay heuristic and every other score is a Dafny `real`. Shared modules:
- `Common`: `Option`, `Result` and HTTP errors;
- `Strings`: Python and JavaScript string operations;
- `Sorting`: stable sort and de-duplication;
- `Json`: decoded JSON values;
- `Schemas`: the run record.

The staged replay request carries the whole overrides map, including overrides of stages below the replay-from cursor: `handleRun` (fulcrum-llm-ops/frontend/src/pages/ReplayStudio.tsx:151-161) sends it unfiltered, and `ReplayStudioPage.ReplayStudio.HandleRun` states that.

## Model

| member | source | states |
|---|---|---|
| Confidence.Excerpt | fulcrum-llm-ops/backend/app/services/confidence.py:141-149 | with idx the first occurrence of the keyword in the lowercased text, the excerpt is "..." + text[max(0, idx-20) .. min(len, idx+50)] with newlines replaced by spaces + "..." |
| Confidence.ExcerptIfMentioned | fulcrum-llm-ops/backend/app/services/confidence.py:133-151 | an excerpt is produced exactly when the lowercased text contains the keyword |
| Confidence.SimpleComponents | fulcrum-llm-ops/backend/app/services/confidence.py:195 | the backward-compatible map has one entry per component, in order, holding that component's key and value |
| Confidence.ComputeConfidence | fulcrum-llm-ops/backend/app/services/confidence.py:3-215 | equals Explain: a failed run scores 0, label low, components exactly base 0.25 and error_penalty -1.0, no evidence; a successful run has the five components in order (their exact values, firing and reasons are SuccessComponents), their values add up to the score, the score is min(sum, 1.00) in [0.25, 1.00], the label follows the thresholds, and the evidence is exactly SuccessEvidence |
| Confidence.ScoreSignals | fulcrum-llm-ops/backend/app/services/confidence.py:51-184 | the components are exactly base 0.25; json_parsed 0.30 iff parsed; retrieval_boost 0.25 for at least two sources, 0.15 for one, else 0; assumption_check 0.10 iff "assumption" occurs in the lowered text; risk_analysis 0.10 iff "risk" occurs; each with the source's reason; the accumulated score equals the reference SignalScore and the sum of the values |
| Confidence.CollectEvidence | fulcrum-llm-ops/backend/app/services/confidence.py:79-178 | the evidence is exactly, in order: the JSON entry if parsed, the retrieval entry (count=n, note by n >= 2) if a source was retrieved, and the assumption and risk excerpt entries from llm_response.txt if those keywords occur |
| Confidence.SuccessComponentsShape | fulcrum-llm-ops/backend/app/services/confidence.py:51-184 | the five components come in the source's order, each fires exactly when its value is non-zero, with the value given by its signal |
| Confidence.SuccessComponentsSum | fulcrum-llm-ops/backend/app/services/confidence.py:51-184 | the component values add up to the reference score SignalScore |
| Confidence.EvidenceFollowsComponents | fulcrum-llm-ops/backend/app/services/confidence.py:79-178 | every evidence entry names a fired component other than the base score, entries follow component order (so none is repeated), and every fired component after the base score has an entry |
| Confidence.EvidenceOrdered | fulcrum-llm-ops/backend/app/services/confidence.py:79-178 | the evidence entries name components in strictly increasing component order |
| Confidence.EvidenceOnlyFired | fulcrum-llm-ops/backend/app/services/confidence.py:79-178 | each evidence entry belongs to a component that fired, never the base score |
| Confidence.EvidenceCovers | fulcrum-llm-ops/backend/app/services/confidence.py:79-178 | each fired component after the base score has an evidence entry |
| Confidence.FiresInComponents | fulcrum-llm-ops/backend/app/services/confidence.py:72-184 | a signal that is present appears among the components as fired |
| Confidence.AppendIfOrdered | fulcrum-llm-ops/backend/app/services/confidence.py:79-178 | appending an entry of a later component keeps the evidence in component order |
| Confidence.SuccessScoreBounds | fulcrum-llm-ops/backend/app/services/confidence.py:18-25 | a successful run's score lies between the base 0.25 and 1.00, so the cap at 1.0 never bites |
| Confidence.LabelThresholds | fulcrum-llm-ops/backend/app/services/confidence.py:186-191 | high iff the score is at least 0.8, medium iff it is in [0.5, 0.8), low otherwise |
| Confidence.SignalScoreMonotone | fulcrum-llm-ops/backend/app/services/confidence.py:72-184 | more signals never lower the score, and never lose a high label |
| Confidence.MentionsAnyCase | fulcrum-llm-ops/backend/app/services/confidence.py:130-133 | a keyword that appears in any ASCII case is found in the lowercased text |
| Confidence.SumValuesAppend | fulcrum-llm-ops/backend/app/services/confidence.py:51-184 | the sum of component values distributes over concatenation |
| Confidence.LabelFor | fulcrum-llm-ops/backend/app/services/confidence.py:186-191 | the label is high exactly from 0.8 up and low exactly below 0.5 |
| Confidence.RetrievalBoost | fulcrum-llm-ops/backend/app/services/confidence.py:93-127 | the boost lies in [0, 0.25], is positive iff at least one source was retrieved, and is the full 0.25 iff at least two were |
| Confidence.SignalScore | fulcrum-llm-ops/backend/app/services/confidence.py:51-184 | the success-path score lies in [0.25, 1.00] and reaches 1.00 exactly when every signal is present |
| Prompts.WordLen | fulcrum-llm-ops/backend/app/services/prompts.py:126 | the length of the longest run of ASCII word characters (letters, digits, `_`) at the start of the text |
| Prompts.VarMatch | fulcrum-llm-ops/backend/app/services/prompts.py:126 | a match of the placeholder pattern at the start yields a word name and a length of at least five characters |
| Prompts.FindVars | fulcrum-llm-ops/backend/app/services/prompts.py:127 | every name `re.findall` collects is a word |
| Prompts.PlaceholderBody | fulcrum-llm-ops/backend/app/services/prompts.py:126 | after its opening `{{` a placeholder contains no `{` |
| Prompts.PlaceholderParts | fulcrum-llm-ops/backend/app/services/prompts.py:126 | a placeholder is `{{`, a whitespace run, a word, a whitespace run and `}}`, in that order |
| Prompts.JoinNoBrace | fulcrum-llm-ops/backend/app/services/prompts.py:126 | the runs of a placeholder together hold no `{` |
| Prompts.SpaceRunNoBrace | fulcrum-llm-ops/backend/app/services/prompts.py:126 | a `\s*` run holds no `{` |
| Prompts.WordRunNoBrace | fulcrum-llm-ops/backend/app/services/prompts.py:126 | a `\w+` run holds no `{` |
| Prompts.NoPlaceholderInside | fulcrum-llm-ops/backend/app/services/prompts.py:126-127 | no placeholder starts strictly inside another, so non-overlapping scanning misses none |
| Prompts.FindVarsComplete | fulcrum-llm-ops/backend/app/services/prompts.py:126-127 | the name of a placeholder starting at any position of the template is among the names found |
| Prompts.CompleteFrom | fulcrum-llm-ops/backend/app/services/prompts.py:127 | a scan resumed at any position up to a placeholder's start finds that placeholder's name, because the scan either steps over one character or jumps over a whole match, and no match starts inside another |
| Prompts.FindVarsSound | fulcrum-llm-ops/backend/app/services/prompts.py:126-127 | every name found belongs to a placeholder at some position of the template |
| Prompts.SoundAfterSkip | fulcrum-llm-ops/backend/app/services/prompts.py:127 | soundness when the scan steps over one character |
| Prompts.SoundAfterMatch | fulcrum-llm-ops/backend/app/services/prompts.py:127 | soundness when the scan jumps over a whole match |
| Prompts.FindVarsExactly | fulcrum-llm-ops/backend/app/services/prompts.py:126-127 | a name is found if and only if a placeholder carrying it starts somewhere in the template |
| Prompts.ExtractVariables | fulcrum-llm-ops/backend/app/services/prompts.py:124-128 | the variables are strictly ascending (sorted, no duplicates), exactly the names found, and all words |
| Prompts.ExtractVariablesExactly | fulcrum-llm-ops/backend/app/services/prompts.py:124-128 | a name is a variable if and only if some placeholder of the template carries it (so there are none exactly when there is no placeholder) |
| Prompts.FindVarsNoBrace | fulcrum-llm-ops/backend/app/services/prompts.py:126-127 | a template without '{' has no variables |
| Prompts.ExtractSingle | fulcrum-llm-ops/backend/app/services/prompts.py:124-128 | the variables of "{{ name }}" are exactly [name] |
| Prompts.KeyMatch | fulcrum-llm-ops/backend/app/services/prompts.py:135 | a match of `{{\s*key\s*}}` at the start has length at least four and fits in the text |
| Prompts.IndexOfChar | fulcrum-llm-ops/backend/app/services/prompts.py:136 | the first position of the character, or none when it does not occur (`\g<...>` reads up to the first `>`) |
| Prompts.GroupRef | fulcrum-llm-ops/backend/app/services/prompts.py:136 | a `\g<...>` reference that is accepted spans at least four characters |
| Prompts.ZeroEscape | fulcrum-llm-ops/backend/app/services/prompts.py:136 | a `\0` escape takes up to two further octal digits |
| Prompts.ParsePlain | fulcrum-llm-ops/backend/app/services/prompts.py:136 | a replacement without a backslash parses to its own characters, so it is inserted literally |
| Prompts.ExpandLiteral | fulcrum-llm-ops/backend/app/services/prompts.py:136 | literal pieces expand to the text they came from, whatever was matched |
| Prompts.EscapeReplInverse | fulcrum-llm-ops/backend/app/services/prompts.py:136 | doubling every backslash of a value makes re.sub insert exactly that value |
| Prompts.ParseLiteralStep | fulcrum-llm-ops/backend/app/services/prompts.py:136 | a character other than a backslash is copied and parsing continues after it |
| Prompts.ParseEscapeStep | fulcrum-llm-ops/backend/app/services/prompts.py:136 | `\a \b \f \n \r \t \v \\` become their control character or a backslash |
| Prompts.NewlineEscape | fulcrum-llm-ops/backend/app/services/prompts.py:136 | the value `C:\new` is rendered with a newline in place of `\n` |
| Prompts.LetterEscapeRefused | fulcrum-llm-ops/backend/app/services/prompts.py:136 | the value `a\d` makes re.sub fail with a bad escape |
| Prompts.GroupReferenceRefused | fulcrum-llm-ops/backend/app/services/prompts.py:136 | the value `\1` makes re.sub fail: the pattern has no group 1 |
| Prompts.WholeMatchReference | fulcrum-llm-ops/backend/app/services/prompts.py:136 | `\g<0>` in a value inserts the whole matched placeholder |
| Prompts.OtherEscapeKept | fulcrum-llm-ops/backend/app/services/prompts.py:136 | a backslash before a character that is neither a letter nor a digit is kept with it |
| Prompts.Substitute | fulcrum-llm-ops/backend/app/services/prompts.py:136 | substitution of a value inserted as it is, which is what `re.sub` does with a value free of backslashes (Prompts.ParsePlain, Prompts.SubstituteWithLiteral): text without '{' is left unchanged |
| Prompts.SubstituteWithLiteral | fulcrum-llm-ops/backend/app/services/prompts.py:136 | substituting a template of literal pieces equals substituting their text |
| Prompts.SubstituteWithNoBrace | fulcrum-llm-ops/backend/app/services/prompts.py:136 | text without '{' is left unchanged whatever the replacement |
| Prompts.RenderSpec | fulcrum-llm-ops/backend/app/services/prompts.py:130-137 | rendering fails exactly when some value is not a valid replacement template |
| Prompts.RenderPrompt | fulcrum-llm-ops/backend/app/services/prompts.py:130-137 | the loop substitutes each key in turn, in the dictionary's order, stopping at the first value re.sub refuses; it succeeds exactly when every value is a valid template |
| Prompts.RenderFailsFrom | fulcrum-llm-ops/backend/app/services/prompts.py:133-136 | once a value is refused, later variables do not change the error |
| Prompts.RenderPlain | fulcrum-llm-ops/backend/app/services/prompts.py:130-137 | with backslash-free values rendering succeeds and each step is the literal substitution of the value |
| Prompts.RenderUnchanged | fulcrum-llm-ops/backend/app/services/prompts.py:130-137 | rendering with no variables, or a template without '{' and accepted values, returns the template |
| Prompts.SubstituteFills | fulcrum-llm-ops/backend/app/services/prompts.py:134-136 | literal segments free of `{` joined by placeholders for the key, each written `{{key}}` or padded with any whitespace as `{{ key }}`, render to the segments joined by the value |
| Prompts.SubstitutePlaceholder | fulcrum-llm-ops/backend/app/services/prompts.py:135-136 | a leading `{{key}}` is replaced by the value inserted as it is, and the rest substituted; a value with backslashes goes through Prompts.ParseRepl and Prompts.SubstituteWith instead |
| Prompts.PlaceholderMatches | fulcrum-llm-ops/backend/app/services/prompts.py:135 | `{{key}}` matches the pattern with its whole length |
| Prompts.PaddedMatches | fulcrum-llm-ops/backend/app/services/prompts.py:134-135 | `{{`, any whitespace, the key, any whitespace and `}}` match the pattern with their whole length, for a key that does not start with whitespace |
| Prompts.SubstitutePadded | fulcrum-llm-ops/backend/app/services/prompts.py:134-136 | a leading placeholder for the key, padded or not, is replaced by the value and the rest substituted |
| Prompts.SubstituteLiteral | fulcrum-llm-ops/backend/app/services/prompts.py:136 | a prefix without '{' is copied verbatim |
| Prompts.CopyPrefix | fulcrum-llm-ops/backend/app/services/prompts.py:136 | positions where no match starts are copied verbatim |
| Prompts.RenderOne | fulcrum-llm-ops/backend/app/services/prompts.py:133-136 | rendering one variable with a backslash-free value is one literal substitution |
| Prompts.InnerReplaced | fulcrum-llm-ops/backend/app/services/prompts.py:136 | in `{{key}}key}}` the inner placeholder is replaced, leaving `key}}` |
| Prompts.OuterOpenFails | fulcrum-llm-ops/backend/app/services/prompts.py:135 | no match starts at "{{ {{" |
| Prompts.OneSpaceMatches | fulcrum-llm-ops/backend/app/services/prompts.py:135 | `{{ key}}` is a placeholder |
| Prompts.RenderCanLeavePlaceholder | fulcrum-llm-ops/backend/app/services/prompts.py:130-137 | rendering can create a placeholder: "{{ {{key}}key}}" with key := "" renders to "{{ key}}", which still matches |
| Prompts.RenderCanLeavePlaceholderA | fulcrum-llm-ops/backend/app/services/prompts.py:130-137 | the concrete instance: "{{ {{a}}a}}" with a := "" renders to "{{ a}}" |
| Prompts.NextVersionNumber | fulcrum-llm-ops/backend/app/services/prompts.py:94-101 | a prompt without versions gets number 1; a latest version whose name is no integer once its "v"s are removed gets the count of versions plus one |
| Prompts.VersionName | fulcrum-llm-ops/backend/app/services/prompts.py:103 | "v<n>" starts with "v", and removing the "v" and parsing gives n back |
| Prompts.StripVersionPrefix | fulcrum-llm-ops/backend/app/services/prompts.py:99-103 | removing the "v"s from "v<n>" gives the number's digits back |
| Prompts.NoVeeInNumber | fulcrum-llm-ops/backend/app/services/prompts.py:99 | a number's decimal text contains no "v" |
| Prompts.NextAfterNumbered | fulcrum-llm-ops/backend/app/services/prompts.py:94-101 | when the latest version is "v<n>", the next number is n + 1 |
| Prompts.NewVersion | fulcrum-llm-ops/backend/app/services/prompts.py:105-113 | the new version's variables are those extracted from its template |
| Prompts.NewPrompt | fulcrum-llm-ops/backend/app/services/prompts.py:52-73 | a new prompt has the slug as id, "v1" as its only and latest version, with the request's template, and the request's name, status and author, updated now |
| Prompts.WithNewVersion | fulcrum-llm-ops/backend/app/services/prompts.py:91-122 | the new version is prepended and becomes the latest, named v<next number>; id, name, status and author are kept; updated_at is now |
| Prompts.IndexOfId | fulcrum-llm-ops/backend/app/services/prompts.py:81-86 | the index of the first prompt with the slug, or none when no prompt has it |
| Prompts.PromptsService.CreatePrompt | fulcrum-llm-ops/backend/app/services/prompts.py:44-77 | fails with "Prompt with slug '<slug>' already exists" exactly when the slug is taken, storing nothing; otherwise appends the new prompt and returns it |
| Prompts.PromptsService.CreateVersion | fulcrum-llm-ops/backend/app/services/prompts.py:79-122 | fails with "Prompt not found" exactly when no prompt has the slug; otherwise replaces the first such prompt with its new-version update and returns it |
| Prompts.SecondVersion | fulcrum-llm-ops/backend/app/services/prompts.py:57-122 | a version added to a fresh prompt is "v2", ahead of "v1" |
| Alerts.NewerFirstTotal | fulcrum-llm-ops/backend/app/services/alerts.py:36 | ordering by created_at, newest first, is a total preorder, so the sort is well defined |
| Alerts.WithResolved | fulcrum-llm-ops/backend/app/services/alerts.py:38 | the filter keeps exactly the alerts with the requested resolved flag, each as often as before |
| Alerts.WithResolvedSorted | fulcrum-llm-ops/backend/app/services/alerts.py:36-38 | filtering a newest-first list keeps it newest first |
| Alerts.SliceLen | fulcrum-llm-ops/backend/app/services/alerts.py:39 | the length of `filtered[:limit]`, with Python's reading of a negative limit as counting from the end |
| Alerts.ListingFacts | fulcrum-llm-ops/backend/app/services/alerts.py:33-39 | the sorted, filtered and sliced list holds only alerts with the flag, newest first, drawn from the store, of the sliced length, and all matching alerts when the limit covers them |
| Alerts.FlagAndOrderFacts | fulcrum-llm-ops/backend/app/services/alerts.py:33-39 | a slice of the matching alerts of a newest-first list holds only alerts with the requested flag and is itself newest first |
| Alerts.CountFacts | fulcrum-llm-ops/backend/app/services/alerts.py:36-39 | the listing is a sub-multiset of the store, as long as the slice of the matching alerts |
| Alerts.KeptAreNewest | fulcrum-llm-ops/backend/app/services/alerts.py:36-39 | every alert the slice keeps is at least as new as every matching alert it drops |
| Alerts.OmittedOlder | fulcrum-llm-ops/backend/app/services/alerts.py:39 | a prefix of a newest-first list is at least as new as every entry it leaves out |
| Alerts.WithResolvedPermutation | fulcrum-llm-ops/backend/app/services/alerts.py:36-38 | filtering the sorted list or the stored list gives the same alerts |
| Alerts.AlertsService.GetAlerts | fulcrum-llm-ops/backend/app/services/alerts.py:33-39 | `get_alerts`: only alerts with the requested flag, newest first, taken from the store, as many as the limit allows, all of them when the limit is not smaller than the store, and none left out that is newer than one kept; without a cut, equally new alerts keep their stored order (a stable sort) |
| Alerts.WithResolvedTies | fulcrum-llm-ops/backend/app/services/alerts.py:36-38 | filtering by the resolved flag keeps the relative order of equally new alerts |
| Alerts.AlertsService.ResolveAlert | fulcrum-llm-ops/backend/app/services/alerts.py:41-48 | returns true iff some alert has the id; then only the first such alert is marked resolved, otherwise nothing changes |
| Alerts.AlertsService.PersistAlerts | fulcrum-llm-ops/backend/app/services/alerts.py:104-117 | appends one stored alert per draft, in order, unresolved, with the run id, the kind's severity, a fresh id and the timestamp |
| Alerts.AlertsService.EvaluateRun | fulcrum-llm-ops/backend/app/services/alerts.py:50-102 | follows the corrected low-confidence rule (see "## Findings"): a run that is not a success adds nothing; an unparseable latency threshold raises before anything is stored; otherwise the drafts are the rule outcomes and are appended |
| Alerts.AlertsService.SeedDemoAlerts | fulcrum-llm-ops/backend/app/services/alerts.py:119-153 | a non-empty store is untouched; an empty one receives the three demo alerts |
| Alerts.Drafts | fulcrum-llm-ops/backend/app/services/alerts.py:54-99 | at most four drafts, none for a non-success run, at most one per kind, and each kind fires exactly when its rule holds (confidence < 0.5, policy_pass == 0, latency above the threshold, retrieval_count == 0) |
| Alerts.DraftsUnfold | fulcrum-llm-ops/backend/app/services/alerts.py:57-99 | appending the four conditional drafts in rule order gives the drafts |
| Alerts.KindsOfFour | fulcrum-llm-ops/backend/app/services/alerts.py:57-99 | four at-most-one lists of distinct kinds make a list with one draft per fired kind |
| Alerts.DraftsAsWritten | fulcrum-llm-ops/backend/app/services/alerts.py:61 | the code as written: a successful run without a confidence raises AttributeError; otherwise the drafts are those of the corrected rules |
| Alerts.SlowRunWithoutConfidence | fulcrum-llm-ops/backend/app/services/alerts.py:61-84 | a successful 9000 ms run without a confidence raises instead of getting its high-latency alert |
| Alerts.Stored | fulcrum-llm-ops/backend/app/services/alerts.py:106-116 | one unresolved alert per draft, with the run id, the draft's kind and message, the kind's severity, a fresh id and the timestamp |
| Alerts.StoredSnoc | fulcrum-llm-ops/backend/app/services/alerts.py:106-116 | storing one more draft appends its alert |
| Alerts.DemoAlerts | fulcrum-llm-ops/backend/app/services/alerts.py:124-152 | the three demo alerts for demo-run-123, -456 and -789; only the last is resolved |
| Alerts.RuleEdges | fulcrum-llm-ops/backend/app/services/alerts.py:62-94 | the rules' edges: confidence 0.5 and a latency equal to the threshold do not fire, a zero or missing latency never fires, empty metrics or a missing key fire neither metric rule |
| Alerts.LowConfidenceDraft | fulcrum-llm-ops/backend/app/services/alerts.py:63-67 | a LOW_CONFIDENCE alert of severity medium whose message opens with "Run <id>" |
| Alerts.PolicyFailDraft | fulcrum-llm-ops/backend/app/services/alerts.py:75-79 | a POLICY_FAIL alert of severity high whose message opens with "Run <id>" |
| Alerts.HighLatencyDraft | fulcrum-llm-ops/backend/app/services/alerts.py:85-89 | a HIGH_LATENCY alert of severity low whose message opens with "Run <id>" |
| Alerts.RetrievalEmptyDraft | fulcrum-llm-ops/backend/app/services/alerts.py:95-99 | a RETRIEVAL_EMPTY alert of severity medium whose message opens with "Run <id>" |
| MetricsApi.GetDays | fulcrum-llm-ops/backend/app/api/metrics.py:13-17 | 24h, 7d, 30d and 90d map to 1, 7, 30 and 90 days; any other range falls back to 7 |
| MetricsApi.PercentileIndices | fulcrum-llm-ops/backend/app/api/metrics.py:48-50 | for a non-empty list, `int(0.5 n)` and `min(int(0.95 n), n - 1)` are in bounds and in that order |
| MetricsApi.P50Index | fulcrum-llm-ops/backend/app/api/metrics.py:49 | `int(0.5 n)` is the largest k with 2k <= n |
| MetricsApi.P95Index | fulcrum-llm-ops/backend/app/api/metrics.py:50 | `min(int(0.95 n), n - 1)`: the largest k with 100k <= 95n, capped at the last index |
| MetricsApi.SortedLatencies | fulcrum-llm-ops/backend/app/api/metrics.py:47 | `latencies.sort()` leaves the same latencies in ascending order |
| MetricsApi.Percentiles | fulcrum-llm-ops/backend/app/api/metrics.py:47-50 | p50 and p95 are the sorted latencies at positions `int(0.5 n)` and `min(int(0.95 n), n - 1)`: latencies, the median not above the 95th |
| MetricsApi.PercentileRanks | fulcrum-llm-ops/backend/app/api/metrics.py:47-50 | each percentile is a rank: at most k latencies lie below the entry at sorted position k, and at most n - 1 - k above it |
| MetricsApi.SortedRank | fulcrum-llm-ops/backend/app/api/metrics.py:47-50 | in an ascending list the entry at position k has at most k entries below and n - 1 - k above |
| MetricsApi.CountBeyondPermutation | fulcrum-llm-ops/backend/app/api/metrics.py:47 | sorting does not change how many latencies lie beyond a value |
| MetricsApi.ModelList | fulcrum-llm-ops/backend/app/api/metrics.py:52 | the distinct non-empty model names of the runs, each once (in an order the model fixes; Python's set order is unspecified) |
| MetricsApi.MetricsSummary | fulcrum-llm-ops/backend/app/api/metrics.py:20-71 | without latencies every KPI is zero, run_count included, and no models are listed; otherwise run_count counts all runs, p50 and p95 are the sorted latencies at the two percentile positions, the models are the distinct names, and cost, confidence and parse rate are the sum and means of the present values |
| MetricsApi.CostDescTotal | fulcrum-llm-ops/backend/app/api/metrics.py:119 | ordering by cost, highest first, is a total preorder |
| MetricsApi.Lookup | fulcrum-llm-ops/backend/app/api/metrics.py:104 | finds the model's entry in the table, or reports it absent |
| MetricsApi.TallyByModel | fulcrum-llm-ops/backend/app/api/metrics.py:100-109 | the table has one entry per distinct model key in first-seen order, with that key's run count and summed cost |
| MetricsApi.TallyRun | fulcrum-llm-ops/backend/app/api/metrics.py:103-109 | one more run adds an entry for a new key or updates the key's entry |
| MetricsApi.TallyNew | fulcrum-llm-ops/backend/app/api/metrics.py:104-109 | a run with a new key appends an entry with its cost and count 1 |
| MetricsApi.TallyExisting | fulcrum-llm-ops/backend/app/api/metrics.py:107-109 | a run with a known key adds its cost and one run to that key's entry |
| MetricsApi.RunsForSnoc | fulcrum-llm-ops/backend/app/api/metrics.py:103-109 | one more run adds one run and its cost, when truthy, to its own key only |
| MetricsApi.RunsForAbsent | fulcrum-llm-ops/backend/app/api/metrics.py:103-109 | a key no run has counts zero runs and zero cost |
| MetricsApi.TotalRunsPermutation | fulcrum-llm-ops/backend/app/api/metrics.py:119 | reordering the table keeps the total run count |
| MetricsApi.CostByModel | fulcrum-llm-ops/backend/app/api/metrics.py:95-119 | one entry per distinct model key ("unknown" for none), with its run count and cost, highest cost first; the counts add up to the number of runs; models of equal cost keep the first-seen order of the tally (a stable sort) |
| MetricsApi.SortedTally | fulcrum-llm-ops/backend/app/api/metrics.py:111-119 | sorting the table keeps its entries, their counts and costs, and the total |
| MetricsApi.Clamp | fulcrum-llm-ops/backend/app/api/metrics.py:134 | the confidence clamped to [0, 1], unchanged when already inside |
| MetricsApi.BinIndex | fulcrum-llm-ops/backend/app/api/metrics.py:134-136 | the bin is one of 0..9 whose interval holds the clamped value, with 1.0 in the last bin |
| MetricsApi.BinsCoverAll | fulcrum-llm-ops/backend/app/api/metrics.py:130-137 | every confidence lands in exactly one of the ten bins |
| MetricsApi.BinsBelowStep | fulcrum-llm-ops/backend/app/api/metrics.py:132-137 | one more confidence adds one to the count of the bins at and above its own |
| MetricsApi.ConfidenceDistribution | fulcrum-llm-ops/backend/app/api/metrics.py:122-147 | ten bins [i/10, (i+1)/10], each counting the confidences that fall in it; the counts add up to the number of confidences |
| Schemas.Values | fulcrum-llm-ops/backend/app/api/metrics.py:25-31 | the present values of one field, no more than there are runs, exactly the values some run has, one per run when all have one |
| Schemas.NamedModels | fulcrum-llm-ops/backend/app/api/runs.py:22 | exactly the non-empty model names of the runs |
| Schemas.Statuses | fulcrum-llm-ops/backend/app/api/runs.py:23 | the status of every run, in run order |
| RunsApi.WithStatus | fulcrum-llm-ops/backend/app/api/runs.py:27 | keeps exactly the runs with the status, with their multiplicities |
| RunsApi.WithStatusConcat | fulcrum-llm-ops/backend/app/api/runs.py:27 | the filter keeps order: filtering a concatenation filters each part |
| RunsApi.GetRuns | fulcrum-llm-ops/backend/app/api/runs.py:10-35 | the model and status lists are sorted, duplicate-free, and built from all runs; a truthy status filters the runs, an absent or empty one returns them all |
| RunsApi.ListsIgnoreFilter | fulcrum-llm-ops/backend/app/api/runs.py:21-29 | the dropdown lists do not depend on the status filter |
| RunsApi.FilteredRuns | fulcrum-llm-ops/backend/app/api/runs.py:26-27 | a run is listed under a status iff it is a run with that status |
| RunsApi.GetRunDetails | fulcrum-llm-ops/backend/app/api/runs.py:38-43 | a missing run is a 404 "Run not found"; a found run is returned as is |
| RunsApi.MediaType | fulcrum-llm-ops/backend/app/api/runs.py:51 | application/json iff the lowercased path ends in ".json", text/plain otherwise |
| RunsApi.LowerIdempotent | fulcrum-llm-ops/backend/app/api/runs.py:51 | lowercasing twice is lowercasing once |
| RunsApi.MediaTypeIgnoresCase | fulcrum-llm-ops/backend/app/api/runs.py:51 | the media type does not depend on the path's case |
| RunsApi.GetArtifact | fulcrum-llm-ops/backend/app/api/runs.py:46-56 | the artifact is always served with the path's media type: the content that was read, or an empty body when the store could not read it (the store returns None instead of raising, so the 415 and 404 handlers never fire) |
| RunsApi.WriteEndpoint | fulcrum-llm-ops/backend/app/api/runs.py:61-103 | a write that succeeds returns its reply; one that raises becomes a 500 carrying the message |
| CompareApi.StrippedPieces | fulcrum-llm-ops/backend/app/api/compare.py:11 | the stripped, non-empty pieces, each free of commas |
| CompareApi.ParseIds | fulcrum-llm-ops/backend/app/api/compare.py:11 | every id is non-empty, stripped and comma-free |
| CompareApi.ParseJoin | fulcrum-llm-ops/backend/app/api/compare.py:11 | parsing ids joined by commas gives the ids back |
| CompareApi.StrippedIdentity | fulcrum-llm-ops/backend/app/api/compare.py:11 | clean ids pass through the strip-and-drop step unchanged |
| CompareApi.FirstMissing | fulcrum-llm-ops/backend/app/api/compare.py:16-19 | the first id the store does not find, or none when all are found |
| CompareApi.CompareRuns | fulcrum-llm-ops/backend/app/api/compare.py:9-22 | fewer than 2 or more than 4 ids is a 422; otherwise the first missing id is a 404 naming it; otherwise the runs are returned, one per id in order |
| CompareApi.FirstMissingAt | fulcrum-llm-ops/backend/app/api/compare.py:16-19 | the missing id reported is the first one |
| Deps.BearerToken | fulcrum-llm-ops/backend/app/api/deps.py:19-20 | `authorization.split(" ")[1]` is the whole text right after "Bearer " up to the next space or the end: it has no space, and a space or the end follows it |
| Deps.BearerWordHasNoSpace | fulcrum-llm-ops/backend/app/api/deps.py:20 | "Bearer" has no space, so the split's first piece is "Bearer" |
| Strings.FirstPiecePrefix | fulcrum-llm-ops/backend/app/api/deps.py:20 | the first piece of a split is the prefix up to the first separator, or the whole text |
| Deps.ExtractKey | fulcrum-llm-ops/backend/app/api/deps.py:15-22 | without a truthy Authorization header the key is X-API-Key; with one, the key is taken from Authorization |
| Deps.AuthorizationFirst | fulcrum-llm-ops/backend/app/api/deps.py:18-22 | a non-empty Authorization header makes X-API-Key irrelevant |
| Deps.BearerCarriesKey | fulcrum-llm-ops/backend/app/api/deps.py:19-20 | "Bearer <key>" yields the key |
| Deps.PlainAuthorization | fulcrum-llm-ops/backend/app/api/deps.py:21-22 | an Authorization header without the Bearer prefix is the key itself |
| Deps.VerifyApiKey | fulcrum-llm-ops/backend/app/api/deps.py:5-38 | accepted iff auth is disabled or the extracted key is non-empty and equals the configured key; a missing key is a 401 "Missing API Key", a wrong one a 401 "Invalid API Key" |
| Deps.EmptyKeyNeverMatches | fulcrum-llm-ops/backend/app/api/deps.py:24-36 | with auth enabled and an empty configured key, every request is refused |
| Evaluations.CreateEvaluation | fulcrum-llm-ops/backend/app/api/evaluations.py:8-30 | an unknown run is a 404 and a rating outside 1..5 a 422, storing nothing; otherwise the evaluation is stored and echoed |
| GuardrailsApi.Respond | fulcrum-llm-ops/backend/app/api/guardrails.py:47-60 | blocked iff validation failed; a pass carries only the validated text; a block names the first failed validator, or "unknown", and carries the failure message |
| GuardrailsApi.BlockedInputNamesFirstValidator | fulcrum-llm-ops/backend/app/api/guardrails.py:42-60 | a blocked user input names "exception" when the guard raised, else the first failing validator |
| GuardrailsApi.UnavailableNeverBlocks | fulcrum-llm-ops/backend/app/api/guardrails.py:39-51 | without Guardrails AI nothing is blocked and the text is passed through |
| GuardrailsApi.ValidateContent | fulcrum-llm-ops/backend/app/api/guardrails.py:38-60 | source "user" validates as input, counting its violations; any other source validates as output and leaves the stats alone |
| GuardrailsApi.GetPolicies | fulcrum-llm-ops/backend/app/api/guardrails.py:33-36 | three policies whose 24h violation counts are the wrapper's counters |
| BackendGuardrails.Failed | fulcrum-llm-ops/backend/app/guardrails_wrapper.py:37-39 | `failed` is the negation of `passed` |
| BackendGuardrails.MetadataFields | fulcrum-llm-ops/backend/app/guardrails_wrapper.py:47 | the metadata as a dictionary, empty exactly when there is none |
| BackendGuardrails.ToDict | fulcrum-llm-ops/backend/app/guardrails_wrapper.py:41-48 | five fields, "passed" first and "metadata" last, an absent metadata written as {} |
| BackendGuardrails.PolicyOf | fulcrum-llm-ops/backend/app/guardrails_wrapper.py:142-155 | a validator counts for pii when its lowercased name contains "pii" or "regex", else toxicity for "toxic", else competitors for "competitor", else no policy |
| BackendGuardrails.Names | fulcrum-llm-ops/backend/app/guardrails_wrapper.py:141-157 | the validator names of the summaries, in order |
| BackendGuardrails.Messages | fulcrum-llm-ops/backend/app/guardrails_wrapper.py:159-160 | "<name>: <error>" for every summary, in order |
| BackendGuardrails.OutputOr | fulcrum-llm-ops/backend/app/guardrails_wrapper.py:125 | the guard's validated output when there is one, else the text |
| BackendGuardrails.InputSpec | fulcrum-llm-ops/backend/app/guardrails_wrapper.py:115-194 | unavailable: pass with the text and the fallback marker; a raising guard: fail as "exception" with its message; a passing guard: pass, marked passed; a failing guard: pass iff no failing validator's policy is active, listing every failure name and joining the messages with "; ", marked failed or monitor_only |
| BackendGuardrails.CompetitorsOnlyMonitored | fulcrum-llm-ops/backend/app/guardrails_wrapper.py:162-184 | with the starting stats, failures of competitor validators alone pass as monitor_only |
| BackendGuardrails.PiiBlocks | fulcrum-llm-ops/backend/app/guardrails_wrapper.py:162-184 | with the starting stats, any failing pii validator blocks the input |
| BackendGuardrails.OutputSpec | fulcrum-llm-ops/backend/app/guardrails_wrapper.py:196-218 | unavailable: pass with the text; a raising guard: fail as "exception"; otherwise pass iff the guard passed, with the validated text and, on failure, every validator name and the error messages joined by "; "; on a pass no failures and no message |
| BackendGuardrails.ErrorTexts | fulcrum-llm-ops/backend/app/guardrails_wrapper.py:209 | one error message per validator summary, in order |
| BackendGuardrails.GuardrailsWrapper.GetPolicies | fulcrum-llm-ops/backend/app/guardrails_wrapper.py:86-113 | the pii, toxicity and competitors policies, in that order, with their current status and violation count |
| BackendGuardrails.GuardrailsWrapper.ValidateInput | fulcrum-llm-ops/backend/app/guardrails_wrapper.py:115-194 | returns the input result and adds each counted failure to its policy's violations, nothing else |
| BackendGuardrails.GuardrailsWrapper.RecordFailures | fulcrum-llm-ops/backend/app/guardrails_wrapper.py:135-160 | the first loop: every summary bumps its policy's count, and the names and messages are collected in order |
| BackendGuardrails.GuardrailsWrapper.ValidateOutput | fulcrum-llm-ops/backend/app/guardrails_wrapper.py:196-218 | the output result; unavailable passes the text through |
| BackendGuardrails.FinalPassed | fulcrum-llm-ops/backend/app/guardrails_wrapper.py:162-177 | the second loop passes iff no summary's policy status is active |
| BackendGuardrails.BlocksKeepStatus | fulcrum-llm-ops/backend/app/guardrails_wrapper.py:144-177 | counting violations never changes which validators block |
| BackendGuardrails.IncrementedSnoc | fulcrum-llm-ops/backend/app/guardrails_wrapper.py:145-155 | one more summary adds one violation to its policy, if any |
| BackendGuardrails.CountPolicySnoc | fulcrum-llm-ops/backend/app/guardrails_wrapper.py:145-155 | one more summary counts for its own policy only |
| BackendGuardrails.WrapperRegistry.Get | fulcrum-llm-ops/backend/app/guardrails_wrapper.py:221-229 | the first call builds the wrapper with the starting stats; every later call returns the same one |
| MlflowStore.StatusToMlflow | fulcrum-llm-ops/backend/app/mlflow_store.py:12-16 | a frontend status has an MLflow name exactly when it is success, failed or running |
| MlflowStore.MlflowToStatus | fulcrum-llm-ops/backend/app/mlflow_store.py:18-22 | every MLflow status shows as one of success, failed, running or pending |
| MlflowStore.StatusMapsInverse | fulcrum-llm-ops/backend/app/mlflow_store.py:12-22 | the two maps undo each other on the three statuses both know, in both directions |
| MlflowStore.OtherStatusesPending | fulcrum-llm-ops/backend/app/mlflow_store.py:92 | any MLflow status other than FINISHED, FAILED and RUNNING shows as "pending" |
| MlflowStore.RunModel | fulcrum-llm-ops/backend/app/mlflow_store.py:90 | the model is a non-empty model_name, else a non-empty model, else "unknown"; never empty |
| MlflowStore.ToItem | fulcrum-llm-ops/backend/app/mlflow_store.py:83-121 | a listed item carries the run id, the mapped status, the resolved model, the latency, cost and confidence metrics and the label tag as found; parse success is the metric (0 when missing) in the range listing and the field's default 0 in the filtered listing |
| MlflowStore.ListConditions | fulcrum-llm-ops/backend/app/mlflow_store.py:57-66 | one status condition first, exactly when the status is non-empty and known, then one model condition exactly when the model is non-empty |
| MlflowStore.ModelConditionNotStatus | fulcrum-llm-ops/backend/app/mlflow_store.py:63-66 | the model condition is never mistaken for a status condition |
| MlflowStore.FilterString | fulcrum-llm-ops/backend/app/mlflow_store.py:68 | no conditions give the empty filter, one condition is the filter itself |
| MlflowStore.UnknownStatusNoFilter | fulcrum-llm-ops/backend/app/mlflow_store.py:60-68 | an unknown status with no model leaves the server search unfiltered |
| MlflowStore.Listed | fulcrum-llm-ops/backend/app/mlflow_store.py:77-123 | the client-side filters never list more runs than the server returned |
| MlflowStore.ListedExactly | fulcrum-llm-ops/backend/app/mlflow_store.py:94-121 | an item is listed if and only if it is the item of a returned run whose lowercased search text contains the lowercased query and whose confidence meets the floor |
| MlflowStore.ListRuns | fulcrum-llm-ops/backend/app/mlflow_store.py:49-123 | the loop lists exactly the filtered items of the runs the server search returns, in server order |
| MlflowStore.ListedSnoc | fulcrum-llm-ops/backend/app/mlflow_store.py:78-121 | one more run appends its item exactly when the filters keep it |
| MlflowStore.NoClientFilter | fulcrum-llm-ops/backend/app/mlflow_store.py:95-102 | with no query and no floor every returned run is listed |
| MlflowStore.ListedAboveFloor | fulcrum-llm-ops/backend/app/mlflow_store.py:101-104 | under a confidence floor every listed item has a confidence at or above it |
| MlflowStore.FloorDropsUnscored | fulcrum-llm-ops/backend/app/mlflow_store.py:103 | runs without a confidence metric are never listed under a floor |
| MlflowStore.Trunc | fulcrum-llm-ops/backend/app/mlflow_store.py:132 | Python's `int` of a real truncates toward zero, within one of the argument |
| MlflowStore.RangeFilterCutoff | fulcrum-llm-ops/backend/app/mlflow_store.py:130-134 | the filter is "attribute.start_time >= " followed by the cutoff, `days` days before now, in whole milliseconds |
| MlflowStore.ListRunsInRange | fulcrum-llm-ops/backend/app/mlflow_store.py:125-180 | one item per returned run, in order, each with its parse-success value and no client-side filtering |
| MlflowStore.ArtifactType | fulcrum-llm-ops/backend/app/mlflow_store.py:196-203 | "json" exactly for a case-insensitive .json path, "text" exactly for the listed text extensions otherwise, else "file" |
| MlflowStore.ArtifactName | fulcrum-llm-ops/backend/app/mlflow_store.py:207 | the name is the suffix of the path after its last "/" (the whole path when there is none), and contains no "/" |
| MlflowStore.Flatten | fulcrum-llm-ops/backend/app/mlflow_store.py:185-212 | every listed file carries its classified type and its last path segment; a file lists itself and a failed directory listing gives nothing |
| MlflowStore.FlattenFrom | fulcrum-llm-ops/backend/app/mlflow_store.py:192-211 | the files from one position of a listing on keep the same type and name rule |
| MlflowStore.ListArtifacts | fulcrum-llm-ops/backend/app/mlflow_store.py:185-239 | listing a run's root gives the flattened tree, or nothing when the listing fails |
| MlflowStore.ListDir | fulcrum-llm-ops/backend/app/mlflow_store.py:192-212 | the loop over a listing, recursing into directories, gives exactly the flattened directory |
| MlflowStore.TerminalStatus | fulcrum-llm-ops/backend/app/mlflow_store.py:524 | a known status maps to its MLflow name, any other to RUNNING |
| MlflowStore.MetricEffects | fulcrum-llm-ops/backend/app/mlflow_store.py:527-529 | one metric write per given metric, in order |
| MlflowStore.Terminate | fulcrum-llm-ops/backend/app/mlflow_store.py:523-525 | the status step only terminates the run |
| MlflowStore.Texts | fulcrum-llm-ops/backend/app/mlflow_store.py:531-535 | only text writes; the response is written to llm_response.txt and the error to error.txt, each exactly when it is non-empty |
| MlflowStore.UpdateEffectsTexts | fulcrum-llm-ops/backend/app/mlflow_store.py:531-535 | `update_run` writes llm_response.txt and error.txt each exactly when its text is non-empty |
| MlflowStore.UpdateEffectsShape | fulcrum-llm-ops/backend/app/mlflow_store.py:522-538 | the run is terminated first exactly when a status is given, with the mapped status and the end time when asked; every metric is written; confidence is recomputed, last, exactly for success and failed |
| MlflowStore.UpdateRun | fulcrum-llm-ops/backend/app/mlflow_store.py:522-538 | the method performs exactly the writes described by the update specification, in order |
| MlflowStore.UnknownStatusRuns | fulcrum-llm-ops/backend/app/mlflow_store.py:524-537 | an unknown status terminates the run as RUNNING and triggers no recomputation |
| MlflowStore.SignalsOf | fulcrum-llm-ops/backend/app/mlflow_store.py:557-575 | the signals are the mapped status, the response text (or ""), the truncated retrieval count or 1 when it is 0 and retrieved sources exist, and parse success when the metric is 1 or a parsed output exists |
| MlflowStore.FallbacksNeverLower | fulcrum-llm-ops/backend/app/mlflow_store.py:564-575 | the artifact fallbacks never lower the score the metrics alone would give |
| MlflowStore.ComputeAndLogConfidence | fulcrum-llm-ops/backend/app/mlflow_store.py:552-595 | a run that is not a success scores 0 with the low label; a success scores the capped signal score with its label; then, in order, the score, in [0, 1] (the hundredths divided by 100), is logged as the confidence metric and is below 0.5 exactly for the low label, the label as the confidence_label tag, the components and the explanation as JSON artifacts, and the run's alerts are evaluated |
| Replay.Temperature | fulcrum-llm-ops/backend/app/api/replay.py:162-165 | the run's temperature parameter when it parses, 0.7 when it is absent or does not parse |
| Replay.GetRunStages | fulcrum-llm-ops/backend/app/api/replay.py:141-183 | a missing run is a 404 "Run not found"; otherwise the model parameter (default "unknown"), the temperature, the run's confidence, confidence label and components, the question parameter (default "") and every stored artifact as it is: sources, KPI summary, prompt packet, response, parsed forecast and parse error |
| Replay.ApplyOverrides | fulcrum-llm-ops/backend/app/api/replay.py:200-220 | each of the five overridable stages takes its override exactly when one is given; the parsed forecast and parse error never come from overrides |
| Replay.OverridesIdentityAndIdempotent | fulcrum-llm-ops/backend/app/api/replay.py:211-220 | no overrides change nothing, and applying the same overrides twice is applying them once |
| Replay.Shown | fulcrum-llm-ops/backend/app/api/replay.py:232 | an absent message is printed as "None" by the f-string |
| Replay.OutputChecked | fulcrum-llm-ops/backend/app/api/replay.py:305-312 | the response is replaced by the validated text when there is one, and a failed check appends the guardrails warning with its message |
| Replay.CallLlm | fulcrum-llm-ops/backend/app/api/replay.py:252-302 | the model is called exactly when the API key is non-empty and the model is not "mock-llm"; a real reply costs 0.001 per thousand characters of prompt and reply; a failed call answers with the error text, costs nothing and records the error; otherwise the mock costs 0.002 and answers the fixed forecast |
| Replay.FencedJson | fulcrum-llm-ops/backend/app/api/replay.py:322-324 | a fenced block is found only in a text containing the json fence, and its content is stripped of surrounding whitespace |
| Replay.Wrapped | fulcrum-llm-ops/backend/app/api/replay.py:327-335 | a parsed object becomes a one-element list, a list stays as it is |
| Replay.Parse | fulcrum-llm-ops/backend/app/api/replay.py:316-342 | parsing succeeds exactly when the fenced block, or the whole text when there is none, decodes; a decoding error is recorded only for a fenced block; a failure yields no forecast; on success the forecast is the decoded value with an object wrapped in a one-element list and null as no forecast |
| Replay.HeuristicScore | fulcrum-llm-ops/backend/app/api/replay.py:345-363 | the heuristic lies in [0, 1]; it is 0 exactly when no signal fires and 1 exactly when all five do |
| Replay.ConfidenceHeuristic | fulcrum-llm-ops/backend/app/api/replay.py:345-363 | the heuristic lies in [0, 1] and is 1 when parsing succeeded, there are at least three sources and the response mentions assumptions, risks and a bullet |
| Replay.HeuristicMonotone | fulcrum-llm-ops/backend/app/api/replay.py:346-353 | a successful parse or more sources never lower the heuristic |
| Replay.Keys | fulcrum-llm-ops/backend/app/api/replay.py:366-373 | the metric names, one per metric, in order |
| Replay.ReplayMetrics | fulcrum-llm-ops/backend/app/api/replay.py:366-373 | the metrics are exactly latency_ms, cost_usd, confidence, parse_success, retrieval_count and prompt_length_chars, each with its given value: the heuristic as confidence, parse_success 1 exactly on success, the count and prompt length as reals |
| Replay.CreateStagedReplay | fulcrum-llm-ops/backend/app/api/replay.py:187-401 | a missing source run is its 404; the guard blocks only from stage 3 or earlier and only when the check failed with guardrails_ai "failed"; the model is called only from stage 3 or earlier on the guard-fixed prompt; from stage 4 the response is the merged one and a missing one fails; the logged stages keep the merged inputs and the parse result; the metrics are the LLM call's latency and cost from stage 3 or earlier (0 from stage 4), the heuristic, parse_success 1 exactly when parsing succeeded, the retrieval count and the final prompt's length |
| Replay.LegacyGuard | fulcrum-llm-ops/backend/app/api/replay.py:28-41 | the legacy replay is blocked exactly when the input check failed with guardrails_ai "failed", returning the "blocked" response with zero metrics; otherwise the validated text or the prompt is sent |
| Replay.PassingCheckNeverBlocks | fulcrum-llm-ops/backend/app/api/replay.py:29 | a passing input check never blocks |
| AppGuardrails.ClassifyError | app/guardrails_wrapper.py:137-148 | an exception message counts for toxicity if it mentions toxic language, else PII if it mentions PII, else competitors if it mentions competitors, else for no policy; each case both ways |
| AppGuardrails.FailureType | app/guardrails_wrapper.py:138-148 | the failure is named after the validator of the matched policy, and "validation_error" exactly when none matched |
| AppGuardrails.InputResult | app/guardrails_wrapper.py:116-156 | the input passes exactly when the guards are unavailable (fallback metadata) or the guard returns; a returning guard gives its output or the original text; a raise fails with the named failure, the original text, the exception text as message and as error metadata |
| AppGuardrails.CountedStats | app/guardrails_wrapper.py:140-148 | only the violation counter of the matched policy grows, by one; every status stays |
| AppGuardrails.UnrecognisedLeavesCounters | app/guardrails_wrapper.py:138-156 | an unrecognised exception message leaves every counter unchanged and names the failure "validation_error" |
| AppGuardrails.ToxicWinsOverPii | app/guardrails_wrapper.py:140-145 | a message mentioning toxic language and PII is counted as toxic language only |
| AppGuardrails.AppGuardrailsWrapper.constructor | app/guardrails_wrapper.py:54-84 | the wrapper starts with the default stats, available exactly when building the guards succeeded |
| AppGuardrails.AppGuardrailsWrapper.ValidateInput | app/guardrails_wrapper.py:116-156 | returns the input result and updates the counters as specified, leaving availability unchanged |
| AppGuardrails.AppGuardrailsWrapper.ValidateOutput | app/guardrails_wrapper.py:160-182 | the output validation of the backend wrapper; an unavailable wrapper passes the text through |
| AppGuardrails.AppGuardrailsWrapper.CheckInput | app/guardrails_wrapper.py:207-214 | exactly what input validation returns, with the same counter update |
| CustomValidators.DetectPII | app/guardrails_custom.py:24-33 | the value passes exactly when the pattern finds nothing; a match fails with "Found PII: " and the match, and its fix replaces the match by [REDACTED] |
| CustomValidators.FoundIsRedacted | app/guardrails_custom.py:27-32 | a match found in the value fails and the fix contains [REDACTED] |
| CustomValidators.ReplaceLeavesReplacement | app/guardrails_custom.py:31-55 | replacing an occurring word leaves the replacement in the result |
| CustomValidators.Mask | app/guardrails_custom.py:55 | the corrected fix: same length as the value, each character kept or starred |
| CustomValidators.MaskClears | app/guardrails_custom.py:50-55 | after the corrected fix the blocked word no longer occurs in the lowercased value, whatever its capitalisation |
| CustomValidators.MaskLowercase | app/guardrails_custom.py:55 | on an already lowercase value the corrected fix is the source's replacement by the same number of '*' |
| CustomValidators.FixAsWritten | app/guardrails_custom.py:55 | the fix as written replaces only exact-case occurrences and leaves a value without any unchanged |
| CustomValidators.FixAsWrittenLength | app/guardrails_custom.py:55 | the fix as written keeps the value's length |
| CustomValidators.FixAsWrittenMissesUppercase | app/guardrails_custom.py:50-55 | "HATE" is detected through its lowercase form, but the fix as written returns it unchanged, still toxic |
| CustomValidators.ToxicLanguage | app/guardrails_custom.py:47-57 | follows the corrected fix (see "## Findings"): the value passes exactly when no blocklist word (hate, kill, shut up, idiot, stupid) occurs in it lowercased; otherwise it fails with the first such word in blocklist order, and its fix masks every case variant of that word |
| CustomValidators.ToxicFixClean | app/guardrails_custom.py:53-56 | the fix for a blocked word keeps the length and no longer contains the word |
| CustomValidators.Mentioned | app/guardrails_custom.py:66-69 | the competitors mentioned, case-insensitively, in their configured order, and only those |
| CustomValidators.MentionedConcat | app/guardrails_custom.py:67-69 | the mentions of two lists of competitors are the mentions of each, in order |
| CustomValidators.CompetitorCheck | app/guardrails_custom.py:65-76 | the value passes exactly when no competitor occurs in it case-insensitively; otherwise it fails with the mentioned competitors joined by ", " and the value unchanged as fix |
| Validation.Errors | app/validation.py:27-38 | no errors exactly when the normalized text is within the length limit and has no null character; the length error comes first and the null-byte error last |
| Validation.Validate | app/validation.py:4-46 | an empty text and a whitespace-only text each fail with their one message and an empty normalized text; otherwise the normalized text is the stripped text, and it is valid exactly when there are no errors, in which case it is non-empty, within the limit and free of null characters |
| Validation.ValidateUserText | app/validation.py:4-46 | the straight-line checks compute exactly the specified result |
| Validation.ValidateIdempotent | app/validation.py:22-46 | validating an accepted text's normalized form accepts it unchanged |
| Validation.BothErrors | app/validation.py:28-38 | a too long text containing a null character reports both errors, length first |
| Validation.BlankCase | verify_validation.py:15 | three spaces are rejected |
| Validation.PlainCase | verify_validation.py:16 | "Hello world" is accepted |
| Validation.LongCase | verify_validation.py:17 | 25000 characters exceed the default limit |
| Validation.NullCase | verify_validation.py:18 | a text with a null byte is rejected |
| Retrieve.Cleaned | app/retrieve.py:18-22 | the kept paragraphs are stripped and non-blank, never more than the pieces split off |
| Retrieve.CleanedBlank | app/retrieve.py:20-22 | a blank piece is skipped |
| Retrieve.CleanedKept | app/retrieve.py:20-22 | a non-blank piece is kept, stripped, after the earlier ones |
| Retrieve.FoldHolds | app/retrieve.py:18-29 | the greedy grouping keeps, in order, exactly the paragraphs seen, in non-empty groups, each group of several paragraphs at most one character over the chunk size |
| Retrieve.JoinStep | app/retrieve.py:24-25 | a paragraph that fits joins the open group and keeps the grouping invariant |
| Retrieve.CloseStep | app/retrieve.py:26-29 | a paragraph that does not fit closes the open group, starts a new one and keeps the grouping invariant |
| Retrieve.GroupsPartition | app/retrieve.py:12-33 | flattening a document's chunks gives back its paragraphs in order, none lost or repeated, and no chunk is empty |
| Retrieve.GroupsBounded | app/retrieve.py:24-29 | a chunk of two or more paragraphs is at most chunk_size + 1 characters long |
| Retrieve.TwoParagraphsReachSize | app/retrieve.py:24-29 | with chunk size 10, paragraphs of 8, 8 and 1 characters give a two-paragraph chunk of 11 characters, so a chunk of at least chunk_size characters need not be a single paragraph |
| Retrieve.JoinClean | app/retrieve.py:25-33 | paragraphs that are stripped and non-blank join into a chunk that is stripped and non-blank |
| Retrieve.TrimText | app/retrieve.py:25-33 | stripping the chunk text removes exactly the leading separator the loop puts before a first joined paragraph |
| Retrieve.SepIsWhitespace | app/retrieve.py:14-25 | the separator consists of whitespace that stripping removes |
| Retrieve.Tagged | app/retrieve.py:28-33 | one chunk per group, in order, each carrying the document's filename and the group joined by "\n\n" |
| Retrieve.ChunksClean | app/retrieve.py:20-33 | every chunk of every document is non-empty and has no leading or trailing whitespace |
| Retrieve.GroupMembersClean | app/retrieve.py:20-29 | every group is non-empty and holds only clean paragraphs |
| Retrieve.FitMatches | app/retrieve.py:24-25 | the code's concatenation of the current chunk text is the text of the grown group |
| Retrieve.FlushMatches | app/retrieve.py:26-29 | the code's flush appends the stripped chunk text exactly when it was non-empty, and the new chunk text is the paragraph |
| Retrieve.ResidueMatches | app/retrieve.py:32-33 | flushing the residual text gives the document's last group |
| Retrieve.AddPiece | app/retrieve.py:18-29 | one iteration of the paragraph loop keeps the loop state equal to the grouping of the pieces seen |
| Retrieve.SkipBlank | app/retrieve.py:21-22 | a blank paragraph leaves the loop state unchanged |
| Retrieve.FlushResidue | app/retrieve.py:32-33 | after the loop the chunks are exactly the document's groups, tagged |
| Retrieve.ChunkDocument | app/retrieve.py:13-33 | the chunks of one document are its paragraphs, split on "\n\n" and cleaned, grouped greedily and tagged with its filename |
| Retrieve.ChunkDocuments | app/retrieve.py:4-35 | the chunks of all documents, document by document and in paragraph order |
| Pipeline.ResultOf | app/pipeline/pipeline.py:70-77 | a raising step gives an unsuccessful result with no output, the message as its one error and the exception type as metadata; a returning step gives its own result |
| Pipeline.RecordOf | app/pipeline/pipeline.py:52-89 | a step's telemetry record names the step, carries its success and errors, its metadata when it returned and its exception message when it raised |
| Pipeline.Execute | app/pipeline/pipeline.py:39-92 | no more records than steps, one input per record, the first input the initial one, and a final result exactly when there are steps |
| Pipeline.ExecuteCons | app/pipeline/pipeline.py:39-68 | a first step that succeeds is followed by running the rest on its output |
| Pipeline.RecordsLineUp | app/pipeline/pipeline.py:39-89 | the k-th record is the record of running the k-th step on the k-th input |
| Pipeline.InputsChain | app/pipeline/pipeline.py:60-68 | each step but the last executed succeeded, and its output is the next step's input |
| Pipeline.FinalIsLast | app/pipeline/pipeline.py:60-92 | the final result is the last executed step's, and execution stopped early only at a failure |
| Pipeline.Appended | app/pipeline/pipeline.py:49-83 | the step_runs list is created on the first record and only grows by the records, in order |
| Pipeline.AppendedSnoc | app/pipeline/pipeline.py:52-83 | one more record is appended at the end of the list |
| Pipeline.EmptyPipeline | app/pipeline/pipeline.py:102 | with no steps the result is the failure "No steps executed" and nothing is recorded |
| Pipeline.SuccessMeansAllRan | app/pipeline/pipeline.py:39-97 | a successful result means every step ran and succeeded |
| Pipeline.StopsAtFirstFailure | app/pipeline/pipeline.py:60-64 | an unsuccessful step is the last one run, and its result is returned |
| Pipeline.RaiseStops | app/pipeline/pipeline.py:70-92 | a raising step is the last one run; the result carries its message and exception type, and its record its message as error and exception |
| Pipeline.OutputsChain | app/pipeline/pipeline.py:60-68 | each step followed by another returned successfully and fed its output forward |
| Pipeline.ExecuteAt | app/pipeline/pipeline.py:39-92 | one iteration of the loop: record the step, stop on failure, otherwise continue on its output |
| Pipeline.PipelineContext.constructor | app/pipeline/pipeline.py:30-31 | a fresh context has no step_runs and no recorded duration |
| Pipeline.PipelineContext.Record | app/pipeline/pipeline.py:49-89 | appends one record to the step_runs list, creating it when absent |
| Pipeline.Pipeline.constructor | app/pipeline/pipeline.py:15-17 | a pipeline keeps its name and steps |
| Pipeline.Pipeline.Run | app/pipeline/pipeline.py:19-102 | returns the outcome of running the steps in order; a given context gets exactly the records of the executed steps appended and its pipeline duration recorded |
| KpiDisplay.LineLabel | app/main.py:248-256 | a line is labelled Revenue, Open Pipeline or 2026 Target by the first of the three prefixes it starts with, checked in that order, and not at all otherwise |
| KpiDisplay.Field | app/main.py:249-255 | the value part exists exactly when the line contains "**: "; it is the text after the first "**: " up to the next one or the end of the line, and never contains the separator itself |
| Strings.SecondPiece | app/main.py:249 | the second piece of a split starts right after the first separator and runs to the next separator or the end |
| KpiDisplay.FieldOf | app/main.py:249 | a line with a colon-free head, the separator and a value without the separator yields that value |
| KpiDisplay.RevenueLine | app/main.py:248-250 | a revenue line with its year and amount gives the card ("Revenue", amount) |
| KpiDisplay.Kpis | app/main.py:244-257 | at most one card per line, each labelled with one of the three labels; a failure is the index error |
| KpiDisplay.Labelled | app/main.py:247-256 | the lines that start with one of the three prefixes, in order |
| KpiDisplay.KpisFail | app/main.py:249-255 | parsing fails exactly when some labelled line lacks the "**: " separator |
| KpiDisplay.KpisAreLabelledLines | app/main.py:245-257 | on success there is one card per labelled line, in line order, with that line's label and value |
| KpiDisplay.ParseKpisForDisplay | app/main.py:244-257 | the loop over the lines split on "\n" computes exactly the specified cards or the index error |
| AiRouting.Name | ai-confidence/src/ai_confidence/routing.py:1-9 | the route is one of stp, assist, escalate and block |
| AiRouting.Route | ai-confidence/src/ai_confidence/routing.py:1-9 | stp exactly from 80, assist exactly from 60 below 80, escalate exactly from 10 below 60, block exactly below 10 |
| AiRouting.RouteMonotone | ai-confidence/src/ai_confidence/routing.py:1-9 | a higher confidence never routes to a more restrictive route |
| AiRouting.NamesDistinct | ai-confidence/src/ai_confidence/routing.py:3-9 | the four route names are distinct |
| AiHeuristics.Sims | ai-confidence/src/ai_confidence/heuristics.py:6 | the similarities are exactly the present similarity scores of the chunks |
| AiHeuristics.Max | ai-confidence/src/ai_confidence/heuristics.py:10 | the maximum is one of the scores and no score exceeds it |
| AiHeuristics.SumBounds | ai-confidence/src/ai_confidence/heuristics.py:11 | a sum of n scores between lo and hi lies between n·lo and n·hi |
| AiHeuristics.RetrievalQuality | ai-confidence/src/ai_confidence/heuristics.py:5-15 | with no scores the quality is 0 with reason no_similarity_scores; otherwise it is 0.6·max + 0.4·average clamped to [0, 1], reporting the max and the average |
| AiHeuristics.ScoreBetweenAverageAndMax | ai-confidence/src/ai_confidence/heuristics.py:10-15 | for scores in [0, 1] the clamp never applies and the quality lies between the average and the maximum |
| AiHeuristics.SimsAppend | ai-confidence/src/ai_confidence/heuristics.py:6 | the similarities of two lists of chunks are those of the first followed by those of the second, so order and repeats are kept |
| AiHeuristics.SimsSingle | ai-confidence/src/ai_confidence/heuristics.py:6 | a chunk contributes its similarity exactly when it has one |
| AiHeuristics.SimsInRange | ai-confidence/src/ai_confidence/heuristics.py:6 | scores of chunks in [0, 1] stay in [0, 1] |
| AiHeuristics.AverageAtMostMax | ai-confidence/src/ai_confidence/heuristics.py:10-11 | the average of scores in [0, 1] lies between 0 and the maximum |
| AiJudge.Clamp01 | ai-confidence/src/ai_confidence/judge.py:7-8 | the result lies in [0, 1], equals the argument inside it and the nearer bound outside it |
| AiJudge.Clamp01Idempotent | ai-confidence/src/ai_confidence/judge.py:7-8 | clamping twice is clamping once |
| AiJudge.Clamp01Monotone | ai-confidence/src/ai_confidence/judge.py:7-8 | a larger argument never clamps to a smaller result |
| AiJudge.FirstIndex | ai-confidence/src/ai_confidence/judge.py:5 | the position of the first '{', none exactly when there is no '{' |
| AiJudge.LastIndex | ai-confidence/src/ai_confidence/judge.py:5 | the position of the last '}', none exactly when there is no '}' |
| AiJudge.JsonSpan | ai-confidence/src/ai_confidence/judge.py:5-11 | a match starts with '{', ends with '}' and is at least two characters long |
| AiJudge.JsonSpanShape | ai-confidence/src/ai_confidence/judge.py:5-11 | the greedy match runs from the first '{' to the last '}': no '{' before it and no '}' after it |
| AiJudge.JsonSpanNone | ai-confidence/src/ai_confidence/judge.py:11-13 | there is no match exactly when no '{' comes before a '}' |
| AiJudge.ExtractJson | ai-confidence/src/ai_confidence/judge.py:10-14 | no match raises "Judge did not return JSON."; otherwise the matched span is decoded |
| AiScorer.Get | ai-confidence/src/ai_confidence/scorer.py:39-51 | a judge field is absent exactly when no entry carries the key; a present one is an entry of the object |
| AiScorer.Keys | ai-confidence/src/ai_confidence/scorer.py:37-50 | the keys of a judge object, each exactly once |
| AiScorer.Float | ai-confidence/src/ai_confidence/scorer.py:51 | Python's `float` of a number is the number; of null, a list or an object it raises |
| AiScorer.Texts | ai-confidence/src/ai_confidence/scorer.py:42-43 | the strings of a list of JSON strings, in order |
| AiScorer.Chars | ai-confidence/src/ai_confidence/scorer.py:43 | joining a string iterates over its characters |
| AiScorer.JoinViolations | ai-confidence/src/ai_confidence/scorer.py:42-43 | a falsy violations value joins to ""; a list of strings joins them with ", "; a list holding a non-string raises a TypeError; a truthy number or boolean raises |
| AiScorer.PolicyOf | ai-confidence/src/ai_confidence/scorer.py:25-43 | a PII hit scores 0 with gate PII_PCI_DETECTED and its note, without asking the judge; otherwise a reply without JSON raises its error and one whose JSON is no object raises AttributeError; a truthy (or missing) "pass" scores 1 with no gate; a falsy one scores 0 with gate POLICY_JUDGE_FAIL and the note "Policy violations: " + the joined violations, or raises when they cannot be joined; the judge's object is kept |
| AiScorer.CheckPolicy | ai-confidence/src/ai_confidence/scorer.py:25-43 | the statements that fill the gates and notes compute exactly the specified policy check |
| AiScorer.GroundingOf | ai-confidence/src/ai_confidence/scorer.py:48-51 | the groundedness is the judge's score clamped to [0, 1], 0 when the score is missing, and the judge's object is kept |
| AiScorer.Capped | ai-confidence/src/ai_confidence/scorer.py:54-62 | the weighted sum 0.35·retrieval + 0.50·groundedness + 0.15·policy, cut to min(sum, 0.2) when the policy score is 0 (whatever the groundedness), to min(sum, 0.5) when only groundedness is below 0.4, and unchanged otherwise |
| AiScorer.RoundHalfEven | ai-confidence/src/ai_confidence/scorer.py:64 | Python's `round` gives the nearest integer, an even one on a tie |
| AiScorer.Percent | ai-confidence/src/ai_confidence/scorer.py:64 | the overall confidence is an integer in 0..100 that respects the 0.2 and 0.5 caps |
| AiScorer.Report | ai-confidence/src/ai_confidence/scorer.py:16-80 | a report has a confidence in 0..100 routed by that confidence, groundedness and retrieval quality in [0, 1], and the run's ids |
| AiScorer.PiiHitSkipsJudge | ai-confidence/src/ai_confidence/scorer.py:26-33 | a PII hit gives policy score 0, gate PII_PCI_DETECTED first, its note, no policy judge entry and a confidence of at most 20, whatever the policy judge would have answered |
| AiScorer.JudgeFailGates | ai-confidence/src/ai_confidence/scorer.py:33-58 | a judge answering pass = false gives policy score 0, gate POLICY_JUDGE_FAIL first, keeps the judge's answer and caps the confidence at 20 |
| AiScorer.MissingPassCountsAsPass | ai-confidence/src/ai_confidence/scorer.py:39 | a judge answer without "pass" counts as passing: policy score 1 and no policy gate |
| AiScorer.LowGroundednessCaps | ai-confidence/src/ai_confidence/scorer.py:60-62 | groundedness below 0.4 caps the confidence at 50 and adds LOW_GROUNDEDNESS after the policy gates |
| AiScorer.UncappedScore | ai-confidence/src/ai_confidence/scorer.py:54-64 | with policy score 1 and groundedness at least 0.4 no gate fires and the confidence is the rounded weighted sum in percent |
| AiScorer.ComputeConfidence | ai-confidence/src/ai_confidence/scorer.py:16-80 | the step-by-step computation gives exactly the specified report, or the error a judge reply raises |
| MetricsTable.WithField | fulcrum-llm-ops/frontend/src/pages/Metrics.tsx:378-383 | exactly the runs whose model, or status, is the chosen one |
| MetricsTable.FilteredRuns | fulcrum-llm-ops/frontend/src/pages/Metrics.tsx:376-385 | a fetched run is shown exactly when it matches each filter that is not "all"; with both filters at "all" every fetched run is shown, as fetched |
| MetricsTable.WithFieldAppend | fulcrum-llm-ops/frontend/src/pages/Metrics.tsx:378-383 | filtering by model or status keeps the runs' order |
| MetricsTable.FilteredRunsAppend | fulcrum-llm-ops/frontend/src/pages/Metrics.tsx:376-385 | the filtered table keeps the order of the fetched runs |
| MetricsTable.LocaleCompare | fulcrum-llm-ops/frontend/src/pages/Metrics.tsx:396-399 | the string comparison is at most zero exactly when the first string is not after the second, and zero only for equal strings |
| MetricsTable.DescIsSwappedAsc | fulcrum-llm-ops/frontend/src/pages/Metrics.tsx:397-401 | descending compares the two runs the other way round |
| MetricsTable.BeforeMeans | fulcrum-llm-ops/frontend/src/pages/Metrics.tsx:389-401 | ascending on status or model orders by the string, ascending on the other columns by the number, a missing value or start time counting as 0 |
| MetricsTable.OrderTotal | fulcrum-llm-ops/frontend/src/pages/Metrics.tsx:389-402 | the comparator is a consistent total order on runs for every column and direction |
| MetricsTable.SortedRuns | fulcrum-llm-ops/frontend/src/pages/Metrics.tsx:387-404 | the sorted copy is ordered by the comparator, is a permutation of the filtered runs, and keeps runs the comparator ties in their filtered order, as the stable `Array.prototype.sort` does |
| MetricsTable.ComparatorAntisymmetric | fulcrum-llm-ops/frontend/src/pages/Metrics.tsx:389-402 | swapping the two runs negates the comparator |
| Sorting.Sort | fulcrum-llm-ops/frontend/src/pages/Metrics.tsx:389 | the sorted list is ordered and a permutation of the input |
| Sorting.SortStable | fulcrum-llm-ops/frontend/src/pages/Metrics.tsx:389 | the sort is stable: elements the order ranks equal keep their relative order |
| Sorting.InsertTies | fulcrum-llm-ops/frontend/src/pages/Metrics.tsx:389 | insertion places an element after every element it ties with |
| MetricsTable.Reverse | fulcrum-llm-ops/frontend/src/pages/Metrics.tsx:397-401 | the runs in the opposite order |
| MetricsTable.DescReversedIsAsc | fulcrum-llm-ops/frontend/src/pages/Metrics.tsx:397-401 | a table sorted descending, read backwards, is sorted ascending |
| MetricsTable.StatusList | fulcrum-llm-ops/frontend/src/pages/Metrics.tsx:430 | the status of each fetched run, in order |
| MetricsTable.Statuses | fulcrum-llm-ops/frontend/src/pages/Metrics.tsx:428-432 | the filter's status choices are exactly the statuses of the fetched runs, each once |
| Sorting.Distinct | fulcrum-llm-ops/frontend/src/pages/Metrics.tsx:428-432 | a Set's elements: each element once, exactly those of the input, in order of first appearance |
| MetricsTable.NextSort | fulcrum-llm-ops/frontend/src/pages/Metrics.tsx:406-413 | a click always selects the clicked column; on the current column the direction flips, on another it is descending |
| MetricsTable.NextSortTwice | fulcrum-llm-ops/frontend/src/pages/Metrics.tsx:406-413 | two clicks on a header restore the direction of the current column, or leave a new column ascending |
| MetricsTable.MetricsPage.constructor | fulcrum-llm-ops/frontend/src/pages/Metrics.tsx:322-325 | the table starts sorted by start time, descending, with both filters at "all" |
| MetricsTable.MetricsPage.ToggleSort | fulcrum-llm-ops/frontend/src/pages/Metrics.tsx:406-413 | a click on the current column flips its direction; a click on another selects it, descending; the filters stay |
| MetricsTable.MetricsPage.Rows | fulcrum-llm-ops/frontend/src/pages/Metrics.tsx:376-404 | the rows are exactly the filtered runs, as a permutation, ordered by the current column and direction, with rows that compare equal in their filtered order (a stable sort) |
| CompareUi.Without | fulcrum-llm-ops/frontend/src/pages/Compare.tsx:24 | the selection less the clicked id, nothing else removed, and unchanged when the id was not selected |
| CompareUi.WithoutKeepsDistinct | fulcrum-llm-ops/frontend/src/pages/Compare.tsx:24 | removing a selected id from a selection without duplicates shortens it by one and keeps it free of duplicates |
| CompareUi.ToggledKeepsSelection | fulcrum-llm-ops/frontend/src/pages/Compare.tsx:22-28 | a click never leads to more than four selected runs or a run selected twice |
| CompareUi.ToggledDeselects | fulcrum-llm-ops/frontend/src/pages/Compare.tsx:24 | a click on a selected run deselects it and keeps every other selected run |
| CompareUi.ToggledSelects | fulcrum-llm-ops/frontend/src/pages/Compare.tsx:25-26 | a click on an unselected run adds it last, unless four are already selected, when nothing changes |
| CompareUi.ToggledTwice | fulcrum-llm-ops/frontend/src/pages/Compare.tsx:22-28 | two clicks on an unselected run, with room for it, restore the selection |
| CompareUi.WithoutAppended | fulcrum-llm-ops/frontend/src/pages/Compare.tsx:24-26 | removing the id just appended gives back the earlier selection |
| CompareUi.ComparePage.constructor | fulcrum-llm-ops/frontend/src/pages/Compare.tsx:12-15 | the page starts with nothing selected, no comparison, idle and without error |
| CompareUi.ComparePage.ToggleRun | fulcrum-llm-ops/frontend/src/pages/Compare.tsx:22-28 | the selection becomes the toggled one and stays at most four distinct ids; the rest of the page is unchanged |
| CompareUi.ComparePage.HandleCompare | fulcrum-llm-ops/frontend/src/pages/Compare.tsx:30-35 | with fewer than two selected runs nothing is requested or changed; otherwise the page turns busy, clears the error and requests the selected ids in selection order |
| CompareUi.ComparePage.CompareSettled | fulcrum-llm-ops/frontend/src/pages/Compare.tsx:35-41 | a reply replaces the comparison, an error sets the message and keeps the old comparison; either way the page is idle again |
| ReplayStudioPage.StageField | fulcrum-llm-ops/frontend/src/pages/ReplayStudio.tsx:246-350 | stages 0 to 4 each edit one overridable field; the parsed-forecast stage and anything outside 0..4 edit none |
| ReplayStudioPage.ResolveAfterUpdate | fulcrum-llm-ops/frontend/src/pages/ReplayStudio.tsx:196-209 | after one override is set, that field reads the new value and every other field reads what it read before |
| ReplayStudioPage.ResolveWithoutOverrides | fulcrum-llm-ops/frontend/src/pages/ReplayStudio.tsx:196-202 | without overrides a field shows the source run's value, or "" when the run lacks it or is not loaded |
| ReplayStudioPage.Prop | fulcrum-llm-ops/frontend/src/pages/ReplayStudio.tsx:88-93 | a property of the reply exists only when the reply is an object binding that key |
| ReplayStudioPage.Last | fulcrum-llm-ops/frontend/src/pages/ReplayStudio.tsx:88-93 | a property lookup finds a binding of the key exactly when there is one |
| ReplayStudioPage.Normalized | fulcrum-llm-ops/frontend/src/pages/ReplayStudio.tsx:85-96 | the playground reply is kept as new run id, output text, latency, cost and confidence, with parse success always 0 |
| ReplayStudioPage.ReplayStudio.constructor | fulcrum-llm-ops/frontend/src/pages/ReplayStudio.tsx:42-65 | the page starts on stage 0 replaying from stage 0, with an empty prompt, no overrides, model gpt-4-turbo, temperature 0.7, both recompute switches off, nothing loaded and nothing pending |
| ReplayStudioPage.ReplayStudio.SourceLoaded | fulcrum-llm-ops/frontend/src/pages/ReplayStudio.tsx:74-80 | a loaded source run sets the original stages, its temperature, and its model or gpt-4-turbo when empty; overrides and stages stay |
| ReplayStudioPage.ReplayStudio.StageValue | fulcrum-llm-ops/frontend/src/pages/ReplayStudio.tsx:196-202 | the override when set, else the source run's value, else "" |
| ReplayStudioPage.ReplayStudio.UpdateOverride | fulcrum-llm-ops/frontend/src/pages/ReplayStudio.tsx:204-209 | sets exactly one override; every other field shows what it showed |
| ReplayStudioPage.ReplayStudio.EditStage | fulcrum-llm-ops/frontend/src/pages/ReplayStudio.tsx:228-350 | a read-only or non-stage editor changes nothing; a text stage sets its override to the text; a JSON stage sets the parsed value, or keeps the old override when the text does not parse |
| ReplayStudioPage.ReplayStudio.EditPrompt | fulcrum-llm-ops/frontend/src/pages/ReplayStudio.tsx:219 | the playground prompt becomes the text |
| ReplayStudioPage.ReplayStudio.SelectStage | fulcrum-llm-ops/frontend/src/pages/ReplayStudio.tsx:531 | a click in the stage list shows that stage and leaves the replay point |
| ReplayStudioPage.ReplayStudio.SelectReplayFrom | fulcrum-llm-ops/frontend/src/pages/ReplayStudio.tsx:419-429 | choosing a replay point in 0..4 also shows that stage, which is editable, and makes exactly the earlier stages read-only |
| ReplayStudioPage.ReplayStudio.SetRecompute | fulcrum-llm-ops/frontend/src/pages/ReplayStudio.tsx:483-493 | the two recompute switches take the given values |
| ReplayStudioPage.ReplayStudio.HandleRun | fulcrum-llm-ops/frontend/src/pages/ReplayStudio.tsx:137-163 | nothing is sent while a run is pending; the playground sends the trimmed prompt unless it is blank; a replay sends the source run, replay point, model, temperature, all overrides and both switches; a sent request marks its run pending |
| ReplayStudioPage.ReplayStudio.ReplaySucceeded | fulcrum-llm-ops/frontend/src/pages/ReplayStudio.tsx:109-112 | the staged reply replaces the last result and ends the replay's pending state |
| ReplayStudioPage.ReplayStudio.PlaygroundSucceeded | fulcrum-llm-ops/frontend/src/pages/ReplayStudio.tsx:85-98 | the normalized playground reply replaces the last result and ends the playground's pending state |
| ReplayStudioPage.ReplayStudio.RunFailed | fulcrum-llm-ops/frontend/src/pages/ReplayStudio.tsx:99-117 | a failed run ends its pending state and keeps the last result |
| ReplayStudioPage.ReplayStudio.EditSaveDialog | fulcrum-llm-ops/frontend/src/pages/ReplayStudio.tsx:668-698 | the save dialog's open flag, name and slug take the given values |
| ReplayStudioPage.ReplayStudio.HandleSavePrompt | fulcrum-llm-ops/frontend/src/pages/ReplayStudio.tsx:165-193 | nothing is saved while a save is pending; the template is the playground prompt, or the shown prompt packet on stage 3; on any other stage, or with an empty template, nothing is sent; a sent request has the dialog's name and slug, author "User" and status "dev" |
| ReplayStudioPage.ReplayStudio.SaveSucceeded | fulcrum-llm-ops/frontend/src/pages/ReplayStudio.tsx:123-129 | a saved prompt closes the dialog and clears name and slug |
| ReplayStudioPage.ReplayStudio.SaveFailed | fulcrum-llm-ops/frontend/src/pages/ReplayStudio.tsx:130-132 | a failed save ends the pending state and leaves the dialog as it was |
| Strings.ParseIntToString | fulcrum-llm-ops/backend/app/services/alerts.py:83 | `int()` reads back the decimal text of every integer, so the default "5000" gives 5000 |
| Strings.Lower | fulcrum-llm-ops/backend/app/services/confidence.py:130 | lowercasing keeps the length and maps each character by ASCII lowercasing |
| Strings.LowerConcat | fulcrum-llm-ops/backend/app/mlflow_store.py:97 | lowercasing a concatenation lowercases each part |

## Left out

- Floating point: every score, cost and weight is exact. Python's `round(x, 4)`/`round(x, 3)` in the metrics endpoints and `toFixed` on the pages are not applied. The p95 index ⌊0.95·n⌋ is computed exactly, not in doubles. The backend confidence's `round(score, 2)` is the identity on hundredths.
- Sets: where a Python `set` is sorted (`_extract_variables`) or only queried for membership, it is a sorted, de-duplicated sequence. MetricsApi.ModelList: `list(set(...))` at fulcrum-llm-ops/backend/app/api/metrics.py:52 returns the models in Python's unspecified set order; the model fixes first-seen order, and its contract states only that each distinct non-empty model appears exactly once.
- Strings.Lower: ASCII only. Python's `str.lower()` also lowercases non-ASCII letters (`'À'` to `'à'`, and U+0130 to two characters), which the model leaves unchanged.
- Prompts.WordChar: ASCII letters, digits and `_` only. Python's `\w` also matches non-ASCII letters and digits, so `{{ café }}` names a variable in Python and none in the model.
- Prompts.WordLen: counts ASCII word characters only, for the reason given for Prompts.WordChar.
- Prompts.ParseRepl: follows Python's `re.sub` replacement-template parsing for a pattern without groups. A value that re.sub refuses yields an error kind, and the error kinds approximate Python's messages. Group names in `\g<...>` are ASCII identifiers only. Whether a number `\g<...>` accepts signs, underscores or surrounding spaces also depends on the Python version, and the model accepts digits only.
- `localeCompare` is modelled as the code-point order of strings.
- MLflow, the OpenAI/Azure clients, the Guardrails `Guard` and HTTP calls are outside the model. What they return is a parameter. MLflow writes are returned as a list of effects.
- Clocks, `uuid4`, `random` mock latencies and outputs are parameters. The legacy `create_replay` beyond its block rule is not modelled: its LLM or mock call, its random metrics and the run it logs.
- These run-store operations are not modelled, because each is only a sequence of MLflow calls: `get_run` detail assembly, `get_artifact_content`, `get_json_artifact`, `get_text_artifact`, `log_replay_run`, `log_staged_run`, `set_evaluation`, `get_timeseries`, `start_run`, `log_artifact_data`, `_ensure_experiment`, `get_client` and `get_experiment_id`.
- The prompt library's `list_prompts` and `get_prompt` are plain reads of the table and are not modelled. The JSON files of the prompt and alert tables are the classes' fields; loading and saving them is not modelled.
- The app wrapper's `get_policies` (app/guardrails_wrapper.py:86-113) is not modelled. Only its validation and `check_input` are. Its logging is left out.
- The PII regexes of `DetectPII` and of the confidence library are oracles: only their first match, or their labels, is a parameter. The judge prompts and `_format_context` are not modelled.
- `json.loads` and `JSON.parse` are parameters. NaN and infinities are not modelled.
- Exceptions are `Err` results. The pipeline's exception type is a string.
- Retrieve.GroupsBounded: a chunk of several paragraphs is bounded by chunk_size + 1 characters. The length check at app/retrieve.py:24 ignores the two-character separator. The property "a chunk of at least chunk_size characters is a single paragraph" does not hold of the code, and Retrieve.TwoParagraphsReachSize gives an input that shows this.
- Prompts.RenderPrompt: "no placeholder for a supplied key survives rendering" does not hold even when the values contain no placeholders, because a substitution can create one. Prompts.RenderCanLeavePlaceholder shows this. The model proves instead that substitution fills every placeholder for the key, `{{key}}` or padded with whitespace as `{{ key }}`, when the literal text between the placeholders holds no `{` (Prompts.SubstituteFills). A template whose literal text holds a `{` is not covered by that lemma; Prompts.CopyPrefix and Prompts.SubstituteLiteral cover its stretches where no match starts.
- `get_relevant_context` (rapidfuzz matching) is not part of this model.
- Page toasts, the query cache, refetching, rendering and the interleaving of concurrent mutations are not modelled. A mutation is a request method plus a reply method, and pending state is a boolean.
- ReplayStudioPage.ReplayStudio.PlaygroundSucceeded: the reply is normalised from a decoded JSON value. A reply that is not an object yields absent fields, where the page would throw on `null`.
- The model and temperature inputs of the Replay Studio are plain setters and are not modelled.
- Confidence.ComputeConfidence: the explanation keeps the score, label, components and evidence. Its constant fields, which are the same for every call, are not carried in Confidence.Explanation: version, formula, weights, interpretation, limitations and improvement_actions (confidence.py:198-207).
- Pipeline.Pipeline.Run: timings and logging are not modelled. A step record carries the step's name, success flag, errors, metadata and exception message, with no duration. The pipeline's total duration is recorded only as a flag. Changes that steps make to the context beyond their returned result are not modelled, and a step's result is modelled as depending on its input alone, not on the context it is also handed.
- MetricsTable.Statuses: the order of the status list is stated through Sorting.Distinct, the first occurrences in run order, as `Array.from(new Set(...))` gives them.
- MlflowStore.ComputeAndLogConfidence: the two `log_dict` effects name their files but do not carry the component and explanation contents. The alert evaluation it triggers is an effect here, and its rules are Alerts.AlertsService.EvaluateRun. The catch-all at fulcrum-llm-ops/backend/app/mlflow_store.py:597-598 is not modelled: the MLflow reads are parameters and the computation itself cannot fail.
- Replay: `Env.apiKey` is the value of the `OPENAI_API_KEY` environment variable, supplied as a parameter.
- RunsApi.GetArtifact: the store's `get_artifact_content` returns None on any failure, and the endpoint then serves an empty body, which is how Starlette's `PlainTextResponse` renders None. Its 415 and 404 handlers therefore cannot fire and are not modelled.
- Deps: the `WWW-Authenticate` header of the 401 replies is not modelled.

## Findings

| source | as written | input that shows it | evidently intended | confidence | as-written member | corrected member |
|---|---|---|---|---|---|---|
| fulcrum-llm-ops/backend/app/services/alerts.py:61 | when `confidence` is None, `evaluate_run` falls back to `run.confidence_score`, an attribute the run record does not define, and raises | a successful run with confidence None and latency 9000 ms, with the threshold at 5000 | a missing confidence skips the low-confidence rule, and the other rules still raise their alerts | not executed | Alerts.DraftsAsWritten, Alerts.SlowRunWithoutConfidence | Alerts.Drafts |
| app/guardrails_custom.py:55 | `ToxicLanguage` detects the word in the lowercased value but replaces only its exact-case occurrences, so the fix keeps the word | the value "HATE" fails with "hate", and its fix value is still "HATE" | the fix masks every case variant of the word | not executed | CustomValidators.FixAsWritten, CustomValidators.FixAsWrittenMissesUppercase | CustomValidators.Mask, CustomValidators.MaskClears |
