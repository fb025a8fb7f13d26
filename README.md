# nice2know mail triage — a Dafny model

nice2know is a pipeline that triages support mail:
- A daemon fetches `.eml` files into a mail directory.
- A classifier script asks a language model to classify each new mail.
- Rule-based workflows then run extraction scripts that write JSON documents for the mail's problem, solution and asset.
- A completeness analysis scores those three documents.
- A confirmation mail links the sender to a web editor, then the mail is moved to `sent` (or to `failed`).
- The web editor finds the documents of a mail by its id.
- A save script writes edited documents back, keeping timestamped backups.
- Around them sit a singleton credential manager, a language-model client and an attachment handler.

This project models that core, file by file:

| Dafny file | models |
|---|---|
| `common.dfy` | shared Python semantics the scripts rely on: `find`/`rfind`, `split`/`join`, `strip`, `rstrip`, `Path.stem`, slicing with negative bounds, JSON values and their truthiness, the mail key (first two `_`-separated parts of a stem), file-name shapes |
| `batch.dfy` | the batch scripts' shared pieces: success of one model run, sorting by modification time, `--latest`/`--limit` selection, the exit code |
| `workflow_engine.dfy` | `daemon/run_service_daemon.py`: a `Service` class whose fields are the storage directories; fetching, classifying, rule matching, the workflow steps and the processing cycle |
| `classifier.dfy` | `mail_agent/run_classifier.py`: which mails still need classifying, the run over them, the type and urgency histograms |
| `extract.dfy` | `mail_agent/run_extract.py`: an `Extractor` class running the three extraction kinds per mail |
| `extract_mime.dfy` | `mail_agent/run_extrace_mime.py`: the same with MIME decoding and a temporary body file |
| `json_quality.dfy` | `mail_agent/utils/analyze_json_quality.py`: the fourteen field verdicts, the lists and the summary |
| `send_response.dfy` | `mail_agent/run_send_response.py`: sender address, links, field views, missing-field block, latest problem, and the script's `main` as a `Responder` class |
| `save_json.dfy` | `mail_agent/utils/save_json.py`: timestamp lookup, backups and overwrites as a `Storage` class |
| `web_config.dfy` | `www/config.php`: mail-id validation and sanitising, timestamp lookup, document loading, storage path |
| `credentials.dfy` | `mail_agent/utils/credentials.py`: the lookup rules and the process-wide singleton |
| `llm_request.dfy` | `mail_agent/agents/llm_request.py`: client settings, prompt and request, cleaning the answer, the script's `main` |
| `attachments.dfy` | `mail_agent/agents/attachment_handler.py`: which attachments are saved and what is recorded |

External effects are modelled as parameters of the operations that use them:
- Subprocesses, the model server, SMTP, IMAP, the clock and JSON parsing.
- A subprocess becomes a run value: how it ended and whether its output file appeared.
- A directory listing becomes a sequence of names.
- A parse becomes an `Option`.

## Model

| member | source | states |
|---|---|---|
| Common.Find | mail_agent/run_send_response.py:156-159 | `str.find`: -1 exactly when the character is absent, otherwise a position holding it |
| Common.FindFirst | mail_agent/run_send_response.py:157 | no position before the one `str.find` returns holds the character |
| Common.RFind | mail_agent/agents/llm_request.py:140-142 | `str.rfind`: -1 exactly when absent, otherwise a position holding it |
| Common.RFindLast | mail_agent/agents/llm_request.py:140-142 | no position after the one `str.rfind` returns holds the character |
| Common.SplitPartsLackSeparator | daemon/run_service_daemon.py:365 | `str.split` on one character: no part contains the separator |
| Common.JoinSplit | daemon/run_service_daemon.py:365 | joining the parts of a split with the separator gives back the original string |
| Common.SplitSingle | mail_agent/run_classifier.py:141-147 | a split has a single part exactly when the separator is absent, and that part is the whole string |
| Common.StripLeft | mail_agent/agents/llm_request.py:116 | the result is a suffix of the input, does not start with whitespace, and only whitespace was removed |
| Common.StripRight | mail_agent/agents/llm_request.py:116 | the result is a prefix of the input, does not end with whitespace, and only whitespace was removed |
| Common.RStripChar | mail_agent/run_send_response.py:73-78 | `rstrip('/')`: a prefix of the input that does not end in the character, with only that character removed |
| Common.StemIsPrefix | mail_agent/run_send_response.py:591-592 | `Path.stem` of a file name is a prefix of that name |
| Common.KeyTwoForms | daemon/run_service_daemon.py:365 | `'_'.join(stem.split('_')[:2])` is the whole stem when it has at most one `_`, and the text up to the second `_` otherwise |
| Common.KeyIsPrefix | mail_agent/run_extract.py:87-88 | the key is a prefix of the stem, is followed by `_` when shorter than it, and holds at most one `_` |
| Common.TakePy | mail_agent/run_classifier.py:298-299 | Python `s[:n]`: always a prefix; `n` elements (or all) for `n >= 0`; all but the last `-n` for negative `n` |
| Common.Unclassified | daemon/run_service_daemon.py:253-268 | a mail is unclassified exactly when it is an `.eml` file whose identifier file is not in the classified directory |
| Batch.SuccessRule | mail_agent/run_classifier.py:171-185 | a run succeeds exactly when it exits 0 and its output file exists afterwards; a non-zero exit always fails |
| Batch.MailKeyAgreesWithKey | mail_agent/run_classifier.py:141-147 | the scripts' file prefix equals the mail key exactly when the stem holds a `_` or the fallback time equals the stem |
| Batch.SortByRankCorrect | mail_agent/run_classifier.py:114-123 | ordering the mails by modification time gives a permutation of them that is sorted by that time |
| Batch.SortByRankDistinct | mail_agent/run_extract.py:85-94 | sorting keeps a listing free of duplicates |
| Batch.SelectSpec | mail_agent/run_classifier.py:294-305 | `--latest` keeps exactly the last mail; otherwise a truthy limit keeps Python's `[:limit]` prefix, and a missing or zero limit keeps all |
| Batch.SelectKeepsOrder | mail_agent/run_extract.py:246-254 | the selection keeps sortedness and distinctness, and holds only listed mails |
| Batch.ExitCode | mail_agent/run_classifier.py:373-385 | the exit status is 0 or 1, and 0 exactly when every selected mail succeeded |
| Classifier.PendingMembers | mail_agent/run_classifier.py:94-112 | a listed mail is pending exactly when reclassification is asked or its identifier file is missing; no duplicates are added, and the queue is no longer than the listing |
| Classifier.AgreesWithDaemon | daemon/run_service_daemon.py:253-268 | without `--reclassify`, the script's queue holds exactly the mails the daemon counts as unclassified |
| Classifier.GetUnclassifiedMails | mail_agent/run_classifier.py:76-123 | the result is the pending mails sorted by modification time, holding exactly the listed mails that need classifying |
| Classifier.ClassifyMail | mail_agent/run_classifier.py:125-193 | success exactly when the run succeeds for the expected output name; only then is an output named, and parsed data is returned only on success |
| Classifier.ClassifiedMailLeavesQueue | mail_agent/run_classifier.py:141-147 | once its output exists, a mail whose stem holds a `_` no longer needs classifying |
| Classifier.SingleSegmentStaysPending | mail_agent/run_classifier.py:141-147 | a mail whose stem has no `_` writes its output under the current time, so it stays pending and is classified again by every later run |
| Classifier.BadExitFails | mail_agent/run_classifier.py:171-185 | one run with a non-zero exit makes the failure count positive |
| Classifier.CleanRunsSucceed | mail_agent/run_classifier.py:171-177 | when every run exits 0 and writes its file, nothing fails |
| Classifier.ExportsLand | mail_agent/run_classifier.py:164-177 | every output file a run wrote is in the classified directory afterwards |
| Classifier.ExportedMailsLeaveQueue | mail_agent/run_classifier.py:309-324 | after the batch, a mail whose output was written (and whose stem holds a `_`) is no longer pending |
| Classifier.ClassifyAll | mail_agent/run_classifier.py:286-385 | the script's `main`: the selection is the sorted pending queue cut by `--latest`/`--limit`; the tallies are those of the selection, each mail reading the clock once; exit 0 exactly when nothing failed and the statistics block does not raise, 1 when any run exited non-zero |
| Classifier.Statistics | mail_agent/run_classifier.py:334-385 | the statistics block runs through exactly when every type and urgency is a printable string and every routing section can be read; it then returns the type and urgency histograms, each counting exactly the values that occur |
| Classifier.NonStringTypeRaises | mail_agent/run_classifier.py:338-346 | a classification type that is null, a number or a boolean makes the statistics block raise |
| Classifier.ClassifyEach | mail_agent/run_classifier.py:309-324 | the loop over the selection computes the tally specification, the `i`-th mail naming a single-segment output with the `i`-th clock reading |
| Classifier.TallyDataKept | mail_agent/run_classifier.py:319-322 | only successful classifications contribute data, and only truthy data is collected |
| Classifier.SectionValue | mail_agent/run_classifier.py:338-356 | a value read for the histograms is never a list or an object |
| Classifier.Histogram | mail_agent/run_classifier.py:338-346 | the counts hold exactly the values that occur, each with its number of occurrences |
| Classifier.ValuesOf | mail_agent/run_classifier.py:338-356 | one value per classification, in order; none at all when any lookup raises |
| Classifier.TypeHistogram | mail_agent/run_classifier.py:338-346 | the histogram of the classification types |
| Classifier.UrgencyHistogram | mail_agent/run_classifier.py:348-356 | the histogram of the urgency levels |
| Extract.OutputNamesDiffer | mail_agent/run_extract.py:124-131 | the three kinds write to three different file names, even when each extraction reads a different time from the clock |
| Extract.Exports | mail_agent/run_extract.py:147-170 | every exported file is the output name of one of the kinds that ran, named with the clock reading of its own extraction |
| Extract.FailedKindsSpec | mail_agent/run_extract.py:172-206 | a kind is listed as failed exactly when its run did not succeed; kinds keep their order |
| Extract.LaterNotExported | mail_agent/run_extract.py:124-131 | a kind's output does not come from an earlier kind's run |
| Extract.Trues | mail_agent/run_extract.py:279-290 | the success count is at most the number of mails, and equals it exactly when all succeeded |
| Extract.Extractor.ExtractJson | mail_agent/run_extract.py:96-170 | an unknown kind fails without effect; otherwise the result is the run's success for that output name, and the output file appears exactly when the run wrote it |
| Extract.Extractor.ProcessMail | mail_agent/run_extract.py:172-206 | each kind names its export with its own clock reading; the mail leaves the queue; its outputs are added; it goes to processed exactly when no kind failed, otherwise to failed; the result and new directories are `MailOutcome` of the old ones |
| Extract.Extractor.Run | mail_agent/run_extract.py:208-290 | the script's `main`: sorted selection; the results and final directories are the `Extraction` fold of the selection over the starting directories; every selected mail filed by its result; exit 0 exactly when all succeeded |
| Extract.Extractor.ProcessAll | mail_agent/run_extract.py:258-268 | the loop: results and final directories equal the `Extraction` fold, in which each mail is processed on the directories its predecessors left; each selected mail leaves the queue and is filed according to its runs |
| Extract.MailOutcomeSpec | mail_agent/run_extract.py:172-206 | one mail's outcome: it leaves the queue, is filed where its result says, the result is consistent with its runs, and no output file is removed |
| Extract.ExtractionSpec | mail_agent/run_extract.py:258-268 | after the fold: one result per selected mail, exactly the selected mails gone from the queue, each filed by its result, each result consistent with its runs, nothing removed from processed or failed |
| Extract.ExtractionNext | mail_agent/run_extract.py:258-268 | the fold over one more mail is that mail's outcome on the directories left by the earlier ones |
| Extract.SettledStep | mail_agent/run_extract.py:258-268 | one more processed mail keeps the loop's account (queue, filing, consistency, growth) |
| Extract.FailedKindsConsistent | mail_agent/run_extract.py:172-206 | a mail with a run that does not exit 0 fails, one whose three runs exit 0 and export succeeds |
| ExtractMime.BodyText | mail_agent/run_extrace_mime.py:136-156 | the plain part when present, otherwise the HTML part; empty only when both are |
| ExtractMime.TempNeverListed | mail_agent/run_extrace_mime.py:158-171 | the temporary body file never looks like a mail, so it is never processed |
| ExtractMime.Effective | mail_agent/run_extrace_mime.py:136-171 | an undecodable mail or an unwritten body file makes the run fail without output |
| ExtractMime.EffectiveRuns | mail_agent/run_extrace_mime.py:222-256 | there are three runs, each the effective run of its kind |
| ExtractMime.UndecodableFailsAll | mail_agent/run_extrace_mime.py:124-156 | a mail that cannot be decoded fails every kind and exports nothing, whatever the clock reads |
| ExtractMime.MimeExtractor.ExtractJson | mail_agent/run_extrace_mime.py:98-220 | the temporary file is removed and no mail is touched; success exactly when the kind is known, the mail decodes, and the run succeeds for the output name |
| ExtractMime.MimeExtractor.ProcessMail | mail_agent/run_extrace_mime.py:222-256 | the mail and its temporary file leave the directory; outputs are added, each named with its own clock reading; filed as processed exactly when no kind failed; the result and new directories are `MimeOutcome` of the old ones |
| ExtractMime.MimeExtractor.ExtractKinds | mail_agent/run_extrace_mime.py:226-243 | all three kinds are attempted: the failed kinds and exports are those of the effective runs, and the temporary file is gone once a body was decoded |
| ExtractMime.MimeExtractor.ExtractKind | mail_agent/run_extrace_mime.py:98-220 | one kind: the output directory and the success are those of its effective run under the output name of its own clock reading |
| ExtractMime.MimeOutcomeSpec | mail_agent/run_extrace_mime.py:222-256 | one mail's outcome: it leaves the directory and no other mail does, it is filed by its result, the result is consistent with its effective runs and false when the body does not decode, and no output file is removed |
| ExtractMime.MimeExtractionSpec | mail_agent/run_extrace_mime.py:311-321 | after the fold: exactly the selected mails leave the directory, each filed by its result, each result consistent with its effective runs, undecodable mails fail, nothing removed from processed or failed |
| ExtractMime.MimeExtractionNext | mail_agent/run_extrace_mime.py:311-321 | the fold over one more mail is that mail's outcome on the directories left by the earlier ones |
| ExtractMime.MimeSettledStep | mail_agent/run_extrace_mime.py:311-321 | one more processed mail keeps the loop's account |
| ExtractMime.MimeExtractor.Run | mail_agent/run_extrace_mime.py:258-343 | the script's `main`: sorted selection; the results and final directories are the `MimeExtraction` fold of the selection; each mail filed by its result; an undecodable mail fails; exit 0 exactly when all succeeded |
| ExtractMime.MimeExtractor.ProcessAll | mail_agent/run_extrace_mime.py:311-321 | the loop: results and final directories equal the `MimeExtraction` fold; exactly the selected mails leave the directory, each filed by its result |
| JsonQuality.FieldNamesDistinct | mail_agent/utils/analyze_json_quality.py:28-131 | fourteen fields are checked, each under its own name |
| JsonQuality.Verdicts | mail_agent/utils/analyze_json_quality.py:28-131 | one verdict per field; only severity and asset name can go unrecorded, and those two are never missing or unclear |
| JsonQuality.AnalyzeQuality | mail_agent/utils/analyze_json_quality.py:11-146 | no solution raises; otherwise the summary counts are the list lengths, their total is at most fourteen, and the quality follows the thresholds |
| JsonQuality.ListedLength | mail_agent/utils/analyze_json_quality.py:134-140 | a list has as many names as fields with that verdict |
| JsonQuality.CountsPartition | mail_agent/utils/analyze_json_quality.py:134 | every field has exactly one verdict |
| JsonQuality.UnrecordedAtMostTwo | mail_agent/utils/analyze_json_quality.py:60-102 | at most two fields go unrecorded |
| JsonQuality.TotalIsTwelveToFourteen | mail_agent/utils/analyze_json_quality.py:134 | the total field count lies between twelve and fourteen |
| JsonQuality.ListedMembership | mail_agent/utils/analyze_json_quality.py:28-131 | a name is in a list exactly when its field has that verdict |
| JsonQuality.ListedAt | mail_agent/utils/analyze_json_quality.py:28-131 | a field is in a list exactly when its verdict is that list's |
| JsonQuality.ListsDisjoint | mail_agent/utils/analyze_json_quality.py:28-131 | no field is in two of the complete, missing and unclear lists |
| JsonQuality.QualityThresholds | mail_agent/utils/analyze_json_quality.py:133-144 | good at 75% or more complete, medium at 50% or more, needs_work below |
| JsonQuality.GetFieldStatus | mail_agent/utils/analyze_json_quality.py:149-157 | one of the four statuses; unknown exactly when the field is in none of the lists |
| JsonQuality.FieldStatusIsVerdict | mail_agent/utils/analyze_json_quality.py:149-157 | a field's status is the name of its verdict, and unknown when unrecorded |
| JsonQuality.DescriptionRule | mail_agent/utils/analyze_json_quality.py:34-40 | a description is complete when longer than 20 characters, unclear when non-empty but at most 20 characters long, missing when empty |
| JsonQuality.AffectedUsersRule | mail_agent/utils/analyze_json_quality.py:60-66 | affected users are unclear when "single user", complete when another non-empty value, missing when empty |
| JsonQuality.ComplexityRule | mail_agent/utils/analyze_json_quality.py:92-102 | missing when the complexity is empty or there are no steps; complete when it agrees with the step count (low with at most 3 steps, medium with 4 or 5, high with more than 5); unclear otherwise |
| JsonQuality.SeverityAndNameOnlyComplete | mail_agent/utils/analyze_json_quality.py:56-57 | the status of severity and of asset name is complete or unknown, never missing or unclear |
| JsonQuality.MissingSolutionRaises | mail_agent/utils/analyze_json_quality.py:69 | given no solution document, the analysis raises |
| JsonQuality.AnalyzeQualityTolerant | mail_agent/run_send_response.py:607-632 | the evidently intended analysis, reading a missing solution document as empty: it agrees with the analysis whenever a solution document exists |
| JsonQuality.EmptySolutionVerdicts | mail_agent/utils/analyze_json_quality.py:69-102 | with an empty solution, its four fields are missing |
| JsonQuality.TolerantMissingSolution | mail_agent/run_send_response.py:607-632 | with no solution document, the tolerant analysis still succeeds and reports the solution fields missing |
| SendResponse.Slice | mail_agent/run_send_response.py:156-159 | Python slicing `s[a:b]`: the substring when `a < b`, empty otherwise |
| SendResponse.SenderSpec | mail_agent/run_send_response.py:156-159 | the whole header when a bracket is missing; the bracketed text when `<` comes first; empty when `>` comes first |
| SendResponse.SenderLostBehindDisplayName | mail_agent/run_send_response.py:156-159 | a display name holding `>` loses the address: the sender is empty |
| SendResponse.SenderAddress | mail_agent/run_send_response.py:156-159 | the extracted address never contains `<` |
| SendResponse.SenderAddressOfNamedHeader | mail_agent/run_send_response.py:156-159 | from `display <addr>`, the address is recovered whatever the display name holds |
| SendResponse.SenderAddressAgrees | mail_agent/run_send_response.py:156-159 | for display names without brackets, the corrected sender equals the original |
| SendResponse.StripSlashes | mail_agent/run_send_response.py:73-78 | trailing slashes added to the base URL are removed again |
| SendResponse.UrlsIgnoreTrailingSlashes | mail_agent/run_send_response.py:80-88 | the editor and confirm links do not depend on trailing slashes of the base URL, which never ends in `/` |
| SendResponse.FooterLinksSpec | mail_agent/run_send_response.py:471-493 | placeholder links exactly when the mail id is absent or "N/A"; otherwise both links end in `mail_id=` and the id |
| SendResponse.FieldViewFollowsAnalysis | mail_agent/run_send_response.py:227-254 | the field's indicator and class follow its status in the analysis; blank values are shown as not recognised |
| SendResponse.ItemsSpec | mail_agent/run_send_response.py:176-194 | one list item per labelled field, in order; empty exactly when no field has a label |
| SendResponse.MissingItems | mail_agent/run_send_response.py:186-194 | the items for the missing fields, then those for the unclear ones marked "(unklar)" |
| SendResponse.MissingBlock | mail_agent/run_send_response.py:166-225 | no block when there are no items; otherwise the items wrapped in the missing-fields list element (the surrounding `missing-fields` div and its title div are not part of the model) |
| SendResponse.SolutionSectionSpec | mail_agent/run_send_response.py:315-319 | no solution section for an absent or empty solution; shown exactly when steps are present |
| SendResponse.LexLeTotal | mail_agent/run_send_response.py:591 | file stems are totally ordered |
| SendResponse.LexLeTransitive | mail_agent/run_send_response.py:591 | the order on stems is transitive |
| SendResponse.LatestProblem | mail_agent/run_send_response.py:586-592 | the chosen problem file is listed and has the greatest stem |
| SendResponse.Responder.Run | mail_agent/run_send_response.py:556-669 | exit 0 or 1; a timestamp exactly when the configuration loads and there are problem files, and it is the latest problem's key; unloadable problem or asset documents exit 1; a mail is found exactly when one exists for the timestamp; a send is attempted exactly when the analysis as written (which raises on a missing solution document), the template and the template filling (`fill_template_v2`, lines 256-493) all work; exit 0 exactly when the attempted send succeeded; the mail moves to `sent` only then, and only if the move works |
| SaveJson.FirstTimestampSpec | mail_agent/utils/save_json.py:56-77 | a timestamp is found exactly when some problem file carries the mail id, and it is the first such file's |
| SaveJson.ProblemFileTimestamp | mail_agent/utils/save_json.py:66-72 | for a problem file, the timestamp is the key of its stem |
| SaveJson.BackupNamesDiffer | mail_agent/utils/save_json.py:116-130 | the three backups of one save have different names |
| SaveJson.BackUpAllKeepsPrevious | mail_agent/utils/save_json.py:116-130 | every existing document gets a backup holding its previous content; other backups are kept |
| SaveJson.OverwriteSpec | mail_agent/utils/save_json.py:133-144 | problem and asset are written; the solution only when given; nothing else changes |
| SaveJson.LoadSolution | mail_agent/utils/save_json.py:161-165 | an absent solution argument gives no solution; one that parses gives its document; one that does not parse fails |
| SaveJson.Storage.FindTimestampFromMailId | mail_agent/utils/save_json.py:56-77 | the loop returns the first matching timestamp, which holds a `_` |
| SaveJson.Storage.SaveJsonFiles | mail_agent/utils/save_json.py:79-146 | exit 0 exactly when a timestamp is found; then backups are taken and documents overwritten; exit 1 changes nothing |
| SaveJson.Storage.Run | mail_agent/utils/save_json.py:148-171 | a save happens exactly when there are enough arguments and the problem and asset documents (and an existing solution document) load; exit 0 exactly when a save found the mail's timestamp with the configuration loaded; then the documents are overwritten and the old ones backed up, and on exit 1 nothing changes |
| WebConfig.TrailingNewlineAccepted | www/config.php:199-210 | the pattern's `$` accepts a timestamp id followed by a newline, which is neither form |
| WebConfig.KeepIdChars | www/config.php:213-221 | at most as long as the input, holding only id characters |
| WebConfig.SanitizeMailId | www/config.php:213-221 | the filtered input cut to 64 characters: a prefix of it, of exactly its length up to 64 |
| WebConfig.KeepIdCharsIsFilter | www/config.php:213-221 | a character survives exactly when it is in the input and is an id character |
| WebConfig.KeepIdCharsFixed | www/config.php:213-221 | a string of id characters is left unchanged |
| WebConfig.SanitizeIdempotent | www/config.php:213-221 | sanitising twice equals sanitising once |
| WebConfig.ValidateSanitizedIsExact | www/config.php:199-221 | after sanitising, validation accepts exactly the timestamp and hex forms |
| WebConfig.GetSafeMailId | www/config.php:224-240 | the query parameter takes precedence over the form; the result is the sanitised id and is valid; none when neither is given or validation fails |
| WebConfig.NameTimestamp | www/config.php:243-271 | a timestamp taken from a file name has the timestamp form and starts the name |
| WebConfig.FirstTimestampIsFirst | www/config.php:243-271 | none exactly when no file both carries the id and has a timestamp name; otherwise the first such file's timestamp |
| WebConfig.FindTimestampFromMailId | www/config.php:243-271 | the loop returns the first matching timestamp |
| WebConfig.ExistingFilesSpec | www/config.php:292-308 | a kind is listed with its path exactly when its document exists |
| WebConfig.GetJsonFilesForTimestamp | www/config.php:292-308 | the loop lists the existing documents of the three kinds |
| WebConfig.LoadedDocsSpec | www/config.php:274-289 | a document is loaded for a kind exactly when one of the kind's files decoded to it and it is truthy |
| WebConfig.LoadedKinds | www/config.php:274-308 | for a timestamp, a kind's document is returned exactly when its file exists, decodes and is truthy, and it is what the file holds |
| WebConfig.LoadDataSpec | www/config.php:312-353 | no data exactly when no timestamp is found or the problem document does not load; otherwise the timestamp, the mail id, and exactly the documents that exist, decode and are truthy |
| WebConfig.LoadDataByMailId | www/config.php:312-353 | the loop computes the loading specification |
| WebConfig.ResolveStoragePath | www/config.php:94-100 | an absolute setting is kept; a relative one is resolved under the root |
| WebConfig.ResolveIsIdempotent | www/config.php:94-100 | resolving an already resolved path changes nothing |
| WorkflowEngine.FirstMatch | daemon/run_service_daemon.py:301-339 | a returned workflow's rule holds |
| WorkflowEngine.FirstMatchIsFirst | daemon/run_service_daemon.py:301-339 | none exactly when no rule holds; otherwise the first rule in order that holds |
| WorkflowEngine.AbsentKeysAreVacuous | daemon/run_service_daemon.py:318-331 | a rule holds exactly when each of its conditions holds or its key is absent |
| WorkflowEngine.CountMatched | daemon/run_service_daemon.py:547-563 | at most one workflow per classification |
| WorkflowEngine.CountMatchedAppend | daemon/run_service_daemon.py:547-563 | the count over two batches is the sum of their counts |
| WorkflowEngine.DuplicateRunsTwice | daemon/run_service_daemon.py:547-563 | a classification listed twice runs its workflow twice |
| WorkflowEngine.ExtractionStep | daemon/run_service_daemon.py:441-460 | succeeds exactly when the document exists afterwards; only the processed directory changes, and only by growing |
| WorkflowEngine.ConfirmationStep | daemon/run_service_daemon.py:462-476 | succeeds exactly when all three documents of the timestamp exist and the response script exits with status 0; the daemon itself moves no file in this step, and the script's own move is admitted under "## Left out" |
| WorkflowEngine.ArchiveStep | daemon/run_service_daemon.py:478-490 | succeeds exactly when the mail is present; the mail then moves to the archive |
| WorkflowEngine.ProcessorStep | daemon/run_service_daemon.py:402-439 | never touches failed, sent or classified; only auto-archive removes the mail; a dry run succeeds and changes nothing |
| WorkflowEngine.RunStepsRouting | daemon/run_service_daemon.py:341-400 | a completed workflow moves the mail to sent, a failed one to failed |
| WorkflowEngine.ArchivedStaysArchived | daemon/run_service_daemon.py:478-500 | an archived mail is not moved to sent afterwards |
| WorkflowEngine.FailFast | daemon/run_service_daemon.py:377-396 | steps after a failing step do not matter |
| WorkflowEngine.DisabledStepIsSkipped | daemon/run_service_daemon.py:384-387 | removing a disabled step changes nothing |
| WorkflowEngine.ExtractionRerunIsIdempotent | daemon/run_service_daemon.py:441-460 | when all documents already exist, extraction-only workflows complete whatever the runs do |
| WorkflowEngine.DryRunCompletes | daemon/run_service_daemon.py:417-419 | in dry-run mode every workflow completes |
| WorkflowEngine.LoadAll | daemon/run_service_daemon.py:288-296 | the loaded classifications come from files that parsed, in listing order |
| WorkflowEngine.Service.FetchMails | daemon/run_service_daemon.py:222-242 | new mails arrive unless in dry-run; the count is the number of mail files |
| WorkflowEngine.Service.ClassifyMails | daemon/run_service_daemon.py:244-299 | nothing is classified when nothing is pending, in dry-run, or when the classifier fails; otherwise its outputs are added and loaded |
| WorkflowEngine.Service.MatchWorkflow | daemon/run_service_daemon.py:301-339 | the loop returns the first rule whose conditions hold under Python equality and membership |
| WorkflowEngine.PyEqReflexive | daemon/run_service_daemon.py:322-330 | every value is equal to itself under Python `==` |
| WorkflowEngine.PyEqSymmetric | daemon/run_service_daemon.py:322-330 | Python `==` on loaded values is symmetric |
| WorkflowEngine.TrueMatchesOne | daemon/run_service_daemon.py:320-326 | a condition `true` is met by the type `1`, and a list `[1]` by the type `true` |
| WorkflowEngine.Service.ExecuteWorkflow | daemon/run_service_daemon.py:341-400 | no JSON path means no change; otherwise the state is the workflow specification's, and success means completed |
| WorkflowEngine.Service.ExecuteProcessor | daemon/run_service_daemon.py:402-439 | the state and result of the processor specification |
| WorkflowEngine.Service.ExtractJson | daemon/run_service_daemon.py:441-460 | the state and result of the extraction specification |
| WorkflowEngine.Service.SendConfirmation | daemon/run_service_daemon.py:462-476 | the loop over the three prerequisites gives the result of the confirmation specification; the script's own move is admitted under "## Left out" |
| WorkflowEngine.Service.AutoArchive | daemon/run_service_daemon.py:478-490 | the state and result of the archive specification |
| WorkflowEngine.Service.MoveToSent | daemon/run_service_daemon.py:492-500 | the mail moves to sent |
| WorkflowEngine.Service.HandleFailure | daemon/run_service_daemon.py:502-510 | the mail moves to failed |
| WorkflowEngine.Service.ProcessCycle | daemon/run_service_daemon.py:512-568 | one more cycle; the fetched count, the classifications loaded (none unless something was pending and the classifier succeeded), the new directories and the success and failure counts are those of fetching, classifying and the fold of step 3; a dry run changes nothing |
| WorkflowEngine.Service.RunWorkflows | daemon/run_service_daemon.py:547-563 | the new directories and the success and failure counts are those of the fold over the classifications, every chosen mail file is a legitimate one, and one execution is counted per matched classification |
| WorkflowEngine.Service.NextClassification | daemon/run_service_daemon.py:547-563 | one classification advances the fold by exactly its own workflow run, with a legitimate mail file |
| WorkflowEngine.WorkflowsFoldSpec | daemon/run_service_daemon.py:547-563 | every matched classification counts once as a success or a failure, and the queue only loses mails, each to sent, failed or archived, while those directories only grow (processed/ only grows for the model, see "## Left out") |
| WorkflowEngine.RunStepsConserves | daemon/run_service_daemon.py:377-400 | a workflow only removes mails from the queue into sent, failed or archived and never removes results (processed/ only grows for the model, see "## Left out") |
| WorkflowEngine.Service.LoadClassifications | daemon/run_service_daemon.py:288-296 | every listed classification file is loaded once, in some listing order |
| Credentials.LoadSecrets | mail_agent/utils/credentials.py:26-37 | the loaded object, or nothing when the file is absent or does not load |
| Credentials.GetSpec | mail_agent/utils/credentials.py:39-67 | no secrets raise RuntimeError; an unknown service raises KeyError; without a key the whole entry is returned; a key is looked up in an object entry; a value is found only where it is stored |
| Credentials.MissingFileFailsEveryLookup | mail_agent/utils/credentials.py:26-52 | without a loadable file every lookup raises RuntimeError |
| Credentials.CredentialManager.Init | mail_agent/utils/credentials.py:19-24 | the secrets are loaded on first initialisation only |
| Credentials.CredentialManager.GetCredential | mail_agent/utils/credentials.py:39-67 | found only for a known service; RuntimeError when nothing is loaded |
| Credentials.CredentialManager.ImapCredentials | mail_agent/utils/credentials.py:69-71 | the `imap` entry when present |
| Credentials.CredentialManager.SmtpCredentials | mail_agent/utils/credentials.py:73-75 | the `smtp` entry when present |
| Credentials.CredentialManager.LlmConfig | mail_agent/utils/credentials.py:77-79 | the `llm` entry when present |
| Credentials.CredentialManager.DbCredentials | mail_agent/utils/credentials.py:81-83 | the `postgresql` entry when present |
| Credentials.Process.NewCredentialManager | mail_agent/utils/credentials.py:13-24 | every construction returns the one shared instance; its secrets are loaded once and never reloaded |
| Credentials.Process.GetCredentials | mail_agent/utils/credentials.py:86-93 | the global is created once and is the shared instance |
| LlmRequest.ClientSettingsSpec | mail_agent/agents/llm_request.py:18-38 | no settings without secrets; defaults when the `llm` entry or the provider is missing; the configured model and URL otherwise |
| LlmRequest.SplitLastLine | mail_agent/agents/llm_request.py:122-125 | splitting text with a last line appended adds exactly that line |
| LlmRequest.CleanFencesUnwraps | mail_agent/agents/llm_request.py:121-125 | an answer wrapped in code fences becomes its stripped body |
| LlmRequest.ShortAnswerKept | mail_agent/agents/llm_request.py:121-124 | an answer of one or two lines is kept as it is, even when it starts with a fence, because unfencing needs more than two lines |
| LlmRequest.JsonCandidateSpec | mail_agent/agents/llm_request.py:128-153 | no candidate when a brace is missing or the first `{` follows the last `}`; otherwise the text from the first `{` to the last `}` |
| LlmRequest.JsonCandidateFindsObject | mail_agent/agents/llm_request.py:128-153 | an object surrounded by brace-free text is found exactly |
| LlmRequest.NoneSentAsSystemPrompt | mail_agent/agents/llm_request.py:85-88 | with a schema and no system prompt, the prompt sent starts with "None" and two newlines |
| LlmRequest.FullPromptSpec | mail_agent/agents/llm_request.py:85-88 | the system prompt, when given, comes first; the user prompt follows; the JSON instruction ends it when a schema is given |
| LlmRequest.RequestSpec | mail_agent/agents/llm_request.py:84-104 | the request asks for JSON exactly with a schema and names a system prompt only when one is given and there is no schema; its prompt is the corrected one except with a schema and no system prompt, where it opens with "None" as written |
| LlmRequest.Generate | mail_agent/agents/llm_request.py:68-164 | no request when disconnected; otherwise the request built with the prompt as written, and the answer `Answer` makes of the reply |
| LlmRequest.Answer | mail_agent/agents/llm_request.py:116-157 | no reply gives no response; a text answer exactly when there is a reply and no schema; a re-serialised answer only with a schema and only of a text that parses |
| LlmRequest.CleanAnswer | mail_agent/agents/llm_request.py:116-125 | the reply stripped and unfenced |
| LlmRequest.ParseAnswer | mail_agent/agents/llm_request.py:128-153 | the answer when it parses as JSON, else its brace-delimited candidate when that parses, else nothing |
| LlmRequest.UserPrompt | mail_agent/agents/llm_request.py:271-279 | none exactly when neither a prompt nor a mail body is given; a prompt wins; a mail body is introduced by the mail heading |
| LlmRequest.Run | mail_agent/agents/llm_request.py:198-304 | exit 0 or 1; exit 1 without settings; the test mode checks the connection only; a request is sent exactly when the client exists, the test flag is off, the connection works, both files load, there is a user prompt and any schema given loads truthy; it is the request as written and the answer is `Answer` of the reply; exit 0 exactly when a request got a response; output is exported only on success with an export path that is written |
| Attachments.ExtractRule | mail_agent/agents/attachment_handler.py:22-70 | kept exactly when the size is known and within the limit, the content is not empty, and categorising and saving work; the record copies the attachment's fields |
| Attachments.ExtractAllSelects | mail_agent/agents/attachment_handler.py:22-70 | the records are an order-preserving selection of the input, each within the size limit |
| Attachments.ExtractAllAppend | mail_agent/agents/attachment_handler.py:66-67 | a failing attachment affects only itself: the records of a list are the records of its parts |
| Attachments.AttachmentHandler.constructor | mail_agent/agents/attachment_handler.py:18-20 | the limit in bytes is the megabyte limit times 1024 twice |
| Attachments.AttachmentHandler.ExtractAttachments | mail_agent/agents/attachment_handler.py:22-70 | the loop returns the records of the extraction specification |

## Left out

- Process I/O is not modelled as I/O:
  - subprocess execution, model-server HTTP, SMTP sending, IMAP fetching, MIME and JSON parsing, pretty-printing, logging and console output are outcome parameters or not modelled;
  - each reading of the clock (`datetime.now`) is a string parameter: the classifier takes one reading per mail and the extractors one per kind per mail, as sequences;
  - directory listings are parameters, and glob order is not modelled (it is arbitrary in the source).
- Floating point is not modelled: the completeness percentage beyond the quality thresholds, and the model's temperature and top_p settings.
- `strip` removes only whitespace below U+0080 (tab, line feed, U+000B, U+000C, carriage return, U+001C to U+001F and space); Unicode spaces such as U+0085 and U+00A0 are kept.
- ExecuteProcessor: a processing type without an `id` raises KeyError in the source (daemon/run_service_daemon.py:414) and ends the cycle with a traceback; the model's processing type always has an id.
- MatchWorkflow: Python equality between an integer and a float (`1 == 1.0`) is not modelled, because JSON numbers are integers here; booleans do equal 0 and 1 as in Python. A classification record always holds an object `mail_classification` and an object `content_analysis` (`ClassRecord`), so the raises of `match_workflow` on malformed sections are not modelled: `.get('type')` on a `mail_classification` that is null, a list or a string (daemon/run_service_daemon.py:312, 322-324), `key in content` on a `content_analysis` that is null or a number, and `content[key]` on a string or list `content_analysis` holding a condition key (:328-329). In the source such a raise leaves `process_cycle` (:549) and is caught by the daemon loop (:603), which ends the cycle without processing the remaining classifications; the model's `ProcessCycle`, `RunWorkflows` and `WorkflowsFold` always process every loaded classification.
- `SendResponse.Responder.Run`:
  - it takes the sender as given and does not compute it, so the corrected sender address is not threaded through it;
  - template filling (`fill_template_v2`) is reduced to whether it raises, and the HTML text itself is not modelled; the raises modelled are a non-string reporter name, case id or mail id passed to `str.replace`, a non-string severity or status upper-cased, a solution step that is not an object, and truthy prerequisites that cannot be iterated;
  - `extract_mail_info` parsing beyond the sender slicing is not modelled.
- The script reports success on exit even when moving the mail to `sent` fails; the model keeps this.
- ResolveStoragePath: the storage directory is the joined path only; the source then canonicalises it with `realpath` when the path exists (`realpath($storage_base_path) ?: $storage_base_path`, www/config.php:102), resolving `.`, `..` and symbolic links, which is not modelled because it depends on the file system.
- WorkflowEngine.ConfirmationStep: the response script run by the confirmation step answers the latest `*_problem.json` in `processed/` by stem (mail_agent/run_send_response.py:586-592), which need not be the daemon's timestamp, and after a successful send moves that mail's first `{timestamp}_*.eml` from `processed/` to `sent/` (:615, :661, :544-549). The daemon sees only the script's exit status, and the model's step changes no directory. The script's side is modelled on its own as `SendResponse.Responder.Run`.
- SendConfirmation: inherits that gap; the processed/→sent/ move of the answered mail is not part of its new state.
- RunStepsConserves: the clause of `Conserved` that `processed/` only grows holds for the model only; in the source a confirmation step removes the answered `.eml` from `processed/` (into `sent/`). No document (`*_problem.json`, `*_solution.json`, `*_asset.json`) is removed by that move.
- WorkflowsFoldSpec: the same clause of `Conserved`, over a whole cycle, holds for the model only, for the same reason.
- The extraction step runs the script `run_extract_all.py` (daemon/run_service_daemon.py:451), which is not part of this model; its effect is reduced to the files it leaves in `processed/`.
- ExecuteWorkflow: a workflow rule is always a name with a sequence of step names (`Rule.sequence: seq<string>`). In the source `rule['processing_sequence']` raises KeyError when the key is absent (daemon/run_service_daemon.py:354), and `' → '.join(sequence)` raises TypeError when a step is not a string (:357); both happen before the JSON-path check, leave `process_cycle` (:549) and end the cycle through the daemon loop (:603). The model cannot express such a rule.
- GetSafeMailId: a request parameter is a string or absent. In PHP a query such as `?mail_id[]=x` makes `$_GET['mail_id']` an array; `preg_replace` then returns an array and `substr` (www/config.php:217) throws a TypeError under PHP 8 instead of the function returning null. The model cannot express an array-valued parameter.
- The daemon's endless run loop, signal handling, sleeping and PID handling are not modelled; one cycle is.
- `get_storage_base` and `find_mail_agent_root` in `mail_agent/utils/save_json.py` resolve paths on disk; the storage directory is given.
- `FileHandler` calls in the attachment handler are an outcome per attachment; the handler's own module is not part of this model.
- `test_connection` in `mail_agent/agents/llm_request.py` is a connected/not-connected parameter.
- A `secrets.json` whose top level is not an object is not modelled.
- Credentials.CredentialManager.GetCredential: lookups in a service entry that is a list or string are modelled by membership only, as Python's `in` behaves.
- `save_output` of the LLM client is reduced to whether the write works.

## Findings

| source | as written | input that shows it | evidently intended | confidence | as-written member | corrected member |
|---|---|---|---|---|---|---|
| mail_agent/run_send_response.py:607-632 | `solution` is None when its document fails to load, and `analyze_quality` then calls `.get` on None and raises | a mail whose problem and asset documents load but whose solution document is missing | the analysis treats a missing solution as empty and reports its fields missing | not executed | JsonQuality.MissingSolutionRaises | JsonQuality.TolerantMissingSolution |
| mail_agent/agents/llm_request.py:85-88 | with a schema and no system prompt, the f-string inserts the text "None" before the prompt | `generate(prompt="p", system=None, schema={...})` sends "None\n\np" followed by the JSON instruction | the prompt is only the user prompt plus the JSON instruction | not executed | LlmRequest.NoneSentAsSystemPrompt | LlmRequest.FullPromptSpec |
| mail_agent/run_send_response.py:156-159 | the sender is the slice between the first `<` and the first `>` | the header `a>b <x@y>` gives the empty sender | the address inside the angle brackets, here `x@y` | not executed | SendResponse.SenderLostBehindDisplayName | SendResponse.SenderAddressOfNamedHeader |
