# CarMem preference pipeline — a Dafny model

CarMem is a pipeline that extracts in-car user preferences from
conversations, categorises them against a fixed four-level schema
(main category, subcategory, detail category, attribute), keeps a
per-user preference store up to date with a classifier-driven maintenance
engine (append, pass, update), and evaluates extraction, maintenance and
retrieval. Every call into a language model, an embedding model or the
Milvus vector store is a parameter or an input here; what is left, and
what is modelled, is the deterministic decision logic around them:

- the maintenance engine: the tools bound per cardinality, the
  classifier call with one retry and a default "pass", the validation of
  the primary key the classifier names, and the append / pass (merge) /
  update effects on a store class holding the stored records; and the
  evaluation driver that routes each equal, negate and different
  preference to a direct insert or to the MP or MNP filter
  (`maintenance.dfy`, `maintenance_tools.dfy`, `preference_store.dfy`,
  `maintenance_routing.dfy`);
- the extraction validator: `valid_at_try`, at most one retry with the
  escaped error appended to the prompt template and the template put back,
  and the recursive removal of nulls from the accepted JSON
  (`preference_memory.dfy`, `json.dfy`);
- the category schema: the 4 → 11 → 41 tree with its example lists,
  narrowing of one detail category's examples by an attribute, and
  removal of one subcategory with its quoted name scrubbed from the main
  category's description (`taxonomy.dfy`, `schema.dfy`,
  `descriptions.dfy`, `quoted.dfy`);
- the category codecs: string → label, string → identifier and tool name
  → label tables with their error cases (`category_labels.dfy`,
  `pyd_category.dfy`, `function_label.dfy`);
- record construction and string encodings: the
  "Main; Sub; Detail; Attr" encoding and its decoder, flattening of the
  nested extraction into numbered records, the maintenance question
  records, transcripts, the sampled dialogue parameters, user profiles,
  the different-attribute pick, and the preference-string flags
  (`preference_string.dfy`, `flattening.dfy`, `extraction_for_eval.dfy`,
  `maintenance_extraction.dfy`, `transcript.dfy`,
  `dataset_creation.dfy`, `extraction_conversations.dfy`,
  `user_profiles.dfy`, `maintenance_utterances.dfy`,
  `pref_string_marker.dfy`);
- the integer part of the four evaluations: label relabelling,
  first-match search, the `valid_at_try` counters, label lists, the
  maintenance `correct_tool` rule and tally matrix, and top-k membership
  and relevant/irrelevant counts for retrieval
  (`extraction_scores.dfy`, `eval_in_schema.dfy`,
  `eval_out_of_schema.dfy`, `eval_maintenance.dfy`,
  `eval_retrieval.dfy`).

`wrappers.dfy` and `strings.dfy` hold the shared result type and the
Python string operations the code relies on (`split`, `join`, `strip`,
`lower`, `replace`).

Where a Python script mutates dictionaries in a loop, the model is a
method with a loop over a class or over values. Each evaluation class
exposes its fields as one running value (`Current()`); every method that
scores a conversation, a line or a run of lines states its new state as
a fold, a function of the old running value and what was scored, and
states exactly when it fails. The lemmas are stated about those folds.

## Model

| member | source | states |
|---|---|---|
| MaintenanceEngine.BoundTools | maintenance/maintenance_functions.py:57-84 | the MP chains are bound to append, pass and update, the MNP chains to pass and update only; insert is never offered |
| MaintenanceEngine.Invocations | maintenance/maintenance_functions.py:143-158 | one or two classifier calls per preference: the first, and the retry prompt exactly when the first reply has no `tool_calls` entry |
| MaintenanceEngine.Decode | maintenance/maintenance_functions.py:145-147 | reading a reply's tool calls gives the first call's name and decoded arguments; an empty list raises IndexError and argument text that is not JSON raises JSONDecodeError |
| MaintenanceEngine.Choose | maintenance/maintenance_functions.py:143-158 | the reading of the last reply made, or "pass_preference" with no arguments when neither reply has a `tool_calls` entry |
| MaintenanceEngine.UnreadableReplyNotRetried | maintenance/maintenance_functions.py:143-148 | a first reply with an empty call list or undecodable arguments makes no retry and ends the choice with IndexError or JSONDecodeError, which `except KeyError` does not catch |
| MaintenanceEngine.ChooseIsBound | maintenance/maintenance_functions.py:58-84 | a classifier whose first calls name only tools it is bound to yields a bound tool whenever the choice succeeds, the default pass included |
| MaintenanceEngine.FirstWithPk | maintenance/maintenance_functions.py:94 | the first existing record whose pk equals the named key, and none exactly when no record matches |
| MaintenanceEngine.FirstMatchIsAt | maintenance/maintenance_functions.py:109 | the record found is the one at the first matching position |
| MaintenanceEngine.SimulatedToolKeepsRows | maintenance/maintenance_functions.py:86-122 | with `perform_function` false no tool changes the store |
| MaintenanceEngine.UnknownToolFails | maintenance/maintenance_functions.py:86-122 | a tool name other than append, pass and update leaves the answer unbound: an error, store unchanged |
| MaintenanceEngine.AppendIgnoresArguments | maintenance/maintenance_functions.py:87-89 | append does not read the arguments and answers "got appended" with its own name |
| MaintenanceEngine.AbsentKeyDegradesToPass | maintenance/maintenance_functions.py:102-120 | a pass or update whose key matches no existing record becomes a simulated pass: "got passed", store unchanged |
| MaintenanceEngine.UpdateActsOnFirstMatch | maintenance/maintenance_functions.py:106-116 | update deletes the first record with the named pk and inserts the incoming one, naming the deleted record in its message |
| MaintenanceEngine.PassActsOnFirstMatch | maintenance/maintenance_functions.py:91-101 | pass replaces the first record with the named pk by the merged record when performing and the pk is non-empty |
| MaintenanceEngine.FallbackPassFails | maintenance/maintenance_functions.py:91-93 | the default pass, run with no arguments, fails by subscripting None and leaves the store unchanged |
| MaintenanceEngine.ToolEffectName | maintenance/maintenance_functions.py:86-122 | the name returned is the tool asked for, except an update with an unmatched key, which reports pass |
| MaintenanceEngine.Maintenance.constructor | maintenance/maintenance_functions.py:57-84 | a fresh engine holds the classifier and has made no call |
| MaintenanceEngine.Maintenance.RunTool | maintenance/maintenance_functions.py:86-122 | answer and new store are those of the tool effect on the stored incoming and existing records |
| MaintenanceEngine.Maintenance.RunKeyed | maintenance/maintenance_functions.py:91-120 | the keyed pass and update branches: first-match lookup, then the tool or the simulated pass |
| MaintenanceEngine.Maintenance.Filter | maintenance/maintenance_functions.py:124-205 | stores the incoming and existing records, shows the classifier only the last existing record (unbound when there is none), makes the one or two calls, fails with the reading error of an unreadable reply and otherwise runs the chosen tool |
| MaintenanceEngine.FilterRunsBoundTool | maintenance/maintenance_functions.py:165-205 | a tool run by the filter is one the chain is bound to, so the MNP filter never appends |
| MaintenanceTools.Merged | maintenance/maintenance_function_calling.py:82-88 | the merged record is the incoming one with text "incoming text \n equal text" |
| MaintenanceTools.RunAppend | maintenance/maintenance_function_calling.py:45-64 | inserts exactly the incoming record when performing, nothing otherwise; returns the appended message and "append_preference" |
| MaintenanceTools.RunPass | maintenance/maintenance_function_calling.py:72-107 | deletes the equal pk and inserts the merged copy only when performing with a truthy pk and a matched record; returns the passed message and "pass_preference" |
| MaintenanceTools.RunUpdate | maintenance/maintenance_function_calling.py:115-139 | deletes the pk then inserts the incoming record when performing; the message names the deleted and the incoming preference |
| MaintenanceTools.ReplaceKeepsBucketSize | maintenance/maintenance_function_calling.py:123-135 | updating a present record of the bucket leaves the bucket's size unchanged |
| PreferenceStore.DropPk | maintenance/maintenance_function_calling.py:128-131 | deleting by pk keeps exactly the records with another pk |
| PreferenceStore.DropPkCount | maintenance/maintenance_function_calling.py:128-131 | deletion removes as many records as carry the pk, and none is left |
| PreferenceStore.DropPkNone | maintenance/maintenance_function_calling.py:96-99 | deleting an absent pk changes nothing |
| PreferenceStore.Bucket | maintenance/2_call_maintenance_function_for_eval.py:102-109 | the query returns exactly the stored records equal on user, main, sub and detail category, each as many times as it is stored |
| PreferenceStore.BucketConcat | maintenance/2_call_maintenance_function_for_eval.py:102-109 | the bucket of two collections is the concatenation of their buckets |
| PreferenceStore.DropPkBucket | maintenance/maintenance_function_calling.py:128-131 | deleting the one record with a pk from a bucket shrinks that bucket by one |
| PreferenceStore.Store.constructor | maintenance/2_call_maintenance_function_for_eval.py:105-109 | a store holds the given records |
| PreferenceStore.Store.Insert | maintenance/maintenance_function_calling.py:56-59 | insert adds the record at the end and changes nothing else |
| PreferenceStore.Store.Delete | maintenance/maintenance_function_calling.py:96-99 | delete removes every record with that pk and nothing else |
| MaintenanceRouting.SelectNegate | maintenance/2_call_maintenance_function_for_eval.py:68-80 | the negate preference is used exactly when one was extracted with the ground-truth labels; a missing key when one was extracted is a KeyError |
| MaintenanceRouting.Questions | maintenance/2_call_maintenance_function_for_eval.py:86-94 | the preferences are taken in the order equal, negate, different |
| MaintenanceRouting.EmptyPreferenceRecordsNone | maintenance/2_call_maintenance_function_for_eval.py:96-138 | an empty preference makes no query, changes nothing and records tool call None |
| MaintenanceRouting.EmptyBucketInserts | maintenance/2_call_maintenance_function_for_eval.py:116-122 | an empty bucket inserts without a classifier call only when performing, recording "insert_preference"; otherwise the previous tool call is carried, and is unbound on the first preference |
| MaintenanceRouting.NonEmptyBucketDispatch | maintenance/2_call_maintenance_function_for_eval.py:124-134 | a non-empty bucket goes to the MP filter for cardinality "MP" and to the MNP filter for "MNP", each shown the bucket's last record; the store is what the filter leaves, the step fails exactly when the filter does (an unreadable reply or a failing tool), and otherwise records the bucket size and the tool's name, carried on; any other cardinality raises ValueError with the store unchanged |
| MaintenanceRouting.FilterStep | maintenance/2_call_maintenance_function_for_eval.py:124-134 | the same for one filter kind: its classifier's choice decides the store, the failure and the recorded and carried tool name |
| MaintenanceRouting.StepRecordsExisting | maintenance/2_call_maintenance_function_for_eval.py:110-112 | every non-empty preference records a number of existing preferences |
| MaintenanceRouting.StepsOnePerPreference | maintenance/2_call_maintenance_function_for_eval.py:87-144 | a completed run records one evaluation per preference, in order, the empty one exactly for an empty preference |
| MaintenanceRouting.RunOnePerPreference | maintenance/2_call_maintenance_function_for_eval.py:87-144 | the same for any step that records the empty evaluation exactly for empty preferences |
| MaintenanceRouting.Step | maintenance/2_call_maintenance_function_for_eval.py:96-138 | an empty preference succeeds and leaves the store as it was; without `perform_function` the store never changes; a successful step carries exactly the tool name it records |
| MaintenanceRouting.Run | maintenance/2_call_maintenance_function_for_eval.py:87-144 | a completed run records one evaluation per preference; with no preferences the store and the carried tool name are unchanged |
| MaintenanceRouting.EvaluatePreference | maintenance/2_call_maintenance_function_for_eval.py:96-138 | the loop body over one preference: its evaluation, the carried tool call and the new store |
| MaintenanceRouting.EvaluateQuestions | maintenance/2_call_maintenance_function_for_eval.py:87-144 | the loop over the three preferences equals the run of the step, stopping at the first error |
| MaintenanceRouting.Written | maintenance/2_call_maintenance_function_for_eval.py:146-148 | exactly the conversations whose equal entry received an evaluation are kept, in order |
| MaintenanceRouting.ConversationEvaluated | maintenance/2_call_maintenance_function_for_eval.py:61-144 | a completed conversation gets three evaluations and is otherwise unchanged |
| MaintenanceRouting.LineAllWritten | maintenance/2_call_maintenance_function_for_eval.py:146-148 | when a whole line completes, every conversation is evaluated and written |
| MaintenanceRouting.LineEvaluatesEach | maintenance/2_call_maintenance_function_for_eval.py:60-148 | the same for any conversation step that evaluates what it completes |
| MaintenanceRouting.EvaluateConversation | maintenance/2_call_maintenance_function_for_eval.py:61-144 | the loop body over one conversation equals the conversation step |
| MaintenanceRouting.EvaluateLine | maintenance/2_call_maintenance_function_for_eval.py:60-150 | the loop over a line's conversations equals the run over them, and the written line is its filtered result |
| PreferenceMemory.ValidateExtraction | extraction/preference_memory.py:124-135 | an empty or falsy result passes; an object is checked against the schema; the error is returned exactly when the check fails |
| PreferenceMemory.RetryTemplateDoubles | extraction/preference_memory.py:137-151 | the retry template is the original followed by the fixed error text, the previous output (as Python's `str` of the parsed arguments) and the error, each with every brace doubled |
| PreferenceMemory.RetryTemplate | extraction/preference_memory.py:137-151 | the retry template starts with the original template unchanged, then a line break |
| PreferenceMemory.FilledRenders | extraction/preference_memory.py:142-150 | rendering the retry suffix gives back the previous output and the error verbatim, braces undoubled |
| PreferenceMemory.RenderPlainThen | extraction/preference_memory.py:142-150 | text without braces renders as itself |
| PreferenceMemory.RenderEscapedThen | extraction/preference_memory.py:146-148 | text whose braces were doubled renders as the original text |
| PreferenceMemory.Chain.constructor | extraction/preference_memory.py:118-122 | a chain holds its template and extractor and has not been invoked |
| PreferenceMemory.Chain.Invoke | extraction/preference_memory.py:181-183 | an invocation returns the extractor's output for the current template and input, is logged, and keeps the template |
| PreferenceMemory.ValidAtTry | extraction/preference_memory.py:163-232 | `valid_at_try` is 1, 2 or None; 1 exactly when the first arguments validate, 2 exactly when they fail and the retry output validates |
| PreferenceMemory.ValidOutputIsFiltered | extraction/preference_memory.py:195-232 | on 1 or 2 the arguments are replaced by their null-free filtering; on None the retry output is returned unfiltered |
| PreferenceMemory.ValidateAndRetry | extraction/preference_memory.py:163-232 | a schema-check failure of the first arguments is returned as it is; first arguments that validate are kept, filtered of nulls, with `valid_at_try` 1; `valid_at_try` is always 1, 2 or None |
| PreferenceMemory.ValidateOutputAndRetry | extraction/preference_memory.py:163-232 | at most one extra invocation, exactly when the first arguments fail; it runs with the retry template, and the original template is put back |
| Json.Keys | extraction/preference_memory.py:156 | the keys of an object in order |
| Json.Subscript | maintenance/maintenance_functions.py:93 | subscripting yields the member for a present key, KeyError for an absent one and TypeError on a non-object |
| Json.Iterate | extraction/1_extraction_for_eval.py:161-166 | iterating an object yields its keys, a list its items, a string its characters; anything else raises |
| Json.FilterMembers | extraction/preference_memory.py:154-157 | filtering an object's members never adds one |
| Json.FilterItems | extraction/preference_memory.py:158-159 | filtering a list never adds an item |
| Json.FilterNoneIsNullFree | extraction/preference_memory.py:153-161 | after filtering no null is left at any depth |
| Json.FilterMembersNullFree | extraction/preference_memory.py:154-157 | filtered members hold no null at any depth |
| Json.FilterItemsNullFree | extraction/preference_memory.py:158-159 | filtered items hold no null at any depth |
| Json.NotNullStaysNotNull | extraction/preference_memory.py:160-161 | a value that is not null does not become null |
| Json.FilterNoneShape | extraction/preference_memory.py:153-161 | objects stay objects with exactly the non-null keys in order, lists keep exactly their non-null items, scalars are unchanged |
| Json.FilterMembersKeys | extraction/preference_memory.py:155-157 | the filtered keys are the non-null keys in order |
| Json.FilterItemsCount | extraction/preference_memory.py:159 | the filtered list has one item per non-null item |
| Json.FilterNoneFixes | extraction/preference_memory.py:153-161 | a null-free value is unchanged |
| Json.FilterMembersFixes | extraction/preference_memory.py:154-157 | null-free members are unchanged |
| Json.FilterItemsFixes | extraction/preference_memory.py:158-159 | null-free items are unchanged |
| Json.FilterNoneIdempotent | extraction/preference_memory.py:153-161 | filtering twice is filtering once |
| Json.FilterNone | extraction/preference_memory.py:153-161 | objects stay objects and lists stay lists, neither gains an entry, and every other value is returned unchanged |
| Json.Repr | extraction/preference_memory.py:176 | Python's `str` of a parsed value: its first character tells the kind — `[` a list, `{` a dict, a quote a string, a digit or `-` a number |
| Json.StrRepr | extraction/preference_memory.py:176 | a string is enclosed in the quote Python's `repr` picks: double quotes exactly when it holds a single quote and no double quote, single quotes otherwise |
| Json.StrReprPlain | extraction/preference_memory.py:176 | a string of printable characters without quotes or backslashes is written as itself between single quotes |
| Json.ReprBodyPlain | extraction/preference_memory.py:176 | printable characters other than quotes and the backslash are written as themselves |
| Json.ReprBodyNoBareQuote | extraction/preference_memory.py:176 | every occurrence of the enclosing quote inside the body is escaped by a backslash, so the written string ends only at its closing quote |
| ExtractionForEval.UuidText | extraction/1_extraction_for_eval.py:69 | the canonical text of a 128-bit uuid is 36 characters long |
| ExtractionForEval.UserNameOfUuid | extraction/1_extraction_for_eval.py:69-70 | the user name is "john-" followed by the first four hex digits of the uuid, nine characters in all |
| ExtractionForEval.ConvertTurn | extraction/1_extraction_for_eval.py:119-126 | a turn's first value is the content; the first key "USER" gives role "User", the user name and the user id, any other key role "Voice Assistant" with neither; an empty turn raises IndexError |
| ExtractionForEval.Messages | extraction/1_extraction_for_eval.py:119-129 | one message per turn, in order |
| ExtractionForEval.ConvertedLine | extraction/1_extraction_for_eval.py:119-129 | a converted turn is shown as "User <name>: <content>" or "Voice Assistant: <content>" |
| ExtractionForEval.PydNamesOf | extraction/1_extraction_for_eval.py:82-86 | the schema identifiers of the ground truth are the two tables' entries for its stripped main, sub and detail names; an unknown name raises ValueError |
| ExtractionForEval.ExperimentSchema | extraction/1_extraction_for_eval.py:88-95 | an experiment type other than in_schema and out_of_schema raises ValueError |
| ExtractionForEval.ExtractDatapoint | extraction/1_extraction_for_eval.py:72-196 | the loop body over one conversation equals the extraction of that conversation |
| ExtractionForEval.ExtractLine | extraction/1_extraction_for_eval.py:72-196 | the loop over a line's conversations maps the extraction over them, stopping at the first error |
| ExtractionForEval.ExtractRun | extraction/1_extraction_for_eval.py:52-200 | an unsupported experiment type raises ValueError; otherwise the first fifty lines are extracted, one result per conversation |
| ExtractionFlattening.CategoryItems | extraction/1_extraction_for_eval.py:109-110 | the category items are main, sub and detail in that order |
| ExtractionFlattening.Leaf | extraction/1_extraction_for_eval.py:172-187 | a leaf record copies the path categories and the user name, takes text and attribute from the revealed sentence and the preference, and its labels from the categories; a missing key raises |
| ExtractionFlattening.Flatten | extraction/1_extraction_for_eval.py:159-161 | a falsy extraction or an invalid one (`valid_at_try` None) gives no record |
| ExtractionFlattening.FlattenDetail | extraction/1_extraction_for_eval.py:168-189 | the loop over one detail category's preferences equals its specification |
| ExtractionFlattening.FlattenSub | extraction/1_extraction_for_eval.py:164-189 | the loop over one subcategory's details skips "no_or_other_preferences" and equals its specification |
| ExtractionFlattening.FlattenMain | extraction/1_extraction_for_eval.py:162-189 | the loop over one main category's subcategories skips "no_or_other_preferences" and equals its specification |
| ExtractionFlattening.FlattenExtraction | extraction/1_extraction_for_eval.py:159-193 | the nested loops equal the flattening, and the counter is the number of records emitted |
| ExtractionFlattening.DetailRecords | extraction/1_extraction_for_eval.py:168-189 | one record per list element of the detail category, each carrying that path |
| ExtractionFlattening.SubRecords | extraction/1_extraction_for_eval.py:164-189 | one record per leaf of the subcategory, each under that main category |
| ExtractionFlattening.MainRecords | extraction/1_extraction_for_eval.py:162-189 | one record per leaf of the main category |
| ExtractionFlattening.PathFacts | extraction/1_extraction_for_eval.py:166-187 | a record never lies under "no_or_other_preferences" and its labels are those of its path |
| ExtractionFlattening.FlattenRecords | extraction/1_extraction_for_eval.py:159-193 | `number_preferences_extracted` is the number of leaves; each record's categories are its path keys, never "no_or_other_preferences", with the labels of that path |
| ExtractionFlattening.OutcomeShape | extraction/1_extraction_for_eval.py:135-161 | try 1 stores no failed extraction, try 2 stores the first output as failed_extraction_1 and flattens the retry, None stores both and flattens nothing |
| ExtractionFlattening.RecordAttempt | extraction/1_extraction_for_eval.py:135-193 | validating, recording the failed extractions and flattening equal the outcome, and the template is unchanged |
| PreferenceString.ParseGroundTruth | extraction/1_extraction_for_eval.py:74-80 | the ground truth is read from the first four ";"-pieces; fewer than four raise IndexError |
| PreferenceString.StripSpaceFront | extraction/1_extraction_for_eval.py:76-79 | stripping ignores the space the encoding puts after each ";" |
| PreferenceString.UserPreferenceIsJoin | dataset/2_create_extraction_conv_and_retrieval_utterance.py:78-86 | the user preference is main, sub, detail and attributes joined by "; " |
| PreferenceString.SplitUserPreference | dataset/2_create_extraction_conv_and_retrieval_utterance.py:78-86 | splitting it at ";" gives back the four fields, each after its space |
| PreferenceString.ParseUserPreference | extraction/1_extraction_for_eval.py:74-80 | decoding an encoded preference gives the four fields stripped when none contains ";" |
| PreferenceString.ParseCleanUserPreference | extraction/1_extraction_for_eval.py:74-80 | round trip: fields without ";" and without surrounding spaces are recovered exactly |
| PreferenceString.LastPieceOfUserPreference | dataset/dataset/pref_string_in_conv_marker.py:22 | the last ";"-piece of an encoded preference, stripped, is its attribute text |
| PreferenceString.TopicIsPrefix | dataset/2_create_extraction_conv_and_retrieval_utterance.py:77-86 | the user preference is the topic followed by "; " detail "; " attributes |
| PreferenceString.WithAttributeEncodes | dataset/create_maintenance_utterances.py:66 | replacing the last piece of an encoded preference by " " + another attribute encodes the same categories with that attribute |
| MaintenanceExtraction.NegateQuestion | maintenance/1_extraction_maintenance_utterances.py:127 | the negate question is "user <name>: " followed by the question |
| MaintenanceExtraction.ArtificialRecord | maintenance/1_extraction_maintenance_utterances.py:130-157 | the artificial record exists exactly when the three categories map to schema keys whose labels exist |
| MaintenanceExtraction.ArtificialLabels | maintenance/1_extraction_maintenance_utterances.py:147-157 | the record's labels are those of the ground-truth display names |
| MaintenanceExtraction.DifferentIsEqualRetold | maintenance/1_extraction_maintenance_utterances.py:159-188 | the different record is the equal record with the different question as text and the different attribute, so both carry the same labels |
| MaintenanceExtraction.MaintainConversation | maintenance/1_extraction_maintenance_utterances.py:112-321 | a maintained conversation keeps its data and gains the equal and different records built from its parsed ground truth and the user uuid |
| MaintenanceExtraction.EntryLabels | maintenance/1_extraction_maintenance_utterances.py:147-188 | equal and different records carry the ground truth's labels |
| MaintenanceExtraction.FirstMissing | maintenance/1_extraction_maintenance_utterances.py:94-104 | processing of a line stops at the first conversation without an extraction |
| MaintenanceExtraction.MaintainOne | maintenance/1_extraction_maintenance_utterances.py:112-321 | the loop body over one conversation equals its specification and restores the template |
| MaintenanceExtraction.ExtractMaintenanceLine | maintenance/1_extraction_maintenance_utterances.py:94-328 | the loop over a line skips imperfect conversations, stops at a missing extraction and equals its specification |
| MaintenanceExtraction.ExtendStep | maintenance/1_extraction_maintenance_utterances.py:107-110 | one more conversation is skipped unless its detail accuracy is 1.0; otherwise its entry is appended or its error ends the line |
| MaintenanceExtraction.StepShape | maintenance/1_extraction_maintenance_utterances.py:107-110 | a conversation contributes one entry exactly when its detail accuracy is 1.0 |
| MaintenanceExtraction.Perfects | maintenance/1_extraction_maintenance_utterances.py:107-110 | only conversations with detail accuracy 1.0 are kept |
| MaintenanceExtraction.PerfectsOfStep | maintenance/1_extraction_maintenance_utterances.py:107-110 | the entries written are, in order, those of the perfect conversations |
| MaintenanceExtraction.WrittenConversations | maintenance/1_extraction_maintenance_utterances.py:94-328 | the written line holds exactly the perfect conversations before the first missing extraction, in order, each with equal and different records of the same labels |
| MaintenanceExtraction.WrittenEntryLabels | maintenance/1_extraction_maintenance_utterances.py:147-188 | every written entry's equal labels are the ground truth's and its different labels equal them |
| MaintenanceExtraction.UserLines | maintenance/1_extraction_maintenance_utterances.py:88-90 | the last line, holding overall results, is excluded |
| MaintenanceExtraction.ExtractMaintenanceRun | maintenance/1_extraction_maintenance_utterances.py:88-330 | the run over all user lines equals its specification and restores the template |
| MaintenanceExtraction.MaintainRun | maintenance/1_extraction_maintenance_utterances.py:88-330 | every line but the last (the overall results) is maintained; the run succeeds exactly when every such line does, and then holds each line's written conversations in order |
| Transcript.Lines | utils/general_utils.py:38-43 | one formatted line per message, in order |
| Transcript.Line | utils/general_utils.py:39-42 | a line starts with the role and ends with ": " and the content |
| Transcript.StringifyConversations | utils/general_utils.py:36-45 | the loop joins the formatted lines with "\n", no trailing newline |
| Transcript.LineShape | utils/general_utils.py:39-42 | a "User" message is shown as "User <name>: <content>"; any other role as "<role>: <content>", whatever its name |
| Transcript.LineIsSingle | utils/general_utils.py:39-42 | a message without a newline gives a line without one |
| Transcript.TranscriptLines | utils/general_utils.py:36-45 | no messages give ""; otherwise splitting the transcript at "\n" gives back exactly one line per message |
| Transcript.LoadChatHistory | utils/general_utils.py:4-11 | the loop builds one "Human: " or "AI: " line per message, each ended by "\n" |
| Transcript.History | utils/general_utils.py:4-11 | the history is empty exactly when there are no messages; otherwise it ends with a line break and holds at least five characters per message |
| Transcript.HistoryLines | utils/general_utils.py:6-10 | one history line per message, in order |
| Transcript.HistoryIsJoin | utils/general_utils.py:4-11 | the history is its lines each followed by "\n" |
| Transcript.HistoryLineSingle | utils/general_utils.py:7-10 | a message without a newline gives a line without one |
| Transcript.HistoryLinesSplit | utils/general_utils.py:4-11 | splitting the history at "\n" gives its lines and a final empty piece |
| DatasetCreation.Items | dataset/2_create_extraction_conv_and_retrieval_utterance.py:122 | only a dictionary turn has items, and they are its members in order |
| DatasetCreation.FlattenConversation | dataset/2_create_extraction_conv_and_retrieval_utterance.py:119-138 | one (speaker, text) pair per key of each turn in turn order, mirrored as role/content messages |
| DatasetCreation.FlattenedTurns | dataset/2_create_extraction_conv_and_retrieval_utterance.py:119-123 | the pairs number the turns' keys in all, and each comes from some turn |
| DatasetCreation.FlattenedNeedsDicts | dataset/2_create_extraction_conv_and_retrieval_utterance.py:119-123 | a turn that is not a dictionary makes flattening fail |
| DatasetCreation.Points | dataset/2_create_extraction_conv_and_retrieval_utterance.py:265-289 | one datapoint per generated row, in order |
| DatasetCreation.GenerateUser | dataset/2_create_extraction_conv_and_retrieval_utterance.py:73-299 | the loop over a profile's rows equals the per-user step |
| DatasetCreation.CreateDataset | dataset/2_create_extraction_conv_and_retrieval_utterance.py:71-299 | the loop over all profiles equals the run, failing exactly when it fails |
| DatasetCreation.RunFailsEarly | dataset/2_create_extraction_conv_and_retrieval_utterance.py:72-299 | a failure on a prefix of the profiles fails the run |
| DatasetCreation.OneLinePerProfile | dataset/2_create_extraction_conv_and_retrieval_utterance.py:74-299 | one line per profile with its uuid and preferences, holding one datapoint per profile row in row order |
| DatasetCreation.RowStepFields | dataset/2_create_extraction_conv_and_retrieval_utterance.py:93-289 | a datapoint's uuid is the profile's, its user preference and metadata are those of the conversation prompt |
| DatasetCreation.GeneratedMetadata | dataset/chains/extraction_conversations.py:97-122 | the generator's metadata repeats the user preference and the sampled dialogue parameters |
| DatasetCreation.DatapointPreference | dataset/2_create_extraction_conv_and_retrieval_utterance.py:77-86 | a datapoint's user preference is the row's encoding, which decodes back to the row's four fields |
| DatasetCreation.SameDynamicPiecesPerUser | dataset/2_create_extraction_conv_and_retrieval_utterance.py:93-97 | seeding by the user index gives every conversation of a user the same dynamic pieces, with a length in {2, 4, 6, 8} |
| DatasetCreation.EmptyProfileTakesStalePieces | dataset/2_create_extraction_conv_and_retrieval_utterance.py:291-299 | a profile without rows reuses the previous user's prompt values, and the first one raises UnboundLocalError |
| DatasetCreation.NewUserHeaders | dataset/2_create_extraction_conv_and_retrieval_utterance.py:163-167 | the "=== NEW USER ===" header is written for a user's first conversation only while every earlier user had a conversation |
| ExtractionConversations.Steps | dataset/chains/extraction_conversations.py:47 | the values `range(start, stop, step)` offers, starting at `start` |
| ExtractionConversations.StepsBounds | dataset/chains/extraction_conversations.py:47 | every offered value lies in [start, stop) |
| ExtractionConversations.StepsAt | dataset/chains/extraction_conversations.py:47 | the i-th offered value is start + step·i |
| ExtractionConversations.RangeCount | dataset/chains/extraction_conversations.py:75 | the number of values a non-empty range offers: the least n with start + step·n ≥ stop |
| ExtractionConversations.StepsCount | dataset/chains/extraction_conversations.py:75 | the range offers exactly that many values |
| ExtractionConversations.Pick | dataset/chains/extraction_conversations.py:48 | a draw always picks one of the options |
| ExtractionConversations.PickAt | dataset/chains/extraction_conversations.py:48 | every option can be drawn |
| ExtractionConversations.RandRange | dataset/chains/extraction_conversations.py:75 | `randrange` with a draw lies in [start, stop) |
| ExtractionConversations.RandRangeInSteps | dataset/chains/extraction_conversations.py:75 | `randrange` picks one of the offered values |
| ExtractionConversations.RandRangeAt | dataset/chains/extraction_conversations.py:78 | the k-th draw gives start + step·k |
| ExtractionConversations.MulMonotone | dataset/chains/extraction_conversations.py:78 | multiplying by a step keeps the order, so the drawn value stays below stop |
| ExtractionConversations.Choice | dataset/chains/extraction_conversations.py:56 | `random.choice` returns one of the options |
| ExtractionConversations.ChoiceHit | dataset/chains/extraction_conversations.py:56 | every option can be chosen |
| ExtractionConversations.AgeSteps | dataset/chains/extraction_conversations.py:47 | the age range offers 20, 30, …, 80 |
| ExtractionConversations.LengthSteps | dataset/chains/extraction_conversations.py:75 | the length range offers 2, 4, 6 and 8 |
| ExtractionConversations.AgeDrawn | dataset/chains/extraction_conversations.py:47 | the age is one of 20, 30, …, 80 |
| ExtractionConversations.AgeHit | dataset/chains/extraction_conversations.py:47 | every such age can be drawn |
| ExtractionConversations.LengthDrawn | dataset/chains/extraction_conversations.py:75 | `conversation_length` is one of 2, 4, 6, 8 |
| ExtractionConversations.LengthHit | dataset/chains/extraction_conversations.py:75 | every such length can be drawn |
| ExtractionConversations.PositionDrawn | dataset/chains/extraction_conversations.py:78 | `position_user_preference_in_conv` is odd and 1 ≤ position < length |
| ExtractionConversations.PositionHit | dataset/chains/extraction_conversations.py:78 | every odd position below the length can be drawn |
| ExtractionConversations.Sample | dataset/chains/extraction_conversations.py:40-80 | the sampled pieces are well formed: age and length in their sets, position odd and below the length, each label from its list, the city given |
| ExtractionConversations.NumbersHit | dataset/chains/extraction_conversations.py:47-78 | every well-formed age, length and position is reached by some draws |
| ExtractionConversations.OptionsHit | dataset/chains/extraction_conversations.py:48-73 | every listed proficiency, style, proactivity and strength is reached by some draw |
| ExtractionConversations.SampleFields | dataset/chains/extraction_conversations.py:40-80 | draws that reach each field reach the whole sample |
| ExtractionConversations.SampleCovers | dataset/chains/extraction_conversations.py:40-80 | every well-formed sample is produced by some draws, so the bounds are exact |
| ExtractionConversations.DropLast | dataset/chains/extraction_conversations.py:85 | dropping the last k pieces keeps the rest as a prefix, and nothing of a shorter list |
| ExtractionConversations.ExtractionConversationChain.SampleDynamicPromptInputs | dataset/chains/extraction_conversations.py:40-80 | the fields set are the sample of the draws; the few-shot example is untouched |
| ExtractionConversations.ExtractionConversationChain.GenerateOneConversation | dataset/chains/extraction_conversations.py:82-123 | samples the pieces, reads the few-shot example of the topic's last piece, and returns the generated conversation with its metadata |
| ExtractionConversations.ExtractionConversationChain.GenerateOneConversationNoPreference | dataset/chains/extraction_conversations.py:125-164 | the same, with the override arguments and the topic shortened by two pieces |
| ExtractionConversations.EncodingIsJoin | dataset/2_create_extraction_conv_and_retrieval_utterance.py:78-86 | the user preference is the four fields joined by "; " |
| ExtractionConversations.PromptOfEncoding | dataset/chains/extraction_conversations.py:85-86 | for an encoded preference the prompt topic is [main, sub, detail] (without the last piece) or [main, sub] (without two), and the attribute is the last piece |
| ExtractionConversations.MetadataMirrorsPrompt | dataset/chains/extraction_conversations.py:97-122 | the metadata repeats the prompt inputs except that "topic" is the raw topic argument; the length is one of 2, 4, 6, 8 |
| ExtractionConversations.OverridesWhenTruthy | dataset/chains/extraction_conversations.py:130-137 | each override replaces the sampled value only when truthy |
| ExtractionConversations.NoOverridesMatchPlain | dataset/chains/extraction_conversations.py:125-164 | without overrides the no-preference variant records the same metadata as the plain generator |
| UserProfiles.ExpandRowIfMp | dataset/chains/sample_user_profiles.py:8-18 | an "MP" row becomes one row per comma-separated attribute, stripped, all else kept; any other row is kept alone |
| UserProfiles.ExpandCategories | dataset/chains/sample_user_profiles.py:40-42 | the rows of the table are expanded one after the other |
| UserProfiles.ExpandedOrigin | dataset/chains/sample_user_profiles.py:40-42 | every expanded row comes from some table row, differing at most in its attribute |
| UserProfiles.Eligible | dataset/chains/sample_user_profiles.py:59 | the increasing positions of exactly the rows whose subcategory is not the excluded fuel type |
| UserProfiles.DrawWithoutReplacement | dataset/chains/sample_user_profiles.py:69-74 | sampling n rows without replacement fails exactly when fewer than n are eligible, and otherwise yields n distinct eligible positions |
| UserProfiles.RemoveAt | dataset/chains/sample_user_profiles.py:69-74 | removing a drawn position leaves the others, still distinct |
| UserProfiles.DrawStep | dataset/chains/sample_user_profiles.py:69-74 | each draw moves one position from the remaining pool to the chosen set |
| UserProfiles.Select | dataset/chains/sample_user_profiles.py:74 | the chosen rows with their positions, in increasing position (`sort_index`) |
| UserProfiles.SelectSize | dataset/chains/sample_user_profiles.py:74 | one selected row per chosen eligible position |
| UserProfiles.DrawnCount | dataset/chains/sample_user_profiles.py:74 | a new position adds one selected row exactly when it was chosen |
| UserProfiles.ChooseMnpAttributes | dataset/chains/sample_user_profiles.py:75-78 | an "MNP" row keeps one of its ", "-separated attributes; every other row and every position is kept |
| UserProfiles.SampleProfile | dataset/chains/sample_user_profiles.py:54-78 | one profile: fails exactly when fewer than n rows are eligible, and otherwise is n eligible rows in position order with the MNP choice made |
| UserProfiles.CountInto | dataset/chains/sample_user_profiles.py:84-88 | the dictionary counts every key seen, starting from 1 for a new one |
| UserProfiles.CountsStep | dataset/chains/sample_user_profiles.py:85-88 | incrementing a present key or adding a new one at 1 keeps the counts exact |
| UserProfiles.OccurrencesAppend | dataset/chains/sample_user_profiles.py:84-88 | one more element adds one occurrence of itself only |
| UserProfiles.Indices | dataset/chains/sample_user_profiles.py:82 | the positions of a profile's rows, in order |
| UserProfiles.Details | dataset/chains/sample_user_profiles.py:84 | the detail categories of a profile's rows, in order |
| UserProfiles.SampleUserProfiles | dataset/chains/sample_user_profiles.py:21-91 | `count` profiles, each a valid sample for its own fuel draw; the two dictionaries count the sampled detail categories and positions; failure only when some profile has too few eligible rows |
| UserProfiles.CategoryCountCoversProfile | dataset/chains/sample_user_profiles.py:84-88 | the category count is at least each single profile's count |
| UserProfiles.OccurrencesConcat | dataset/chains/sample_user_profiles.py:82 | occurrences of a concatenation add up |
| MaintenanceUtterances.Options | dataset/create_maintenance_utterances.py:57 | the attribute cell split at "," with every option stripped |
| MaintenanceUtterances.RemainingRemovesOne | dataset/create_maintenance_utterances.py:54-58 | removing the own attribute fails exactly when it is not an option, and otherwise takes out exactly one occurrence of it |
| MaintenanceUtterances.DifferentIsRemaining | dataset/create_maintenance_utterances.py:59-64 | the different attribute is one of the remaining options, or "No" for the handicapped-parking category when none remain |
| MaintenanceUtterances.EveryRemainingIsPickable | dataset/create_maintenance_utterances.py:59-60 | every remaining option can be chosen |
| MaintenanceUtterances.DifferentDiffers | dataset/create_maintenance_utterances.py:58-60 | when the own attribute occurs once among the options, the chosen one differs from it |
| MaintenanceUtterances.Zip | dataset/create_maintenance_utterances.py:51 | the conversations paired with their draws, position by position |
| MaintenanceUtterances.AnnotateLine | dataset/create_maintenance_utterances.py:51-80 | each conversation of a line keeps its preference and gains the different attribute drawn with its own pick; the line fails at the first conversation that fails |
| PreferenceStringMarker.FirstValue | dataset/dataset/pref_string_in_conv_marker.py:20 | the first value of a turn exists exactly for a non-empty object |
| PreferenceStringMarker.EveryOther | dataset/dataset/pref_string_in_conv_marker.py:21 | `[::2]`: the turns at even positions, ⌈n/2⌉ of them |
| PreferenceStringMarker.MarkLine | dataset/dataset/pref_string_in_conv_marker.py:18-29 | every conversation of a line is marked |
| PreferenceStringMarker.JoinOffset | dataset/dataset/pref_string_in_conv_marker.py:20 | each joined part occurs in the joined text |
| PreferenceStringMarker.LowerOccurs | dataset/dataset/pref_string_in_conv_marker.py:26 | an occurrence survives lower-casing both texts |
| PreferenceStringMarker.MentionedInPart | dataset/dataset/pref_string_in_conv_marker.py:26-29 | a preference mentioned in one turn is mentioned in the joined text |
| PreferenceStringMarker.MentionRaisesFlags | dataset/dataset/pref_string_in_conv_marker.py:24-29 | a turn mentioning the attribute sets the conversation flag, and a user turn also sets the user flag |
| PreferenceStringMarker.MarkedKeepsConversation | dataset/dataset/pref_string_in_conv_marker.py:24-29 | marking keeps preference and turns and sets both flags |
| PreferenceStringMarker.MarkedFails | dataset/dataset/pref_string_in_conv_marker.py:20 | marking fails exactly when some turn has no first value |
| PreferenceStringMarker.UserFlagWithoutConversationFlag | dataset/dataset/pref_string_in_conv_marker.py:20-29 | the user flag can be set while the conversation flag is not: "a b" occurs in the user-only text "a b" but not in "a x b" |
| PreferenceStringMarker.EmptyPreferenceAlwaysFound | dataset/dataset/pref_string_in_conv_marker.py:22-29 | an empty attribute sets both flags |
| CategoryLabels.LabelTablesInvertible | extraction/mapping_category_to_label.py:3-127 | every category has one label, 0–3 for main, 4–14 for sub, 15–55 for detail, and the label gives back the category |
| CategoryLabels.MainTableInvertible | extraction/mapping_category_to_label.py:5-16 | the main-category label of each main category is in 0–3 and gives it back |
| CategoryLabels.SubTableInvertible | extraction/mapping_category_to_label.py:17-41 | the subcategory label of each subcategory is in 4–14 and gives it back |
| CategoryLabels.DetailTableInvertible | extraction/mapping_category_to_label.py:42-127 | the detail label of each detail category is in 15–55 and gives it back |
| CategoryLabels.StringToNumber | extraction/mapping_category_to_label.py:3-136 | a found name has a label in its level's range (main 0–4, sub 4–14, detail 15–56); an unknown level or name raises "No mapping found" |
| CategoryLabels.MainNamesLabel | extraction/mapping_category_to_label.py:6-15 | both the display name and the field key of a main category map to its label |
| CategoryLabels.SubNamesLabel | extraction/mapping_category_to_label.py:18-40 | both names of a subcategory map to its label |
| CategoryLabels.DetailNamesLabel | extraction/mapping_category_to_label.py:43-126 | both names of a detail category map to its label |
| CategoryLabels.StringToNumberDefined | extraction/mapping_category_to_label.py:131-136 | the lookup succeeds exactly for the names in the level's table |
| CategoryLabels.ExtraLabels | extraction/mapping_category_to_label.py:15 | "No Main Category" is 4 and "other" is 56 |
| CategoryLabels.LabelsInjective | extraction/mapping_category_to_label.py:3-127 | distinct categories of a level have distinct labels, none of them the two extra labels |
| CategoryLabels.ConvertPreferenceToLabels | extraction/mapping_category_to_label.py:138-142 | one label per (level, name) pair in order; fails with the first pair's error exactly when some lookup fails |
| PydCategory.CategoryToPydSubExtra | extraction/mapping_category_to_pyd_category.py:1-77 | a display name maps to its class name (main, sub) or field key (detail); anything else raises "No mapping found" |
| PydCategory.CategoryToPyd | extraction/mapping_category_to_pyd_category.py:80-156 | a display name maps to its field key; anything else raises "No mapping found" |
| PydCategory.SubToPyd | extraction/mapping_category_to_pyd_category.py:89-102 | the subcategory rows: a display name maps to its field key |
| PydCategory.PydOfMainDisplay | extraction/mapping_category_to_pyd_category.py:3-9 | each main category's display name maps to its class name and field key |
| PydCategory.PydOfSubDisplay | extraction/mapping_category_to_pyd_category.py:10-23 | each subcategory's display name maps to its class name and field key |
| PydCategory.PydOfDetailDisplay | extraction/mapping_category_to_pyd_category.py:24-67 | each detail category's display name maps to its field key |
| PydCategory.PydDefined | extraction/mapping_category_to_pyd_category.py:71-77 | both tables are defined exactly on the display names of the level |
| PydCategory.DetailTablesAgree | extraction/mapping_category_to_pyd_category.py:24-67 | the two detail tables are the same |
| PydCategory.MainIdentifiersInjective | extraction/mapping_category_to_pyd_category.py:3-9 | distinct main categories have distinct class names and field keys |
| PydCategory.SubIdentifiersInjective | extraction/mapping_category_to_pyd_category.py:10-23 | distinct subcategories have distinct class names and field keys |
| PydCategory.DetailKeysInjective | extraction/mapping_category_to_pyd_category.py:24-67 | distinct detail categories have distinct field keys |
| PydCategory.PydInjective | extraction/mapping_category_to_pyd_category.py:80-156 | two names with the same field key are the same name |
| PydCategory.PydKeepsLabel | extraction/mapping_category_to_pyd_category.py:80-156 | translating a display name to its field key keeps its numeric label |
| FunctionLabel.FunctionToLabel | maintenance/mapping_function_to_label.py:1-11 | a label 0–3 exactly for the four tool names; any other name gives the `KeyError` class back |
| FunctionLabel.LabelName | maintenance/mapping_function_to_label.py:2-7 | each label 0–3 names a tool |
| FunctionLabel.FunctionLabelRoundTrip | maintenance/mapping_function_to_label.py:2-7 | tool name and label determine each other |
| FunctionLabel.FunctionLabelInjective | maintenance/mapping_function_to_label.py:2-7 | distinct tool names have distinct labels |
| Taxonomy.ParseMain | extraction/mapping_category_to_label.py:6-15 | a main category found by name is one whose display name or field key it is |
| Taxonomy.ParseMainAll | extraction/mapping_category_to_label.py:6-15 | each main category's two names find it |
| Taxonomy.ParseMainNames | extraction/mapping_category_to_label.py:6-15 | the display name and field key of every main category find that category |
| Taxonomy.ParseSub | extraction/mapping_category_to_label.py:18-40 | a subcategory found by name is one whose display name or field key it is |
| Taxonomy.ParseSubFirstHalf | extraction/mapping_category_to_label.py:18-29 | each of the first six subcategories' names find it |
| Taxonomy.ParseSubSecondHalf | extraction/mapping_category_to_label.py:30-40 | each of the last five subcategories' names find it |
| Taxonomy.ParseSubClass | extraction/mapping_category_to_pyd_category.py:10-23 | a subcategory found by class name is the one with that class name |
| Taxonomy.ParseSubClassAll | extraction/mapping_category_to_pyd_category.py:10-23 | each subcategory's class name finds it |
| Taxonomy.ParseSubNames | extraction/mapping_category_to_label.py:18-40 | the display name, field key and class name of every subcategory find that subcategory |
| Taxonomy.ParseDetail | extraction/mapping_category_to_label.py:43-126 | a detail category found by name is one whose display name or field key it is |
| Taxonomy.ParseDetailNames | extraction/mapping_category_to_label.py:43-126 | the display name and field key of every detail category find that category |
| Taxonomy.SubTreeConsistent | extraction/pydantic_schemas/categories_pydantic.py:620-643 | a subcategory is listed under a main category exactly when that is its parent |
| Taxonomy.DetailTreeConsistent | extraction/pydantic_schemas/categories_pydantic.py:204-612 | a detail category is listed under a subcategory exactly when that is its parent |
| Taxonomy.DetailUnderParent | extraction/pydantic_schemas/categories_pydantic.py:204-612 | every detail category is listed under its parent |
| Taxonomy.DetailsHaveParent | extraction/pydantic_schemas/categories_pydantic.py:204-612 | every detail category listed under a subcategory has it as parent |
| Taxonomy.TreeSizes | extraction/pydantic_schemas/categories_pydantic.py:204-643 | 4 main categories, 11 subcategories and 41 detail categories |
| Taxonomy.ParseKeyOfFavouriteCuisine | extraction/mapping_category_to_label.py:43-126 | the field key of this detail category finds it; one such lemma, and one `ParseDisplayOf` lemma for the display name, exists for each of the 41 detail categories, and `ParseDetailNames` collects them |
| PydanticSchema.Find | extraction/pydantic_schemas/categories_pydantic.py:1583 | a field looked up by name is found exactly when one has that name, and it is one of the fields |
| PydanticSchema.SubNames | extraction/pydantic_schemas/categories_pydantic.py:321-345 | one field name per subcategory model |
| PydanticSchema.BuildSchemaForbidsExtra | extraction/pydantic_schemas/categories_pydantic.py:620-643 | every model of the schema forbids extra keys |
| PydanticSchema.FindBuiltMain | extraction/pydantic_schemas/categories_pydantic.py:620-643 | the top-level field of each main category carries its title, description and model |
| PydanticSchema.FindBuiltSub | extraction/pydantic_schemas/categories_pydantic.py:321-345 | each main-category model holds its subcategories' models |
| PydanticSchema.FindBuiltDetail | extraction/pydantic_schemas/categories_pydantic.py:204-243 | each subcategory model holds its detail fields |
| PydanticSchema.BuiltExamples | extraction/pydantic_schemas/categories_pydantic.py:204-243 | each detail field carries the example list of its category |
| PydanticSchema.BuiltFields | extraction/pydantic_schemas/categories_pydantic.py:620-643 | the top-level model has the four main-category fields in order |
| PydanticSchema.BuildSchema | extraction/pydantic_schemas/categories_pydantic.py:620-643 | the schema has the four main-category fields in taxonomy order, each with the main model built from the example lists, and forbids extra keys |
| PydanticSchema.LookupDetailKey | extraction/pydantic_schemas/categories_pydantic.py:662 | the lookup of a detail name gives a field key exactly for the field keys |
| PydanticSchema.ReturnSchemaOutcome | extraction/pydantic_schemas/categories_pydantic.py:646-662 | with no category or attribute the full schema; otherwise success exactly when the normalised attribute is among the category's examples, else KeyError (unknown key) or ValueError (`remove` of a missing value) |
| PydanticSchema.ReturnSchemaNarrows | extraction/pydantic_schemas/categories_pydantic.py:646-662 | the ground-truth attribute loses its first occurrence in its own example list; every other list is unchanged and every model still forbids extras |
| PydanticSchema.Narrow | extraction/pydantic_schemas/categories_pydantic.py:661 | the named category's list loses one occurrence of the attribute and nothing else; every other list is unchanged |
| PydanticSchema.NormaliseAttribute | extraction/pydantic_schemas/categories_pydantic.py:649-659 | the normalised attribute is never longer; it differs from the attribute only for the four listed categories, and then has no whitespace at either end |
| PydanticSchema.ReturnSchemaWith | extraction/pydantic_schemas/categories_pydantic.py:646-662 | with no category or an empty normalised attribute the full schema; every failure is KeyError for the category name or ValueError from `remove`; every success has the four fields and forbids extras |
| PydanticSchema.ReturnSchema | extraction/pydantic_schemas/categories_pydantic.py:646-662 | the same from a fresh copy of the original example lists |
| PydanticSchema.FirstWordOfPlain | extraction/pydantic_schemas/categories_pydantic.py:655 | a stripped text without the cut character is its own first piece |
| PydanticSchema.FirstPieceFree | extraction/pydantic_schemas/categories_pydantic.py:655 | the first piece of a split holds no separator |
| PydanticSchema.StripKeepsFree | extraction/pydantic_schemas/categories_pydantic.py:655 | stripping adds no character |
| PydanticSchema.NormaliseIdempotent | extraction/pydantic_schemas/categories_pydantic.py:649-660 | normalising the attribute twice equals normalising it once |
| PydanticSchema.NormaliseOnlyFour | extraction/pydantic_schemas/categories_pydantic.py:649-660 | only the four listed categories change their attribute |
| PydanticSchema.NormaliseCuts | extraction/pydantic_schemas/categories_pydantic.py:649-660 | the three categories cut at " " keep no space; the walking distance cut at "(" keeps no parenthesis |
| PydanticSchema.Without | extraction/pydantic_schemas/categories_pydantic.py:1580 | the names left after a deletion are the others |
| PydanticSchema.RemoveSub | extraction/pydantic_schemas/categories_pydantic.py:1581 | the subcategory models left are those of the other subcategories |
| PydanticSchema.DeleteField | extraction/pydantic_schemas/categories_pydantic.py:1580-1581 | `del` of a missing field raises KeyError; otherwise the model keeps its category and a subset of its fields |
| PydanticSchema.NoOrOtherNotSubKey | extraction/pydantic_schemas/categories_pydantic.py:321-345 | the free-text field name is no subcategory key |
| PydanticSchema.SubNamesMember | extraction/pydantic_schemas/categories_pydantic.py:321-345 | a name is a subcategory field exactly when some model has that key |
| PydanticSchema.RemoveSubNames | extraction/pydantic_schemas/categories_pydantic.py:1580-1581 | removing a subcategory model removes its key from the names |
| PydanticSchema.SubNamesConcat | extraction/pydantic_schemas/categories_pydantic.py:321-345 | the names of two model lists concatenate |
| PydanticSchema.WithoutAbsent | extraction/pydantic_schemas/categories_pydantic.py:1580 | removing an absent name changes nothing |
| PydanticSchema.DeleteFieldRemovesName | extraction/pydantic_schemas/categories_pydantic.py:1580-1581 | deletion succeeds exactly for a present field name and removes just that name |
| PydanticSchema.DeleteNoOrOther | extraction/pydantic_schemas/categories_pydantic.py:1580-1581 | the same for the free-text field |
| PydanticSchema.DeleteSubField | extraction/pydantic_schemas/categories_pydantic.py:1580-1581 | the same for a subcategory field |
| PydanticSchema.WithoutConcat | extraction/pydantic_schemas/categories_pydantic.py:1580 | removal distributes over concatenation |
| PydanticSchema.WithModel | extraction/pydantic_schemas/categories_pydantic.py:1575-1590 | replacing one main model keeps the number of fields |
| PydanticSchema.WithScrubbed | extraction/pydantic_schemas/categories_pydantic.py:1582-1589 | rewriting one description keeps the number of fields |
| PydanticSchema.RewrittenFields | extraction/pydantic_schemas/categories_pydantic.py:1575-1590 | only the target main field's model and the named main field's description change, the latter by removing every quoted occurrence of the word |
| PydanticSchema.LookupMainKey | extraction/pydantic_schemas/categories_pydantic.py:1583 | the lookup of a main name gives a field key exactly for the field keys |
| PydanticSchema.WithoutCategoryOutcome | extraction/pydantic_schemas/categories_pydantic.py:1575-1628 | an unknown class name leaves the schema as built; otherwise success exactly when the subcategory field exists and the main name is a field key, else KeyError for the missing name |
| PydanticSchema.WithoutCategoryParts | extraction/pydantic_schemas/categories_pydantic.py:1575-1628 | a successful call is the deletion in the parent main model plus the description rewrite |
| PydanticSchema.WithoutCategoryRemovesField | extraction/pydantic_schemas/categories_pydantic.py:1575-1628 | the parent main model loses exactly the named field and keeps its other models; the other main models are as built |
| PydanticSchema.ReturnSchemaWithoutCategoryWith | extraction/pydantic_schemas/categories_pydantic.py:1575-1628 | an unknown subcategory class leaves the schema as built; every failure is KeyError for the subcategory field or for the main name |
| PydanticSchema.ReturnSchemaWithoutCategory | extraction/pydantic_schemas/categories_pydantic.py:1126-1628 | the same from the original example lists |
| PydanticSchema.WithoutCategoryForbidsExtra | extraction/pydantic_schemas/categories_pydantic.py:1575-1628 | every model still forbids extras |
| PydanticSchema.FieldNamePlain | extraction/pydantic_schemas/categories_pydantic.py:321-345 | field names hold no quote and no space |
| PydanticSchema.WithoutCategoryScrubs | extraction/pydantic_schemas/categories_pydantic.py:1582-1589 | the named main field's description loses every quoted occurrence of the subcategory name, and none is left |
| PydanticSchema.WithoutCategoryKeepsDescriptions | extraction/pydantic_schemas/categories_pydantic.py:1582-1589 | the other descriptions are unchanged |
| Descriptions.SubKeys | extraction/pydantic_schemas/categories_pydantic.py:620-643 | the subcategory keys a main category's description lists, at least two, in schema order |
| Descriptions.TopicsShape | extraction/pydantic_schemas/categories_pydantic.py:620-643 | the topic list alternates keys and ", ", ending in "." |
| Descriptions.SubKeyQuoteFree | extraction/pydantic_schemas/categories_pydantic.py:620-643 | subcategory keys hold no quote |
| Descriptions.SubKeySpaceFree | extraction/pydantic_schemas/categories_pydantic.py:620-643 | subcategory keys hold no space |
| Descriptions.MainDisplayShape | extraction/pydantic_schemas/categories_pydantic.py:620-643 | main display names hold a space and no quote |
| Descriptions.FixedPiecesShape | extraction/pydantic_schemas/categories_pydantic.py:620-643 | the fixed description texts hold a space and no quote |
| Descriptions.TopicsPlain | extraction/pydantic_schemas/categories_pydantic.py:620-643 | the topic pieces are quote-free and no two neighbours are both space-free |
| Descriptions.DescriptionPiecesShape | extraction/pydantic_schemas/categories_pydantic.py:620-643 | the same holds for every description's pieces |
| Descriptions.PrependQuoteFree | extraction/pydantic_schemas/categories_pydantic.py:620-643 | a quote-free piece put in front keeps a piece list quote-free (with `PrependNoAdjacentBare` and `FourFront`, the steps from which the description shapes are built) |
| Descriptions.PrependNoAdjacentBare | extraction/pydantic_schemas/categories_pydantic.py:620-643 | a piece put in front keeps "no two space-free neighbours" when it or its neighbour holds a space |
| Descriptions.DescriptionScrubbed | extraction/pydantic_schemas/categories_pydantic.py:1582-1589 | deleting a quoted key from a description is the piecewise scrub, and leaves no quoted occurrence of the key |
| QuotedText.Scrub | extraction/pydantic_schemas/categories_pydantic.py:1584 | scrubbing keeps at least one piece and keeps pieces quote-free |
| QuotedText.ReplaceSkipsQuoteFree | extraction/pydantic_schemas/categories_pydantic.py:1584 | `replace` of a quoted word passes over a quote-free prefix unchanged |
| QuotedText.QuotedPieceNoMatch | extraction/pydantic_schemas/categories_pydantic.py:1584 | a quoted piece other than the word is no match |
| QuotedText.LastPieceNoMatch | extraction/pydantic_schemas/categories_pydantic.py:1584 | a final piece after a quote is no match |
| QuotedText.QuotedPrefix | extraction/pydantic_schemas/categories_pydantic.py:1584 | the quoted word itself matches, and the scan resumes after it |
| QuotedText.ReplaceAtMatch | extraction/pydantic_schemas/categories_pydantic.py:1584 | a matching quoted piece is removed with its quotes, merging its neighbours |
| QuotedText.ReplaceStepNoMatch | extraction/pydantic_schemas/categories_pydantic.py:1584 | without a match at the front, `replace` keeps the first character |
| QuotedText.ReplaceAtNoMatch | extraction/pydantic_schemas/categories_pydantic.py:1584 | a non-matching quoted piece is kept |
| QuotedText.ReplaceQuotedInJoin | extraction/pydantic_schemas/categories_pydantic.py:1584 | `replace("'w'", "")` on quote-separated pieces is the join of the scrubbed pieces |
| QuotedText.ScrubLeavesNoInner | extraction/pydantic_schemas/categories_pydantic.py:1584 | after the scrub no inner piece equals the word |
| QuotedText.ScrubNoInnerFixed | extraction/pydantic_schemas/categories_pydantic.py:1584 | scrubbing pieces with no inner word changes nothing |
| QuotedText.ReplaceShrinks | extraction/pydantic_schemas/categories_pydantic.py:1584 | deleting a pattern never lengthens a text, and shortens it when the pattern occurs |
| QuotedText.ShiftOccurrence | extraction/pydantic_schemas/categories_pydantic.py:1584 | a later occurrence is still there after the first character |
| QuotedText.ScrubbedHasNoOccurrence | extraction/pydantic_schemas/categories_pydantic.py:1584 | when pieces are shaped like the descriptions, no quoted word is left after the deletion |
| Strings.Split | extraction/1_extraction_for_eval.py:75 | `str.split` gives at least one piece |
| Strings.JoinSplit | dataset/create_maintenance_utterances.py:66 | joining the pieces of a split with the same separator gives the text back |
| Strings.SplitJoin | dataset/2_create_extraction_conv_and_retrieval_utterance.py:78-86 | splitting a join of separator-free pieces gives the pieces back |
| Strings.SplitNoSeparator | extraction/1_extraction_for_eval.py:75 | a text without the separator splits into itself |
| Strings.SplitAfterPiece | extraction/1_extraction_for_eval.py:75 | a separator-free first piece is split off first |
| Strings.IndexOf | maintenance/maintenance_functions.py:143-158 | `list.index`: the first position holding the value |
| Strings.RemoveFirst | extraction/pydantic_schemas/categories_pydantic.py:661 | `list.remove`: one fewer element, one occurrence of the value taken out |
| Strings.StripLeft | extraction/1_extraction_for_eval.py:76 | `lstrip` removes exactly the leading whitespace, Python's whitespace set (`str.isspace`) |
| Strings.StripRight | extraction/1_extraction_for_eval.py:76 | `rstrip` removes exactly the trailing whitespace, Python's whitespace set (`str.isspace`) |
| Strings.Strip | extraction/1_extraction_for_eval.py:76 | `strip` never lengthens the text, leaves no whitespace at either end, and gives "" exactly when the text is all whitespace |
| Strings.StripIsTrimmedSlice | extraction/1_extraction_for_eval.py:76 | `strip` gives a slice with no whitespace at either end |
| Strings.StripTrimmed | extraction/1_extraction_for_eval.py:76 | a trimmed text strips to itself |
| Strings.StripIdempotent | extraction/1_extraction_for_eval.py:76 | stripping twice equals stripping once |
| Strings.StripLeadingSpace | dataset/create_maintenance_utterances.py:66 | the " " put before the new attribute is stripped off again |
| Strings.Lower | dataset/dataset/pref_string_in_conv_marker.py:26 | `lower` maps each character, keeping the length; ASCII and Latin-1 capitals become their small letters |
| Strings.LowerIdempotent | dataset/dataset/pref_string_in_conv_marker.py:26 | lower-casing twice equals once |
| Strings.LowerConcat | dataset/dataset/pref_string_in_conv_marker.py:26-28 | lower-casing distributes over concatenation |
| Strings.ReplaceCharConcat | extraction/preference_memory.py:146 | replacing a character distributes over concatenation |
| Strings.ReplaceCharAbsent | extraction/preference_memory.py:146 | replacing an absent character changes nothing |
| Strings.DoubledBracesConcat | extraction/preference_memory.py:146 | doubling braces distributes over concatenation |
| Strings.EscapeBraces | extraction/preference_memory.py:146 | the escaped text is the text with every brace doubled |
| Strings.EscapeBracesIsDoubling | extraction/preference_memory.py:146 | the two chained `replace` calls double every brace |
| Strings.RenderEscaped | extraction/preference_memory.py:144-151 | the prompt template renders an escaped text back to the original |
| ExtractionScores.Relabelled | extraction/2_eval_of_extraction_in_schema.py:122-125 | every song label (50) becomes the genre label (49); every other label is kept |
| ExtractionScores.RelabelSongAsGenre | extraction/2_eval_of_extraction_in_schema.py:122-125 | the in-place loop computes the relabelled list |
| ExtractionScores.RelabelledProperties | extraction/2_eval_of_extraction_in_schema.py:122-125 | no song label is left, the other labels are kept, and relabelling again changes nothing |
| ExtractionScores.Column | extraction/2_eval_of_extraction_in_schema.py:95 | one label of the level per extracted preference, in order |
| ExtractionScores.AllSingleRepeatAt | extraction/2_eval_of_extraction_in_schema.py:132-151 | the list-wide shape facts hold at each position |
| ExtractionScores.FirstIndex | extraction/2_eval_of_extraction_in_schema.py:157-162 | the first position holding the label, present exactly when the label occurs |
| ExtractionScores.FindGroundTruth | extraction/2_eval_of_extraction_in_schema.py:155-165 | the flag ends as membership of the ground-truth detail label and the index is its first position |
| ExtractionScores.CountTry | extraction/2_eval_of_extraction_in_schema.py:190-195 | exactly one counter grows: try 1, try 2, or not valid for any other value |
| ExtractionScores.Processed | extraction/2_eval_of_extraction_in_schema.py:84-89 | a line is scored up to, and not including, its first conversation without an extraction |
| ExtractionScores.ProcessedNext | extraction/2_eval_of_extraction_in_schema.py:84-89 | a conversation with an extraction inside that prefix extends it |
| InSchemaEval.TrueLabels | extraction/2_eval_of_extraction_in_schema.py:92 | the true label set holds the one ground-truth label |
| Wrappers.Repeat | extraction/2_eval_of_extraction_in_schema.py:146 | `[x] * n`: exactly n copies of x |
| InSchemaEval.StringsCountedOrdered | extraction/2_eval_of_extraction_in_schema.py:176-187 | each "in extracted" counter stays at most its "in conversation" counter; each grows by at most one; nothing changes when the ground truth is not extracted |
| InSchemaEval.CountStrings | extraction/2_eval_of_extraction_in_schema.py:176-187 | the string counters are updated as the specification function says |
| InSchemaEval.Bump | extraction/2_eval_of_extraction_in_schema.py:180-187 | the nested increments of the four counters |
| InSchemaEval.AppendedShapes | extraction/2_eval_of_extraction_in_schema.py:92-151 | appending keeps every list pair aligned with its counter, single predictions in the one-preference lists, and repeated truths as long as their predictions |
| InSchemaEval.AppendLabels | extraction/2_eval_of_extraction_in_schema.py:91-151 | the three list families extended for one conversation, the one-preference family only when exactly one preference was extracted |
| InSchemaEval.ScoredConsistent | extraction/2_eval_of_extraction_in_schema.py:91-206 | scoring a conversation keeps the counters partitioning the conversations and the lists aligned |
| InSchemaEval.Advance | extraction/2_eval_of_extraction_in_schema.py:91-206 | the running values after one conversation, still consistent |
| InSchemaEval.InSchemaEvaluation.constructor | extraction/2_eval_of_extraction_in_schema.py:64-81 | all lists and counters start empty |
| InSchemaEval.InSchemaEvaluation.ScoreConversation | extraction/2_eval_of_extraction_in_schema.py:91-206 | fails exactly when the string check fails; otherwise the new state is the scored one |
| InSchemaEval.InSchemaEvaluation.ScoreLine | extraction/2_eval_of_extraction_in_schema.py:84-206 | fails exactly when the line's fold from the old state fails, with its error; otherwise the new state is that fold, the counter grows by the processed conversations and the earlier extracted flags are kept |
| InSchemaEval.InSchemaEvaluation.ScoreConversations | extraction/2_eval_of_extraction_in_schema.py:84-206 | the loop over a line's conversations: its error is the fold's error, and otherwise the new state is the fold from the old one and stays consistent |
| InSchemaEval.ScoredLineConsistent | extraction/2_eval_of_extraction_in_schema.py:84-206 | a scored line keeps the invariant and adds exactly its processed conversations to the counter |
| InSchemaEval.ScoredLineKeepsFound | extraction/2_eval_of_extraction_in_schema.py:155-156 | a scored line only appends extracted flags after the earlier ones |
| InSchemaEval.ScoredLinesConsistent | extraction/2_eval_of_extraction_in_schema.py:83-206 | scored lines keep the invariant and add the processed conversations of every line |
| InSchemaEval.ScoredFromStart | extraction/2_eval_of_extraction_in_schema.py:64-206 | the fold of any lines from the empty start, when it succeeds, is consistent and counts every processed conversation |
| InSchemaEval.ScoredLinesStop | extraction/2_eval_of_extraction_in_schema.py:83-206 | an error in the first k lines is the error of the whole run |
| InSchemaEval.InSchemaEvaluation.ScoreLines | extraction/2_eval_of_extraction_in_schema.py:83-206 | fails exactly when the fold of the lines from the old state fails, with its error; otherwise the new state is that fold |
| InSchemaEval.EvaluateInSchema | extraction/2_eval_of_extraction_in_schema.py:64-206 | fails exactly when the fold of all lines from the empty start fails, with its error; otherwise the evaluation holds that fold, is consistent and counts the processed conversations of every line |
| InSchemaEval.TriesPartition | extraction/2_eval_of_extraction_in_schema.py:190-206 | the three try counters add up to the scored conversations |
| InSchemaEval.FoundIgnoresRelabelling | extraction/2_eval_of_extraction_in_schema.py:115-155 | with relabelling on, a song ground truth and a genre prediction agree in the label lists yet count as not extracted, because the membership test reads the raw labels |
| ExtractionScores.Predicted | extraction/2_eval_of_extraction_in_schema.py:94-126 | one predicted label per extracted preference, taken from the asked level; at detail level with song folded into genre no song label is left and every other label is kept |
| OutOfSchemaEval.Appended | extraction/2_eval_of_extraction_out_of_schema.py:137-198 | every list pair grows by one entry |
| OutOfSchemaEval.Predict | extraction/2_eval_of_extraction_out_of_schema.py:146-198 | the three predicted lists, the detail list relabelled in place when asked |
| OutOfSchemaEval.AppendPredictions | extraction/2_eval_of_extraction_out_of_schema.py:137-198 | the raw ground truth and the predictions appended at every level |
| OutOfSchemaEval.ScoredConsistent | extraction/2_eval_of_extraction_out_of_schema.py:122-233 | scoring keeps the lists aligned, the true sets empty, the counters partitioning and the totals equal to the sums of the written evaluations |
| OutOfSchemaEval.Advance | extraction/2_eval_of_extraction_out_of_schema.py:133-233 | the running values after one conversation, the other count added only when present |
| OutOfSchemaEval.OutOfSchemaEvaluation.constructor | extraction/2_eval_of_extraction_out_of_schema.py:112-117 | all lists, counters and totals start empty |
| OutOfSchemaEval.OutOfSchemaEvaluation.ScoreConversation | extraction/2_eval_of_extraction_out_of_schema.py:133-233 | the new state is the scored one and stays consistent |
| OutOfSchemaEval.OutOfSchemaEvaluation.ScoreLine | extraction/2_eval_of_extraction_out_of_schema.py:122-233 | the new state is the line's fold from the old one (scoring stops at the first conversation without an extraction) and stays consistent; the counter grows by exactly the processed conversations |
| OutOfSchemaEval.ScoredLineConsistent | extraction/2_eval_of_extraction_out_of_schema.py:122-233 | a scored line keeps the invariant and adds its processed conversations to the counter |
| OutOfSchemaEval.Scoreable | extraction/2_eval_of_extraction_out_of_schema.py:122-131 | the extractions of the line up to the first conversation without one, as many as are processed |
| OutOfSchemaEval.Evaluations | extraction/2_eval_of_extraction_out_of_schema.py:205-221 | one written evaluation per extraction, with its extracted count and other count |
| OutOfSchemaEval.Truths | extraction/2_eval_of_extraction_out_of_schema.py:137-198 | one single-label ground-truth list per extraction at the level |
| OutOfSchemaEval.Predictions | extraction/2_eval_of_extraction_out_of_schema.py:146-198 | one predicted list per extraction at the level |
| OutOfSchemaEval.ScoredLineEvaluations | extraction/2_eval_of_extraction_out_of_schema.py:122-221 | a line appends exactly the evaluations of its scoreable conversations, in order, after the earlier ones |
| OutOfSchemaEval.ScoredLineLabels | extraction/2_eval_of_extraction_out_of_schema.py:137-198 | at every level a line appends exactly the ground truths and the predictions of its scoreable conversations, in order |
| OutOfSchemaEval.ScoredLinesConsistent | extraction/2_eval_of_extraction_out_of_schema.py:119-233 | scoring any run of lines keeps the invariant and adds the processed conversations of every line to the counter |
| OutOfSchemaEval.ScoredFromStart | extraction/2_eval_of_extraction_out_of_schema.py:112-233 | the fold of any lines from the empty start is consistent and counts every processed conversation |
| OutOfSchemaEval.OutOfSchemaEvaluation.ScoreLines | extraction/2_eval_of_extraction_out_of_schema.py:119-233 | the new state is the fold of the first n lines from the old one; a missing line raises IndexError with its index |
| OutOfSchemaEval.EvaluateFirst | extraction/2_eval_of_extraction_out_of_schema.py:112-233 | the evaluation holds the fold of exactly the first n lines from the empty start, is consistent and counts their processed conversations; fewer lines raise IndexError at the first missing one |
| OutOfSchemaEval.EvaluateOutOfSchema | extraction/2_eval_of_extraction_out_of_schema.py:119-120 | the evaluation holds the fold of exactly the first fifty lines from the empty start; fewer lines raise IndexError at the first missing one |
| OutOfSchemaEval.TotalsBound | extraction/2_eval_of_extraction_out_of_schema.py:205-233 | with bounded "other" counts the other total lies between 0 and the bound times the conversations; the try counters add up to them |
| OutOfSchemaEval.OtherTotalBound | extraction/2_eval_of_extraction_out_of_schema.py:223-229 | the other total is bounded by the per-conversation bound |
| OutOfSchemaEval.OtherTotalSkipsMissing | extraction/2_eval_of_extraction_out_of_schema.py:223-229 | conversations without an "other" count add nothing |
| MaintenanceEval.Correct | maintenance/3_eval_of_maintenance.py:98-160 | each question's `correct_tool` is set exactly when its call is the expected tool: pass, update, append, for MP and MNP alike |
| MaintenanceEval.BucketSizes | maintenance/3_eval_of_maintenance.py:82-96 | the equal question's bucket size is recorded three times with one negate extraction and twice otherwise |
| MaintenanceEval.ScoredConsistent | maintenance/3_eval_of_maintenance.py:71-160 | scoring one conversation keeps every list pair aligned, the conversations split between MP and MNP and three bucket sizes per conversation less one per invalid negate question |
| MaintenanceEval.AllFlags | maintenance/3_eval_of_maintenance.py:98-160 | one flag triple per conversation, in order |
| MaintenanceEval.ScoredAllContents | maintenance/3_eval_of_maintenance.py:69-160 | scoring conversations keeps the invariant, counts each once and appends exactly their flags, in order |
| MaintenanceEval.ScoredLinesConsistent | maintenance/3_eval_of_maintenance.py:68-160 | scoring lines keeps the invariant and counts every conversation of every line |
| MaintenanceEval.ScoredFilesOnce | maintenance/3_eval_of_maintenance.py:98-160 | a conversation is filed under MP exactly when its cardinality is "MP" and under MNP otherwise, its call landing at the end of that list |
| MaintenanceEval.MaintenanceEvaluation.constructor | maintenance/3_eval_of_maintenance.py:62-67 | all lists and counters start empty, which is the fold's start |
| MaintenanceEval.MaintenanceEvaluation.ScoreConversation | maintenance/3_eval_of_maintenance.py:71-160 | the new state is the old one with the conversation scored: its calls filed under its cardinality only, its bucket sizes and flags appended, the invalid-negate counter raised without exactly one negate extraction; the invariant is kept |
| MaintenanceEval.MaintenanceEvaluation.ScoreLine | maintenance/3_eval_of_maintenance.py:69-160 | the new state is the fold of the line's conversations, in order, from the old one |
| MaintenanceEval.MaintenanceEvaluation.ScoreLines | maintenance/3_eval_of_maintenance.py:68-160 | the new state is the fold of the lines, line by line, from the old one |
| MaintenanceEval.EvaluateMaintenance | maintenance/3_eval_of_maintenance.py:62-160 | the evaluation holds the fold of every conversation of every line from the empty start, is consistent and counts every conversation |
| MaintenanceEval.Present | maintenance/3_eval_of_maintenance.py:183 | the calls with `None` filtered out: each tool occurs exactly as often as it was called |
| MaintenanceEval.Hits | maintenance/3_eval_of_maintenance.py:180 | the number of calls equal to the expected tool, at most the number of calls |
| MaintenanceEval.HitsCount | maintenance/3_eval_of_maintenance.py:180 | no hits exactly when the tool never occurs; all hits exactly when every call is it |
| MaintenanceEval.CustomHits | maintenance/3_eval_of_maintenance.py:41-46 | the custom accuracy's numerator counts the update and the append calls over the zipped pairs |
| MaintenanceEval.CustomHitsBounds | maintenance/3_eval_of_maintenance.py:41-46 | the custom numerator lies between the strict append count and the number of calls |
| MaintenanceEval.HitsDisjoint | maintenance/3_eval_of_maintenance.py:41-46 | hits of two different tools add up to at most the number of calls |
| MaintenanceEval.Somes | maintenance/3_eval_of_maintenance.py:178 | the expected labels as calls |
| MaintenanceEval.SummaryBounds | maintenance/3_eval_of_maintenance.py:166-270 | MP and MNP conversations add up to the total; each accuracy numerator is at most its denominator; the invalid-negate counter is at most the total |
| MaintenanceEval.MnpDifferentExpectationsDisagree | maintenance/3_eval_of_maintenance.py:153-260 | for MNP the accuracy expects update for the different question while `correct_tool` expects append; for MP both agree |
| MaintenanceEval.PredictedColumn | maintenance/3_eval_of_maintenance.py:209-215 | a column exactly for the three tool names, matching the tool labels shifted by one |
| MaintenanceEval.TallyPairs | maintenance/3_eval_of_maintenance.py:205-206 | the row labels 0, 1, 2 zipped with the concatenated calls |
| MaintenanceEval.Tally | maintenance/3_eval_of_maintenance.py:211-216 | the tally matrix fails exactly when some call has no column in range; otherwise each cell counts its (row, column) pairs |
| MaintenanceEval.RowTotalStep | maintenance/3_eval_of_maintenance.py:213-216 | one more pair adds one to exactly its row |
| MaintenanceEval.TallyTotal | maintenance/3_eval_of_maintenance.py:211-216 | when every call fits, the matrix sums to the number of pairs |
| MaintenanceEval.RowTotalZero | maintenance/3_eval_of_maintenance.py:211 | the matrix starts at zero |
| MaintenanceEval.MnpTallyRejectsAppend | maintenance/3_eval_of_maintenance.py:275-284 | one append call for an MNP different question makes the two-column tally fail |
| MaintenanceEval.ThreeColumnsFit | maintenance/3_eval_of_maintenance.py:209-284 | every tool fits three columns; only append misses two |
| RetrievalEval.Window | retrieval/1_eval_of_retrieval_embedding.py:161-164 | the first min(k, n) hits |
| RetrievalEval.Ids | retrieval/1_eval_of_retrieval_embedding.py:153-156 | the retrieved ids in hit order |
| RetrievalEval.Relevant | retrieval/1_eval_of_retrieval_embedding.py:165-166 | the number of hits of the question's subcategory, at most the hits |
| RetrievalEval.ScoreWindow | retrieval/1_eval_of_retrieval_embedding.py:158-179 | in a window the relevant and irrelevant counts add up to its size, and the flag is set exactly when the ground-truth id is among its hits |
| RetrievalEval.WindowMonotone | retrieval/1_eval_of_retrieval_embedding.py:158-224 | a larger window finds whatever a smaller one finds and holds at least as many relevant hits |
| RetrievalEval.RelevantPrefix | retrieval/1_eval_of_retrieval_embedding.py:165-166 | a prefix holds at most the relevant hits of the whole |
| RetrievalEval.ClearVectors | retrieval/1_eval_of_retrieval_embedding.py:226-228 | every hit loses its vector and keeps its id and entity |
| RetrievalEval.SubcategoryKeyOfEncoding | retrieval/1_eval_of_retrieval_embedding.py:124-128 | the subcategory read from an encoded preference string is its subcategory's field key |
| RetrievalEval.SameSubcategory | retrieval/1_eval_of_retrieval_embedding.py:130-134 | the stored preferences of the user in the subcategory, at most all rows |
| RetrievalEval.Count | retrieval/1_eval_of_retrieval_embedding.py:255-260 | the number of true flags, at most the flags |
| RetrievalEval.CountImplied | retrieval/1_eval_of_retrieval_embedding.py:255-260 | flags implied pointwise count at least as many |
| RetrievalEval.RetrievalEvaluation.constructor | retrieval/1_eval_of_retrieval_embedding.py:98-105 | all lists and totals start empty, which is the fold's start |
| RetrievalEval.RetrievalEvaluation.ScoreConversation | retrieval/1_eval_of_retrieval_embedding.py:123-243 | the result is the question's scoring; failure exactly for an unscorable question, leaving the state unchanged; otherwise the new state is the old one with the question added |
| RetrievalEval.RetrievalEvaluation.Add | retrieval/1_eval_of_retrieval_embedding.py:176-243 | the new state is the old one with the question's flags, ratios and record appended and both totals raised; the invariant is kept |
| RetrievalEval.RetrievalEvaluation.ScoreIfPerfect | retrieval/1_eval_of_retrieval_embedding.py:110-243 | fails exactly when the conversation's step of the fold fails, with its error, which happens only for a perfect, unscorable question; otherwise the new state is that step |
| RetrievalEval.RetrievalEvaluation.ScoreLine | retrieval/1_eval_of_retrieval_embedding.py:107-243 | fails exactly when the line's fold from the old state fails, with its error; otherwise the new state is that fold; success exactly when every perfect conversation before the first missing extraction is scorable, adding one question per such conversation |
| RetrievalEval.RetrievalEvaluation.ScoreLines | retrieval/1_eval_of_retrieval_embedding.py:106-243 | fails exactly when the fold of the lines from the old state fails, with its error; otherwise the new state is that fold, every line is scorable and the total grows by their questions |
| RetrievalEval.AddedCoherent | retrieval/1_eval_of_retrieval_embedding.py:176-243 | adding a proper question keeps the invariant |
| RetrievalEval.ScoredConversationsCoherent | retrieval/1_eval_of_retrieval_embedding.py:107-243 | the fold of a line keeps the invariant |
| RetrievalEval.ScoredLinesCoherent | retrieval/1_eval_of_retrieval_embedding.py:106-243 | the fold of the lines keeps the invariant |
| RetrievalEval.ScoredLinesStop | retrieval/1_eval_of_retrieval_embedding.py:106-243 | an error in the first k lines is the error of the whole run |
| RetrievalEval.ScoredConversationsMeaning | retrieval/1_eval_of_retrieval_embedding.py:107-243 | the fold of a line succeeds exactly when every perfect conversation before the first missing extraction is scorable, and then adds one question per such conversation |
| RetrievalEval.AllScorableCons | retrieval/1_eval_of_retrieval_embedding.py:114-134 | a run of conversations is scorable exactly when its first one is (if perfect) and the rest are |
| RetrievalEval.PerfectCons | retrieval/1_eval_of_retrieval_embedding.py:114-117 | the first conversation adds one perfect question exactly when its detail accuracy is 1.0 |
| RetrievalEval.ScoreQuestion | retrieval/1_eval_of_retrieval_embedding.py:123-243 | fails exactly for an unscorable question (unknown subcategory or no stored preference); otherwise describes its windows; the result is the question's scoring |
| RetrievalEval.ScoreWindows | retrieval/1_eval_of_retrieval_embedding.py:158-242 | the three windows of sizes n, n+1, n+2 scored, the record keeping the ids and the first n+2 hits; the scoring is that of the three windows |
| RetrievalEval.Cleared | retrieval/1_eval_of_retrieval_embedding.py:226-228 | every hit loses its vector and keeps its id and entity |
| RetrievalEval.QuestionScoringProper | retrieval/1_eval_of_retrieval_embedding.py:123-243 | a question scores exactly when it is scorable, and its scoring has ordered flags, proper ratios and describes the conversation |
| RetrievalEval.WindowRatio | retrieval/1_eval_of_retrieval_embedding.py:173-175 | the relevant share of a non-empty window is a proper fraction |
| RetrievalEval.Scored | retrieval/1_eval_of_retrieval_embedding.py:158-224 | found in top-n implies found in top-(n+1), which implies top-(n+2) |
| RetrievalEval.Reached | retrieval/1_eval_of_retrieval_embedding.py:110-122 | the conversations before the first one without an extraction |
| RetrievalEval.Perfect | retrieval/1_eval_of_retrieval_embedding.py:114-117 | the reached conversations with detail accuracy 1.0 |
| RetrievalEval.AllScorableFails | retrieval/1_eval_of_retrieval_embedding.py:114-134 | one unscorable perfect question fails the line |
| RetrievalEval.AllScorablePrefix | retrieval/1_eval_of_retrieval_embedding.py:108-122 | a scorable line has scorable prefixes |
| RetrievalEval.Body | retrieval/1_eval_of_retrieval_embedding.py:106 | every line but the last |
| RetrievalEval.EvaluateRetrieval | retrieval/1_eval_of_retrieval_embedding.py:98-243 | fails exactly when the fold of every line but the last from the empty start fails, with its error; otherwise the evaluation holds that fold; success exactly when each of those lines is scorable, and then the total is the sum of their questions |
| RetrievalEval.AccuracyOrdered | retrieval/1_eval_of_retrieval_embedding.py:255-260 | hits in top-n ≤ hits in top-(n+1) ≤ hits in top-(n+2) ≤ questions |
| RetrievalEval.RecordedRatioIsLastWindow | retrieval/1_eval_of_retrieval_embedding.py:219-241 | the recorded "ratio_relevant_irrelevant_ssc" is the top-(n+2) ratio, and the p1 and p2 ratio fields are never set |
| RetrievalEval.ConsistentPointwise | retrieval/1_eval_of_retrieval_embedding.py:176-225 | the running lists hold pointwise: each window's flag implies the next one's, each ratio is a fraction, each record agrees with its flags |
| RetrievalEval.ConsistentAppend | retrieval/1_eval_of_retrieval_embedding.py:176-243 | appending a proper question keeps the lists consistent |
| RetrievalEval.AppendQuestion | retrieval/1_eval_of_retrieval_embedding.py:176-243 | the seven lists each extended by the question's entry |

## Left out

- Language-model calls (the extractor, the maintenance classifier, the question and conversation generators) and their prompt templates: every reply is a parameter of the operation that uses it, so the model states what the code does with the replies it represents rather than what a model would answer. A maintenance reply is its list of tool calls, each with its name and its arguments decoded or marked as not JSON, so the IndexError and JSONDecodeError that escape `except KeyError` are modelled.
- PreferenceMemory.ValidateAndRetry: the extractor's reply is its already decoded arguments (`Output`). A reply without a `function_call` entry (KeyError) or with argument text that is not JSON (JSONDecodeError) raises in `json.loads(output_extraction.additional_kwargs["function_call"]["arguments"])`, on the first or the retried reply, and ends the extraction run; the model cannot express such a reply.
- PreferenceStore.Bucket: the order of the rows a Milvus query returns is not specified by Milvus; the model takes it to be insertion order. The order matters where the engine shows the classifier the last row of the bucket and takes the first row with the named key.
- Embeddings: the vectors stored with a record and the embedding computed for the merged text in the pass tool are not modelled; records carry only their fields.
- The Milvus search used by the retrieval evaluation: the hits are an input, and the result limit of ten and the user filter are not modelled.
- The store is a sequence of records, not a map, because Milvus does not deduplicate primary keys on insert; deleting a key removes every row carrying it.
- dataset/utils/mapping_detail_category_to_type.py is not part of this model: the type of a detail category ("MP" or "MNP") is a function parameter of the maintenance routing and a field of each conversation read by the maintenance evaluation.
- Pydantic internals: validation against the generated schema is a parameter that returns the error text or nothing; `model_rebuild`, the JSON-schema conversion and model generation are not modelled, only the field lists and descriptions they carry.
- File reading and writing, argument parsing, uuids, timestamps and directory handling: the operations take and return values instead; parsing the user uuid from text is not modelled (it is given as its 32 hexadecimal digits).
- The outer loop over input lines of 2_call_maintenance_function_for_eval.py and the file it writes are not modelled; the per-line routing, which carries the stale `tool_call` from one line to the next, is.
- Random draws (`random.choice`, `random.randint`, `random.sample`, pandas `sample` with its weights and `random_state`): every draw is a parameter, and the lemmas state that the drawn value lies in the range or list the source draws from; the sampling weights, which make every detail category equally likely, are not modelled.
- `sample_random_city` and `sample_few_shot_example` read tables from files: their results are parameters.
- Scores computed with scikit-learn (precision, recall, F1, confusion matrices), floating-point means, normalised matrices and plots: the evaluations are modelled up to the label lists and integer counters those scores are computed from; the retrieval ratios are kept as numerator/denominator pairs rather than floats.
- Logging, progress bars and tracing (`tqdm`, `langsmith`): they do not change any value.
- dataset/create_user_profiles.py: a driver that writes the sampled profiles to a file; the sampling itself is modelled.
- Concurrency and network failures are not modelled: every external call either returns a value or, where the source catches an exception, the caught case is an explicit error value.
- Json.Repr: characters above U+00FF that Python's `repr` treats as non-printable (and escapes as `\uNNNN` or `\UNNNNNNNN`) are written as themselves; only the Latin-1 control characters, the no-break space and the soft hyphen are escaped as `\xNN`.
- Json.Num: numbers are integers; JSON floats and their `repr` are not modelled.
- Json.Iterate: a decoded object (`Json.Obj`) keeps every member, repeated keys included, whereas `json.loads` keeps only the last value of a repeated key. `Json.Get` reads the last value as Python does, but `Json.Iterate`, `Json.FilterNone`, `Json.Repr` and `ExtractionForEval.ConvertTurn` see a repeated key more than once.
- Strings.Lower: only ASCII and Latin-1 capitals are lowered; other scripts, and the special cases of Unicode case mapping, are left unchanged.
- Strings.StripLeft: whitespace is the fixed list of code points that Python's `str.isspace` accepts in current Unicode versions; a whitespace character added by a later Unicode version would not be stripped.
- Strings.StripRight: the same whitespace list as `Strings.StripLeft`, with the same limit.
- PreferenceMemory.RetryTemplateDoubles: the previous output it embeds is `Json.Repr` of the arguments, so it inherits that function's limits (non-printable characters above U+00FF unescaped, no floats, repeated keys kept).
