# Emotion-fusion pipeline of a mental-health assistant, modelled in Dafny

This project models the analysis core of a conversational mental-health assistant:

- the facial-emotion analyzer, with its three-frame window (`FaceEmotion`);
- the parallel video/audio loop, with its energy-based speech endpointing (`Parallel`);
- the voice analyzer: text sentiment, rule-based acoustic scores and the 0.7/0.3 fusion (`Voice`);
- the intent classifier: preprocessing, thresholds, ranking, the suicide-risk override,
  clinical relevance, follow-up suggestions and the training bookkeeping (`Intent`);
- the multimodal integrator: session history, valence/arousal estimate and follow-up merge (`Multimodal`);
- the response generator: clinical flags, prompt construction, guideline validation and
  conversation history (`Response`);
- the document analyzer: file-type dispatch and the extraction of a medical record from
  OCR text (`Document`);
- the clinical knowledge base lookups (`Knowledge`).

Two helper modules carry shared vocabulary:

- `Dicts` treats Python dicts as insertion-ordered association lists. Order matters because
  `max(d.items(), key=...)` keeps the first maximal entry.
- `Text` holds ASCII lower-casing, substring search, `strip`, splitting on a set of
  separator characters, and `join`.

Objects whose methods update fields in place are Dafny classes: `EmotionAnalyzer`,
`ParallelAnalyzer`, `IntentClassifier`, `MultimodalAnalyzer` and `ResponseGenerator`.
Each state-changing method is specified against a pure function of the old state, and the
properties are proved about those functions. Loops in the source are `while`/`for` loops with
invariants, tied by their `ensures` to the function that specifies them.

Calls into code outside the core are parameters, each a function value:

- the Keras model and the face preprocessing;
- VADER polarity, the feature extractor and the speech recogniser;
- the file-existence test;
- the scikit-learn vectorizer and classifier;
- the Gemini model;
- the OCR and PDF routines;
- the regular-expression captures of the document extractor;
- the clock.

## Model

| member | source | states |
|---|---|---|
| FaceEmotion.EvictKeepsNewest | emotion_analysis/emotion_analyzer.py:54-61 | appending a frame keeps the buffer at most three frames, the new frame last, and drops only the oldest one when the buffer was full |
| FaceEmotion.Interpret | emotion_analysis/emotion_analyzer.py:68-87 | an empty or over-long prediction is an error; otherwise the result names the first maximal score's label with that score as confidence, one score per label, stamped with the given time |
| FaceEmotion.FiveScoresNameEveryLabel | emotion_analysis/emotion_analyzer.py:16-22 | a five-score prediction is always a detection whose score map names the five labels in index order, without repeats |
| FaceEmotion.EmotionAnalyzer.constructor | emotion_analysis/emotion_analyzer.py:10-24 | the buffer starts empty and the model is whatever loading produced |
| FaceEmotion.EmotionAnalyzer.AddFrame | emotion_analysis/emotion_analyzer.py:54-61 | a frame that failed preprocessing changes nothing; otherwise the buffer becomes the eviction of old buffer plus the frame |
| FaceEmotion.EmotionAnalyzer.GetEmotion | emotion_analysis/emotion_analyzer.py:63-87 | waiting exactly when fewer than three frames are buffered or no model is loaded; otherwise the interpretation of the model's output on the last three frames |
| FaceEmotion.EmotionAnalyzer.Reset | emotion_analysis/emotion_analyzer.py:120-122 | the buffer is empty afterwards |
| FaceEmotion.OnlyLastThreeMatter | emotion_analysis/emotion_analyzer.py:70 | two analyzers with the same model and the same last three frames report the same emotion |
| Parallel.FrameLimits | emotion_analysis/parallel_analyzer.py:155-156 | the silence and duration limits in chunks are the truncated products of the limits in seconds with the sample rate over the chunk size (15 and 156) |
| Parallel.LoudIffEnergyAboveThreshold | emotion_analysis/parallel_analyzer.py:167-170 | the integer-only loudness test holds exactly when the chunk's mean normalised magnitude exceeds the silence threshold |
| Parallel.ClippedChunkIsQuietAsWritten | emotion_analysis/parallel_analyzer.py:167 | with int16 wrap-around in the magnitude, a chunk of full-scale negative samples sums negative and counts as silence, although its true energy is maximal |
| Parallel.NoClippingNoDifference | emotion_analysis/parallel_analyzer.py:167 | without the sample -32768 the wrapped and the true magnitude sums agree, and so do the two loudness tests |
| Parallel.StepKeepsConsistent | emotion_analysis/parallel_analyzer.py:170-199 | one chunk keeps the endpointing state consistent; a finished utterance leaves the loop idle, is non-empty, ends with the chunk and is at most 170 chunks long; a quiet chunk while idle changes nothing |
| Parallel.RunKeepsConsistent | emotion_analysis/parallel_analyzer.py:160-199 | over any chunk stream the state stays consistent and every utterance handed over is 1 to 170 chunks long |
| Parallel.RunSnoc | emotion_analysis/parallel_analyzer.py:160-199 | running over one more chunk is one more step after the run |
| Parallel.EndpointScenario | emotion_analysis/parallel_analyzer.py:188-199 | a short burst of speech followed by exactly 15 quiet chunks yields one utterance holding all of them, and the loop is idle again |
| Parallel.LongestUtterance | emotion_analysis/parallel_analyzer.py:179-199 | the silence counter never meets the duration cap, so an utterance can grow to 170 chunks |
| Parallel.PushRing | emotion_analysis/parallel_analyzer.py:22 | the processed-frame deque holds at most 30 frames, the newest last, dropping the oldest when full |
| Parallel.Display | emotion_analysis/parallel_analyzer.py:99-129 | the frame is stored raw while the face buffer is filling; with a detection it is stored annotated and becomes the current emotion; a failed analysis stores nothing |
| Parallel.ParallelAnalyzer.constructor | emotion_analysis/parallel_analyzer.py:12-46 | empty queues, no current emotion, and an idle endpointer |
| Parallel.ParallelAnalyzer.AddFrame | emotion_analysis/parallel_analyzer.py:79-82 | a frame is queued unless the queue already holds ten |
| Parallel.ParallelAnalyzer.GetLatestProcessedFrame | emotion_analysis/parallel_analyzer.py:84-88 | nothing exactly when no frame was processed; otherwise the newest processed frame |
| Parallel.ParallelAnalyzer.ProcessVideo | emotion_analysis/parallel_analyzer.py:90-136 | an empty queue changes nothing; otherwise the oldest frame is dequeued, fed to the face buffer and displayed as `Display` says |
| Parallel.ParallelAnalyzer.ProcessSpeech | emotion_analysis/parallel_analyzer.py:214-289 | speech capture stops and the buffer is cleared; the buffered chunks are handed over when there were any |
| Parallel.ParallelAnalyzer.ProcessChunk | emotion_analysis/parallel_analyzer.py:160-199 | one round of the audio loop is exactly one `Step` of the endpointing state |
| Voice.AnalyzeTextSentiment | emotion_analysis/voice_analyzer.py:129-171 | empty text is neutral at 0.5; otherwise happiness iff compound >= 0.5, anger/fear/sadness iff compound <= -0.5 with the word lists tried in that order, neutral in between; confidence 0.75-0.95 for emotions and 0.5-0.75 for neutral |
| Voice.AngerBeforeFear | emotion_analysis/voice_analyzer.py:156-161 | a strongly negative text with both an anger word and a fear word is read as anger |
| Voice.NeutralAfterCues | emotion_analysis/voice_analyzer.py:327-331 | the neutral baseline stays 0.3 unless another cue exceeds 0.5, and never drops below 0.1 |
| Voice.RawScores | emotion_analysis/voice_analyzer.py:279-331 | the five scores come in label order, are non-negative, at most 0.9, and sum to at least 0.1 |
| Voice.AcousticEmotion | emotion_analysis/voice_analyzer.py:264-354 | missing features give the neutral fallback; the scores always form a distribution; the dominant emotion is the first maximal score |
| Voice.ScoreCues | emotion_analysis/voice_analyzer.py:287-325 | the four cue sums are the rule tables' contributions |
| Voice.AnalyzeAcousticEmotion | emotion_analysis/voice_analyzer.py:264-354 | the imperative scoring, normalising loop and `max` compute `AcousticEmotion` |
| Voice.AcousticAlwaysNormalised | emotion_analysis/voice_analyzer.py:333-337 | with features present the total is always positive, so the scores are divided by it and neutral keeps a positive share |
| Voice.Fuse | emotion_analysis/voice_analyzer.py:391-418 | the fused emotion is a known label with the first maximal combined score, and the reported distribution is the normalised combination |
| Voice.AccumulateAcoustic | emotion_analysis/voice_analyzer.py:390-402 | the zero-initialised dict plus the acoustic loop yields 0.3 times each known label's score, unknown labels ignored (`AcousticScores`) |
| Voice.FuseScores | emotion_analysis/voice_analyzer.py:390-418 | the two accumulation loops, `max` and the normalising loop compute `Fuse` |
| Voice.CombinedScores | emotion_analysis/voice_analyzer.py:399-409 | each combined score is 0.3 times the acoustic score plus 0.7 times the text confidence on the text's label |
| Voice.FusedTotal | emotion_analysis/voice_analyzer.py:386-409 | the combined scores total 0.3 plus 0.7 times the text confidence, between 0.65 and 1 |
| Voice.FusedConfidenceIsUnnormalised | emotion_analysis/voice_analyzer.py:411-422 | the reported confidence is taken before normalising, so it is below the dominant emotion's share in the reported distribution |
| Voice.FusionExample | emotion_analysis/voice_analyzer.py:391-412 | acoustic anger 0.5 against text sadness at 0.9 fuses to sadness with confidence 0.69 |
| Voice.AnalyzeEmotion | emotion_analysis/voice_analyzer.py:356-433 | an absent file and failed feature extraction are the two error results; otherwise the fusion of text sentiment and acoustic emotion together with their inputs |
| Dicts.Normalise | emotion_analysis/voice_analyzer.py:333-337 | the in-place division loop computes `Normalised`, which divides by a positive total and otherwise leaves the dict alone |
| Dicts.Normalised | emotion_analysis/voice_analyzer.py:333-337 | keys are kept; non-negative scores with a positive total become a distribution; a non-positive total leaves the scores unchanged |
| Dicts.ArgMax | emotion_analysis/voice_analyzer.py:340 | the index `max` picks: a maximal value with no earlier entry reaching it |
| Dicts.AddToGet | emotion_analysis/multimodal_integration.py:126 | `d[k] = d.get(k, 0) + delta` raises `k`'s value and the total by delta and leaves every other key alone |
| Intent.RemovePunctuation | intent_classification/intent_classifier.py:85 | no punctuation remains, every kept character comes from the input, and text without punctuation is unchanged |
| Intent.CollapseSpaces | intent_classification/intent_classifier.py:87 | no whitespace run remains except single spaces, and non-empty input stays non-empty |
| Intent.RemovePunctuationAppend | intent_classification/intent_classifier.py:85 | the translation works character by character: it distributes over concatenation |
| Intent.RemovePunctuationChar | intent_classification/intent_classifier.py:85 | a single punctuation character is deleted and any other character is kept |
| Intent.CollapseKeepsWords | intent_classification/intent_classifier.py:87 | every character that is not whitespace survives, in order |
| Text.NonSpaceStrip | intent_classification/intent_classifier.py:87 | `strip` removes whitespace only: every other character survives, in order |
| Intent.CollapseSpaceStart | intent_classification/intent_classifier.py:87 | a leading whitespace run becomes exactly one space |
| Intent.CollapseStartingWithWord | intent_classification/intent_classifier.py:87 | text starting with a word collapses to its whitespace-separated words joined by single spaces, plus one space when it ends in whitespace |
| Intent.CollapseStripJoinsWords | intent_classification/intent_classifier.py:87-88 | collapsing whitespace runs and stripping gives the words of the text joined by single spaces |
| Intent.PreprocessJoinsWords | intent_classification/intent_classifier.py:80-88 | the preprocessed text is the words of the lower-cased, punctuation-free text joined by single spaces |
| Intent.PreprocessKeepsWords | intent_classification/intent_classifier.py:80-88 | the non-whitespace characters of the result are exactly those of the lower-cased text with punctuation removed, in order |
| Intent.Preprocess | intent_classification/intent_classifier.py:80-88 | the result is lower-case, punctuation-free, single-spaced and trimmed |
| Intent.CleanIsFixed | intent_classification/intent_classifier.py:80-88 | already clean text passes through unchanged |
| Intent.PreprocessIdempotent | intent_classification/intent_classifier.py:80-88 | preprocessing twice equals preprocessing once |
| Intent.DefaultThresholdUniform | intent_classification/intent_classifier.py:157-160 | at the default threshold of 0.3 every label, the suicide label included, is kept exactly when its score reaches 0.3 |
| Intent.SuicideKeptBelowThreshold | intent_classification/intent_classifier.py:157-160 | a caller threshold above 0.6 still keeps a suicide score of 0.6 or more, while another label with the same score is dropped |
| Intent.Selected | intent_classification/intent_classifier.py:155-160 | the filter keeps exactly the labels that pass their threshold, with their scores |
| Intent.SortDesc | intent_classification/intent_classifier.py:163 | sorting by score gives a descending permutation of the input |
| Intent.SortDescStable | intent_classification/intent_classifier.py:163 | the sort is stable: entries with equal scores keep their original order |
| Intent.Top | intent_classification/intent_classifier.py:166 | at most five entries, a prefix of the sorted list, and the whole list when it is short |
| Intent.PredictedKept | intent_classification/intent_classifier.py:155-166 | every predicted intent is a label that passed its threshold, with its own score |
| Intent.PredictedBest | intent_classification/intent_classifier.py:155-166 | the prediction is sorted, no dropped intent outscores a kept one, and every passing label is kept when at most five pass |
| Intent.CheckSuicideRisk | intent_classification/intent_classifier.py:315-344 | risk holds exactly when the lower-cased text contains a high-risk phrase or a suicide term, or the entity extractor reports a suicidal symptom |
| Intent.RiskPhraseDetected | intent_classification/intent_classifier.py:317-329 | a high-risk phrase in any letter case anywhere in the text raises the risk flag |
| Intent.RelevanceBounds | intent_classification/intent_classifier.py:228-255 | the relevance score lies in [0, 1], is at least 0.2 once a symptom is mentioned and at least 0.7 with a suicidal mention |
| Intent.NothingRelevant | intent_classification/intent_classifier.py:235-239 | without clinical intents the intent share is zero and no intent factor is listed |
| Intent.AssessClinicalRelevance | intent_classification/intent_classifier.py:228-255 | the intent loop, the symptom bonus and the suicide loop compute `ClinicalRelevance` |
| Intent.SuggestFollowups | intent_classification/intent_classifier.py:257-313 | the risk question comes first exactly when risk was detected or the suicide score exceeds 0.6; detected risk suppresses symptom questions; the medication question appears exactly when its score exceeds 0.5; the general question appears alone exactly when nothing else applies; the sleep, mood and appetite questions each appear exactly when their symptom was reported and no risk was detected; the questions keep the order risk, sleep, mood, appetite, medication, general |
| Intent.WithRiskOverride | intent_classification/intent_classifier.py:210-212 | detected risk adds a suicide score of 0.85 when none is present, and never replaces an existing one |
| Intent.RecordWellFormed | intent_classification/intent_classifier.py:97-101 | recording an (intent, text) pair keeps intents and examples free of repeats and records the pair |
| Intent.RecordKeeps | intent_classification/intent_classifier.py:97-101 | recording never loses a pair recorded before |
| Intent.RecordAllProperties | intent_classification/intent_classifier.py:97-101 | after training, every pair of the data is recorded, nothing earlier is lost, existing entries keep their order with their examples as a prefix, and nothing is listed twice |
| Intent.IntentClassifier.constructor | intent_classification/intent_classifier.py:13-26 | the state is whatever model loading found |
| Intent.IntentClassifier.Predict | intent_classification/intent_classifier.py:133-168 | without all three models the "Models not loaded" error; otherwise the thresholded, sorted top-five prediction on the preprocessed text |
| Intent.IntentClassifier.AnalyzeResponse | intent_classification/intent_classifier.py:198-226 | prediction at 0.3, the risk override, relevance and follow-ups computed on the overridden intents |
| Intent.IntentClassifier.Train | intent_classification/intent_classifier.py:90-131 | the intents dictionary becomes `RecordAll` of the data, and the fitted models replace the old ones |
| Multimodal.Recent | emotion_analysis/multimodal_integration.py:118-119 | the last ten entries: a suffix of at most ten, the whole list when short |
| Multimodal.CountVotes | emotion_analysis/multimodal_integration.py:122-131 | the vote loop adds its weight once per non-empty label occurrence |
| Multimodal.SumWeights | emotion_analysis/multimodal_integration.py:137-153 | the weighted valence, arousal and count sums over the labels that have weights |
| Multimodal.EstimateEmotionalState | emotion_analysis/multimodal_integration.py:112-163 | the imperative estimate computes `EmotionalStateOf` |
| Multimodal.DominantIsMostVoted | emotion_analysis/multimodal_integration.py:122-134 | there is no dominant emotion exactly when no recent entry is labelled; otherwise the dominant label occurs recently, no label has a higher weighted tally, and every other label counted before it (face window first, then voice window) has a strictly lower tally, so ties go to the first-inserted label |
| Multimodal.EmotionalStateBounded | emotion_analysis/multimodal_integration.py:114-156 | an empty session gives zero valence and arousal with no dominant emotion; valence stays in [-0.8, 0.9] and arousal in [-0.4, 0.9] |
| Multimodal.OlderEntriesIgnored | emotion_analysis/multimodal_integration.py:118 | face entries older than the last ten do not affect the estimate |
| Multimodal.FaceFollowups | emotion_analysis/multimodal_integration.py:178-202 | a face question appears exactly for sadness, fear, anger or surprise above 0.7 |
| Multimodal.VoiceFollowups | emotion_analysis/multimodal_integration.py:214-240 | a voice question appears exactly for sadness or anger above 0.7 |
| Multimodal.EmotionFollowupsShape | emotion_analysis/multimodal_integration.py:165-243 | a face confidence below 0.6 suppresses every emotion question; otherwise face and voice questions appear exactly under their own rules, at most two |
| Multimodal.MergeMembership | emotion_analysis/multimodal_integration.py:94-108 | high-priority text questions are all kept; a medium one is kept unless a high one has its type; a low one is kept unless a high or medium one has its type |
| Multimodal.MergeOrder | emotion_analysis/multimodal_integration.py:108 | the merged questions run from high to medium to low priority |
| Multimodal.MergeKeepsOrder | emotion_analysis/multimodal_integration.py:94-108 | the merged list is its high, then medium, then low questions, and within each priority the questions keep their order in the text list followed by the emotion list (each priority's run is a subsequence of the inputs) |
| Multimodal.MultimodalAnalyzer.constructor | emotion_analysis/multimodal_integration.py:14-31 | the three session histories start empty |
| Multimodal.MultimodalAnalyzer.IntegrateAnalyses | emotion_analysis/multimodal_integration.py:80-110 | the integrated result is `Integrate` over the session histories |
| Multimodal.MultimodalAnalyzer.ObserveFace | emotion_analysis/multimodal_integration.py:57-66 | without an analyzer or an image nothing is observed; otherwise the frame is added, a full buffer is analysed, and only a detection is appended to the session |
| Multimodal.MultimodalAnalyzer.HearVoice | emotion_analysis/multimodal_integration.py:68-73 | only a voice result that carries an emotion is appended to the session |
| Multimodal.MultimodalAnalyzer.AnalyzeResponse | emotion_analysis/multimodal_integration.py:33-78 | text, face and voice results are appended to their histories under their rules, and the result integrates the updated histories |
| Multimodal.MultimodalAnalyzer.ResetSession | emotion_analysis/multimodal_integration.py:263-270 | all histories and the face buffer are cleared, so the estimate returns to the empty state |
| Response.ClinicalGuidelinesShape | emotion_analysis/response_generator.py:55-74 | guidelines exist for exactly three intents, each with forbidden phrases; only suicidal content escalates or requires phrases |
| Response.FlagsOf | emotion_analysis/response_generator.py:199-226 | no analysis gives no flags; high risk holds iff some intent is critical; the critical intents are exactly the high-risk intents scoring above 0.5 |
| Response.FlagsHighRisk | emotion_analysis/response_generator.py:211-220 | high risk holds exactly when one of the five high-risk intents scores above 0.5 |
| Response.FlagsEscalation | emotion_analysis/response_generator.py:217-224 | with the built-in guidelines, escalation is required exactly when suicidal content scores above 0.5 |
| Response.FlagsOrdered | emotion_analysis/response_generator.py:217-220 | critical intents are listed in the order of the high-risk list |
| Response.CheckClinicalFlags | emotion_analysis/response_generator.py:199-226 | the flag loop computes `FlagsOf` |
| Response.ValidationOf | emotion_analysis/response_generator.py:346-379 | without high risk the response is appropriate with no issues; it is appropriate exactly when no issue is reported |
| Response.ValidationAppropriate | emotion_analysis/response_generator.py:353-377 | a high-risk response is appropriate exactly when it complies with every critical intent's guideline |
| Response.ForbiddenIssuesCount | emotion_analysis/response_generator.py:373-377 | one issue is reported per forbidden phrase the response contains |
| Response.ValidateClinicalResponse | emotion_analysis/response_generator.py:346-379 | the validation loops compute `ValidationOf` |
| Response.HistoryAfterTurn | emotion_analysis/response_generator.py:129-135 | after a turn the history holds at most 20 messages, ending with the user message and the reply, preceded by the most recent earlier messages |
| Response.LastIgnoresOlder | emotion_analysis/response_generator.py:134-135 | the cap depends only on the most recent messages |
| Response.GuidanceFor | emotion_analysis/response_generator.py:289-299 | an intent contributes prompt lines exactly when it has a guideline with required or forbidden phrases |
| Response.Prompt | emotion_analysis/response_generator.py:228-344 | the prompt always ends with the user's turn |
| Response.PromptIgnoresOlderMessages | emotion_analysis/response_generator.py:309-313 | only the last six messages reach the prompt |
| Response.PromptCarriesGuidance | emotion_analysis/response_generator.py:282-299 | in a high-risk prompt, every critical intent's guidance appears verbatim |
| Response.HighRiskPromptShape | emotion_analysis/response_generator.py:282-342 | a high-risk prompt is the persona, the risk preamble, the guidance lines, the context and the user's turn, in that order |
| Response.ResponseGenerator.constructor | emotion_analysis/response_generator.py:11-77 | built-in guidelines, an empty history and no document context |
| Response.AppendGuidance | emotion_analysis/response_generator.py:289-299 | the loop over the critical intents appends exactly their guidance lines, in order |
| Response.ResponseGenerator.SystemPrompt | emotion_analysis/response_generator.py:282-299 | the system part is the persona, followed on a high-risk turn by the preamble and the guidance lines |
| Response.ResponseGenerator.BuildClinicalPrompt | emotion_analysis/response_generator.py:228-344 | the imperative prompt construction computes `Prompt` |
| Response.ResponseGenerator.GenerateResponse | emotion_analysis/response_generator.py:79-151 | no model, and a model that raises, each give their error reply with the history unchanged; otherwise the reply is validated against the flags and the turn is appended to the capped history |
| Response.ResponseGenerator.ResetConversation | emotion_analysis/response_generator.py:381-383 | the history is empty afterwards |
| Response.ResponseGenerator.SetDocumentContext | emotion_analysis/response_generator.py:385-387 | the document context is replaced |
| Document.Extension | emotion_analysis/document_analyzer.py:30 | `splitext`'s extension is empty or a dot-led suffix of the path with no further dot or slash |
| Document.ExtensionOfName | emotion_analysis/document_analyzer.py:30 | for a name with a non-dot stem, the extension is the dot and whatever follows the last dot |
| Document.DotFileHasNoExtension | emotion_analysis/document_analyzer.py:30 | a hidden file such as `.pdf` has no extension |
| Document.DispatchByName | emotion_analysis/document_analyzer.py:27-37 | a case-insensitive `.pdf` goes to the PDF routine, the five image extensions to OCR, and everything else is refused |
| Document.UpperCasePdf | emotion_analysis/document_analyzer.py:30-33 | `scans/report.PDF` is processed as a PDF |
| Document.DotFileRefused | emotion_analysis/document_analyzer.py:30-37 | `scans/.pdf` is an unsupported format |
| Document.ProcessDocument | emotion_analysis/document_analyzer.py:27-37 | a path without an extension is refused |
| Document.KeptItems | emotion_analysis/document_analyzer.py:206-209 | every kept item is an input item and not a placeholder, and every non-placeholder item is kept |
| Document.WholeCaptureTestRedundant | emotion_analysis/document_analyzer.py:205-209 | the whole-capture `n/a`/`none` test gives the same list as the per-item filter alone |
| Document.ListItemsContents | emotion_analysis/document_analyzer.py:202-209 | the list holds exactly the stripped non-placeholder pieces of the capture |
| Document.ListItemsClean | emotion_analysis/document_analyzer.py:206-209 | every listed item is trimmed, free of separators and not a placeholder |
| Document.ListItemsOfJoin | emotion_analysis/document_analyzer.py:202-209 | clean items joined with ", " are read back as exactly those items |
| Document.StatusNotesRules | emotion_analysis/document_analyzer.py:183-199 | an empty or placeholder status records nothing; otherwise the status is recorded, immunity is noted as immune or not immune by the negation words, and a vaccination is noted only for an affirmative, un-negated status |
| Document.NegatedStatusNoVaccination | emotion_analysis/document_analyzer.py:198-199 | a negated or "unvaccinated" status never records a vaccination |
| Document.NotVaccinatedRecordedAsWritten | emotion_analysis/document_analyzer.py:198-199 | the test as written records "Measles vaccination" for the status "Not vaccinated" |
| Document.NotVaccinatedIgnored | emotion_analysis/document_analyzer.py:198-199 | the corrected test records no vaccination for "Not vaccinated" |
| Document.VaccineNotes | emotion_analysis/document_analyzer.py:183-199 | at most one immunization and two history notes per vaccine |
| Document.FirstCapture | emotion_analysis/document_analyzer.py:152-156 | no value exactly when no pattern matched; otherwise the first match |
| Document.MedicalInfoShape | emotion_analysis/document_analyzer.py:122-231 | the raw text is kept; at most three immunizations and six history notes; every allergy, medication and diagnosis is clean |
| Document.NothingCaptured | emotion_analysis/document_analyzer.py:122-231 | with nothing captured the record is empty apart from the raw text |
| Document.FirstMatch | emotion_analysis/document_analyzer.py:152-168 | the pattern loop with `break` computes `FirstCapture` |
| Document.CollectList | emotion_analysis/document_analyzer.py:202-229 | the split-strip-filter loop computes the list the capture gives |
| Document.KeepPieces | emotion_analysis/document_analyzer.py:206-209 | the loop over the stripped pieces keeps exactly the pieces that are not placeholders, in order (`KeptItems`) |
| Document.RecordStatus | emotion_analysis/document_analyzer.py:186-199 | one vaccine's status handling computes `StatusNotes` |
| Document.CollectStatuses | emotion_analysis/document_analyzer.py:183-199 | the loop over the immunization patterns, for any list of names, computes `VaccineNotes` of those names |
| Document.CollectImmunizations | emotion_analysis/document_analyzer.py:177-199 | the loop over the three vaccines computes `VaccineNotes` |
| Document.ExtractMedicalInfo | emotion_analysis/document_analyzer.py:119-231 | the extraction computes `MedicalInfoOf` the captures |
| Knowledge.Fresh | knowledge_base/clinical_kb.py:5-10 | a new knowledge base holds four empty tables |
| Knowledge.DisorderCriteria | knowledge_base/clinical_kb.py:40-42 | the stored criteria, or an empty object for an unknown disorder |
| Knowledge.AssessmentQuestions | knowledge_base/clinical_kb.py:44-49 | with a stage and stages present, that stage's questions or an empty list; otherwise the instrument's questions or an empty list; a failure exactly where the stages are not an object |
| Knowledge.RiskIndicators | knowledge_base/clinical_kb.py:51-55 | with a type, its indicators or an empty list; otherwise the whole table |

## Left out

- Threads, queues shared between threads, camera and microphone I/O, timing and `print`
  output are not modelled. The video and audio loops are modelled one iteration at a time
  (`ProcessVideo`, `ProcessChunk`).
- `start_processing`, `stop_processing`, `analyze_video_stream`, recording, transcription,
  visualisation and cleanup are I/O. Their results enter the model as parameters.
- `_process_speech` writes the utterance to a WAV file and hands it to the voice and
  multimodal analyzers. The model stops at handing over the buffered chunks.
- The Keras model, face preprocessing, VADER, librosa feature extraction, the speech
  recogniser, scikit-learn fitting and prediction, Gemini, OCR and PDF reading are
  external. Each is a function parameter. Their exceptions are modelled only where the core
  turns them into a distinct result (`Generation.Raised` for the response generator,
  `TextFailed` for the multimodal text analysis, `FaceEmotion.Failed` for the handler of
  `get_emotion` at emotion_analysis/emotion_analyzer.py:86-87, reached by an empty
  prediction or one with more than five scores); the catch-all handler of `analyze_emotion`
  (emotion_analysis/voice_analyzer.py:431-433) is not modelled.
- Regular expressions are not modelled. The document extractor receives each pattern's
  capture group as an input (`Captures`), and `extract_entities` is represented by the
  symptom types it reports.
- Floating point is modelled as exact reals; `float()` conversions are identities.
- Lower-casing and whitespace are ASCII only; `Extension` follows POSIX paths.
- `_format_emotion_context` is not modelled: the emotion context is a string parameter.
  The persona text of the system prompt is a constructor parameter.
- The Gemini safety settings and generation configuration are passed through unchanged by
  the source and are left out. The reply's `high_risk_intents` list is always empty in the
  source, and the model returns it empty.
- `save_document`, `extract_with_llm`, `_save_models`, `_load_knowledge` and
  `save_knowledge` read or write files and are left out. Loaded tables and models are
  constructor parameters; every assessment instrument is assumed to be a JSON object.
- `extract_medical_info` on non-string input, which the source converts with `str`, is not
  modelled: the text is a string.
- `generate_response` of the multimodal analyzer forwards to the response generator and
  adds no logic of its own; it is not modelled separately.
- Parallel.ParallelAnalyzer.ProcessChunk: when an utterance reaches the duration cap, the
  source calls `_process_speech`, which stops capture, so the endpointer returns to idle.
- Parallel.ParallelAnalyzer.ProcessChunk: uses the corrected loudness test `Loud` (true
  sample magnitudes), not the wrapped int16 `np.abs` of
  emotion_analysis/parallel_analyzer.py:167, under which a chunk of full-scale negative
  samples is silent. The code as written is `LoudAsWritten`; the two tests differ only on
  chunks holding -32768 (`Parallel.ClippedChunkIsQuietAsWritten`,
  `Parallel.NoClippingNoDifference`).
- Parallel.StepKeepsConsistent: is about `Step`, which uses the corrected loudness test `Loud`.
- Parallel.RunKeepsConsistent: is about `Step`, which uses the corrected loudness test `Loud`.
- Parallel.RunSnoc: is about `Step`, which uses the corrected loudness test `Loud`.
- Parallel.EndpointScenario: is about `Step`, which uses the corrected loudness test `Loud`.
- Parallel.LongestUtterance: is about `Step`, which uses the corrected loudness test `Loud`.
- Document.StatusNotesRules: states the corrected vaccination test `Vaccinated` (an
  affirmative, un-negated status only), not the plain `"vaccinated" in status` of
  emotion_analysis/document_analyzer.py:198, which also records a vaccination for a status
  such as "Not vaccinated". The code as written is `StatusNotesAsWritten`
  (`Document.NotVaccinatedRecordedAsWritten`).
- Document.VaccineNotes: builds on `StatusNotes`, which uses the corrected vaccination test `Vaccinated`.
- Document.RecordStatus: computes `StatusNotes`, which uses the corrected vaccination test `Vaccinated`.
- Document.CollectStatuses: computes `VaccineNotes`, which uses the corrected vaccination test `Vaccinated`.
- Document.CollectImmunizations: computes `VaccineNotes`, which uses the corrected vaccination test `Vaccinated`.
- Document.ExtractMedicalInfo: computes `MedicalInfoOf`, which uses the corrected vaccination test `Vaccinated`.

## Findings

| source | as written | input that shows it | evidently intended | confidence | as-written member | corrected member |
|---|---|---|---|---|---|---|
| emotion_analysis/parallel_analyzer.py:167 | `np.abs` on an int16 array leaves -32768 at -32768, so full-scale negative samples lower the energy sum | a chunk whose samples are all -32768: energy -1.0, treated as silence | the true magnitude 32768 per sample, which makes the chunk loud | not executed | Parallel.ClippedChunkIsQuietAsWritten | Parallel.LoudIffEnergyAboveThreshold |
| emotion_analysis/document_analyzer.py:198-199 | `"vaccinated" in status.lower()` also matches negated statuses | status "Not vaccinated" for Measles records "Measles vaccination" | a vaccination is recorded only for an affirmative status | not executed | Document.NotVaccinatedRecordedAsWritten | Document.NotVaccinatedIgnored |
