# Network incident triage: a Dafny model

The application takes a free-text description of a network incident and turns it into a root-cause report. Its deterministic core is modelled here, in five steps:

1. **Classifier.** `predict_incident_type` lower-cases the text. It then tests three keyword pairs in order: "latency"/"slow", then "packet"/"drop", then "unreachable"/"down". The first pair with a keyword in the text decides the category. With no match the category is "unknown".
2. **Knowledge lookup.** `KNOWLEDGE_BASE.get(tag, default)` reads a static table of three records, each with a title, content and actionable intelligence. Any other tag gets a general fallback record.
3. **Prompt.** An f-string embeds the incident text and the three fields of the retrieved record.
4. **Analysis.** `agent_root_cause_analysis` checks the API key, classifies, retrieves, builds the prompt and posts it once. It then returns the text found at `candidates[0].content.parts[0].text`, or one of two fixed messages.
5. **Button guard.** A blank description or a missing key stops the page before any analysis starts.

Everything is pure functions and lemmas over datatypes, as in the source: no object is updated in place, and no step loops.

Modules:
- `Text`: ASCII `lower()`, the substring test `w in s`, and `strip()`.
- `Classifier`: the tag datatype, the if/elif chain, and a reference rule table ("first matching rule wins").
- `Knowledge`: the record type, the table and the lookup.
- `Prompt`: the template.
- `Analysis`: parsed JSON values, the backend's answer, extraction, the pipeline and the button handler.
- `Wrappers`: `Option`.

The backend is a parameter: a total function from the request that would be posted (API key plus JSON body) to the response that comes back. Each run records the requests it issued, so "no call is made" and "exactly one call is made" can be stated and proved.

What the code does and does not distinguish:
- The code has no error kinds. It has two fixed strings: one for a missing key, and one for every failure of the request or of extraction. So a successful answer whose text equals the failure message cannot be told apart from a failure by the returned value (`Analysis.SuccessCanMimicFailure`).
- The value at the text path is returned as it is, even when it is not a string.
- There is no timeout, no retry and no per-stage report value.

## Model

| member | source | states |
|---|---|---|
| Text.Lower | app.py:46 | `lower()` keeps the length, turns each ASCII capital into its lower-case letter, leaves no ASCII capital, and keeps every other character; `Text.LowerIdempotent` and `Text.LowerAppend` give its algebra |
| Text.Contains | app.py:47-51 | `w in s`: the empty word is in every string and a longer word in none; `Text.ContainsIff` states it exactly |
| Text.Strip | app.py:156 | `strip()` yields the slice of the text between a blank prefix and a blank suffix, and that slice is empty or begins and ends with a non-space; `Text.StripEmptyIffBlank` says when it is empty |
| Text.LowerIdempotent | app.py:46 | lower-casing an already lower-cased text changes nothing |
| Text.ContainsIff | app.py:47-51 | the substring test `w in s` holds exactly when `w` occurs at some position of `s` |
| Text.StripEmptyIffBlank | app.py:156 | `not s.strip()` holds exactly when every character is whitespace |
| Classifier.LabelInjective | app.py:44-54 | the four tag strings are pairwise distinct |
| Classifier.ApplyRules | app.py:47-54 | an ordered rule table yields the tag of the first matching rule, and "unknown" when no rule matches |
| Classifier.PredictIncidentType | app.py:44-54 | the if/elif chain equals the ordered rule table `Classifier.ApplyRules` applied to the lower-cased text; `Classifier.PredictIsFirstMatchingRule` and `Classifier.PredictUnknownIffNoKeyword` spell out its precedence and its fallback |
| Classifier.PredictIsFirstMatchingRule | app.py:47-52 | rule i decides the category if and only if it is the first rule with a keyword in the lower-cased text |
| Classifier.PredictUnknownIffNoKeyword | app.py:53-54 | the result is "unknown" if and only if none of the six keywords occurs |
| Classifier.PredictCaseInsensitive | app.py:46 | classifying the lower-cased text gives the same tag as classifying the original |
| Classifier.LatencyKeywordTakesPrecedence | app.py:46-48 | "latency" or "slow", in any letter case and anywhere in the text, yields high latency whatever else is present |
| Classifier.EveryTagIsPredicted | app.py:44-54 | each of the four tags is produced for some description |
| Knowledge.Retrieve | app.py:78-82 | the general title is returned exactly when the tag is not a key of the table |
| Knowledge.KeysAreSpecificTags | app.py:25-41 | the table's keys are exactly the labels of the three specific tags, and a label is a key if and only if it is not "unknown" |
| Knowledge.RetrieveByTag | app.py:78-82 | lookup is total: a specific tag gets its table record, "unknown" gets the record titled "General Network Troubleshooting" |
| Knowledge.RetrieveSeparatesTags | app.py:25-41 | different tags retrieve records with different titles |
| Prompt.BuildPrompt | app.py:89-100 | the prompt's length is the sum of the template and of all four inputs, and the incident text sits unchanged at a fixed offset |
| Prompt.PromptEmbedsInputs | app.py:89-100 | the prompt contains the incident text, the title, the content and the actionable intelligence verbatim |
| Prompt.PromptRequestsSections | app.py:102-106 | the prompt asks for the three headings: Identified Problem, Root Cause Analysis, Actionable Intelligence |
| Prompt.PromptDeterminesIncident | app.py:94-95 | for one context, equal prompts imply equal incident texts, so nothing is truncated |
| Analysis.Field | app.py:124 | a key lookup succeeds exactly on an object that has the key |
| Analysis.First | app.py:124 | `[0]` succeeds exactly on a non-empty list or a non-empty string |
| Analysis.ExtractGeneratedText | app.py:124 | a value comes back only from an object with a non-empty `candidates` list; `Analysis.ExtractAtPath` says which value, for any body |
| Analysis.ExtractAtPath | app.py:124 | extraction yields `v` if and only if the body holds `v` at `candidates[0].content.parts[0].text` through objects and non-empty lists, whatever other fields, candidates or parts it carries |
| Analysis.ExtractFromFullReply | app.py:124 | a reply with a role, a finish reason, usage metadata and two parts yields the first part's text |
| Analysis.ExtractFromReply | app.py:124 | extraction returns the value placed at `candidates[0].content.parts[0].text` of a reply |
| Analysis.ExtractReadsFirstOnly | app.py:124 | a successful extraction needs a non-empty candidates list and reads only its first entry |
| Analysis.ExtractNeedsCandidates | app.py:124 | a body without a non-empty candidates list yields no text |
| Analysis.RequestBody | app.py:113-119 | the request body is an object with a "contents" field |
| Analysis.RequestBodyCarriesPrompt | app.py:113-119 | the prompt travels unchanged at `contents[0].parts[0].text` of the request body |
| Analysis.CallOutcome | app.py:121-124 | a value comes back only from a non-error HTTP status with a JSON body, and it is the value at the text path |
| Analysis.RequestFor | app.py:71-121 | the request is sent under the configured key |
| Analysis.AgentRootCauseAnalysis | app.py:58-131 | an empty key returns the missing-key message and issues no request; a key issues exactly one request, built from the classified, retrieved and rendered prompt |
| Analysis.ReportDependsOnlyOnAnswer | app.py:109-131 | the run depends on the backend only through its answer to that one request |
| Analysis.SentPromptEmbedsIncidentAndKnowledge | app.py:71-121 | the one request carries a prompt holding the incident text and the title, content and actionable intelligence of the record retrieved for its predicted category |
| Analysis.FailuresGiveFixedMessage | app.py:121-131 | a connection failure, a 4xx/5xx status, a non-JSON body or a missing text path all return the fixed failure message |
| Analysis.SuccessReturnsGeneratedText | app.py:121-127 | for any non-error status and JSON body with a value at the text path, whatever other fields it carries, that value is returned unchanged |
| Analysis.SlowPageLoadsExample | app.py:44-127 | "users report slow page loads" is classified as high latency, its record is sent, and a reply "Root cause: X" is returned |
| Analysis.SuccessCanMimicFailure | app.py:124-131 | a reply whose text is the failure message gives the same report as a dropped connection |
| Analysis.OnAnalyzeClicked | app.py:155-165 | the blank-input warning is shown exactly when every character of the description is whitespace |
| Analysis.ButtonGuard | app.py:155-165 | blank input shows a warning; a missing key shows an error; a non-blank description with a key runs the analysis on the description as typed; an analysis started from the page always sends exactly one request |

## Left out

- The Streamlit page: titles, markdown, spinners, containers, the info and success messages, and the missing-key error message (app.py:64, 67-87, 126, 130, 134-168 apart from the button guard). These only render.
- `time.sleep` (app.py:72, 83, 125). It only delays.
- Loading secrets and environment variables, and building the URL (app.py:13-20). The key is a string parameter, and only whether it is empty matters.
- The HTTP exchange itself: `requests.post`, headers and `json.dumps` (app.py:109-121). The backend is a function parameter, and its answer is either a connection error or a status code with an optional parsed body. `raise_for_status` (app.py:122) is modelled by `Analysis.IsHttpError`, which treats 400-599 as errors. `response.json()` (app.py:123) is modelled by `Response.body`, which is `None` when the body would not parse.
- The exception text shown by `st.error` (app.py:130). The returned value does not depend on it.
- JSON numbers are modelled as integers. Floats, and exceptions other than the ones listed, are not distinguished: any exception in the `try` returns the same message.
- `replace('_', ' ')` in the prediction message (app.py:73). It is display-only, and no tag contains `_`.
- Text.Lower: lower-cases ASCII letters only. Python's `str.lower()` is full Unicode: for instance, KELVIN SIGN lowers to "k", so Python also classifies "PACKET" as packet loss, and the model does not. The classifier lemmas are stated relative to this ASCII lower-casing.
- Text.IsSpace: lists the characters Python's `str.isspace()` accepts in Unicode 15. Later Unicode versions are not tracked.
