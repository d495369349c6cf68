# 哲思黑匣子 (Zhesi black box), modelled in Dafny

The Zhesi black box is a small philosophical question answerer. A
question first passes a legality gate. The gate refuses blank questions,
then any question that mentions a forbidden mathematics keyword such as
黎曼猜想 or 证明, and then any question that mentions none of the ten
supported philosophical fields.

A legal question asked while recording is on raises a cognitive-depth
counter by one. It is answered
with a canned text chosen by its first topic (存在, 意识, 自由 or 人生意义)
and by the new depth. A question on any other field gets a templated
general answer. Every answer is appended to an append-only trace of
think records. A record can be traced back by its id and the whole trace
can be exported. The counter can be reset, and recording can be paused
and resumed.

The project has six modules:

- `Wrappers` (`wrappers.dfy`): `Option` and `Result`.
- `Text` (`text.dfy`): the Python string operations the engine relies on.
  These are `str.strip()` with Python's white-space set, the substring
  test `p in s`, `startswith`, and `str(n)`.
- `Gate` (`gate.dfy`): `_check_legal`, with its two keyword lists in the
  source's order.
- `Answers` (`answers.dfy`): `_gen_philosophy_answer`.
  - `Choose` follows the branches of the source one for one and names the
    canned text it picks.
  - `Words` gives each canned text's exact words.
  - A reference description (`Topics`, `TierTable`, `TierIndex`) is proved
    to agree with `Choose`.
- `Trace` (`trace.dfy`): the engine's state as a value.
  - `AskStep` describes one `ask`.
  - `TraceResult` describes `trace_think`.
  - The invariants these keep are proved here.
- `Engine` (`engine.dfy`): the two classes of the program.
  - `Config` has the fields the program updates in place.
  - `BlackBox` has one method per engine operation. Each method is proved
    against the functions in `Trace`: `Ask` against `AskStep`, and the
    `trace_think` loop against `TraceResult`.

The clock readings the program takes are parameters: the whole seconds
that name the session, the milliseconds that name a record, and the
formatted times. Whether writing the export file succeeds is a `writeOk`
parameter. Python exceptions become `Result` failures. `GateError` holds
the gate's two `ValueError`s and its `PermissionError`. `AskError` adds
the paused-recording exception that `ask` raises and catches.

The general answer prints `self.config.cog_depth` rather than its
`cog_depth` argument (`zhesi_blackbox.py:112`). `Answer` therefore takes
both numbers, `depth` and `shownDepth`. The engine's only caller,
`_core_think`, passes the same number for both (`Trace.Think`).

The general answer quotes `q[:-1]`: the stripped question minus its last
character, whatever that character is. `DropLast` keeps exactly this
behaviour, so a question without a closing question mark loses its last
real character.

## Model

| member | source | states |
|---|---|---|
| Text.IsSpace | zhesi_blackbox.py:42-45 | the white space `strip()` removes is Python's `str.isspace` set; `TrimStart`, `TrimEnd` and `StripIsSlice` state what removing it does |
| Text.TrimStart | zhesi_blackbox.py:45 | `lstrip`: the result is a suffix of the input, everything dropped is white space, and the result does not start with white space |
| Text.TrimEnd | zhesi_blackbox.py:45 | `rstrip`: the result is a prefix of the input, everything dropped is white space, and the result does not end with white space |
| Text.Strip | zhesi_blackbox.py:42-45 | `strip()` is empty exactly when the question is white space only; otherwise it starts and ends with a non-space character; it is never longer than the input; `StripIsSlice` shows it is the input with only its surrounding white space removed |
| Text.StripIsSlice | zhesi_blackbox.py:45 | `strip()` returns a slice of the question with only white space before and after it, so nothing but surrounding white space is removed |
| Text.StripIdempotent | zhesi_blackbox.py:122 | stripping an already stripped question changes nothing; so the answer, computed from the raw question that `_gen_philosophy_answer` strips once (line 86), is also the generator's answer on the stripped question the record stores |
| Text.StartsWith | zhesi_blackbox.py:160 | `s.startswith(p)`: the first `len(p)` characters of `s` are `p` |
| Text.Contains | zhesi_blackbox.py:48 | the substring test `kw in q`; `ContainsIffOccurs` shows it holds exactly when `kw` occurs at some index of `q` |
| Text.ContainsIffOccurs | zhesi_blackbox.py:48 | the substring test `kw in q` holds exactly when `kw` occurs at some index of `q` |
| Text.ContainsInfix | zhesi_blackbox.py:112 | a string contains every piece it was assembled around, as the general answer is around the quoted question |
| Text.NatToString | zhesi_blackbox.py:120 | `str(n)` is a non-empty digit string with no leading zero, and exactly `0` when n is 0 |
| Text.IntToString | zhesi_blackbox.py:126 | `str(i)`, which the evolution text applies to `cog_depth-1`; `IntToStringReadsBack` states its value for both signs |
| Text.IntToStringReadsBack | zhesi_blackbox.py:126 | `str(i)` is the digits of i when i >= 0, and a minus sign followed by the digits of -i when i < 0, in both cases with no leading zero (`0` itself is written `0`); so a record written with the counter at 0 would print `认知深度从-1提升至0` |
| Text.ParseNatToString | zhesi_blackbox.py:120 | reading back the digits of `str(n)` gives n |
| Text.NatToStringInjective | zhesi_blackbox.py:120 | distinct numbers have distinct decimal forms |
| Gate.CheckLegal | zhesi_blackbox.py:40-62 | `_check_legal`; its verdicts are characterised by `BlankQuestionRefused`, `ForbiddenKeywordRefused` and `FieldDecidesTheRest` |
| Gate.FirstMatch | zhesi_blackbox.py:47-48 | the index of the first keyword in list order that occurs in the question, and no index exactly when none occurs |
| Gate.BlankQuestionRefused | zhesi_blackbox.py:42-43 | the question is refused as empty exactly when it is white space only |
| Gate.ForbiddenKeywordRefused | zhesi_blackbox.py:45-55 | a non-blank question is refused for a forbidden keyword exactly when its stripped text mentions one; the keyword reported is the first in list order |
| Gate.FieldDecidesTheRest | zhesi_blackbox.py:57-62 | a non-blank question free of forbidden keywords is legal exactly when it mentions a supported field, and refused as unsupported otherwise |
| Gate.CheckLegalOfStripped | zhesi_blackbox.py:45 | the gate gives the same verdict on the stripped question as on the original |
| Gate.RiemannAlwaysReported | zhesi_blackbox.py:34-55 | any question mentioning 黎曼猜想 is refused naming 黎曼猜想, whatever fields or other forbidden keywords it also mentions |
| Answers.Words | zhesi_blackbox.py:88-114 | the words of the nine canned texts of the generator, as the source spells them |
| Answers.GeneralOpening | zhesi_blackbox.py:112 | the words of the general answer before the quoted question, printing the shown depth; `GeneralAnswerQuotes` states what the answer contains |
| Answers.GeneralAnswer | zhesi_blackbox.py:112 | the general sentence: opening, `q[:-1]`, closing; `GeneralAnswerQuotesQuestion` states that it quotes both |
| Answers.Choose | zhesi_blackbox.py:86-111 | the branch chain of the generator; `ChooseByFirstTopic` proves it picks the reference table's tier for the first topic, and the general answer exactly when no topic occurs |
| Answers.Answer | zhesi_blackbox.py:81-115 | `_gen_philosophy_answer`; `AnswerByFirstTopic` states the exact answer on the topic and the fallback paths |
| Answers.DropLast | zhesi_blackbox.py:112 | `q[:-1]` is `q` minus its last character, and empty for the empty string |
| Answers.TierIndex | zhesi_blackbox.py:88-109 | depth d picks tier d when the topic has one, and the last tier for every other depth, 0 included |
| Answers.FirstTopic | zhesi_blackbox.py:88-111 | the if/elif chain tests 存在, 意识, 自由, 人生意义 in that order, which is finding the first topic of that list in the question |
| Answers.ChooseByFirstTopic | zhesi_blackbox.py:86-115 | the generator picks the tier the depth selects among the texts of the first topic mentioned, and the general answer exactly when no topic is mentioned |
| Answers.AnswerByFirstTopic | zhesi_blackbox.py:81-115 | the answer is the words of that tier; with no topic it is the general sentence, followed by the extra sentence exactly when depth > 1 |
| Answers.ExistenceHasThreeTiers | zhesi_blackbox.py:88-94 | 存在 gives the depth-1 text at depth 1, the depth-2 text at depth 2, and the third text at every other depth |
| Answers.ConsciousnessHasTwoTiers | zhesi_blackbox.py:96-100 | without 存在, 意识 gives one text at depth 1 and another at every other depth |
| Answers.FreedomHasTwoTiers | zhesi_blackbox.py:102-106 | without 存在 and 意识, 自由 gives one text at depth 1 and another at every other depth |
| Answers.MeaningHasOneTier | zhesi_blackbox.py:108-109 | when no earlier topic occurs, 人生意义 gives the same text at every depth |
| Answers.GeneralAnswerQuotesQuestion | zhesi_blackbox.py:111-115 | a question with no topic is answered with a text that starts with the general sentence and quotes both the shown depth and the stripped question minus its last character |
| Answers.GeneralAnswerQuotes | zhesi_blackbox.py:112 | the general sentence, followed by anything, contains `q[:-1]` and the printed depth |
| Trace.ThinkId | zhesi_blackbox.py:120 | a record id is `think_` followed by at least one character, all of them digits |
| Trace.ThinkIdInjective | zhesi_blackbox.py:120 | two ids are equal only when they come from the same millisecond reading |
| Trace.Basis | zhesi_blackbox.py:72 | the basis text for a depth; `NewRecordWellFormed` and `AskedRecordWellFormed` show each record carries the one for its own depth |
| Trace.Evolution | zhesi_blackbox.py:126 | the text of the step from depth - 1 to depth; `EvolutionToOne` and `ResetRestartsAtDepthOne` state it for the first step |
| Trace.Think | zhesi_blackbox.py:64-79 | what `_core_think` returns once the counter is raised; `AskedAnswer` states its answer, `BlackBox.CoreThink` is proved against it |
| Trace.NewRecord | zhesi_blackbox.py:117-129 | the record `_record_think` builds; `NewRecordWellFormed` shows it is well formed, `BlackBox.RecordThink` is proved against it |
| Trace.AskStep | zhesi_blackbox.py:131-156 | one `ask` on the state as a value; `AskStepOutcomes` states its refusal, pause and success cases |
| Trace.AskStepOutcomes | zhesi_blackbox.py:131-156 | a refused or paused `ask` changes nothing and reports why; `ask` succeeds exactly when the question is legal and recording is on; a success raises the counter by one, keeps the earlier records, and appends one record of the stripped question at the new depth with the id it reports |
| Trace.AskFailed | zhesi_blackbox.py:137-156 | any failed `ask` leaves counter, switch and trace as they were |
| Trace.AskedRecordWellFormed | zhesi_blackbox.py:117-129 | the appended record holds a stripped legal question, the answer for its depth, the basis and evolution texts for its depth, and an id with the `think_` prefix |
| Trace.NewRecordWellFormed | zhesi_blackbox.py:64-79 | the record of a legal question thought at a positive depth is well formed |
| Trace.AskKeepsTraceWellFormed | zhesi_blackbox.py:131-156 | every `ask` keeps every record of the trace well formed |
| Trace.AppendKeepsWellFormed | zhesi_blackbox.py:128 | appending a well-formed record to a well-formed trace keeps it well formed |
| Trace.AskKeepsDepthsRising | zhesi_blackbox.py:70 | without a reset, record depths rise strictly and never exceed the counter, and `ask` keeps this so |
| Trace.RisingAfterAppend | zhesi_blackbox.py:126-128 | a record one deeper than the counter keeps the depths rising |
| Trace.ResetBreaksRise | zhesi_blackbox.py:191-194 | after a reset, the next record is no deeper than the first one, so the rise is broken |
| Trace.AskedAnswer | zhesi_blackbox.py:70-74 | a successful `ask` answers at the raised depth, and shows that same depth in the general answer |
| Trace.ExistenceAskedTwice | zhesi_blackbox.py:88-92 | the same 存在 question asked twice in a fresh session is answered with the depth-1 text, then with the depth-2 text at depth 2 |
| Trace.LegalAsksCount | zhesi_blackbox.py:70 | n legal questions asked while recording raise the counter by n and add n records |
| Trace.AsksKeepEarlierRecords | zhesi_blackbox.py:21 | the trace only grows: after any sequence of asks the earlier trace is a prefix of the later one |
| Trace.AskKeepsRecords | zhesi_blackbox.py:128 | one `ask` keeps the earlier records as a prefix |
| Trace.LegalAskGrows | zhesi_blackbox.py:139-145 | one legal `ask` while recording raises the counter and the trace length by one and keeps recording on |
| Trace.FailedAsksChangeNothing | zhesi_blackbox.py:139-141 | any number of asks while paused, or of refused questions, leave the state exactly as it was |
| Trace.Lookup | zhesi_blackbox.py:162-163 | the first index whose record has the id, and none exactly when no record has it |
| Trace.TraceResult | zhesi_blackbox.py:158-168 | an id without the `think_` prefix is malformed; otherwise the first record with the id is returned when one exists, and the id is reported missing when none does |
| Trace.LookupAfterAppend | zhesi_blackbox.py:128 | appending a record never changes which earlier record an id finds |
| Trace.AskKeepsEarlierTraces | zhesi_blackbox.py:158-168 | an id that resolves keeps resolving to the same record after any `ask` |
| Trace.AskedRecordIsTraceable | zhesi_blackbox.py:152 | when no earlier record has the same millisecond id, the id `ask` reports leads `trace_think` to the new record |
| Trace.SameClockReadingFindsEarlier | zhesi_blackbox.py:120 | when an earlier record has the same millisecond id, the reported id leads `trace_think` to that earlier record instead |
| Trace.ResetRestartsAtDepthOne | zhesi_blackbox.py:191-194 | after a reset, the next successful `ask` is at depth 1, answers as at depth 1, and records the evolution text 认知深度从0提升至1 |
| Trace.EvolutionToOne | zhesi_blackbox.py:126 | the evolution text of the first step reads 认知深度从0提升至1 |
| Engine.Config.constructor | zhesi_blackbox.py:16-21 | a new session is named `zhesi_blackbox_` and the seconds, records its start time, has recording on, depth 0 and an empty trace |
| Engine.BlackBox.constructor | zhesi_blackbox.py:28-29 | the engine works on the configuration it is given |
| Engine.BlackBox.CoreThink | zhesi_blackbox.py:64-79 | raises the counter by one and returns the answer, depth and basis for the new depth, leaving switch and trace alone |
| Engine.BlackBox.RecordThink | zhesi_blackbox.py:117-129 | appends exactly the record of this thought, with the evolution for the current counter, and changes nothing else |
| Engine.BlackBox.Ask | zhesi_blackbox.py:131-156 | the new configuration and the reply are those `AskStep` describes for the old configuration |
| Engine.BlackBox.TraceThink | zhesi_blackbox.py:158-168 | the scan from the oldest record returns what `TraceResult` describes, and changes nothing |
| Engine.BlackBox.ExportRecords | zhesi_blackbox.py:170-189 | nothing to export on an empty trace; a failed write is reported; otherwise the header holds the record count, the current counter and the session id and start, followed by every record; nothing changes; the file path defaults to `./zhesi_blackbox_records.json` |
| Engine.BlackBox.ResetCogDepth | zhesi_blackbox.py:191-194 | the counter becomes 0 and nothing else changes |
| Engine.BlackBox.PauseRecord | zhesi_blackbox.py:196-199 | recording is switched off and nothing else changes |
| Engine.BlackBox.ResumeRecord | zhesi_blackbox.py:201-204 | recording is switched on and nothing else changes |

## Left out

- The interactive `main` loop and its console input and output (`zhesi_blackbox.py:207` onward). They only call the modelled operations.
- The module-level singleton `zs_config`. The model builds a fresh `Config` and passes it to the engine.
- Reading the clock: `time.time()` and `datetime.now()` are parameters. They are the session seconds, the record milliseconds and the formatted times.
- Writing the JSON file in `export_records`. The outcome of the write is the `writeOk` parameter, and the exported data is returned as `ExportSummary`.
- The decorated message strings. These are the texts of the raised exceptions, the emoji-keyed reply dictionary with its hint line, the `维（…）` suffix of the depth, and the confirmation strings of `reset_cog_depth`, `pause_record`, `resume_record` and `export_records`. The model keeps what they carry: the error kind and the refused keyword, and the reply's question, answer, depth, basis and id.
- The reported answer is the same text as `Last(records).answer`. The Python code returns the same object.
- `ask`'s `except Exception` also catches errors that the modelled code cannot raise. No such error is modelled.
- Aliasing of records. `_record_think` and `trace_think` return the stored record dictionary itself, so a Python caller could change a trace entry through it. The model's records are values, so that cannot happen here; no code of the engine relies on it.
- The `question is None` test of `_check_legal`. A Dafny string is never absent.
- Trace.ThinkId: record ids are not claimed to be unique. They come from the millisecond clock alone, so two records asked within one millisecond share an id.
- Answers.ExistenceHasThreeTiers, Answers.ConsciousnessHasTwoTiers, Answers.FreedomHasTwoTiers: the tiers are distinguished as distinct canned texts (`Canned` values). That their words differ is shown only by `Words` spelling them out; no lemma compares the long literals.
