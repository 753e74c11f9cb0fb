# Date-plan agent: post-processing of the crew's answer

The agent in `agent_retrieval_agent/custom_model/agent.py` asks a crew of
language-model agents for three date plans. It then post-processes the
crew's text answer. This project models that deterministic post-processing
and proves what it promises:

- **Finding the JSON** in the answer. It uses the fenced code block when
  there is one, else the text from the first `{` to the last `}`.
- **Re-timing every plan** with `_validate_itinerary`:
  - pin the first item's start to the meetup time and the last item's
    end to the breakup time;
  - give every item a minimum duration by its type (a move 15 minutes,
    the meetup and breakup markers none, anything else 30);
  - share the time left over equally among the inner items;
  - round those items' ends with `_round_to_30min`;
  - chain the items back to back;
  - run the gap check and record the three `checks` flags.
- **Filling `meta`** with the meetup and breakup times. They come from
  `meta` itself, or else from the first plan.
- **Generating `markdown_summary`** with `_generate_markdown_summary`
  when the document has none. This is one section per plan, fixed
  comparison and caution headings, and one bullet per distinct
  constraint.
- **Answering** with the dumped JSON, a rule, and the summary.
- **The LLM settings:**
  - the `datarobot/` prefix on the default model;
  - the LiteLLM API base, which cuts a trailing `api/v2` or `api/v2/`
    with `re.sub(r"api/v2/?$", ...)`;
  - the endpoint and the choice of model in `model_factory`.

## How the model is built

- **Values and exceptions.** Parsed JSON is the datatype `PyJson.Json`.
  A dict is an association list in insertion order, and `d[k] = v` is
  `PyJson.Store`. The dynamic typing of the Python code is explicit:
  every operation that can raise returns a `Result` carrying the Python
  exception (`KeyError`, `AttributeError`, `TypeError`, `ValueError`,
  `IndexError`). `run` catches `KeyError`, `AttributeError` and JSON
  decode errors. The other exceptions escape, and the model says which
  ones.
- **Times** are whole minutes (`Clock`). `strftime` and `strptime` with
  `"%Y-%m-%d %H:%M"` are the parameter `Clock.Calendar(format, parse)`.
  Some lemmas require `Clock.Canonical`: parsing a formatted time gives
  that time back.
- **Other parameters:**
  - `json.loads` (`None` where it raises);
  - `json.dumps(..., ensure_ascii=False, indent=2)`;
  - Python's `str()` of a non-string value;
  - the capture of the fenced-code-block regex.
- **Each loop is a method proved against a specification function.**
  - The loops of `_validate_itinerary` are
    `Itinerary.CollectMinDurations`, `Itinerary.AssignTimes`,
    `Itinerary.CheckGaps` and `Itinerary.RecordChecks`, which together
    make up `Itinerary.ValidateItinerary`. They are proved equal to
    `Itinerary.ValidatedPlan`.
  - The plan loop of `run` is `Response.ValidateEach`.
  - The loops of the summary are `Summary.WriteSections`,
    `Summary.CollectConstraints` and `Summary.WriteBullets`.
- **Set order.** The constraint bullets come out in the iteration order
  of a Python `set`, which the code does not fix. The specification
  `Summary.Summarizes` therefore admits every order that lists each
  distinct constraint once, and `Summary.WriteBullets` picks one. The
  same holds for everything built on the summary, such as
  `Response.Rendered`, `Response.Processes` and `Response.RunsTo`.

## Model

| member | source | states |
|---|---|---|
| Clock.RoundTo30 | agent_retrieval_agent/custom_model/agent.py:393-403 | the rounded time is on a 30-minute mark, at most 14 minutes before and at most 15 minutes after the time |
| Clock.RoundingRule | agent_retrieval_agent/custom_model/agent.py:395-403 | minutes 0-14 go down to the hour, 15-44 go to half past, and 45-59 go to the next hour, whose hour number is one higher |
| Clock.RoundedMinute | agent_retrieval_agent/custom_model/agent.py:396-403 | the rounded time is always on the hour or at half past |
| Clock.RoundIdempotent | agent_retrieval_agent/custom_model/agent.py:393-403 | rounding a rounded time changes nothing |
| Clock.RoundIsNearest | agent_retrieval_agent/custom_model/agent.py:393-403 | no 30-minute mark is closer to the time than the rounded one; a tie (minute 15 or 45) is resolved upwards |
| Clock.RoundMonotonic | agent_retrieval_agent/custom_model/agent.py:393-403 | rounding keeps the order of times |
| Itinerary.Kinds | agent_retrieval_agent/custom_model/agent.py:464-465 | reading every item's type succeeds exactly when every item is a dict; it then gives `item.get("type", "other")` in order, and otherwise `AttributeError` |
| Itinerary.KindsOfDicts | agent_retrieval_agent/custom_model/agent.py:464-465 | on an itinerary of dicts, the types read are those of the items |
| Itinerary.CollectMinDurations | agent_retrieval_agent/custom_model/agent.py:463-473 | the loop yields each item's minimum by its type (move 15, meetup and breakup 0, else 30), or the `AttributeError` of a non-dict item |
| Itinerary.Allocation | agent_retrieval_agent/custom_model/agent.py:505-508 | an inner item gets at least its 30-minute minimum, and exactly that when no time is left over or there are at most two items |
| Itinerary.AllocationIsShare | agent_retrieval_agent/custom_model/agent.py:505-509 | an allocation above the minimum is the whole-minute equal share of the left-over time among the `n - 2` inner items, so together they get no more than is left over |
| Itinerary.SetInItem | agent_retrieval_agent/custom_model/agent.py:455-456 | writing into the first or the last item succeeds exactly when the itinerary is a non-empty list with a dict at that end, and then changes only that key of that item |
| Itinerary.EndsChain | agent_retrieval_agent/custom_model/agent.py:483-513 | each item ends where its type takes it from the end of the item before it (from the meetup time for the first item) |
| Itinerary.TimeItem | agent_retrieval_agent/custom_model/agent.py:483-513 | one pass of the timing loop: the start string (the meetup string for the first item, else the previous end); for the last item the breakup string and time; otherwise the end by type with the shared allocation, and its rendering |
| Itinerary.AssignTimes | agent_retrieval_agent/custom_model/agent.py:480-513 | the timing loop re-stamps every item along the chained schedule of ends, with the meetup string first and the breakup string last |
| Itinerary.CheckGaps | agent_retrieval_agent/custom_model/agent.py:519-526 | the gap loop computes `GapFree`: its exception, false at the first item whose end differs from the next start, else true |
| Itinerary.RecordChecks | agent_retrieval_agent/custom_model/agent.py:515-537 | reading back the first start and the last end, the gap check and the stored `itinerary` and `checks` are `Checked` |
| Itinerary.ValidateItinerary | agent_retrieval_agent/custom_model/agent.py:432-537 | the whole of `_validate_itinerary` computes `ValidatedPlan`: the plan it leaves behind, or the exception it raises |
| ItineraryFacts.RestampSpec | agent_retrieval_agent/custom_model/agent.py:485-512 | re-stamping an item sets its `start` and `end` and keeps every other key |
| ItineraryFacts.PinSpec | agent_retrieval_agent/custom_model/agent.py:455-456 | pinning sets one key of an item, keeps the others and keeps its type |
| ItineraryFacts.PinEndsSpec | agent_retrieval_agent/custom_model/agent.py:455-456 | pinning gives the first item the meetup time as its start and the last item the breakup time as its end; every other key of every item and every type stay as they were |
| ItineraryFacts.ReachesChecks | agent_retrieval_agent/custom_model/agent.py:445-537 | for parseable times and a non-empty list of dicts, validation records the checks of the re-timed itinerary `Output` |
| ItineraryFacts.OutputSpec | agent_retrieval_agent/custom_model/agent.py:455-513 | the re-timed itinerary starts at the meetup time and ends at the breakup time; each inner end is the rendered scheduled end and the next item starts with that same string; all other keys are kept |
| ItineraryChecks.GapFreeStep | agent_retrieval_agent/custom_model/agent.py:521-526 | the gap check moves past a pair that meets, answers false on a mismatch, and raises when a time is missing or does not parse |
| ItineraryChecks.GapFreeExact | agent_retrieval_agent/custom_model/agent.py:519-526 | the gap check answers true exactly when every item's end parses to the same time as the next item's start |
| ItineraryChecks.GapFreeFalse | agent_retrieval_agent/custom_model/agent.py:524-526 | when the gap check answers false, some adjacent pair has an end differing from the next start |
| ItineraryChecks.MeetsAt | agent_retrieval_agent/custom_model/agent.py:522-524 | an end and the next start that are the same rendering of a time meet |
| ItineraryChecks.OutputMeets | agent_retrieval_agent/custom_model/agent.py:455-526 | with a round-tripping calendar, the re-timed itinerary's first start and last end are the given times, and every adjacent pair meets |
| ItineraryChecks.CheckedFlags | agent_retrieval_agent/custom_model/agent.py:516-535 | for such an itinerary, `no_gaps_or_overlaps` is true, `rounded_to_30min` is true, and `meets_exact_time_window` holds exactly when both given strings are in the canonical format |
| ItineraryChecks.SuccessPath | agent_retrieval_agent/custom_model/agent.py:432-537 | validation succeeds, stores the re-timed itinerary and those flags, and keeps every other key of the plan |
| ItineraryChecks.FailedChecksPath | agent_retrieval_agent/custom_model/agent.py:434-452 | a time that does not parse, or an empty or missing itinerary, stores the all-false `checks` and keeps everything else |
| ItineraryChecks.NonStringTimeRaises | agent_retrieval_agent/custom_model/agent.py:434-437 | a meetup or breakup time that is not a string raises `TypeError` (the `except` only catches `ValueError`) |
| ItineraryChecks.NonDictPlanRaises | agent_retrieval_agent/custom_model/agent.py:434-445 | a plan that is not a dict raises `AttributeError` once both times parse, and `TypeError` when storing the failed checks |
| ItineraryChecks.MalformedItineraryRaises | agent_retrieval_agent/custom_model/agent.py:445-481 | a truthy itinerary that cannot be re-timed raises `KeyError` for a dict, `TypeError` for a non-list or a non-dict end item, and `AttributeError` for a non-dict inner item |
| ScheduleFacts.ScheduleStep | agent_retrieval_agent/custom_model/agent.py:496-513 | a marker ends where it starts, a move 15 minutes later, and any other inner item at the rounded start plus allocation, which lies on a 30-minute mark at least 16 minutes after its start |
| ScheduleFacts.ScheduleOrdered | agent_retrieval_agent/custom_model/agent.py:480-513 | the inner ends never decrease and never precede the meetup time |
| ScheduleFacts.MoveEndsOffGrid | agent_retrieval_agent/custom_model/agent.py:501-502 | a move first on a half-hour meetup ends at a quarter past or to the hour, although line 534 sets `rounded_to_30min` to true |
| ScheduleFacts.LastItemCanStartAfterBreakup | agent_retrieval_agent/custom_model/agent.py:492-513 | for four items in a 30-minute window, the inner ends reach 11:00 and the last item starts after the 10:30 breakup; the ends are not clamped to the window |
| Summary.SectionsOk | agent_retrieval_agent/custom_model/agent.py:640-648 | the plan sections are written exactly when every plan is a dict, and otherwise fail with `AttributeError` |
| Summary.CollectedFrom | agent_retrieval_agent/custom_model/agent.py:654-657 | a value is among the collected constraints exactly when some plan's `constraints_respected` yields it |
| Summary.CollectedErrSticks | agent_retrieval_agent/custom_model/agent.py:654-657 | once one plan's constraints cannot be iterated, collecting fails with `TypeError` |
| Summary.EachConstraintOnce | agent_retrieval_agent/custom_model/agent.py:659-661 | every distinct constraint gets exactly one bullet and nothing else does; there are no bullets exactly when there are no constraints |
| Summary.WriteSections | agent_retrieval_agent/custom_model/agent.py:639-648 | the section loop yields `Sections`: title, then theme and summary when truthy, for each plan |
| Summary.CollectConstraints | agent_retrieval_agent/custom_model/agent.py:654-657 | the extend loop yields `Collected` |
| Summary.WriteBullets | agent_retrieval_agent/custom_model/agent.py:659-661 | the bullets follow some order listing each distinct constraint exactly once |
| Summary.GenerateMarkdownSummary | agent_retrieval_agent/custom_model/agent.py:633-665 | the outcome is one `Summarizes` admits: the no-plans notice for falsy plans, else the heading, sections, comparison and caution headings and the constraint lines; `TypeError` for an unhashable constraint, and the exception of a malformed document |
| Response.BraceSpanSpec | agent_retrieval_agent/custom_model/agent.py:567 | `\{.*\}` matches exactly when some `{` comes before some `}` |
| Response.BraceSpanBounds | agent_retrieval_agent/custom_model/agent.py:567 | the match runs from the first `{` to the last `}` |
| Response.MapOkSpec | agent_retrieval_agent/custom_model/agent.py:592-593 | validating each plan in turn succeeds exactly when every plan validates, and then holds each validated plan in place |
| Response.MapOkStops | agent_retrieval_agent/custom_model/agent.py:592-593 | the first plan whose validation raises decides the exception |
| Response.FillKeySpec | agent_retrieval_agent/custom_model/agent.py:596-599 | after `if k not in meta: meta[k] = v` the key is present, existing values are kept, an absent key gets `v`, and other keys are unchanged |
| Response.FilledMetaKeeps | agent_retrieval_agent/custom_model/agent.py:596-599 | the filled `meta` has both times; every value it had is kept, and each absent time is the one settled on |
| Response.UpdatedMeta | agent_retrieval_agent/custom_model/agent.py:600 | the answered document's `meta` is the filled `meta` |
| Response.PreparedCases | agent_retrieval_agent/custom_model/agent.py:574-600 | a prepared document comes from a dict with dict `meta` and settled times; it is the document unchanged, or, with both times truthy and every plan validated, the document with re-timed plans and filled `meta` |
| Response.ValidateAll | agent_retrieval_agent/custom_model/agent.py:591-593 | the plan loop computes `ValidatedPlans` |
| Response.ValidateEach | agent_retrieval_agent/custom_model/agent.py:592-593 | the loop over a list of plans validates each plan in turn and stops at the first exception |
| Response.Render | agent_retrieval_agent/custom_model/agent.py:603-612 | the answer is one `Rendered` admits: an existing truthy summary is kept, otherwise one is generated and stored; the answer is the dump, the rule and the summary |
| Response.PostProcess | agent_retrieval_agent/custom_model/agent.py:574-612 | the post-processing of a parsed document is one `Processes` admits |
| Response.Run | agent_retrieval_agent/custom_model/agent.py:560-616 | the text `run` answers with, or the escaping exception, is one `RunsTo` admits |
| ResponseFacts.StringPlanFails | agent_retrieval_agent/custom_model/agent.py:592-593 | a plan that is a string always makes validation raise |
| ResponseFacts.ValidatedPlansShape | agent_retrieval_agent/custom_model/agent.py:591-593 | on success, a list of plans becomes the list of validated plans; anything else is left as it was and must be an empty dict or an empty string |
| ResponseFacts.TimesFromMeta | agent_retrieval_agent/custom_model/agent.py:576-578 | times present and truthy in `meta` are the ones used |
| ResponseFacts.TimesFromFirstPlan | agent_retrieval_agent/custom_model/agent.py:581-589 | with an empty `meta`, the times are the first plan's first start and last end |
| ResponseFacts.PreparedRetimesPlans | agent_retrieval_agent/custom_model/agent.py:591-600 | when the document changes, both times are truthy, every plan is validated in place, `meta` is filled, and every other key is unchanged |
| ResponseFacts.SummaryShape | agent_retrieval_agent/custom_model/agent.py:633-665 | a generated summary is the no-plans notice or starts with the proposals heading |
| ResponseFacts.AnswerCarriesSummary | agent_retrieval_agent/custom_model/agent.py:603-612 | every answer is the dump of a document whose truthy `markdown_summary` follows the rule; only that key differs from the prepared document |
| ResponseFacts.TextChangesOnlyForOkPlans | agent_retrieval_agent/custom_model/agent.py:565-574 | the response text changes only when it holds a JSON object whose `status` is `"ok"` and which has `plans` |
| ResponseFacts.EscapingErrors | agent_retrieval_agent/custom_model/agent.py:563-616 | only `TypeError`, `ValueError` or `IndexError` escape `run` |
| ResponseFacts.NoJsonKeepsText | agent_retrieval_agent/custom_model/agent.py:565-571 | without a JSON object, or with one that does not decode, the text is answered unchanged |
| Settings.ProviderModel | agent_retrieval_agent/custom_model/agent.py:58-59 | the default model always carries the `datarobot/` prefix |
| Settings.ProviderModelSpec | agent_retrieval_agent/custom_model/agent.py:58-59 | a prefixed name is kept, any other gets the prefix in front of it unchanged, and prefixing twice changes nothing |
| Settings.LiteLlmBaseCut | agent_retrieval_agent/custom_model/agent.py:67-72 | a configured base that does not end in a newline is the LiteLLM base followed by what `api/v2/?` matched at its end |
| Settings.LiteLlmBaseCutNewline | agent_retrieval_agent/custom_model/agent.py:67-72 | a base ending in a newline keeps it and loses what `api/v2/?` matched just before it (Python's `$`) |
| Settings.LiteLlmBaseKeeps | agent_retrieval_agent/custom_model/agent.py:67-72 | a base without either ending, with or without a final newline, is used as it is |
| Settings.DeploymentUrlDoubleSlash | agent_retrieval_agent/custom_model/agent.py:81-85 | for a base `host/api/v2`, the deployment endpoint is `host//api/v2/deployments/...`, with the slash doubled |
| Settings.SelectModelSpec | agent_retrieval_agent/custom_model/agent.py:86-89 | the requested model is used exactly when there is one and the override is off or the gateway is in use; otherwise the default is used |

## Left out

- Building the crew, the agents, their tasks and prompts, the LLM client and the chat-completion entry points. These are calls into CrewAI and LiteLLM, which are not part of this model.
- Environment variables and `Config`. The API key, API base, default model, deployment id and gateway flag are parameters.
- The `verbose` flag and every `print`. They do not affect results.
- Event messages and the chat inputs of `run`. These are data handed to other libraries.
- `_parse_datetime`. It reads the wall clock, and nothing in the modelled code calls it.
- The regex engine. `\{.*\}` is modelled as the span from the first `{` to the last `}`. The fenced-code-block regex is the parameter `fenced`.
- `json.loads`, `json.dumps` and Python's `str()` of non-string values. These are parameters.
- `strftime` and `strptime`. These are the `Calendar` parameter. `datetime` range errors (`OverflowError` near year 1 or 9999) are not modelled.
- Floating point. A JSON float is a `real`; NaN and infinities are not modelled.
- Itinerary.Allocation: uses integer division where the code divides floats and truncates with `int()`. The two agree whenever the window is shorter than 2^53 minutes.
- Summary.GenerateMarkdownSummary: removes duplicate constraints with structural equality of JSON values. Python's `set` also treats `1`, `1.0` and `true` as equal.
- In-place updates are modelled on values. A dict from `json.loads` shares no sub-objects, so nothing is aliased. Partial updates made before an exception are dropped along with the document, as the code drops them.
