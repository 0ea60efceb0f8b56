# AvaCal booking agent — a Dafny model

AvaCal is a chat assistant that books one-hour appointments in a Google
Calendar. Its backend has three parts, and this project models each one and proves properties of it:

- **The calendar tools** (`backend/tools.py`), in `tools.dfy` and `clock.dfy`.
  - `check_availability(date)` lists the hourly slots from 09:00 up to 17:00 in America/Los_Angeles. It drops every slot that overlaps a busy event under the half-open test `max(a0, b0) < min(a1, b1)`. The rest are rendered as `%-I:%M %p` labels in a sentence.
  - `create_appointment(start_time, summary)` builds a one-hour event and inserts it. It reports the result as a sentence.
  - Both tools turn every exception into an error sentence.
  - Times are integer minutes. `day` is the local midnight of the requested date, and the working window is `[day + 540, day + 1020)`.
  - `Clock.Label` renders `%-I:%M %p`, and `Clock.ParseLabel` is its proved inverse.
- **The agent graph** (`backend/agent.py`), in `agent.dfy`.
  - An `agent` node asks the language model for the next message. A `tools` node answers the tool calls in that message.
  - `should_continue` routes either to the tools node or to the end. The tools node always returns to the agent.
  - The transcript only grows, through the `operator.add` reducer.
  - A run is capped at the recursion limit of 100 node executions. Reaching the cap is a failure, not non-termination.
  - The model, today's date and the tool executions are parameters. Any function of the right type may fill them.
- **The chat endpoint** (`backend/main.py`, `chat_with_agent`), in `chat.dfy`.
  - The client's history of role/content dictionaries is rebuilt into a transcript, and the new user message is appended.
  - The graph is run on that transcript, and the last message of the final state becomes the reply.
  - The returned history is the old one plus a user entry and an assistant entry.

`wrappers.dfy` holds the shared option and result types, string prefixes and occurrence, Python's `str.join`, and a sequence filter.

Calls into code outside the model become parameters of the modelled operation:
- `connect`, the outcome of building the calendar client, is a `Result`;
- `strptime`'s outcome is a `Result` whose value is `day`;
- `fromisoformat`'s outcome is a `Result` whose value is `start`, a `Stamp` holding a wall-clock minute and an optional UTC offset;
- `listing` is the outcome of the list call, a `Result` holding the listed events;
- `insert` is a function from the event body to a `Result` holding the created event;
- `dateLabel` is the `%A, %B %d` rendering itself, a total function from a local day number to text, assumed not to raise.

The `Err` of each `Result` carries the exception text.

The methods follow the loops of the source. Each is proved equal to a specification function:
- `PossibleSlots` to `HourlyFrom`;
- `SlotVerdict` to `Scan`;
- `AvailableSlots` to `Survey`;
- `CheckAvailability` to `AvailabilityReport`;
- `Invoke` to `Run`;
- `BuildMessages` to `Rebuild`;
- `ChatWithAgent` to `ChatReply`.

The lemmas then state what the source promises about those functions.

## Model

| member | source | states |
|---|---|---|
| Tools.PossibleSlots | backend/tools.py:30-34 | the `while current_time < end_of_day` loop collects exactly the hourly times from the start of the window while below its end |
| Tools.HourlyFromShape | backend/tools.py:30-34 | from `t` up to `t + 60n` the loop yields exactly `n` times, the k-th being `t + 60k` |
| Tools.CandidatesShape | backend/tools.py:20-21 | a day has exactly 8 candidate slots, the k-th starting at 09:00 + k hours |
| Tools.CandidatesAscending | backend/tools.py:30-34 | the candidates are strictly ascending, each exactly one hour after the previous |
| Tools.CandidatesListed | backend/tools.py:20-34 | the candidates are 09:00, 10:00, …, 16:00 of the day |
| Tools.OverlapsMeaning | backend/tools.py:42 | for non-empty intervals, `max(a0,b0) < min(a1,b1)` holds iff each interval starts before the other ends |
| Tools.AbuttingDoesNotOverlap | backend/tools.py:37-42 | an event ending exactly when the hour-long slot starts, or starting exactly when it ends, does not exclude the slot |
| Tools.SlotVerdict | backend/tools.py:37-45 | the inner loop, with its `is_available` flag and `break`, gives the verdict of the reference scan: free, taken, or failing on an event without `dateTime` that it reaches |
| Tools.ScanReadable | backend/tools.py:39-44 | when every event has both times, a slot is taken iff some event overlaps it, and the scan never fails |
| Tools.ScanUnreadable | backend/tools.py:39-44 | the scan fails iff some event lacks a time and every event before it leaves the slot clear |
| Tools.FreeMeansMissed | backend/tools.py:39-45 | a slot found free was missed by every event, and every event had both times |
| Tools.ScanOne | backend/tools.py:39-44 | with one readable event, the slot is taken exactly when that event overlaps it |
| Tools.AvailableSlots | backend/tools.py:35-46 | the outer loop keeps the free candidates in order, and stops with the failure on the first slot whose scan fails |
| Tools.SurveyFailsIff | backend/tools.py:39-54 | the survey fails iff the scan of some slot fails, and the failure carries the `fromisoformat` error text |
| Tools.SurveyKeepsFree | backend/tools.py:35-46 | the kept slots are a subsequence of the candidates, no longer than they are, and a candidate is kept iff its scan is free |
| Tools.SubsequenceAscending | backend/tools.py:35-46 | a subsequence of an ascending list is ascending and draws only from that list |
| Tools.AvailableIff | backend/tools.py:30-46 | with readable events the survey succeeds; the offered slots number at most 8, are strictly ascending and a subsequence of the candidates, and a time is offered iff it is a candidate that no event overlaps |
| Tools.LeadingUnreadableFails | backend/tools.py:39-54 | a first event without `dateTime` makes every request end in the error sentence |
| Tools.CheckAvailability | backend/tools.py:16-54 | the whole tool: each failure of client creation, date parsing or listing is reported in order, and otherwise the survey's outcome is rendered |
| Tools.AvailabilityErrorStarts | backend/tools.py:53-54 | every error reply starts with "An error occurred while checking availability: " |
| Tools.AvailabilityMessageIsNoError | backend/tools.py:48-51 | neither success sentence starts with the error prefix |
| Tools.ReportErrorIff | backend/tools.py:16-54 | the reply starts with the error prefix iff client creation, parsing or listing failed, or the survey failed |
| Tools.ReportMessages | backend/tools.py:48-51 | with no slot left the reply is "No 1-hour slots are available on {date}.", and otherwise it is the fixed prefix followed by the labels joined with ", " |
| Tools.OneBusyAfternoon | backend/tools.py:35-46 | an afternoon with a 14:00-15:00 event keeps 13:00, 15:00 and 16:00 |
| Tools.OneBusyHourSurvey | backend/tools.py:35-46 | a day with a 14:00-15:00 event offers the seven other hours in order |
| Tools.OneBusyHourScenario | backend/tools.py:46-51 | for that day the reply is the success sentence over seven labels, and none of them is "2:00 PM" |
| Clock.Label | backend/tools.py:46 | `%-I:%M %p` of a minute is 7 or 8 characters long: a one- or two-digit hour, ":" and two minute digits, a space, then "AM" before noon and "PM" from noon on; its exact digits are fixed by `Clock.ParseLabelInvertsLabel` |
| Clock.ParseLabelInvertsLabel | backend/tools.py:46 | every `%-I:%M %p` label reads back as the minute of the day it was made from |
| Clock.LabelInjective | backend/tools.py:46 | two minutes of the same day never share a label |
| Clock.LabelOnTheHour | backend/tools.py:46 | the label of a whole hour is the 12-hour figure without padding, ":00 " and AM or PM |
| Clock.TwoPmLabel | backend/tools.py:46 | 14:00 renders as "2:00 PM" |
| Tools.CreateAppointment | backend/tools.py:56-81 | the tool's reply: the error sentence if client creation or `fromisoformat` fails; otherwise the insert is given the one-hour body, and its failure gives the error sentence while its success gives the confirmation naming the summary, the `%A, %B %d at %-I:%M %p` start and the event id (properties in the rows below) |
| Tools.BodyIsOneHour | backend/tools.py:67-74 | the event body keeps the summary unchanged; it starts at the given time and ends one hour later with the same offset; both ends carry America/Los_Angeles |
| Tools.ConfirmationMentions | backend/tools.py:78 | the success sentence contains the summary and the created event's id |
| Tools.BookingMentions | backend/tools.py:75-78 | when the calendar accepts the one-hour body and returns an id, the reply of `create_appointment` contains the summary and that id |
| Tools.AppointmentErrorStarts | backend/tools.py:80-81 | every failure reply starts with "An error occurred while creating the appointment: " |
| Tools.ConfirmationIsNoError | backend/tools.py:78 | the success reply never starts with that prefix |
| Tools.CreateErrorIff | backend/tools.py:63-81 | the reply is an error iff client creation, `fromisoformat` or the insert failed; the insert is given only the one-hour body, and existing events are never consulted |
| Tools.BookedSlotNotOffered | backend/tools.py:35-76 | once an appointment booked at a candidate hour is listed back, whatever else the calendar holds, that hour is no longer offered |
| Agent.ShouldContinue | backend/agent.py:32-37 | "end" iff the last message has no tool calls, otherwise "continue" |
| Agent.MergeAppends | backend/agent.py:20-21 | the `add` reducer keeps the old state as a prefix and places the update after it |
| Agent.AgentUpdate | backend/agent.py:62-69 | `agent_node`'s update is exactly one AI message, the model's reply to the transcript and today's date |
| Agent.AgentAppendsReply | backend/agent.py:62-69 | the agent step appends exactly one message, the model's reply with its content and tool calls |
| Agent.ToolMessages | backend/agent.py:24-25 | the tools node's update holds one tool message per tool call of the last AI message |
| Agent.ToolMessagesFollowCalls | backend/agent.py:24-25 | the tools node appends one tool message per call, in call order, carrying the call's id and name |
| Agent.LookupFindsBound | backend/agent.py:24-25 | the tools node finds a tool exactly when the call names one of its tools, and then finds that tool |
| Agent.DispatchOnlyBound | backend/agent.py:24-29 | only check_availability and create_appointment are executed; any other name is answered with the unknown-tool error text |
| Agent.BoundToolNames | backend/agent.py:24-25 | that error text lists the bound tools as "check_availability, create_appointment" |
| Agent.Edges | backend/agent.py:75-81 | the tools node always returns to the agent; the end is reached only from the agent on "end", and the tools node only on "continue" |
| Agent.Superstep | backend/agent.py:72-81 | one node execution merges that node's update into the state with the `add` reducer and moves to the successor its edges give, and running on from there gives the same outcome as the reference run |
| Agent.Invoke | backend/agent.py:72-83 | the compiled graph's loop computes the reference run from the entry node with no steps taken |
| Agent.RunBounds | backend/agent.py:20-83 | whatever the model does, a run keeps its input as a prefix and executes at most 100 nodes; it fails only at exactly 100 |
| Agent.RunAnswers | backend/agent.py:76-80 | a completed run ends on an AI message with no tool calls |
| Agent.RunParity | backend/agent.py:75-81 | agent and tools alternate from the agent, so a completed run took an odd number of node executions and appended at least one message |
| Agent.CompletedTurn | backend/agent.py:72-83 | from the entry node, a run keeps its input at the front; a completed run grows it, ends on a model reply with no tool calls, and took an odd number of steps, at most 100 |
| Agent.DirectAnswer | backend/agent.py:62-80 | a model that asks for no tool completes in one step, appending just its reply |
| Agent.AgentThenTools | backend/agent.py:62-81 | when the reply asks for tools, the agent step and the tools step append the reply and then its tool messages, and control returns to the agent |
| Agent.EndlessToolCallsHitLimit | backend/main.py:59 | a model that always asks for a tool makes the run fail at exactly the recursion limit |
| Chat.BuildMessages | backend/main.py:44-50 | the conversion loop yields the reference rebuilt transcript, or the failure when a user or assistant entry has no content |
| Chat.KeptMembers | backend/main.py:46-50 | the filtered history holds exactly the entries whose role is "user" or "assistant" |
| Chat.KeptAppend | backend/main.py:44-50 | filtering distributes over concatenation, so the kept entries stay in their original order |
| Chat.DroppedEntriesIgnored | backend/main.py:46-50 | an entry with any other role, or with no role, can be inserted anywhere without changing the transcript or whether it can be built |
| Chat.MissingContentFails | backend/main.py:46-50 | a user or assistant entry without content makes the whole request fail |
| Chat.GraphInput | backend/main.py:44-53 | the graph input has one message per kept entry plus one, keeps each entry's content and kind, and ends with the new user message |
| Chat.ChatWithAgent | backend/main.py:37-75 | the endpoint computes the reference outcome: rebuild, append, run with the recursion limit, then reply |
| Chat.AnsweredShape | backend/main.py:66-75 | an answered request echoes the session id and returns the history unchanged, followed by exactly the user entry and the assistant entry, two longer |
| Chat.AnswerIsFinalModelReply | backend/main.py:59-63 | the request is answered iff the run completes; the reply is then the content of the final message, a model reply with no tool calls, after at most 100 steps |
| Chat.FailsIff | backend/main.py:44-59 | the request fails exactly when the history is malformed or the run reaches the recursion limit |
| Chat.DirectReply | backend/main.py:59-63 | a model that answers at once is quoted verbatim |

## Left out

- Real time zones and daylight saving time are not modelled. `day` is the local midnight of the date as a given number of minutes, and a slot's label is rendered from its offset within that day.
  - The event times are taken as instants in the same minute scale, so `astimezone(TZ)` is the identity on them.
  - `datetime.strptime(...).astimezone(TZ)` interprets the naive date in the host's zone (backend/tools.py:19). That host dependence is outside the model.
- Tools.OneHourLater: datetime's year range 1 to 9999 is not modelled, because minutes are unbounded. `start + timedelta(hours=1)` (backend/tools.py:68) raises OverflowError near the end of year 9999, and the source then replies with the error sentence (backend/tools.py:80-81). The model always builds the end time, so it replies with the confirmation there instead.
- The text conversions `strptime`, `fromisoformat`, `isoformat` and `%A, %B %d` are parameters or given values. Only `%-I:%M %p` is modelled (`Clock.Label`).
- Exception texts are parameters, except two.
  - An event without `dateTime` yields the TypeError text of `fromisoformat(None)`.
  - An event with no `start` or `end` key would raise a KeyError, with different text. The model does not tell the two apart: both are an event without times.
- A listed event whose `dateTime` is present but that `fromisoformat` cannot read is not represented. Examples are malformed text, or a "Z" suffix before Python 3.11. In the source it raises ValueError at backend/tools.py:40-41, and the reply is the error sentence (backend/tools.py:53-54). In the model, every present time is already an instant, so that failure cannot occur.
- The slot labels are rendered after the survey rather than inside the outer loop. The resulting list is the same.
- `calendar_id` from the environment, the list call's query parameters (`timeMin`, `timeMax`, `singleEvents`, `orderBy`) and the network are not modelled. The listing is whatever sequence of events the calendar returns.
- The language model, its system prompt and the binding of tools to it are not modelled. The model is an arbitrary function of the transcript and today's date.
- Chat.FailsIff: the model call is assumed never to raise. In the source, `runnable_agent.invoke` (backend/agent.py:64) can raise, for example on an API, quota or network error once the client's retries are used up. Nothing catches that, so it escapes `agent_graph.invoke` (backend/main.py:59) and fails the request. `Failure` has no constructor for it, so `Chat.FailsIff` and `Chat.DirectReply` hold only for a model call that answers.
- `today` is taken once per invocation. The source reads the clock at every agent step (backend/agent.py:63).
- Tool execution is an arbitrary function of the tool and the call's arguments.
  - It stands for argument validation and the exceptions the tools node catches. It is not connected to `Tools.CheckAvailability` or `Tools.CreateAppointment`. The tools `Agent.CheckAvailabilityTool` and `Agent.CreateAppointmentTool` are names only.
  - Within one turn, a repeated call always gets the same reply in the model. In the source, the reply depends on the calendar at the moment of the call (backend/tools.py:22-28 and 76). A later call sees the bookings made in between, and a transient failure may be followed by a successful retry.
  - Messages are plain content. LangChain's other message fields and the tool-message status are left out.
- The exact step counter of the graph runtime is not visible in the source. The model counts one step per node execution and fails when a 101st would be needed.
- A failed request is a `Failed` outcome. In the source, the exception escapes the handler and the web framework sends a server error. That response is not modelled.
- History entries are dictionaries from strings to strings. Non-string values of `role` or `content` are not modelled, nor is pydantic validation of the request.
- FastAPI, CORS, `async`, the health endpoint, backend/google_calendar.py and frontend/app.py are not part of this model.
