/** stream_response: reading a server-sent event stream line by line and handing each
    piece of generated text to the host through two callbacks.

    The HTTP exchange is abstracted into a Response: the lines the server delivered,
    already decoded to text, and how the transport ended. json.loads is a parameter
    `decode`, since its parser is not part of this model. */
module Stream {
  import opened Wrappers
  import opened Text
  import opened JsonValues
  import opened Llm

  /** One callback invocation, as the host observes it. */
  datatype Call = Appended(chunk: Json) | Idled

  /** Complete: the response iterator ran out of lines. Broken: urlopen or reading the
      next line raised (an HTTP error status, a refused connection, a dropped socket);
      reason is str() of that exception. A failure to connect is Broken with no lines. */
  datatype StreamEnd = Complete | Broken(reason: string)

  datatype Response = Response(lines: seq<string>, end: StreamEnd)

  const DataPrefix := "data: "
  const DoneSentinel := "[DONE]"

  /** line.strip() is empty: the line holds ASCII whitespace only. */
  predicate IsBlank(line: string) {
    forall i :: 0 <= i < |line| ==> IsAsciiSpace(line[i])
  }

  /** What one line of the stream leads to. */
  datatype LineStep =
    | Ignored                              // blank, or not a data line
    | Finished                             // the [DONE] sentinel: stop reading
    | Delivered(content: Json, stop: bool) // an event; stop when its finish_reason is truthy
    | Failed(message: ErrorText)           // json.loads or extract_content raised

  /** The body of the loop in stream_response, for one line. */
  function ClassifyLine(line: string, apiType: string, decode: string -> Result<Json, ErrorText>): LineStep {
    if IsBlank(line) || !(DataPrefix <= line) then Ignored
    else
      var payload := Strip(line[|DataPrefix|..]);
      if payload == DoneSentinel then Finished
      else
        match decode(payload)
        case Err(m) => Failed(m)
        case Ok(chunk) =>
          match Extract(chunk, apiType)
          case Err(m) => Failed(m)
          case Ok(x) => Delivered(x.content, Truthy(x.finishReason))
  }

  /** The callbacks one line causes: a truthy content or an error message, each
      followed by one idle call. */
  function StepCalls(step: LineStep): seq<Call> {
    match step
    case Delivered(content, _) => if Truthy(content) then [Appended(content), Idled] else []
    case Failed(m) => [Appended(JStr(m)), Idled]
    case _ => []
  }

  predicate Stops(step: LineStep) {
    step.Finished? || (step.Delivered? && step.stop)
  }

  /** The callbacks made once the lines run out. */
  function EndCalls(end: StreamEnd): seq<Call> {
    match end
    case Complete => []
    case Broken(reason) => [Appended(JStr("ERROR: " + reason)), Idled]
  }

  /** Every call alternates: an append at each even position, an idle at each odd one. */
  ghost predicate Alternates(calls: seq<Call>) {
    |calls| % 2 == 0 && forall k :: 0 <= k < |calls| ==> (calls[k].Idled? <==> k % 2 == 1)
  }

  /** Every chunk handed to append_callback is truthy: empty text is never appended. */
  ghost predicate AppendsTruthy(calls: seq<Call>) {
    forall k :: 0 <= k < |calls| && calls[k].Appended? ==> Truthy(calls[k].chunk)
  }

  lemma {:induction false} ConcatKeepsShape(a: seq<Call>, b: seq<Call>)
    requires Alternates(a) && Alternates(b) && AppendsTruthy(a) && AppendsTruthy(b)
    ensures Alternates(a + b) && AppendsTruthy(a + b)
  {
    var c := a + b;
    forall k | 0 <= k < |c| ensures (c[k].Idled? <==> k % 2 == 1) {
      if k >= |a| {
        assert c[k] == b[k - |a|];
      }
    }
  }

  lemma StepCallsShape(step: LineStep)
    ensures Alternates(StepCalls(step)) && AppendsTruthy(StepCalls(step))
  {
  }

  lemma EndCallsShape(end: StreamEnd)
    ensures Alternates(EndCalls(end)) && AppendsTruthy(EndCalls(end))
  {
  }

  /** The callbacks made for a sequence of classified lines: each line's calls in turn,
      up to and including the first line that stops the stream; the end of the
      transport is reported only when no line stopped it. */
  function Trace(steps: seq<LineStep>, end: StreamEnd): seq<Call>
    decreases |steps|
  {
    if steps == [] then EndCalls(end)
    else StepCalls(steps[0]) + (if Stops(steps[0]) then [] else Trace(steps[1..], end))
  }

  /** The host is called back in pairs, an append then an idle call, and never with an
      empty chunk. */
  lemma {:induction false} TraceShape(steps: seq<LineStep>, end: StreamEnd)
    ensures Alternates(Trace(steps, end)) && AppendsTruthy(Trace(steps, end))
    decreases |steps|
  {
    if steps == [] {
      EndCallsShape(end);
    } else {
      StepCallsShape(steps[0]);
      if Stops(steps[0]) {
        ConcatKeepsShape(StepCalls(steps[0]), []);
      } else {
        TraceShape(steps[1..], end);
        ConcatKeepsShape(StepCalls(steps[0]), Trace(steps[1..], end));
      }
    }
  }

  /** Every line classified on its own. */
  function Classified(lines: seq<string>, apiType: string, decode: string -> Result<Json, ErrorText>): (steps: seq<LineStep>)
    ensures |steps| == |lines|
    decreases |lines|
  {
    if lines == [] then [] else [ClassifyLine(lines[0], apiType, decode)] + Classified(lines[1..], apiType, decode)
  }

  lemma {:induction false} ClassifiedAt(lines: seq<string>, i: nat, apiType: string, decode: string -> Result<Json, ErrorText>)
    requires i < |lines|
    ensures Classified(lines, apiType, decode)[i] == ClassifyLine(lines[i], apiType, decode)
    decreases i
  {
    if i > 0 {
      ClassifiedAt(lines[1..], i - 1, apiType, decode);
    }
  }

  /** The whole sequence of callbacks stream_response makes for a response. */
  function StreamCalls(lines: seq<string>, end: StreamEnd, apiType: string, decode: string -> Result<Json, ErrorText>): seq<Call> {
    Trace(Classified(lines, apiType, decode), end)
  }

  /** One turn of the loop: the calls of one step, then the rest unless it stopped. */
  lemma TraceUnfold(steps: seq<LineStep>, i: nat, end: StreamEnd)
    requires i < |steps|
    ensures Trace(steps[i..], end) == StepCalls(steps[i]) + (if Stops(steps[i]) then [] else Trace(steps[i + 1..], end))
  {
    assert steps[i..][0] == steps[i];
    assert steps[i..][1..] == steps[i + 1..];
  }

  /** The host side of the two callbacks: it records what it is handed, in order. */
  class Host {
    var calls: seq<Call>

    constructor ()
      ensures calls == []
    {
      calls := [];
    }

    /** append_callback */
    method Append(chunk: Json)
      modifies this
      ensures calls == old(calls) + [Appended(chunk)]
    {
      calls := calls + [Appended(chunk)];
    }

    /** on_idle */
    method Idle()
      modifies this
      ensures calls == old(calls) + [Idled]
    {
      calls := calls + [Idled];
    }
  }

  /** The body of the loop in stream_response for line i: the try block and its
      exception handler. Returns whether the loop breaks. */
  method HandleLine(lines: seq<string>, i: nat, apiType: string, decode: string -> Result<Json, ErrorText>, host: Host)
    returns (stop: bool)
    requires i < |lines|
    modifies host
    ensures stop == Stops(Classified(lines, apiType, decode)[i])
    ensures host.calls == old(host.calls) + StepCalls(Classified(lines, apiType, decode)[i])
  {
    var step := ClassifyLine(lines[i], apiType, decode);
    ClassifiedAt(lines, i, apiType, decode);
    stop := false;
    match step {
      case Finished =>
        stop := true;
      case Delivered(content, finishes) =>
        if Truthy(content) {
          host.Append(content);
          host.Idle();
        }
        stop := finishes;
      case Failed(m) =>
        host.Append(JStr(m));
        host.Idle();
      case Ignored =>
    }
  }

  /** The `for line in response` loop of stream_response: hands each line to
      HandleLine until one stops the stream. Returns whether it broke out early;
      what is still owed to the host afterwards is the report of how the transport
      ended, and only when no line stopped the stream. */
  method ReadLines(response: Response, apiType: string, decode: string -> Result<Json, ErrorText>, host: Host) returns (stopped: bool)
    modifies host
    ensures old(host.calls) + StreamCalls(response.lines, response.end, apiType, decode)
         == host.calls + (if stopped then [] else EndCalls(response.end))
    ensures stopped <==> StopIndex(Classified(response.lines, apiType, decode)) < |response.lines|
  {
    var lines := response.lines;
    ghost var steps := Classified(lines, apiType, decode);
    ghost var expected := old(host.calls) + Trace(steps, response.end);
    ghost var first := StopIndex(steps);
    var i := 0;
    stopped := false;
    while i < |lines| && !stopped
      invariant 0 <= i <= |lines|
      invariant expected == host.calls + (if stopped then [] else Trace(steps[i..], response.end))
      invariant if stopped then i == first + 1 else i <= first
      decreases |lines| - i
    {
      ghost var before := host.calls;
      ghost var rest := Trace(steps[i + 1..], response.end);
      TraceUnfold(steps, i, response.end);
      stopped := HandleLine(lines, i, apiType, decode, host);
      assert host.calls == before + StepCalls(steps[i]);
      if stopped {
        assert Trace(steps[i..], response.end) == StepCalls(steps[i]) + [];
        assert expected == host.calls + [];
      } else {
        assert Trace(steps[i..], response.end) == StepCalls(steps[i]) + rest;
        AppendAssoc(before, StepCalls(steps[i]), rest);
      }
      i := i + 1;
    }
    if !stopped {
      assert steps[i..] == [];
    }
  }

  /** stream_response: reads the lines, then reports a transport failure (a refused
      connection, an HTTP error status, a dropped socket) unless a line had already
      stopped the stream. */
  method StreamResponse(response: Response, apiType: string, decode: string -> Result<Json, ErrorText>, host: Host)
    modifies host
    ensures host.calls == old(host.calls) + StreamCalls(response.lines, response.end, apiType, decode)
  {
    var stopped := ReadLines(response, apiType, decode, host);
    if !stopped && response.end.Broken? {
      ghost var before := host.calls;
      host.Append(JStr("ERROR: " + response.end.reason));
      host.Idle();
      assert host.calls == before + EndCalls(response.end);
    }
  }

  // ---------------------------------------------------------------- properties

  /** The emptiness test on the line is subsumed by the prefix test: a line is ignored
      exactly when it does not start with "data: ". */
  lemma IgnoredIffNotData(line: string, apiType: string, decode: string -> Result<Json, ErrorText>)
    ensures ClassifyLine(line, apiType, decode).Ignored? <==> !(DataPrefix <= line)
  {
    if DataPrefix <= line {
      assert !IsAsciiSpace(line[0]);
    }
  }

  /** Index of the first step that stops the stream, or |steps| when none does. */
  function StopIndex(steps: seq<LineStep>): (n: nat)
    ensures n <= |steps|
    ensures forall k :: 0 <= k < n ==> !Stops(steps[k])
    ensures n < |steps| ==> Stops(steps[n])
    decreases |steps|
  {
    if steps == [] then 0
    else if Stops(steps[0]) then 0
    else 1 + StopIndex(steps[1..])
  }

  /** The callbacks of each step in turn, with no stopping. */
  function AllSteps(steps: seq<LineStep>): seq<Call>
    decreases |steps|
  {
    if steps == [] then [] else StepCalls(steps[0]) + AllSteps(steps[1..])
  }

  /** Reference reading of the loop, when a line stops the stream: the calls are
      those of every line up to and including the first stopping one. */
  lemma {:induction false} TraceStopsAt(steps: seq<LineStep>, end: StreamEnd)
    requires StopIndex(steps) < |steps|
    ensures Trace(steps, end) == AllSteps(steps[..StopIndex(steps) + 1])
    decreases |steps|
  {
    var n := StopIndex(steps);
    var rest := steps[1..];
    if Stops(steps[0]) {
      assert steps[..1][1..] == [];
      assert AllSteps(steps[..1]) == StepCalls(steps[0]) + AllSteps([]);
    } else {
      assert n == 1 + StopIndex(rest);
      TraceStopsAt(rest, end);
      assert steps[..n + 1][1..] == rest[..n];
      assert AllSteps(steps[..n + 1]) == StepCalls(steps[0]) + AllSteps(rest[..n]);
    }
  }

  /** Reference reading of the loop, when no line stops the stream: the calls are
      those of every line, then the report of how the transport ended. */
  lemma {:induction false} TraceRunsOut(steps: seq<LineStep>, end: StreamEnd)
    requires StopIndex(steps) == |steps|
    ensures Trace(steps, end) == AllSteps(steps) + EndCalls(end)
    decreases |steps|
  {
    if steps != [] {
      var rest := steps[1..];
      assert !Stops(steps[0]);
      TraceRunsOut(rest, end);
      assert Trace(steps, end) == StepCalls(steps[0]) + (AllSteps(rest) + EndCalls(end));
      AppendAssoc(StepCalls(steps[0]), AllSteps(rest), EndCalls(end));
    }
  }

  /** Nothing after a stopping line is read: neither later lines nor how the transport
      ended make any difference. */
  lemma {:induction false} StopIgnoresRest(pre: seq<LineStep>, step: LineStep, post: seq<LineStep>, end1: StreamEnd, end2: StreamEnd)
    requires Stops(step)
    ensures Trace(pre + [step] + post, end1) == Trace(pre + [step], end2)
    decreases |pre|
  {
    if pre == [] {
      assert ([step] + post)[0] == step;
      assert [] + [step] + post == [step] + post;
    } else {
      assert (pre + [step] + post)[1..] == pre[1..] + [step] + post;
      assert (pre + [step])[1..] == pre[1..] + [step];
      StopIgnoresRest(pre[1..], step, post, end1, end2);
    }
  }

  /** A transport failure adds exactly one "ERROR: ..." append and one idle call at the
      end, unless a line had already stopped the stream. */
  lemma BrokenStreamReportsOnce(steps: seq<LineStep>, reason: string)
    ensures Trace(steps, Broken(reason))
         == Trace(steps, Complete) + (if StopIndex(steps) < |steps| then [] else [Appended(JStr("ERROR: " + reason)), Idled])
  {
    if StopIndex(steps) < |steps| {
      TraceStopsAt(steps, Broken(reason));
      TraceStopsAt(steps, Complete);
    } else {
      TraceRunsOut(steps, Broken(reason));
      TraceRunsOut(steps, Complete);
      assert AllSteps(steps) + [] == AllSteps(steps);
    }
  }

  /** A line that fails to parse or extract is reported and the stream carries on
      with the next line. */
  lemma FailedLineContinues(message: ErrorText, rest: seq<LineStep>, end: StreamEnd)
    ensures Trace([Failed(message)] + rest, end) == [Appended(JStr(message)), Idled] + Trace(rest, end)
  {
    assert ([Failed(message)] + rest)[1..] == rest;
  }

  /** The text a host accumulates by joining every appended string, as "".join does. */
  function JoinedText(calls: seq<Call>): string {
    if calls == [] then ""
    else (match calls[0] case Appended(JStr(s)) => s case _ => "") + JoinedText(calls[1..])
  }

  /** The event line "data: " + payload, for a payload that needs no stripping. */
  lemma DataLine(payload: string, eol: string, apiType: string, decode: string -> Result<Json, ErrorText>)
    requires Trimmed(payload) && AllSpace(eol)
    ensures DataPrefix + payload + eol != [] && !IsBlank(DataPrefix + payload + eol)
    ensures DataPrefix <= DataPrefix + payload + eol
    ensures (DataPrefix + payload + eol)[|DataPrefix|..] == payload + eol
    ensures Strip(payload + eol) == payload
  {
    var line := DataPrefix + (payload + eol);
    assert DataPrefix + payload + eol == line;
    assert line[0] == DataPrefix[0];
    assert line[..|DataPrefix|] == DataPrefix;
    assert line[|DataPrefix|..] == payload + eol;
    StrippedPayload(payload, eol);
  }

  /** Stripping a trimmed payload drops its line ending. */
  lemma StrippedPayload(payload: string, eol: string)
    requires Trimmed(payload) && AllSpace(eol)
    ensures Strip(payload + eol) == payload
  {
    StripExact([], payload, eol);
    assert [] + payload + eol == payload + eol;
  }

  /** The sentinel line stops the stream, whatever line ending it carries. */
  lemma DoneLine(eol: string, apiType: string, decode: string -> Result<Json, ErrorText>)
    requires AllSpace(eol)
    ensures ClassifyLine(DataPrefix + DoneSentinel + eol, apiType, decode) == Finished
  {
    DataLine(DoneSentinel, eol, apiType, decode);
  }

  /** A completions event line delivers its text, and stops exactly when its
      finish_reason is truthy. */
  lemma CompletionLine(payload: string, eol: string, text: Json, finish: Json, apiType: string, decode: string -> Result<Json, ErrorText>)
    requires Trimmed(payload) && AllSpace(eol) && payload != DoneSentinel && apiType != "chat"
    requires decode(payload) == Ok(CompletionEvent(text, finish))
    ensures ClassifyLine(DataPrefix + payload + eol, apiType, decode) == Delivered(text, Truthy(finish))
  {
    DataLine(payload, eol, apiType, decode);
    ExtractCompletionEvent(text, finish, apiType);
  }

  const StoryCalls := [Appended(JStr("Once ")), Idled] + ([Appended(JStr("upon ")), Idled] + [Appended(JStr("a time")), Idled])

  /** The story's classifications: each event line is followed by an empty line. */
  const StorySteps := [Delivered(JStr("Once "), false), Ignored] + ([Delivered(JStr("upon "), false), Ignored]
                    + ([Delivered(JStr("a time"), true), Ignored] + [Finished, Ignored]))

  /** An event that does not stop, and the empty line after it: its calls, then the
      rest of the trace. */
  lemma TracePair(step: LineStep, rest: seq<LineStep>, end: StreamEnd)
    requires !Stops(step)
    ensures Trace([step, Ignored] + rest, end) == StepCalls(step) + Trace(rest, end)
  {
    var steps := [step, Ignored] + rest;
    var tail := [Ignored] + rest;
    assert steps[0] == step && steps[1..] == tail;
    assert tail[0] == Ignored && tail[1..] == rest;
    assert Trace(tail, end) == Trace(rest, end) by {
      assert StepCalls(Ignored) == [];
    }
  }

  /** The trace of the three story events and the sentinel: the empty lines add nothing,
      and the third event's finish_reason stops the stream before the sentinel. */
  lemma StoryTrace(end: StreamEnd)
    ensures Trace(StorySteps, end) == StoryCalls
  {
    var last := [Delivered(JStr("a time"), true), Ignored] + [Finished, Ignored];
    var second := [Delivered(JStr("upon "), false), Ignored] + last;
    TraceStops(Delivered(JStr("a time"), true), [Finished, Ignored], end);
    TracePair(Delivered(JStr("upon "), false), last, end);
    TracePair(Delivered(JStr("Once "), false), second, end);
    DeliveredCalls("a time", true);
    DeliveredCalls("upon ", false);
    DeliveredCalls("Once ", false);
  }

  /** A stopping step contributes its own calls and ends the trace. */
  lemma TraceStops(step: LineStep, rest: seq<LineStep>, end: StreamEnd)
    requires Stops(step)
    ensures Trace([step, Ignored] + rest, end) == StepCalls(step)
  {
    assert ([step, Ignored] + rest)[0] == step;
  }

  /** A delivered non-empty string is appended, then an idle call follows. */
  lemma DeliveredCalls(s: string, stop: bool)
    requires s != ""
    ensures StepCalls(Delivered(JStr(s), stop)) == [Appended(JStr(s)), Idled]
  {
  }

  /** An appended string and its idle call contribute that string to the joined text. */
  lemma JoinedPair(s: string, rest: seq<Call>)
    ensures JoinedText([Appended(JStr(s)), Idled] + rest) == s + JoinedText(rest)
  {
    var c := [Appended(JStr(s)), Idled] + rest;
    assert c[1..][1..] == rest;
    assert JoinedText(c[1..]) == "" + JoinedText(rest);
  }

  /** The story's pieces join to the whole sentence. */
  lemma StoryText()
    ensures JoinedText(StoryCalls) == "Once " + "upon " + "a time"
  {
    var none: seq<Call> := [];
    var third := [Appended(JStr("a time")), Idled] + none;
    var second := [Appended(JStr("upon ")), Idled] + third;
    assert third == [Appended(JStr("a time")), Idled];
    JoinedPair("a time", none);
    JoinedPair("upon ", third);
    JoinedPair("Once ", second);
    assert JoinedText(third) == "a time" + "";
    AppendAssoc("Once ", "upon ", "a time");
  }

  /** How the sample server writes one event: a "data: " line ending in a newline,
      then an empty line. */
  function EventLines(payload: string): seq<string> {
    [DataPrefix + payload + "\n", "\n"]
  }

  /** The lines the sample server writes: three events, then the sentinel. */
  function StoryWire(p1: string, p2: string, p3: string): seq<string> {
    EventLines(p1) + (EventLines(p2) + (EventLines(p3) + EventLines(DoneSentinel)))
  }

  /** An event written by the sample server classifies as its data line does, and the
      empty line after it is ignored. */
  lemma {:induction false} ClassifiedEvent(payload: string, rest: seq<string>, step: LineStep, apiType: string, decode: string -> Result<Json, ErrorText>)
    requires ClassifyLine(DataPrefix + payload + "\n", apiType, decode) == step
    ensures Classified(EventLines(payload) + rest, apiType, decode) == [step, Ignored] + Classified(rest, apiType, decode)
  {
    var line := DataPrefix + payload + "\n";
    assert EventLines(payload) + rest == [line] + (["\n"] + rest);
    ClassifiedCons(line, ["\n"] + rest, apiType, decode);
    ClassifiedCons("\n", rest, apiType, decode);
    BlankLine(apiType, decode);
  }

  lemma ClassifiedCons(line: string, rest: seq<string>, apiType: string, decode: string -> Result<Json, ErrorText>)
    ensures Classified([line] + rest, apiType, decode) == [ClassifyLine(line, apiType, decode)] + Classified(rest, apiType, decode)
  {
    assert ([line] + rest)[1..] == rest;
  }

  /** The empty line between events is ignored. */
  lemma BlankLine(apiType: string, decode: string -> Result<Json, ErrorText>)
    ensures ClassifyLine("\n", apiType, decode) == Ignored
  {
    assert IsBlank("\n");
  }

  /** A completions event written by the sample server: its delivery, then the ignored
      empty line. */
  lemma ClassifiedCompletion(payload: string, rest: seq<string>, text: Json, finish: Json, decode: string -> Result<Json, ErrorText>)
    requires Trimmed(payload) && payload != DoneSentinel
    requires decode(payload) == Ok(CompletionEvent(text, finish))
    ensures Classified(EventLines(payload) + rest, "completions", decode)
         == [Delivered(text, Truthy(finish)), Ignored] + Classified(rest, "completions", decode)
  {
    var eol := "\n";
    assert AllSpace(eol) by { assert IsSpace(eol[0]); }
    CompletionLine(payload, eol, text, finish, "completions", decode);
    ClassifiedEvent(payload, rest, Delivered(text, Truthy(finish)), "completions", decode);
  }

  /** The sentinel written by the sample server: it finishes, then the ignored empty line. */
  lemma ClassifiedDone(decode: string -> Result<Json, ErrorText>)
    ensures Classified(EventLines(DoneSentinel), "completions", decode) == [Finished, Ignored]
  {
    var eol := "\n";
    var none: seq<string> := [];
    assert AllSpace(eol) by { assert IsSpace(eol[0]); }
    DoneLine(eol, "completions", decode);
    ClassifiedEvent(DoneSentinel, none, Finished, "completions", decode);
    assert EventLines(DoneSentinel) + none == EventLines(DoneSentinel);
  }

  /** The story's lines, classified. */
  lemma StoryLines(p1: string, p2: string, p3: string, decode: string -> Result<Json, ErrorText>, end: StreamEnd)
    requires Trimmed(p1) && Trimmed(p2) && Trimmed(p3)
    requires p1 != DoneSentinel && p2 != DoneSentinel && p3 != DoneSentinel
    requires decode(p1) == Ok(CompletionEvent(JStr("Once "), JNull))
    requires decode(p2) == Ok(CompletionEvent(JStr("upon "), JNull))
    requires decode(p3) == Ok(CompletionEvent(JStr("a time"), JStr("stop")))
    ensures StreamCalls(StoryWire(p1, p2, p3), end, "completions", decode) == Trace(StorySteps, end)
  {
    var last := EventLines(DoneSentinel);
    var third := EventLines(p3) + last;
    var second := EventLines(p2) + third;
    ClassifiedDone(decode);
    ClassifiedCompletion(p3, last, JStr("a time"), JStr("stop"), decode);
    ClassifiedCompletion(p2, third, JStr("upon "), JNull, decode);
    ClassifiedCompletion(p1, second, JStr("Once "), JNull, decode);
    assert Truthy(JStr("stop")) && !Truthy(JNull);
  }

  /** Three completions events followed by [DONE], as the sample server writes them:
      the host is handed "Once ", "upon " and "a time", with an idle call after each,
      and the final finish_reason ends the stream before the sentinel is read. */
  lemma OnceUponATime(p1: string, p2: string, p3: string, decode: string -> Result<Json, ErrorText>, end: StreamEnd)
    requires Trimmed(p1) && Trimmed(p2) && Trimmed(p3)
    requires p1 != DoneSentinel && p2 != DoneSentinel && p3 != DoneSentinel
    requires decode(p1) == Ok(CompletionEvent(JStr("Once "), JNull))
    requires decode(p2) == Ok(CompletionEvent(JStr("upon "), JNull))
    requires decode(p3) == Ok(CompletionEvent(JStr("a time"), JStr("stop")))
    ensures var calls := StreamCalls(StoryWire(p1, p2, p3), end, "completions", decode);
      calls == StoryCalls && JoinedText(calls) == "Once " + "upon " + "a time"
  {
    StoryLines(p1, p2, p3, decode, end);
    StoryTrace(end);
    StoryText();
  }

  /** A refused connection or an HTTP error status reaches the host as a single
      "ERROR: ..." append followed by an idle call. */
  lemma ConnectionFailure(reason: string, apiType: string, decode: string -> Result<Json, ErrorText>)
    ensures StreamCalls([], Broken(reason), apiType, decode) == [Appended(JStr("ERROR: " + reason)), Idled]
  {
  }

  /** A data line whose payload is not JSON still reaches the host, as the parser's
      error message, and the lines after it are still read. */
  lemma BadJsonIsReported(payload: string, rest: seq<string>, end: StreamEnd, apiType: string, decode: string -> Result<Json, ErrorText>)
    requires Trimmed(payload) && payload != DoneSentinel && decode(payload).Err?
    ensures StreamCalls([DataPrefix + payload] + rest, end, apiType, decode)
         == [Appended(JStr(decode(payload).error)), Idled] + StreamCalls(rest, end, apiType, decode)
  {
    DataLine(payload, [], apiType, decode);
    assert DataPrefix + payload + [] == DataPrefix + payload;
    var steps := Classified([DataPrefix + payload] + rest, apiType, decode);
    assert steps[0] == Failed(decode(payload).error);
    assert steps == [Failed(decode(payload).error)] + Classified(rest, apiType, decode);
    FailedLineContinues(decode(payload).error, Classified(rest, apiType, decode), end);
  }
}
