/**
 * The session driver of main.go: after the flags, look the image up, pull it
 * only when there is no local match, create and start a container, then poll
 * until the engine reports it running. The engine is a script of replies,
 * one per request main sends; the driver records every call it issues and
 * every piece of text it writes.
 */
module Session {
  import opened Replies
  import opened Client

  const ImageName := "ubuntu"
  const ImageTag := "latest"
  /** The reference main looks up, pulls and creates the container from. */
  const ImageToPull := ImageName + ":" + ImageTag
  /** The reference is the name and the tag joined by a colon. */
  lemma ImageReference()
    ensures ImageToPull == "ubuntu:latest"
  {
  }

  /** The algorithm prefix of an image identifier. */
  const IdPrefix := "sha256:"

  /** The command line after parsing; `argCount` counts the arguments after the program name. */
  datatype Flags = Flags(unixAddr: string, tcpAddr: string, help: bool, debug: bool, argCount: nat)

  /** The requests main can send to the engine through the client. */
  datatype Call =
    | FindImageCall(image: string)
    | PullImageCall(image: string)
    | CreateContainerCall(image: string)
    | StartContainerCall(id: string)
    | InspectCall(id: string)  // CheckIfContainerIsRunning
    | StopContainerCall(id: string)
    | RemoveContainerCall(id: string)

  /** The engine's replies, in the order main asks; `polls` answers the state queries one by one. */
  datatype Script = Script(find: Reply, pull: Reply, create: Reply, start: Reply, polls: seq<Reply>)

  /**
   * How a session ends. `StillWaiting` means the script ran out while the
   * container was not yet running: main itself would go on polling.
   */
  datatype Exit = ShowedUsage | Aborted(err: Error) | ContainerRunning | StillWaiting

  datatype Outcome = Outcome(calls: seq<Call>, out: seq<string>, exit: Exit)

  predicate ShowsUsage(f: Flags)
  {
    f.help || f.argCount == 0
  }

  // ---------------------------------------------------------------------------
  // Start-up: the client main works with

  /** What main goes on with after the flags, as written: NewAPIClient's error is discarded. */
  datatype LaunchAsWritten = UsageShown | Proceeds(client: Option<APIClient>)

  /** What main goes on with after the flags, corrected: a missing address ends the session. */
  datatype Launch = Usage | Refused(err: Error) | Launched(client: APIClient)

  /** main.go as written: without an address the client is nil and the next call dereferences it. */
  function StartAsWritten(f: Flags): (l: LaunchAsWritten)
    ensures ShowsUsage(f) <==> l.UsageShown?
    ensures l.Proceeds? ==> (l.client.None? <==> f.unixAddr == "" && f.tcpAddr == "")
  {
    if ShowsUsage(f) then UsageShown
    else
      match NewAPIClient(f.unixAddr, f.tcpAddr)
      case Connected(c) => Proceeds(Some(c))
      case NotConnected(_) => Proceeds(None)
  }

  /** The `-d` flag alone gets past the usage check with a nil client, which FindImage then dereferences. */
  lemma DebugFlagAloneGivesNilClient()
    ensures StartAsWritten(Flags("", "", false, true, 1)) == Proceeds(None)
  {
  }

  /** The corrected start-up: usage, or the configuration error, or a client that has an address. */
  function Start(f: Flags): (l: Launch)
    ensures ShowsUsage(f) <==> l.Usage?
    ensures l.Refused? <==> !ShowsUsage(f) && f.unixAddr == "" && f.tcpAddr == ""
    ensures l.Refused? ==> l.err == ConfigError(NoAddressMessage)
    ensures l.Launched? ==> HttpServerUrl(l.client) != ""
  {
    if ShowsUsage(f) then Usage
    else
      match NewAPIClient(f.unixAddr, f.tcpAddr)
      case Connected(c) => Launched(c)
      case NotConnected(e) => Refused(e)
  }

  // ---------------------------------------------------------------------------
  // Specification

  function Repeat<T>(x: T, n: nat): (r: seq<T>)
    ensures |r| == n
    ensures forall j :: 0 <= j < n ==> r[j] == x
  {
    if n == 0 then [] else Repeat(x, n - 1) + [x]
  }

  /** The digest main prints: the first match's identifier without `sha256:`, or the pulled digest. */
  function ImageDigest(images: seq<DockerImage>, pulled: string): string
  {
    if |images| == 0 then pulled else TrimPrefix(images[0].identifier, IdPrefix)
  }

  /** A state query main does not stop at: no error, not running. */
  predicate Waiting(reply: Reply)
  {
    CheckIfContainerIsRunning(reply) == Answer(false, None)
  }

  /** The index of the first query main stops at (running, or an error), or the script's length. */
  function FirstDecisive(polls: seq<Reply>): (k: nat)
    ensures k <= |polls|
    ensures forall j :: 0 <= j < k ==> Waiting(polls[j])
    ensures k < |polls| ==> !Waiting(polls[k])
  {
    if polls == [] || !Waiting(polls[0]) then 0 else 1 + FirstDecisive(polls[1..])
  }

  datatype Waited = Waited(queries: nat, exit: Exit)

  /** The poll loop: how many queries it issues and how it ends. */
  function AwaitRunning(polls: seq<Reply>): Waited
  {
    var k := FirstDecisive(polls);
    if k == |polls| then Waited(k, StillWaiting)
    else
      var a := CheckIfContainerIsRunning(polls[k]);
      Waited(k + 1, if a.value then ContainerRunning else Aborted(a.err.value))
  }

  datatype Next = Halt(exit: Exit) | Poll(id: string)

  /** The session before the poll loop: the calls issued, the text written, and how it goes on. */
  datatype Prelude = Prelude(calls: seq<Call>, out: seq<string>, next: Next)

  function Failed(calls: seq<Call>, out: seq<string>, e: Error): Prelude
  {
    Prelude(calls, out + [Line(ErrorText(e))], Halt(Aborted(e)))
  }

  /** What the client makes of the replies main reads before its poll loop. */
  datatype Answers = Answers(
    found: Answer<seq<DockerImage>>,
    pulled: Answer<string>,
    pullPrinted: seq<string>,
    created: Answer<string>,
    createPrinted: seq<string>,
    started: Option<Error>)

  function Decode(s: Script): Answers
  {
    Answers(FindImage(s.find), PullAnswer(s.pull), PullPrinted(s.pull),
            CreatedAnswer(s.create), CreatedPrinted(s.create), StartContainer(s.start))
  }

  function PreludeSpec(f: Flags, s: Script): Prelude
  {
    match Start(f)
    case Usage => Prelude([], [Line("Usage:")], Halt(ShowedUsage))
    case Refused(e) => Failed([], [], e)
    case Launched(_) => ResolveSpec(Decode(s))
  }

  /** The calls of the lookup phase: the lookup, and the pull when there was one. */
  function Looked(pulled: bool): seq<Call>
  {
    if pulled then [FindImageCall(ImageToPull), PullImageCall(ImageToPull)] else [FindImageCall(ImageToPull)]
  }

  /** Look the image up; pull it only when there is no match; print the digest. */
  function ResolveSpec(a: Answers): Prelude
  {
    if a.found.err.Some? then Failed(Looked(false), [], a.found.err.value)
    else if |a.found.value| == 0 then
      if a.pulled.err.Some? then Failed(Looked(true), a.pullPrinted, a.pulled.err.value)
      else LaunchSpec(a, Looked(true), a.pullPrinted + [Line("Image: " + ImageDigest(a.found.value, a.pulled.value))])
    else LaunchSpec(a, Looked(false), [Line("Image: " + ImageDigest(a.found.value, ""))])
  }

  /** Create the container from the image reference, then start it. */
  function LaunchSpec(a: Answers, calls: seq<Call>, out: seq<string>): Prelude
  {
    var calls := calls + [CreateContainerCall(ImageToPull)];
    var out := out + a.createPrinted;
    if a.created.err.Some? then Failed(calls, out, a.created.err.value)
    else
      var id := a.created.value;
      var calls := calls + [StartContainerCall(id)];
      var out := out + [Line("Created container " + id)];
      match a.started
      case Some(e) => Failed(calls, out, e)
      case None => Prelude(calls, out + [Line("Started container"), "Waiting"], Poll(id))
  }

  /** The whole session main runs against a script of engine replies. */
  function SessionSpec(f: Flags, s: Script): Outcome
  {
    Continue(PreludeSpec(f, s), s.polls)
  }

  /** The session after its prelude: when the container started, the poll loop's queries, dots and ending. */
  function Continue(p: Prelude, polls: seq<Reply>): Outcome
  {
    match p.next
    case Halt(exit) => Outcome(p.calls, p.out, exit)
    case Poll(id) =>
      var w := AwaitRunning(polls);
      Outcome(p.calls + Repeat(InspectCall(id), w.queries), p.out + Repeat(".", w.queries) + Ending(w.exit), w.exit)
  }

  /** What main writes after the dots: the error, or the newline once the container runs. */
  function Ending(exit: Exit): seq<string>
  {
    match exit
    case Aborted(e) => [Line(ErrorText(e))]
    case ContainerRunning => ["\n"]
    case _ => []
  }

  // ---------------------------------------------------------------------------
  // The driver

  /**
   * main: usage, client, lookup and pull or trim, create, start, then one
   * dot and one state query per round until the container runs. Exiting the
   * process is returning an outcome; the one-second sleep is a no-op.
   */
  method RunSession(f: Flags, s: Script) returns (o: Outcome)
    ensures o == SessionSpec(f, s)
  {
    var p := Prepare(f, s);
    if p.next.Halt? {
      return Outcome(p.calls, p.out, p.next.exit);
    }
    var queries, dots, exit := PollUntilRunning(p.next.id, s.polls);
    o := Outcome(p.calls + queries, p.out + dots, exit);
  }

  /** main up to the poll loop; every error prints the error and exits. */
  method Prepare(f: Flags, s: Script) returns (p: Prelude)
    ensures p == PreludeSpec(f, s)
  {
    if ShowsUsage(f) {
      return Prelude([], [Line("Usage:")], Halt(ShowedUsage));
    }
    var connection := NewAPIClient(f.unixAddr, f.tcpAddr);
    if connection.NotConnected? {
      return Failed([], [], connection.err);
    }
    p := Resolve(s);
  }

  /** The lookup, and the pull when nothing matches. */
  method Resolve(s: Script) returns (p: Prelude)
    ensures p == ResolveSpec(Decode(s))
  {
    var images := FindImage(s.find);
    if images.err.Some? {
      return Failed(Looked(false), [], images.err.value);
    }

    if |images.value| == 0 {
      var pulled, printed := PullImage(s.pull);
      if pulled.err.Some? {
        return Failed(Looked(true), printed, pulled.err.value);
      }
      var imageDigest := pulled.value;
      assert imageDigest == ImageDigest(images.value, pulled.value);
      p := CreateAndStart(s, Looked(true), printed + [Line("Image: " + imageDigest)]);
    } else {
      var imageDigest := TrimPrefix(images.value[0].identifier, IdPrefix);
      assert imageDigest == ImageDigest(images.value, "");
      p := CreateAndStart(s, Looked(false), [Line("Image: " + imageDigest)]);
    }
  }

  /** The create and start steps of main. */
  method CreateAndStart(s: Script, calls: seq<Call>, out: seq<string>) returns (p: Prelude)
    ensures p == LaunchSpec(Decode(s), calls, out)
  {
    var calls := calls + [CreateContainerCall(ImageToPull)];
    var created, warnings := CreateContainer(s.create);
    var out := out + warnings;
    if created.err.Some? {
      return Failed(calls, out, created.err.value);
    }
    var containerID := created.value;
    out := out + [Line("Created container " + containerID)];

    calls := calls + [StartContainerCall(containerID)];
    var startErr := StartContainer(s.start);
    if startErr.Some? {
      return Failed(calls, out, startErr.value);
    }
    p := Prelude(calls, out + [Line("Started container"), "Waiting"], Poll(containerID));
  }

  /**
   * The unbounded poll loop of main, over the scripted answers: each round
   * writes one dot and sends one state query; a running answer ends the loop,
   * an error aborts, anything else polls again.
   */
  method PollUntilRunning(id: string, polls: seq<Reply>) returns (calls: seq<Call>, out: seq<string>, exit: Exit)
    ensures calls == Repeat(InspectCall(id), AwaitRunning(polls).queries)
    ensures exit == AwaitRunning(polls).exit
    ensures out == Repeat(".", AwaitRunning(polls).queries) + Ending(exit)
  {
    calls, out := [], [];
    var i := 0;
    while true
      invariant i <= |polls|
      invariant forall j :: 0 <= j < i ==> Waiting(polls[j])
      invariant calls == Repeat(InspectCall(id), i)
      invariant out == Repeat(".", i)
      decreases |polls| - i
    {
      if i == |polls| {
        return calls, out, StillWaiting;
      }
      out := out + ["."];
      calls := calls + [InspectCall(id)];
      var isRunning := CheckIfContainerIsRunning(polls[i]);
      i := i + 1;
      if isRunning.value {
        out := out + ["\n"];
        break;
      }
      if isRunning.err.Some? {
        return calls, out + [Line(ErrorText(isRunning.err.value))], Aborted(isRunning.err.value);
      }
    }
    exit := ContainerRunning;
  }

  // ---------------------------------------------------------------------------
  // Counting and ordering the trace

  function Count<T>(xs: seq<T>, p: T -> bool): (n: nat)
    ensures n <= |xs|
  {
    if xs == [] then 0 else Count(xs[..|xs| - 1], p) + (if p(xs[|xs| - 1]) then 1 else 0)
  }

  lemma {:induction false} CountAppend<T>(a: seq<T>, b: seq<T>, p: T -> bool)
    ensures Count(a + b, p) == Count(a, p) + Count(b, p)
  {
    if b != [] {
      assert (a + b)[..|a + b| - 1] == a + b[..|b| - 1];
      assert (a + b)[|a + b| - 1] == b[|b| - 1];
      CountAppend(a, b[..|b| - 1], p);
    } else {
      assert a + b == a;
    }
  }

  lemma {:induction false} CountNone<T>(xs: seq<T>, p: T -> bool)
    requires forall j :: 0 <= j < |xs| ==> !p(xs[j])
    ensures Count(xs, p) == 0
  {
    if xs != [] {
      CountNone(xs[..|xs| - 1], p);
    }
  }

  lemma {:induction false} CountRepeat<T>(x: T, n: nat, p: T -> bool)
    requires p(x)
    ensures Count(Repeat(x, n), p) == n
  {
    if n > 0 {
      assert Repeat(x, n)[..n - 1] == Repeat(x, n - 1);
      CountRepeat(x, n - 1, p);
    }
  }

  predicate IsQuery(c: Call) { c.InspectCall? }

  predicate IsDot(text: string) { text == "." }

  lemma LineIsNoDot(text: string)
    ensures !IsDot(Line(text))
  {
    assert Line(text)[|text|] == '\n';
  }

  /** The phase a call belongs to; main's phases come in this order. */
  function Rank(c: Call): nat
  {
    match c
    case FindImageCall(_) => 0
    case PullImageCall(_) => 1
    case CreateContainerCall(_) => 2
    case StartContainerCall(_) => 3
    case InspectCall(_) => 4
    case _ => 5
  }

  /** Each call is in a later phase than the one before it; only state queries repeat. */
  ghost predicate InPhaseOrder(calls: seq<Call>)
  {
    forall i, j :: 0 <= i < j < |calls| ==>
      Rank(calls[i]) < Rank(calls[j]) || (IsQuery(calls[i]) && IsQuery(calls[j]))
  }

  /** The error the client reported for a call made before the poll loop. */
  function StepError(a: Answers, c: Call): Option<Error>
  {
    match c
    case FindImageCall(_) => a.found.err
    case PullImageCall(_) => a.pulled.err
    case CreateContainerCall(_) => a.created.err
    case StartContainerCall(_) => a.started
    case _ => None
  }

  /**
   * The error the engine's reply gave to call `i` of a trace. A state query
   * is matched with its scripted reply by counting the queries up to it.
   */
  function CallError(s: Script, calls: seq<Call>, i: nat): Option<Error>
    requires i < |calls|
  {
    if IsQuery(calls[i]) then
      var n := Count(calls[..i + 1], IsQuery);
      if 0 < n <= |s.polls| then CheckIfContainerIsRunning(s.polls[n - 1]).err else None
    else StepError(Decode(s), calls[i])
  }

  // ---------------------------------------------------------------------------
  // The poll loop

  /** The loop ends right after the first answer `running`, having sent one query per answer up to it. */
  lemma StopsAtFirstRunning(polls: seq<Reply>, i: nat)
    requires i < |polls| && CheckIfContainerIsRunning(polls[i]).value
    requires forall j :: 0 <= j < i ==> Waiting(polls[j])
    ensures AwaitRunning(polls) == Waited(i + 1, ContainerRunning)
  {
    assert FirstDecisive(polls) == i;
  }

  /** Every way the loop ends, stated by the answers it read. */
  lemma AwaitRunningEnds(polls: seq<Reply>)
    ensures var w := AwaitRunning(polls);
      && w.queries <= |polls|
      && (forall j :: 0 <= j < w.queries - 1 ==> Waiting(polls[j]))
      && (w.exit == ContainerRunning <==>
            0 < w.queries && CheckIfContainerIsRunning(polls[w.queries - 1]) == Answer(true, None))
      && (w.exit.Aborted? ==>
            0 < w.queries && CheckIfContainerIsRunning(polls[w.queries - 1]) == Answer(false, Some(w.exit.err)))
      && (w.exit == StillWaiting ==> w.queries == |polls| && forall j :: 0 <= j < |polls| ==> Waiting(polls[j]))
      && (w.exit == ContainerRunning || w.exit.Aborted? || w.exit == StillWaiting)
  {
    var k := FirstDecisive(polls);
    if k < |polls| {
      var a := CheckIfContainerIsRunning(polls[k]);
      assert a.value || a.err.Some?;
    }
  }

  // ---------------------------------------------------------------------------
  // Properties of a session

  ghost predicate NoDots(out: seq<string>)
  {
    forall j :: 0 <= j < |out| ==> !IsDot(out[j])
  }

  lemma NoDotsAppend(a: seq<string>, b: seq<string>)
    requires NoDots(a) && NoDots(b)
    ensures NoDots(a + b)
  {
    assert forall j :: |a| <= j < |a + b| ==> (a + b)[j] == b[j - |a|];
  }

  lemma NoDotsLine(text: string)
    ensures NoDots([Line(text)])
  {
    LineIsNoDot(text);
  }

  /** Progress lines and warnings are written as whole lines, never as a bare dot. */
  lemma PrintedLinesHaveNoDot(s: Script)
    ensures NoDots(PullPrinted(s.pull))
    ensures NoDots(CreatedPrinted(s.create))
  {
    forall j | 0 <= j < |PullPrinted(s.pull)|
      ensures !IsDot(PullPrinted(s.pull)[j])
    {
      var ms := s.pull.body.stream[..Consumed(s.pull.body.stream)];
      LineIsNoDot(ms[j].status);
    }
    forall j | 0 <= j < |CreatedPrinted(s.create)|
      ensures !IsDot(CreatedPrinted(s.create)[j])
    {
      LineIsNoDot(WarningPrefix + s.create.body.created.value.warnings[j]);
    }
  }

  /** The prelude's calls: lookup first, then strictly later phases, none of them a state query. */
  ghost predicate OrderedPrelude(p: Prelude)
  {
    && (forall j :: 0 <= j < |p.calls| ==> Rank(p.calls[j]) < 4)
    && (forall i :: 0 < i < |p.calls| ==> Rank(p.calls[i - 1]) < Rank(p.calls[i]))
    && (p.calls != [] ==> p.calls[0] == FindImageCall(ImageToPull))
    && (p.next.Poll? ==> p.calls != [])
  }

  /** The prelude's calls all succeeded but an aborting last one; the loop starts after a successful start. */
  ghost predicate AnsweredPrelude(a: Answers, p: Prelude)
  {
    && (forall i :: 0 <= i < |p.calls| - 1 ==> StepError(a, p.calls[i]).None?)
    && (p.next.Poll? ==> |p.calls| > 0 && p.calls[|p.calls| - 1] == StartContainerCall(p.next.id)
                         && StepError(a, p.calls[|p.calls| - 1]).None?)
    && (p.next.Halt? && p.next.exit.Aborted? && p.calls != [] ==>
          StepError(a, p.calls[|p.calls| - 1]) == Some(p.next.exit.err))
  }

  lemma LaunchOrdered(a: Answers, pulled: bool, out: seq<string>)
    ensures OrderedPrelude(LaunchSpec(a, Looked(pulled), out))
  {
    var calls := Looked(pulled);
    var p := LaunchSpec(a, calls, out);
    var n := |calls|;
    assert p.calls[n] == CreateContainerCall(ImageToPull);
    assert |p.calls| == n + 1 || (|p.calls| == n + 2 && p.calls[n + 1].StartContainerCall?);
    assert p.calls[..n] == calls;
  }

  lemma ResolveOrdered(a: Answers)
    ensures OrderedPrelude(ResolveSpec(a))
  {
    if a.found.err.None? {
      if |a.found.value| == 0 {
        if a.pulled.err.None? {
          LaunchOrdered(a, true,
                        a.pullPrinted + [Line("Image: " + ImageDigest(a.found.value, a.pulled.value))]);
        }
      } else {
        LaunchOrdered(a, false, [Line("Image: " + ImageDigest(a.found.value, ""))]);
      }
    }
  }

  lemma PreludeOrdered(f: Flags, s: Script)
    ensures OrderedPrelude(PreludeSpec(f, s))
  {
    if Start(f).Launched? {
      ResolveOrdered(Decode(s));
    }
  }

  lemma LaunchQuiet(a: Answers, calls: seq<Call>, out: seq<string>)
    requires NoDots(out) && NoDots(a.createPrinted)
    ensures NoDots(LaunchSpec(a, calls, out).out)
  {
    var out1 := out + a.createPrinted;
    NoDotsAppend(out, a.createPrinted);
    if a.created.err.Some? {
      NoDotsLine(ErrorText(a.created.err.value));
      NoDotsAppend(out1, [Line(ErrorText(a.created.err.value))]);
    } else {
      var out2 := out1 + [Line("Created container " + a.created.value)];
      NoDotsLine("Created container " + a.created.value);
      NoDotsAppend(out1, [Line("Created container " + a.created.value)]);
      match a.started
      case Some(e) =>
        NoDotsLine(ErrorText(e));
        NoDotsAppend(out2, [Line(ErrorText(e))]);
      case None =>
        LineIsNoDot("Started container");
        NoDotsAppend(out2, [Line("Started container"), "Waiting"]);
    }
  }

  lemma ResolveQuiet(a: Answers)
    requires NoDots(a.pullPrinted) && NoDots(a.createPrinted)
    ensures NoDots(ResolveSpec(a).out)
  {
    if a.found.err.Some? {
      NoDotsLine(ErrorText(a.found.err.value));
    } else if |a.found.value| == 0 {
      if a.pulled.err.Some? {
        NoDotsLine(ErrorText(a.pulled.err.value));
        NoDotsAppend(a.pullPrinted, [Line(ErrorText(a.pulled.err.value))]);
      } else {
        var line := Line("Image: " + ImageDigest(a.found.value, a.pulled.value));
        NoDotsLine("Image: " + ImageDigest(a.found.value, a.pulled.value));
        NoDotsAppend(a.pullPrinted, [line]);
        LaunchQuiet(a, Looked(true), a.pullPrinted + [line]);
      }
    } else {
      NoDotsLine("Image: " + ImageDigest(a.found.value, ""));
      LaunchQuiet(a, Looked(false), [Line("Image: " + ImageDigest(a.found.value, ""))]);
    }
  }

  lemma PreludeQuiet(f: Flags, s: Script)
    ensures NoDots(PreludeSpec(f, s).out)
  {
    match Start(f)
    case Usage => NoDotsLine("Usage:");
    case Refused(e) => NoDotsLine(ErrorText(e));
    case Launched(_) =>
      PrintedLinesHaveNoDot(s);
      ResolveQuiet(Decode(s));
  }

  lemma LaunchAnswered(a: Answers, pulled: bool, out: seq<string>)
    requires a.found.err.None?
    requires pulled ==> a.pulled.err.None?
    ensures AnsweredPrelude(a, LaunchSpec(a, Looked(pulled), out))
  {
    var calls := Looked(pulled);
    var p := LaunchSpec(a, calls, out);
    var tail := if a.created.err.None? then [CreateContainerCall(ImageToPull), StartContainerCall(a.created.value)]
                else [CreateContainerCall(ImageToPull)];
    assert p.calls == calls + tail;
  }

  lemma ResolveAnswered(a: Answers)
    ensures AnsweredPrelude(a, ResolveSpec(a))
  {
    if a.found.err.None? {
      if |a.found.value| == 0 {
        if a.pulled.err.None? {
          LaunchAnswered(a, true,
                         a.pullPrinted + [Line("Image: " + ImageDigest(a.found.value, a.pulled.value))]);
        }
      } else {
        LaunchAnswered(a, false, [Line("Image: " + ImageDigest(a.found.value, ""))]);
      }
    }
  }

  lemma PreludeAnswered(f: Flags, s: Script)
    ensures AnsweredPrelude(Decode(s), PreludeSpec(f, s))
  {
    if Start(f).Launched? {
      ResolveAnswered(Decode(s));
    }
  }

  /** A prelude that halts after some call is aborted, and an aborted prelude has written its error last. */
  ghost predicate HaltsOnError(p: Prelude)
  {
    && (p.next.Halt? && p.calls != [] ==> p.next.exit.Aborted?)
    && (p.next.Halt? && p.next.exit.Aborted? ==>
          p.out != [] && p.out[|p.out| - 1] == Line(ErrorText(p.next.exit.err)))
  }

  lemma LaunchHalts(a: Answers, calls: seq<Call>, out: seq<string>)
    ensures HaltsOnError(LaunchSpec(a, calls, out))
  {
  }

  lemma ResolveHalts(a: Answers)
    ensures HaltsOnError(ResolveSpec(a))
  {
    if a.found.err.None? {
      if |a.found.value| == 0 {
        if a.pulled.err.None? {
          LaunchHalts(a, Looked(true),
                      a.pullPrinted + [Line("Image: " + ImageDigest(a.found.value, a.pulled.value))]);
        }
      } else {
        LaunchHalts(a, Looked(false), [Line("Image: " + ImageDigest(a.found.value, ""))]);
      }
    }
  }

  lemma PreludeHalts(f: Flags, s: Script)
    ensures HaltsOnError(PreludeSpec(f, s))
  {
    if Start(f).Launched? {
      ResolveHalts(Decode(s));
    }
  }

  /** The prelude starts and polls only the container create returned, after printing its Id. */
  ghost predicate UsesCreatedId(a: Answers, p: Prelude)
  {
    && (forall j :: 0 <= j < |p.calls| && p.calls[j].StartContainerCall? ==>
          p.calls[j] == StartContainerCall(a.created.value))
    && (p.next.Poll? ==> p.next.id == a.created.value)
    && (StartContainerCall(a.created.value) in p.calls ==> Line("Created container " + a.created.value) in p.out)
  }

  lemma LaunchUsesCreatedId(a: Answers, pulled: bool, out: seq<string>)
    ensures UsesCreatedId(a, LaunchSpec(a, Looked(pulled), out))
  {
    var calls := Looked(pulled);
    var p := LaunchSpec(a, calls, out);
    if a.created.err.None? {
      var out1 := out + a.createPrinted + [Line("Created container " + a.created.value)];
      assert out1[|out1| - 1] == Line("Created container " + a.created.value);
      assert p.out[..|out1|] == out1;
      assert p.out[|out1| - 1] == out1[|out1| - 1];
      assert p.calls == calls + [CreateContainerCall(ImageToPull), StartContainerCall(a.created.value)];
    } else {
      assert p.calls == calls + [CreateContainerCall(ImageToPull)];
    }
  }

  lemma ResolveUsesCreatedId(a: Answers)
    ensures UsesCreatedId(a, ResolveSpec(a))
  {
    if a.found.err.None? {
      if |a.found.value| == 0 {
        if a.pulled.err.None? {
          LaunchUsesCreatedId(a, true,
                              a.pullPrinted + [Line("Image: " + ImageDigest(a.found.value, a.pulled.value))]);
        } else {
          assert ResolveSpec(a).calls == Looked(true);
        }
      } else {
        LaunchUsesCreatedId(a, false, [Line("Image: " + ImageDigest(a.found.value, ""))]);
      }
    } else {
      assert ResolveSpec(a).calls == Looked(false);
    }
  }

  lemma PreludeUsesCreatedId(f: Flags, s: Script)
    ensures UsesCreatedId(Decode(s), PreludeSpec(f, s))
  {
    if Start(f).Launched? {
      ResolveUsesCreatedId(Decode(s));
    }
  }

  /** After the prelude, one state query per poll round. */
  lemma ContinueQueries(p: Prelude, polls: seq<Reply>)
    requires forall j :: 0 <= j < |p.calls| ==> Rank(p.calls[j]) < 4
    ensures Count(Continue(p, polls).calls, IsQuery) == (if p.next.Poll? then AwaitRunning(polls).queries else 0)
  {
    CountNone(p.calls, IsQuery);
    if p.next.Poll? {
      var w := AwaitRunning(polls);
      var id := p.next.id;
      CountAppend(p.calls, Repeat(InspectCall(id), w.queries), IsQuery);
      CountRepeat(InspectCall(id), w.queries, IsQuery);
    }
  }

  /** The text of the poll loop: one dot per query, then an ending that is not a dot. */
  lemma DotsCount(out: seq<string>, q: nat, exit: Exit)
    requires NoDots(out)
    ensures Count(out + Repeat(".", q) + Ending(exit), IsDot) == q
  {
    CountNone(out, IsDot);
    var dots := Repeat(".", q);
    if exit.Aborted? {
      LineIsNoDot(ErrorText(exit.err));
    }
    CountAppend(out, dots, IsDot);
    CountAppend(out + dots, Ending(exit), IsDot);
    CountRepeat(".", q, IsDot);
    CountNone(Ending(exit), IsDot);
  }

  /** After the prelude, one dot per poll round. */
  lemma ContinueDots(p: Prelude, polls: seq<Reply>)
    requires NoDots(p.out)
    ensures Count(Continue(p, polls).out, IsDot) == (if p.next.Poll? then AwaitRunning(polls).queries else 0)
  {
    if p.next.Poll? {
      var w := AwaitRunning(polls);
      DotsCount(p.out, w.queries, w.exit);
    } else {
      CountNone(p.out, IsDot);
    }
  }

  /** The state query at position `i` of a trace is the poll loop's query number `i - |calls| + 1`. */
  lemma QueriesSoFar(calls: seq<Call>, id: string, k: nat, i: nat)
    requires forall j :: 0 <= j < |calls| ==> !IsQuery(calls[j])
    requires |calls| <= i < |calls| + k
    ensures Count((calls + Repeat(InspectCall(id), k))[..i + 1], IsQuery) == i - |calls| + 1
  {
    var m := i - |calls| + 1;
    assert (calls + Repeat(InspectCall(id), k))[..i + 1] == calls + Repeat(InspectCall(id), m);
    CountAppend(calls, Repeat(InspectCall(id), m), IsQuery);
    CountNone(calls, IsQuery);
    CountRepeat(InspectCall(id), m, IsQuery);
  }

  /** Ranks that grow from each call to the next grow from any call to any later one. */
  lemma {:induction false} RanksIncrease(calls: seq<Call>)
    requires forall i :: 0 < i < |calls| ==> Rank(calls[i - 1]) < Rank(calls[i])
    ensures forall i, j :: 0 <= i < j < |calls| ==> Rank(calls[i]) < Rank(calls[j])
  {
    if |calls| > 1 {
      var init := calls[..|calls| - 1];
      RanksIncrease(init);
      forall i | 0 <= i < |calls| - 1
        ensures Rank(calls[i]) < Rank(calls[|calls| - 1])
      {
        if i < |calls| - 2 {
          assert Rank(init[i]) < Rank(init[|calls| - 2]);
        }
      }
    }
  }

  lemma ContinueOrdered(p: Prelude, polls: seq<Reply>)
    requires OrderedPrelude(p)
    ensures InPhaseOrder(Continue(p, polls).calls)
    ensures Continue(p, polls).calls != [] ==> Continue(p, polls).calls[0] == FindImageCall(ImageToPull)
  {
    RanksIncrease(p.calls);
    if p.next.Poll? {
      var calls := Continue(p, polls).calls;
      var n := |p.calls|;
      assert forall j :: n <= j < |calls| ==> calls[j] == InspectCall(p.next.id);
      assert forall j :: 0 <= j < n ==> calls[j] == p.calls[j];
    }
  }

  /** The poll loop adds state queries only, and only when the prelude ends in `Poll`. */
  lemma ContinueRanks(p: Prelude, polls: seq<Reply>)
    requires forall j :: 0 <= j < |p.calls| ==> Rank(p.calls[j]) < 4
    ensures forall j :: 0 <= j < |Continue(p, polls).calls| ==>
              Rank(Continue(p, polls).calls[j]) < (if p.next.Poll? then 5 else 4)
  {
    if p.next.Poll? {
      var calls := Continue(p, polls).calls;
      assert forall j :: |p.calls| <= j < |calls| ==> calls[j] == InspectCall(p.next.id);
    }
  }

  /** In a trace of prelude calls and then `k` state queries, each query's error is its own scripted answer's. */
  lemma QueryErrors(s: Script, calls: seq<Call>, id: string, k: nat)
    requires forall j :: 0 <= j < |calls| ==> !IsQuery(calls[j])
    requires k <= |s.polls|
    ensures forall i :: 0 <= i < |calls| ==>
              CallError(s, calls + Repeat(InspectCall(id), k), i) == StepError(Decode(s), calls[i])
    ensures forall i :: |calls| <= i < |calls| + k ==>
              CallError(s, calls + Repeat(InspectCall(id), k), i) == CheckIfContainerIsRunning(s.polls[i - |calls|]).err
  {
    var trace := calls + Repeat(InspectCall(id), k);
    forall i | 0 <= i < |calls|
      ensures CallError(s, trace, i) == StepError(Decode(s), calls[i])
    {
      assert trace[i] == calls[i];
    }
    forall i | |calls| <= i < |calls| + k
      ensures CallError(s, trace, i) == CheckIfContainerIsRunning(s.polls[i - |calls|]).err
    {
      QueriesSoFar(calls, id, k, i);
      assert trace[i] == InspectCall(id);
    }
  }

  lemma ContinueSucceeds(s: Script, p: Prelude)
    requires forall j :: 0 <= j < |p.calls| ==> Rank(p.calls[j]) < 4
    requires AnsweredPrelude(Decode(s), p)
    ensures var calls := Continue(p, s.polls).calls;
      forall i :: 0 <= i < |calls| - 1 ==> CallError(s, calls, i).None?
  {
    if p.next.Poll? {
      var w := AwaitRunning(s.polls);
      AwaitRunningEnds(s.polls);
      QueryErrors(s, p.calls, p.next.id, w.queries);
    } else {
      QueryErrors(s, p.calls, "", 0);
      assert p.calls + Repeat(InspectCall(""), 0) == p.calls;
    }
  }

  lemma ContinueAborts(s: Script, p: Prelude)
    requires forall j :: 0 <= j < |p.calls| ==> Rank(p.calls[j]) < 4
    requires AnsweredPrelude(Decode(s), p)
    ensures var o := Continue(p, s.polls);
      o.exit.Aborted? && o.calls != [] ==> CallError(s, o.calls, |o.calls| - 1) == Some(o.exit.err)
  {
    if p.next.Poll? {
      var w := AwaitRunning(s.polls);
      AwaitRunningEnds(s.polls);
      QueryErrors(s, p.calls, p.next.id, w.queries);
    } else {
      QueryErrors(s, p.calls, "", 0);
      assert p.calls + Repeat(InspectCall(""), 0) == p.calls;
    }
  }

  /** A call whose reply carries an error ends the session as aborted with that error, written last. */
  lemma ContinueFails(s: Script, p: Prelude)
    requires forall j :: 0 <= j < |p.calls| ==> Rank(p.calls[j]) < 4
    requires AnsweredPrelude(Decode(s), p) && HaltsOnError(p)
    ensures var o := Continue(p, s.polls);
      o.calls != [] && CallError(s, o.calls, |o.calls| - 1).Some? ==>
        o.exit == Aborted(CallError(s, o.calls, |o.calls| - 1).value)
    ensures var o := Continue(p, s.polls);
      o.exit.Aborted? ==> o.out != [] && o.out[|o.out| - 1] == Line(ErrorText(o.exit.err))
  {
    if p.next.Poll? {
      var w := AwaitRunning(s.polls);
      AwaitRunningEnds(s.polls);
      QueryErrors(s, p.calls, p.next.id, w.queries);
    } else {
      QueryErrors(s, p.calls, "", 0);
      assert p.calls + Repeat(InspectCall(""), 0) == p.calls;
    }
  }

  /** The poll loop queries the container the prelude started, and adds no start call. */
  lemma ContinueUsesCreatedId(a: Answers, p: Prelude, polls: seq<Reply>)
    requires forall j :: 0 <= j < |p.calls| ==> Rank(p.calls[j]) < 4
    requires UsesCreatedId(a, p)
    ensures var o := Continue(p, polls);
      forall j :: 0 <= j < |o.calls| ==>
        (o.calls[j].StartContainerCall? ==> o.calls[j] == StartContainerCall(a.created.value)) &&
        (o.calls[j].InspectCall? ==> o.calls[j] == InspectCall(a.created.value))
    ensures var o := Continue(p, polls);
      StartContainerCall(a.created.value) in o.calls ==> Line("Created container " + a.created.value) in o.out
  {
    var o := Continue(p, polls);
    if p.next.Poll? {
      var q := AwaitRunning(polls).queries;
      assert o.calls == p.calls + Repeat(InspectCall(a.created.value), q);
      forall j | 0 <= j < |o.calls|
        ensures o.calls[j].StartContainerCall? ==> o.calls[j] == StartContainerCall(a.created.value)
        ensures o.calls[j].InspectCall? ==> o.calls[j] == InspectCall(a.created.value)
      {
        if j < |p.calls| {
          assert o.calls[j] == p.calls[j];
          assert Rank(p.calls[j]) < 4;
        }
      }
      if StartContainerCall(a.created.value) in o.calls {
        var j :| 0 <= j < |o.calls| && o.calls[j] == StartContainerCall(a.created.value);
        assert j < |p.calls| && p.calls[j] == o.calls[j];
        var line := Line("Created container " + a.created.value);
        var i :| 0 <= i < |p.out| && p.out[i] == line;
        assert o.out[i] == line;
      }
    } else {
      forall j | 0 <= j < |o.calls|
        ensures !o.calls[j].InspectCall?
      {
        assert Rank(p.calls[j]) < 4;
      }
    }
  }

  /** The prelude issues none of the poll loop's queries and no clean-up call. */
  lemma PreludeRanks(f: Flags, s: Script)
    ensures forall j :: 0 <= j < |PreludeSpec(f, s).calls| ==> Rank(PreludeSpec(f, s).calls[j]) < 4
  {
    PreludeOrdered(f, s);
  }

  /** The session's state queries are the poll loop's; its ending is the loop's once the container started. */
  lemma SessionPolls(f: Flags, s: Script)
    ensures var p := PreludeSpec(f, s); var o := SessionSpec(f, s); var w := AwaitRunning(s.polls);
      && Count(o.calls, IsQuery) == (if p.next.Poll? then w.queries else 0)
      && (p.next.Poll? ==> o.exit == w.exit)
      && (p.next.Halt? ==> o.exit == p.next.exit)
  {
    PreludeRanks(f, s);
    ContinueQueries(PreludeSpec(f, s), s.polls);
  }

  /** Each poll round writes exactly one dot and sends exactly one state query. */
  lemma OneDotPerQuery(f: Flags, s: Script)
    ensures Count(SessionSpec(f, s).out, IsDot) == Count(SessionSpec(f, s).calls, IsQuery)
  {
    PreludeRanks(f, s);
    PreludeQuiet(f, s);
    ContinueQueries(PreludeSpec(f, s), s.polls);
    ContinueDots(PreludeSpec(f, s), s.polls);
  }

  /** Lookup, then pull, create, start and the state queries, strictly in that order. */
  lemma PhasesInOrder(f: Flags, s: Script)
    ensures InPhaseOrder(SessionSpec(f, s).calls)
    ensures SessionSpec(f, s).calls != [] ==> SessionSpec(f, s).calls[0] == FindImageCall(ImageToPull)
  {
    PreludeOrdered(f, s);
    ContinueOrdered(PreludeSpec(f, s), s.polls);
  }

  /** After a prelude without clean-up calls, the whole session has none either. */
  lemma ContinueKeepsContainer(p: Prelude, polls: seq<Reply>)
    requires forall j :: 0 <= j < |p.calls| ==> Rank(p.calls[j]) < 4
    ensures var calls := Continue(p, polls).calls;
      forall j :: 0 <= j < |calls| ==> !calls[j].StopContainerCall? && !calls[j].RemoveContainerCall?
  {
    ContinueRanks(p, polls);
    var calls := Continue(p, polls).calls;
    forall j | 0 <= j < |calls|
      ensures !calls[j].StopContainerCall? && !calls[j].RemoveContainerCall?
    {
      assert Rank(calls[j]) < 5;
    }
  }

  /** No path stops or removes the container. */
  lemma NeverTearsDown(f: Flags, s: Script)
    ensures var calls := SessionSpec(f, s).calls;
      forall j :: 0 <= j < |calls| ==> !calls[j].StopContainerCall? && !calls[j].RemoveContainerCall?
  {
    PreludeRanks(f, s);
    ContinueKeepsContainer(PreludeSpec(f, s), s.polls);
  }

  /** The poll loop is reached only through a successful start. */
  lemma PollsOnlyAfterStart(f: Flags, s: Script)
    ensures PreludeSpec(f, s).next.Poll? ==> StartContainer(s.start).None?
  {
    PreludeAnswered(f, s);
  }

  /** A failed start ends the session there: no state query, and no clean-up of the created container. */
  lemma FailedStartIsFinal(f: Flags, s: Script)
    requires StartContainer(s.start).Some?
    ensures var calls := SessionSpec(f, s).calls;
      forall j :: 0 <= j < |calls| ==> Rank(calls[j]) < 4
  {
    PollsOnlyAfterStart(f, s);
    PreludeRanks(f, s);
    ContinueRanks(PreludeSpec(f, s), s.polls);
  }

  /** Each call but the last got an answer without error. */
  lemma EarlierCallsSucceed(f: Flags, s: Script)
    ensures var calls := SessionSpec(f, s).calls;
      forall i :: 0 <= i < |calls| - 1 ==> CallError(s, calls, i).None?
  {
    PreludeRanks(f, s);
    PreludeAnswered(f, s);
    ContinueSucceeds(s, PreludeSpec(f, s));
  }

  /**
   * A session is aborted exactly at a call whose reply carries an error: the
   * session ends with that error, and the error line is the last text written.
   */
  lemma AbortsAtFailingCall(f: Flags, s: Script)
    ensures var o := SessionSpec(f, s);
      o.exit.Aborted? && o.calls != [] ==> CallError(s, o.calls, |o.calls| - 1) == Some(o.exit.err)
    ensures var o := SessionSpec(f, s);
      o.calls != [] && CallError(s, o.calls, |o.calls| - 1).Some? ==>
        o.exit == Aborted(CallError(s, o.calls, |o.calls| - 1).value)
    ensures var o := SessionSpec(f, s);
      o.exit.Aborted? ==> o.out != [] && o.out[|o.out| - 1] == Line(ErrorText(o.exit.err))
  {
    PreludeRanks(f, s);
    PreludeAnswered(f, s);
    PreludeHalts(f, s);
    ContinueAborts(s, PreludeSpec(f, s));
    ContinueFails(s, PreludeSpec(f, s));
  }

  /**
   * The container main starts and polls is the one create returned, and its
   * Id is printed as `Created container <id>`.
   */
  lemma StartsAndPollsCreatedContainer(f: Flags, s: Script)
    ensures var o := SessionSpec(f, s); var id := CreatedAnswer(s.create).value;
      forall j :: 0 <= j < |o.calls| ==>
        (o.calls[j].StartContainerCall? ==> o.calls[j] == StartContainerCall(id)) &&
        (o.calls[j].InspectCall? ==> o.calls[j] == InspectCall(id))
    ensures var o := SessionSpec(f, s); var id := CreatedAnswer(s.create).value;
      StartContainerCall(id) in o.calls ==> Line("Created container " + id) in o.out
  {
    PreludeRanks(f, s);
    PreludeUsesCreatedId(f, s);
    ContinueUsesCreatedId(Decode(s), PreludeSpec(f, s), s.polls);
  }

  /** A session without any engine call showed usage or had no address to talk to. */
  lemma NoCallWithoutClient(f: Flags, s: Script)
    ensures var o := SessionSpec(f, s);
      o.calls == [] <==> !Start(f).Launched?
    ensures var o := SessionSpec(f, s);
      o.calls == [] ==> o.exit == ShowedUsage || o.exit == Aborted(ConfigError(NoAddressMessage))
  {
    if Start(f).Launched? {
      PreludeOrdered(f, s);
      ContinueOrdered(PreludeSpec(f, s), s.polls);
      var a := Decode(s);
      assert ResolveSpec(a).calls[0] == FindImageCall(ImageToPull);
    }
  }

  /** The pull is issued exactly when the lookup succeeded and found no image. */
  lemma ResolvePulls(a: Answers)
    ensures PullImageCall(ImageToPull) in ResolveSpec(a).calls <==> a.found.err.None? && a.found.value == []
  {
    if a.found.err.None? && a.found.value != [] {
      var p := ResolveSpec(a);
      LaunchOrdered(a, false, [Line("Image: " + ImageDigest(a.found.value, ""))]);
      assert forall j :: 0 <= j < |p.calls| ==> Rank(p.calls[j]) != 1 by {
        assert p.calls[0] == FindImageCall(ImageToPull);
      }
    }
  }

  lemma PullOnlyWithoutMatch(f: Flags, s: Script)
    requires Start(f).Launched?
    ensures PullImageCall(ImageToPull) in SessionSpec(f, s).calls <==>
              FindImage(s.find).err.None? && FindImage(s.find).value == []
  {
    var p := PreludeSpec(f, s);
    ResolvePulls(Decode(s));
    PreludeRanks(f, s);
    ContinueRanks(p, s.polls);
    assert PullImageCall(ImageToPull) in SessionSpec(f, s).calls <==> PullImageCall(ImageToPull) in p.calls;
  }

  /** Before any engine call, help or an empty command line shows usage and ends the session. */
  lemma UsageIssuesNoCall(f: Flags, s: Script)
    requires f.help || f.argCount == 0
    ensures SessionSpec(f, s) == Outcome([], [Line("Usage:")], ShowedUsage)
  {
  }

  /** The digest rule: the first match wins, with one `sha256:` removed; without a match, the pulled digest. */
  lemma ImageDigestRule(images: seq<DockerImage>, pulled: string)
    ensures |images| == 0 ==> ImageDigest(images, pulled) == pulled
    ensures |images| > 0 ==> ImageDigest(images, pulled) == ImageDigest(images[..1], "")
    ensures |images| > 0 && HasPrefix(images[0].identifier, IdPrefix) ==>
              IdPrefix + ImageDigest(images, pulled) == images[0].identifier
    ensures |images| > 0 && !HasPrefix(images[0].identifier, IdPrefix) ==>
              ImageDigest(images, pulled) == images[0].identifier
  {
  }

  /** Once the image is resolved, its digest line is printed and the container is created from the reference. */
  lemma ResolveImageLine(a: Answers)
    requires a.found.err.None?
    requires a.found.value == [] ==> a.pulled.err.None?
    ensures Line("Image: " + ImageDigest(a.found.value, a.pulled.value)) in ResolveSpec(a).out
    ensures CreateContainerCall(ImageToPull) in ResolveSpec(a).calls
  {
    var line := Line("Image: " + ImageDigest(a.found.value, a.pulled.value));
    if a.found.value == [] {
      var out := a.pullPrinted + [line];
      assert out[|out| - 1] == line;
      assert LaunchSpec(a, Looked(true), out).calls[2] == CreateContainerCall(ImageToPull);
    } else {
      assert ImageDigest(a.found.value, a.pulled.value) == ImageDigest(a.found.value, "");
      assert LaunchSpec(a, Looked(false), [line]).out[0] == line;
      assert LaunchSpec(a, Looked(false), [line]).calls[1] == CreateContainerCall(ImageToPull);
    }
  }

  lemma ResolvedImageLine(f: Flags, s: Script)
    requires Start(f).Launched? && FindImage(s.find).err.None?
    requires FindImage(s.find).value == [] ==> PullAnswer(s.pull).err.None?
    ensures Line("Image: " + ImageDigest(FindImage(s.find).value, PullAnswer(s.pull).value)) in SessionSpec(f, s).out
    ensures CreateContainerCall(ImageToPull) in SessionSpec(f, s).calls
  {
    ResolveImageLine(Decode(s));
  }

  /** The digest of a local image `sha256:1234` is `1234`. */
  lemma LocalDigest(pulled: string)
    ensures ImageDigest([DockerImage("sha256:1234", [], [])], pulled) == "1234"
  {
    assert HasPrefix("sha256:1234", IdPrefix);
    assert "sha256:1234"[|IdPrefix|..] == "1234";
  }

  /** Scenario: one local image `sha256:1234` — the digest printed is `1234` and nothing is pulled. */
  lemma LocalMatchScenario(f: Flags, s: Script)
    requires Start(f).Launched?
    requires FindImage(s.find) == Answer([DockerImage("sha256:1234", [], [])], None)
    ensures Line("Image: 1234") in SessionSpec(f, s).out
    ensures PullImageCall(ImageToPull) !in SessionSpec(f, s).calls
  {
    ResolvedImageLine(f, s);
    PullOnlyWithoutMatch(f, s);
    LocalDigest(PullAnswer(s.pull).value);
    assert "Image: " + "1234" == "Image: 1234";
  }

  /** Scenario: two answers "not yet", then "running" — three queries, three dots, and the loop ends. */
  lemma ThirdPollRuns(notYet: Reply, running: Reply, f: Flags, s: Script)
    requires Waiting(notYet) && CheckIfContainerIsRunning(running).value
    requires s.polls == [notYet, notYet, running] && PreludeSpec(f, s).next.Poll?
    ensures AwaitRunning(s.polls) == Waited(3, ContainerRunning)
    ensures Count(SessionSpec(f, s).calls, IsQuery) == 3
    ensures Count(SessionSpec(f, s).out, IsDot) == 3
    ensures SessionSpec(f, s).exit == ContainerRunning
  {
    StopsAtFirstRunning(s.polls, 2);
    SessionPolls(f, s);
    OneDotPerQuery(f, s);
  }
}
