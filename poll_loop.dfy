/**
 * The body of main's `while True` loop in homework.py, as written: fetch,
 * validate, format the first homework, send it (twice when it is new),
 * move the cursor, and on any exception notify its text once per change.
 * An error notification that itself fails escapes the loop and ends main.
 */
module PollLoop {
  import opened Wrappers
  import opened Values
  import opened Exceptions
  import opened Homework

  /** The loop's locals: the `from_date` cursor and the two caches. */
  datatype State = State(timestamp: Value, cacheMessage: string, errorMessage: string)

  /** The locals main sets before its loop. */
  function Initial(now: int): (s: State)
    ensures s.timestamp == Int(now) && s.cacheMessage == "" && s.errorMessage == ""
  {
    State(Int(now), "", "")
  }

  /**
   * What the outside world does during one iteration: the API's reply, the
   * clock's `int(time.time())`, and the fate of each `send_message` call, in
   * order (calls past the end of `deliveries` are delivered).
   */
  datatype Input = Input(reply: Reply, now: int, deliveries: seq<Delivery>)

  function DeliveryOf(deliveries: seq<Delivery>, k: nat): Delivery
  {
    if k < |deliveries| then deliveries[k] else Delivered
  }

  /** Every `send_message` call of an iteration goes through. */
  predicate AllDelivered(deliveries: seq<Delivery>)
  {
    forall k :: 0 <= k < |deliveries| ==> deliveries[k] == Delivered
  }

  /** What the first steps of the try block lead to: nothing to report, or a notification and the answer's `current_date`. */
  datatype Report = Quiet | Notify(message: string, currentDate: Value)

  /**
   * Fetch, validate, and format the first homework: the steps of the try block
   * before anything is sent (homework.py:124-127).
   */
  function Prepare(reply: Reply): (r: Result<Report, Error>)
    ensures r.Success? <==> GetApiAnswer(reply).Success? && CheckResponse(GetApiAnswer(reply).value).Success?
                            && (CheckResponse(GetApiAnswer(reply).value).value == [] ||
                                IsReportable(CheckResponse(GetApiAnswer(reply).value).value[0]))
    ensures r == Success(Quiet) <==> GetApiAnswer(reply).Success? && CheckResponse(GetApiAnswer(reply).value) == Success([])
    ensures r.Success? && r.value.Notify? ==>
              r.value.message == ParseStatus(CheckResponse(GetApiAnswer(reply).value).value[0]).value
    ensures r.Failure? ==> Text(r.error) != ""
    ensures r.Failure? ==>
              var answer := GetApiAnswer(reply);
              r.error == if answer.Failure? then answer.error
                         else if CheckResponse(answer.value).Failure? then CheckResponse(answer.value).error
                         else ParseStatus(CheckResponse(answer.value).value[0]).error
    ensures r.Success? && r.value.Notify? ==>
              r.value.currentDate == Get(GetApiAnswer(reply).value.entries, "current_date")
  {
    match GetApiAnswer(reply)
    case Failure(e) => Failure(e)
    case Success(response) =>
      match CheckResponse(response)
      case Failure(e) => Failure(e)
      case Success(homeworks) =>
        if homeworks == [] then Success(Quiet)
        else match ParseStatus(homeworks[0])
          case Failure(e) => Failure(e)
          case Success(message) => Success(Notify(message, Get(response.entries, "current_date")))
  }

  /** How far the try block got: the locals, the texts sent, and the exception it raised, if any. */
  datatype Attempt = Attempt(state: State, sends: seq<string>, raised: Option<Error>)

  /** The try block of one iteration (homework.py:123-135). It never touches the error cache. */
  function TryBlock(s: State, input: Input): (a: Attempt)
    ensures a.state.errorMessage == s.errorMessage
    ensures a.raised.Some? ==> Text(a.raised.value) != ""
  {
    match Prepare(input.reply)
    case Failure(e) => Attempt(s, [], Some(e))
    case Success(Quiet) => Attempt(s, [], None)
    case Success(Notify(message, currentDate)) => Publish(s, message, currentDate, input)
  }

  /**
   * The sending part of the try block (homework.py:128-133): send, move the
   * cursor, and for a new message send again, cache it and take the clock's time.
   * Only the messaging library's error can arise here.
   */
  function Publish(s: State, message: string, currentDate: Value, input: Input): (a: Attempt)
    ensures a.state.errorMessage == s.errorMessage
    ensures a.sends == [message] || a.sends == [message, message]
    ensures a.state.timestamp == s.timestamp || a.state.timestamp == currentDate || a.state.timestamp == Int(input.now)
    ensures a.state.cacheMessage == s.cacheMessage || a.state.cacheMessage == message
    ensures a.raised.None? <==> DeliveryOf(input.deliveries, 0) == Delivered &&
                                (message == s.cacheMessage || DeliveryOf(input.deliveries, 1) == Delivered)
    ensures a.raised.Some? ==> a.raised.value.TelegramError? && Text(a.raised.value) != ""
  {
    match SendMessage(message, DeliveryOf(input.deliveries, 0))
    case Some(e) => Attempt(s, [message], Some(e))
    case None =>
      var dated := s.(timestamp := currentDate);
      if message == s.cacheMessage then Attempt(dated, [message], None)
      else match SendMessage(message, DeliveryOf(input.deliveries, 1))
        case Some(e) => Attempt(dated, [message, message], Some(e))
        case None => Attempt(State(Int(input.now), message, s.errorMessage), [message, message], None)
  }

  /** One whole iteration: the new locals, the texts sent, seconds slept, and the exception that ends main, if any. */
  datatype Cycle = Cycle(state: State, sends: seq<string>, sleep: nat, crash: Option<Error>)

  /**
   * One iteration: at most three sends; it sleeps once, or twice after an
   * exception it survives; and what ends main is always a TelegramError.
   */
  function Iteration(s: State, input: Input): (c: Cycle)
    ensures |c.sends| <= 3
    ensures c.sleep == (if TryBlock(s, input).raised.Some? && c.crash.None? then 2 * RetryPeriod else RetryPeriod)
    ensures c.crash.Some? ==> c.crash.value.TelegramError?
  {
    var a := TryBlock(s, input);
    match a.raised
    case None => Cycle(a.state, a.sends, RetryPeriod, None)
    case Some(e) =>
      var text := Text(e);
      if text == a.state.errorMessage then Cycle(a.state, a.sends, 2 * RetryPeriod, None)
      else match SendMessage(text, DeliveryOf(input.deliveries, |a.sends|))
        case None => Cycle(a.state.(errorMessage := text), a.sends + [text], 2 * RetryPeriod, None)
        case Some(fatal) => Cycle(a.state, a.sends + [text], RetryPeriod, Some(fatal))
  }

  /** A bounded run of the loop: final locals, the `from_date` of each request, texts sent, seconds slept, and the crash, if any. */
  datatype Run = Run(state: State, fromDates: seq<Value>, sends: seq<string>, sleep: nat, crash: Option<Error>)

  /** The cycles a loop with the given body runs over a bounded list of inputs, stopping at the first crash. */
  function Unroll(body: (State, Input) -> Cycle, s: State, inputs: seq<Input>): (r: Run)
    ensures |r.fromDates| <= |inputs|
    ensures r.crash.None? ==> |r.fromDates| == |inputs|
    ensures inputs != [] ==> |r.fromDates| >= 1 && r.fromDates[0] == s.timestamp
    decreases |inputs|
  {
    if inputs == [] then Run(s, [], [], 0, None)
    else
      var c := body(s, inputs[0]);
      if c.crash.Some? then Run(c.state, [s.timestamp], c.sends, c.sleep, c.crash)
      else
        var rest := Unroll(body, c.state, inputs[1..]);
        Run(rest.state, [s.timestamp] + rest.fromDates, c.sends + rest.sends, c.sleep + rest.sleep, rest.crash)
  }

  /** Run `second` after `first`: the logs are concatenated and the state and crash are the later ones. */
  function Then(first: Run, second: Run): Run
  {
    Run(second.state, first.fromDates + second.fromDates, first.sends + second.sends, first.sleep + second.sleep, second.crash)
  }

  lemma ThenAssociative(a: Run, b: Run, c: Run)
    ensures Then(Then(a, b), c) == Then(a, Then(b, c))
  {
    assert (a.fromDates + b.fromDates) + c.fromDates == a.fromDates + (b.fromDates + c.fromDates);
    assert (a.sends + b.sends) + c.sends == a.sends + (b.sends + c.sends);
  }

  /** The cycles main's `while True` runs over a bounded list of inputs. */
  function Loop(s: State, inputs: seq<Input>): (r: Run)
    ensures |r.fromDates| <= |inputs| && (r.crash.None? ==> |r.fromDates| == |inputs|)
    ensures inputs != [] ==> |r.fromDates| >= 1 && r.fromDates[0] == s.timestamp
  {
    Unroll(Iteration, s, inputs)
  }

  // ---------------------------------------------------------------- one iteration

  /** An empty `homeworks` list: nothing is sent and the locals stay as they were. */
  lemma QuietCycle(s: State, input: Input)
    requires Prepare(input.reply) == Success(Quiet)
    ensures Iteration(s, input) == Cycle(s, [], RetryPeriod, None)
  {
  }

  /**
   * A notification that differs from the cache is sent twice; the cache takes
   * it and the cursor becomes the clock's time.
   */
  lemma NewMessageSentTwice(s: State, input: Input)
    requires Prepare(input.reply).Success? && Prepare(input.reply).value.Notify?
    requires Prepare(input.reply).value.message != s.cacheMessage
    requires DeliveryOf(input.deliveries, 0) == Delivered && DeliveryOf(input.deliveries, 1) == Delivered
    ensures var m := Prepare(input.reply).value.message;
            Iteration(s, input) == Cycle(State(Int(input.now), m, s.errorMessage), [m, m], RetryPeriod, None)
  {
  }

  /**
   * A notification equal to the cache is still sent once; the cache stays and
   * the cursor becomes the answer's `current_date` (None when it is missing).
   */
  lemma RepeatedMessageSentOnce(s: State, input: Input)
    requires Prepare(input.reply).Success? && Prepare(input.reply).value.Notify?
    requires Prepare(input.reply).value.message == s.cacheMessage
    requires DeliveryOf(input.deliveries, 0) == Delivered
    ensures var r := Prepare(input.reply).value;
            Iteration(s, input) == Cycle(s.(timestamp := r.currentDate), [r.message], RetryPeriod, None)
  {
  }

  /**
   * A failure to fetch, validate or format leaves the cursor and the message
   * cache alone; its text is sent only when it differs from the error cache,
   * which then takes it.
   */
  lemma FailedCycle(s: State, input: Input)
    requires Prepare(input.reply).Failure?
    ensures var t := Text(Prepare(input.reply).error);
            var c := Iteration(s, input);
            c.state.timestamp == s.timestamp && c.state.cacheMessage == s.cacheMessage &&
            (c.sends == if t == s.errorMessage then [] else [t]) &&
            (c.crash.None? ==> c.state.errorMessage == t && c.sleep == 2 * RetryPeriod) &&
            (c.crash.Some? <==> t != s.errorMessage && DeliveryOf(input.deliveries, 0).Refused?)
  {
  }

  /**
   * The first send of a notification is refused: nothing else in the try block
   * runs, so cursor and cache stay, and the TelegramError goes to the except clause.
   */
  lemma FirstSendRefused(s: State, input: Input)
    requires Prepare(input.reply).Success? && Prepare(input.reply).value.Notify?
    requires DeliveryOf(input.deliveries, 0).Refused?
    ensures var a := TryBlock(s, input);
            a.state == s && a.sends == [Prepare(input.reply).value.message] &&
            a.raised == Some(TelegramError(SendFailedPrefix + DeliveryOf(input.deliveries, 0).reason))
  {
  }

  /**
   * The second send of a new notification is refused: the cursor has already
   * become `current_date`, but the cache keeps its old text.
   */
  lemma SecondSendRefused(s: State, input: Input)
    requires Prepare(input.reply).Success? && Prepare(input.reply).value.Notify?
    requires Prepare(input.reply).value.message != s.cacheMessage
    requires DeliveryOf(input.deliveries, 0) == Delivered && DeliveryOf(input.deliveries, 1).Refused?
    ensures var r := Prepare(input.reply).value;
            var a := TryBlock(s, input);
            a.state == s.(timestamp := r.currentDate) && a.sends == [r.message, r.message] &&
            a.raised == Some(TelegramError(SendFailedPrefix + DeliveryOf(input.deliveries, 1).reason))
  {
  }

  /** main ends only when sending an exception's text fails, and it then ends with a TelegramError. */
  lemma CrashOnlyFromErrorNotice(s: State, input: Input)
    ensures var a := TryBlock(s, input);
            var c := Iteration(s, input);
            (c.crash.Some? <==> a.raised.Some? && Text(a.raised.value) != a.state.errorMessage
                                && DeliveryOf(input.deliveries, |a.sends|).Refused?) &&
            (c.crash.Some? ==> c.crash.value.TelegramError? && c.sleep == RetryPeriod && c.state == a.state)
  {
  }

  /** When every send is delivered the loop never ends. */
  lemma DeliveredNeverCrashes(s: State, inputs: seq<Input>)
    requires forall k :: 0 <= k < |inputs| ==> AllDelivered(inputs[k].deliveries)
    ensures Loop(s, inputs).crash.None?
    decreases |inputs|
  {
    if inputs != [] {
      DeliveredNeverCrashes(Iteration(s, inputs[0]).state, inputs[1..]);
    }
  }

  /** The error cache changes only to the text of an exception raised in that cycle; success never clears it. */
  lemma ErrorCacheOnlyReplaced(s: State, input: Input)
    ensures var a := TryBlock(s, input);
            var c := Iteration(s, input);
            c.state.errorMessage == s.errorMessage ||
            (a.raised.Some? && c.state.errorMessage == Text(a.raised.value) && Text(a.raised.value) != "")
  {
  }

  /** Where the cursor can go in one cycle: nowhere, to `current_date`, or to the clock's time. */
  lemma CursorMoves(s: State, input: Input)
    ensures var c := Iteration(s, input);
            var r := Prepare(input.reply);
            c.state.timestamp == s.timestamp ||
            (r.Success? && r.value.Notify? && (c.state.timestamp == r.value.currentDate || c.state.timestamp == Int(input.now)))
  {
    var a := TryBlock(s, input);
    assert Iteration(s, input).state.timestamp == a.state.timestamp;
  }

  /** main starts with an empty error cache, so the text of the first exception is always sent. */
  lemma FreshStartSendsFirstError(now: int, input: Input)
    requires TryBlock(Initial(now), input).raised.Some?
    ensures var a := TryBlock(Initial(now), input);
            Iteration(Initial(now), input).sends == a.sends + [Text(a.raised.value)]
  {
  }

  // ---------------------------------------------------------------- several iterations

  /** Once the error cache is set, no run of cycles empties it again. */
  lemma {:induction false} ErrorCacheNeverCleared(s: State, inputs: seq<Input>)
    requires s.errorMessage != ""
    ensures Loop(s, inputs).state.errorMessage != ""
    decreases |inputs|
  {
    if inputs != [] {
      ErrorCacheOnlyReplaced(s, inputs[0]);
      var c := Iteration(s, inputs[0]);
      if c.crash.None? {
        ErrorCacheNeverCleared(c.state, inputs[1..]);
      }
    }
  }

  /**
   * A failure that persists with the same text over many cycles is reported
   * once, or not at all when it is already cached; cursor and cache stay.
   */
  lemma {:induction false} PersistentErrorReportedOnce(s: State, inputs: seq<Input>, t: string)
    requires forall k :: 0 <= k < |inputs| ==> Prepare(inputs[k].reply).Failure? && Text(Prepare(inputs[k].reply).error) == t
    requires inputs != [] && DeliveryOf(inputs[0].deliveries, 0) == Delivered
    ensures var r := Loop(s, inputs);
            r.crash.None? && r.state == s.(errorMessage := t) &&
            r.sends == (if s.errorMessage == t then [] else [t])
    decreases |inputs|
  {
    FailedCycle(s, inputs[0]);
    var c := Iteration(s, inputs[0]);
    var next := s.(errorMessage := t);
    assert c.state == next && c.crash.None?;
    var rest := inputs[1..];
    assert forall k :: 0 <= k < |rest| ==> rest[k] == inputs[k + 1];
    PersistentErrorReportedOnceCached(next, rest, t);
    var r := Loop(next, rest);
    assert Loop(s, inputs) == Run(r.state, [s.timestamp] + r.fromDates, c.sends + r.sends, c.sleep + r.sleep, r.crash);
  }

  /** The cached case of PersistentErrorReportedOnce: nothing at all is sent. */
  lemma {:induction false} PersistentErrorReportedOnceCached(s: State, inputs: seq<Input>, t: string)
    requires forall k :: 0 <= k < |inputs| ==> Prepare(inputs[k].reply).Failure? && Text(Prepare(inputs[k].reply).error) == t
    requires s.errorMessage == t
    ensures Loop(s, inputs) == Run(s, seq(|inputs|, k => s.timestamp), [], |inputs| * 2 * RetryPeriod, None)
    decreases |inputs|
  {
    if inputs != [] {
      FailedCycle(s, inputs[0]);
      var rest := inputs[1..];
      assert forall k :: 0 <= k < |rest| ==> rest[k] == inputs[k + 1];
      PersistentErrorReportedOnceCached(s, rest, t);
      assert [s.timestamp] + seq(|rest|, k => s.timestamp) == seq(|inputs|, k => s.timestamp);
    }
  }

  /**
   * An error that comes back after a successful cycle is not reported again:
   * the success did not clear the error cache.
   */
  lemma ErrorNotResentAfterRecovery(s: State, bad: Input, good: Input, again: Input)
    requires Prepare(bad.reply).Failure? && Prepare(again.reply).Failure?
    requires Text(Prepare(bad.reply).error) == Text(Prepare(again.reply).error)
    requires DeliveryOf(bad.deliveries, 0) == Delivered
    requires Prepare(good.reply).Success? && AllDelivered(good.deliveries)
    ensures var c1 := Iteration(s, bad);
            var c2 := Iteration(c1.state, good);
            var c3 := Iteration(c2.state, again);
            c2.crash.None? && c3 == Cycle(c2.state, [], 2 * RetryPeriod, None)
  {
    FailedCycle(s, bad);
    var c1 := Iteration(s, bad);
    assert DeliveryOf(good.deliveries, 0) == Delivered && DeliveryOf(good.deliveries, 1) == Delivered;
    var a2 := TryBlock(c1.state, good);
    assert a2.raised.None?;
    var c2 := Iteration(c1.state, good);
    assert c2.state == a2.state && c2.crash.None?;
    FailedCycle(c2.state, again);
  }

  /**
   * The same homework reported on two consecutive cycles: sent twice on the
   * first (it is new), and once more on the second, which the cache does not suppress.
   */
  lemma SameReportTwice(s: State, input: Input)
    requires Prepare(input.reply).Success? && Prepare(input.reply).value.Notify?
    requires Prepare(input.reply).value.message != s.cacheMessage
    requires AllDelivered(input.deliveries)
    ensures var m := Prepare(input.reply).value.message;
            var c1 := Iteration(s, input);
            var c2 := Iteration(c1.state, input);
            c1.sends == [m, m] && c2.sends == [m] && c2.state.cacheMessage == m &&
            c2.state.timestamp == Prepare(input.reply).value.currentDate
  {
    NewMessageSentTwice(s, input);
    RepeatedMessageSentOnce(Iteration(s, input).state, input);
  }

  /** Request `k` of a run is made from the cursor the first `k` cycles left. */
  lemma {:induction false} UnrollRequests(body: (State, Input) -> Cycle, s: State, inputs: seq<Input>)
    ensures var r := Unroll(body, s, inputs);
            forall k :: 0 <= k < |r.fromDates| ==> r.fromDates[k] == Unroll(body, s, inputs[..k]).state.timestamp
    decreases |inputs|
  {
    var r := Unroll(body, s, inputs);
    if inputs != [] {
      assert inputs[..0] == [];
      var c := body(s, inputs[0]);
      if c.crash.None? {
        var rest := inputs[1..];
        UnrollRequests(body, c.state, rest);
        forall k | 1 <= k < |r.fromDates|
          ensures r.fromDates[k] == Unroll(body, s, inputs[..k]).state.timestamp
        {
          assert inputs[..k][0] == inputs[0];
          assert inputs[..k][1..] == rest[..k - 1];
        }
      }
    }
  }

  /**
   * Each cycle fetches once, from the cursor it starts with, that is the
   * cursor the cycles before it left; a run stops early only at a crash.
   */
  lemma OneRequestPerCycle(s: State, inputs: seq<Input>)
    ensures var r := Loop(s, inputs);
            |r.fromDates| <= |inputs| &&
            (r.crash.None? ==> |r.fromDates| == |inputs|) &&
            (forall k :: 0 <= k < |r.fromDates| ==> r.fromDates[k] == Loop(s, inputs[..k]).state.timestamp)
  {
    UnrollRequests(Iteration, s, inputs);
  }

  /** Running one more input: a crashed run ignores it, otherwise one more iteration is appended. */
  lemma {:induction false} UnrollSnoc(body: (State, Input) -> Cycle, s: State, inputs: seq<Input>, last: Input)
    ensures var r := Unroll(body, s, inputs);
            Unroll(body, s, inputs + [last]) == if r.crash.Some? then r else Then(r, Unroll(body, r.state, [last]))
    decreases |inputs|
  {
    var all := inputs + [last];
    if inputs == [] {
      assert all == [last];
    } else {
      assert all[0] == inputs[0];
      assert all[1..] == inputs[1..] + [last];
      var c0 := body(s, inputs[0]);
      if c0.crash.None? {
        UnrollSnoc(body, c0.state, inputs[1..], last);
        var rest := Unroll(body, c0.state, inputs[1..]);
        if rest.crash.None? {
          var head := Run(c0.state, [s.timestamp], c0.sends, c0.sleep, None);
          ThenAssociative(head, rest, Unroll(body, rest.state, [last]));
        }
      }
    }
  }

  /** A run that has crashed ignores whatever inputs follow. */
  lemma {:induction false} UnrollAfterCrash(body: (State, Input) -> Cycle, s: State, inputs: seq<Input>, more: seq<Input>)
    requires Unroll(body, s, inputs).crash.Some?
    ensures Unroll(body, s, inputs + more) == Unroll(body, s, inputs)
    decreases |inputs|
  {
    var all := inputs + more;
    assert all[0] == inputs[0];
    var c0 := body(s, inputs[0]);
    if c0.crash.None? {
      assert all[1..] == inputs[1..] + more;
      UnrollAfterCrash(body, c0.state, inputs[1..], more);
    }
  }

  /** Running the input at `i` after the first `i` ones. */
  lemma LoopStep(start: Run, s: State, inputs: seq<Input>, i: nat)
    requires i < |inputs| && Loop(s, inputs[..i]).crash.None?
    ensures var r := Loop(s, inputs[..i]);
            var c := Iteration(r.state, inputs[i]);
            Then(start, Loop(s, inputs[..i + 1])) ==
              Then(Then(start, r), Run(c.state, [r.state.timestamp], c.sends, c.sleep, c.crash))
  {
    var r := Loop(s, inputs[..i]);
    var c := Iteration(r.state, inputs[i]);
    UnrollSnoc(Iteration, s, inputs[..i], inputs[i]);
    assert inputs[..i + 1] == inputs[..i] + [inputs[i]];
    var one := Loop(r.state, [inputs[i]]);
    assert one == Run(c.state, [r.state.timestamp], c.sends, c.sleep, c.crash);
    assert Loop(s, inputs[..i + 1]) == Then(r, one);
    ThenAssociative(start, r, one);
  }

  /** A run that has consumed all its inputs, or has crashed, has run all of them. */
  lemma UnrollDone(body: (State, Input) -> Cycle, s: State, inputs: seq<Input>, i: nat)
    requires i <= |inputs|
    requires i == |inputs| || Unroll(body, s, inputs[..i]).crash.Some?
    ensures Unroll(body, s, inputs[..i]) == Unroll(body, s, inputs)
  {
    if i < |inputs| {
      UnrollAfterCrash(body, s, inputs[..i], inputs[i..]);
      assert inputs[..i] + inputs[i..] == inputs;
    } else {
      assert inputs[..i] == inputs;
    }
  }

  /** A loop that has consumed all its inputs, or has crashed, has run all of them. */
  lemma LoopDone(s: State, inputs: seq<Input>, i: nat)
    requires i <= |inputs|
    requires i == |inputs| || Loop(s, inputs[..i]).crash.Some?
    ensures Loop(s, inputs[..i]) == Loop(s, inputs)
  {
    UnrollDone(Iteration, s, inputs, i);
  }

  // ---------------------------------------------------------------- scenarios

  const HomeworkOne := Dict([("homework_name", Str("hw1")), ("status", Str("approved"))])
  /** `Изменился статус проверки работы "hw1". Работа проверена: ревьюеру всё понравилось. Ура!` */
  const ApprovedText := Notification("hw1", HomeworkVerdicts["approved"])

  function AnswerWith(homeworks: seq<Value>, currentDate: Value): Reply
  {
    Answered(StatusOk, Json(Dict([("homeworks", List(homeworks)), ("current_date", currentDate)])))
  }

  /** A fresh loop that sees one approved homework sends its notification twice and moves the cursor to the clock. */
  lemma ApprovedHomeworkScenario(now: int)
    ensures Iteration(Initial(now), Input(AnswerWith([HomeworkOne], Int(1700000000)), now + 5, [])) ==
            Cycle(State(Int(now + 5), ApprovedText, ""), [ApprovedText, ApprovedText], RetryPeriod, None)
  {
    assert Find(HomeworkOne.entries, "homework_name") == Some(Str("hw1"));
    assert Find(HomeworkOne.entries, "status") == Some(Str("approved"));
    assert ParseStatus(HomeworkOne) == Success(ApprovedText);
  }

  /** An answer with status 500 raises "Ошибка 500", which is sent once and cached. */
  lemma ServerErrorScenario(s: State)
    requires s.errorMessage != "Ошибка 500"
    ensures Iteration(s, Input(Answered(500, Malformed), 0, [])) ==
            Cycle(s.(errorMessage := "Ошибка 500"), ["Ошибка 500"], 2 * RetryPeriod, None)
  {
    assert NatToString(500) == "500" by {
      assert NatToString(5) == "5";
      assert NatToString(50) == "50";
    }
    assert IntToString(500) == "500";
    assert BadStatusPrefix + "500" == "Ошибка 500";
    assert GetApiAnswer(Answered(500, Malformed)) == Failure(EndpointException("Ошибка 500"));
    assert Text(EndpointException("Ошибка 500")) == "Ошибка 500";
    assert Prepare(Answered(500, Malformed)) == Failure(EndpointException("Ошибка 500"));
  }

  /** An undocumented status is reported as a ParseStatusException, not as a notification. */
  lemma UnknownStatusScenario(s: State)
    requires s.errorMessage == ""
    ensures var odd := Dict([("homework_name", Str("hw1")), ("status", Str("unknown_status"))]);
            Iteration(s, Input(AnswerWith([odd], Int(1700000000)), 0, [])).sends == [UndocumentedStatusText]
  {
    var odd := Dict([("homework_name", Str("hw1")), ("status", Str("unknown_status"))]);
    assert Find(odd.entries, "homework_name") == Some(Str("hw1"));
    assert Find(odd.entries, "status") == Some(Str("unknown_status"));
  }

  /** The cursor is not monotone: a repeated notification moves it back to an earlier `current_date`. */
  lemma CursorCanMoveBack()
    ensures var s := State(Int(1700000000), ApprovedText, "");
            Iteration(s, Input(AnswerWith([HomeworkOne], Int(5)), 1700000600, [])).state.timestamp == Int(5)
  {
    var answer := AnswerWith([HomeworkOne], Int(5)).body.value;
    assert Find(answer.entries, "homeworks") == Some(List([HomeworkOne]));
    assert Find(answer.entries, "current_date") == Some(Int(5));
    assert Find(HomeworkOne.entries, "homework_name") == Some(Str("hw1"));
    assert Find(HomeworkOne.entries, "status") == Some(Str("approved"));
    assert ParseStatus(HomeworkOne) == Success(ApprovedText);
  }

  /** Without `current_date` in the answer, a repeated notification leaves the cursor as None. */
  lemma CursorCanBecomeNone()
    ensures var s := State(Int(1700000000), ApprovedText, "");
            var reply := Answered(StatusOk, Json(Dict([("homeworks", List([HomeworkOne]))])));
            Iteration(s, Input(reply, 1700000600, [])).state.timestamp == Null
  {
    assert Find(HomeworkOne.entries, "homework_name") == Some(Str("hw1"));
    assert Find(HomeworkOne.entries, "status") == Some(Str("approved"));
    assert ParseStatus(HomeworkOne) == Success(ApprovedText);
  }

  // ---------------------------------------------------------------- main

  datatype Phase = Polling | Exited | Crashed(error: Error)

  /**
   * main's state: its three locals, what it has done so far (the `from_date`
   * of each request, every text handed to `send_message`, seconds slept), and
   * whether it is still looping.
   */
  class Bot {
    var timestamp: Value
    var cacheMessage: string
    var errorMessage: string
    var fromDates: seq<Value>
    var outbox: seq<string>
    var slept: nat
    var phase: Phase

    function Locals(): State
      reads this
    {
      State(timestamp, cacheMessage, errorMessage)
    }

    /** What main has done so far, as a Run. */
    function Progress(): Run
      reads this
    {
      Run(Locals(), fromDates, outbox, slept, if phase.Crashed? then Some(phase.error) else None)
    }

    /** main before its loop: the locals are set, then missing tokens end the process. */
    constructor (tokens: Tokens, now: int)
      ensures Locals() == Initial(now) && fromDates == [] && outbox == [] && slept == 0
      ensures phase == if CheckTokens(tokens) then Polling else Exited
    {
      timestamp := Int(now);
      cacheMessage := "";
      errorMessage := "";
      fromDates, outbox, slept := [], [], 0;
      phase := Polling;
      if !CheckTokens(tokens) {
        phase := Exited;
      }
    }

    /** One `send_message` call: the text goes to the transport, which may refuse it. */
    method Send(text: string, d: Delivery) returns (raised: Option<Error>)
      modifies this`outbox
      ensures outbox == old(outbox) + [text]
      ensures raised == SendMessage(text, d)
    {
      outbox := outbox + [text];
      raised := SendMessage(text, d);
    }

    /** The try block of one pass: what it sends and what it raises; `calls` counts its `send_message` calls. */
    method Try(input: Input) returns (raised: Option<Error>, calls: nat)
      modifies this`timestamp, this`cacheMessage, this`outbox
      ensures var a := TryBlock(old(Locals()), input);
              Locals() == a.state && outbox == old(outbox) + a.sends && raised == a.raised && calls == |a.sends|
    {
      calls := 0;
      raised := None;
      var prepared := Prepare(input.reply);
      if prepared.Failure? {
        raised := Some(prepared.error);
      } else if prepared.value.Notify? {
        raised, calls := SendReport(prepared.value.message, prepared.value.currentDate, input);
      }
    }

    /** The sending part of the try block, step by step. */
    method SendReport(message: string, currentDate: Value, input: Input) returns (raised: Option<Error>, calls: nat)
      modifies this`timestamp, this`cacheMessage, this`outbox
      ensures var a := Publish(old(Locals()), message, currentDate, input);
              Locals() == a.state && outbox == old(outbox) + a.sends && raised == a.raised && calls == |a.sends|
    {
      ghost var s0 := Locals();
      ghost var before := outbox;
      raised := Send(message, DeliveryOf(input.deliveries, 0));
      calls := 1;
      if raised.Some? {
        return;
      }
      timestamp := currentDate;
      if message != cacheMessage {
        raised := Send(message, DeliveryOf(input.deliveries, 1));
        calls := 2;
        assert outbox == before + [message, message];
        if raised.None? {
          cacheMessage := message;
          timestamp := Int(input.now);
        }
      }
    }

    /** One pass of the `while True` body: the try block, its except clause and its finally clause. */
    method Cycle(input: Input)
      requires phase == Polling
      modifies this
      ensures var c := Iteration(old(Locals()), input);
              Locals() == c.state && fromDates == old(fromDates) + [old(timestamp)] &&
              outbox == old(outbox) + c.sends && slept == old(slept) + c.sleep &&
              phase == (if c.crash.Some? then Crashed(c.crash.value) else Polling)
    {
      fromDates := fromDates + [timestamp];
      ghost var a := TryBlock(old(Locals()), input);
      var raised, calls := Try(input);
      if raised.Some? {
        var text := Text(raised.value);
        if text != errorMessage {
          var failed := Send(text, DeliveryOf(input.deliveries, calls));
          assert outbox == old(outbox) + (a.sends + [text]);
          if failed.Some? {
            slept := slept + RetryPeriod;
            phase := Crashed(failed.value);
            return;
          }
          errorMessage := text;
        }
        slept := slept + RetryPeriod;
      }
      slept := slept + RetryPeriod;
    }

    /**
     * The `while True` loop over a bounded list of inputs: it runs them in turn
     * and stops early only when main crashes; an exited main does nothing.
     */
    method Poll(inputs: seq<Input>)
      modifies this
      ensures old(phase) != Polling ==> Progress() == old(Progress()) && phase == old(phase)
      ensures old(phase) == Polling ==> Progress() == Then(old(Progress()), Loop(old(Locals()), inputs)) && !phase.Exited?
    {
      if phase != Polling {
        return;
      }
      ghost var start := Progress();
      ghost var s0 := Locals();
      var i := 0;
      while i < |inputs| && phase == Polling
        invariant 0 <= i <= |inputs| && !phase.Exited?
        invariant Progress() == Then(start, Loop(s0, inputs[..i]))
      {
        LoopStep(start, s0, inputs, i);
        Cycle(inputs[i]);
        i := i + 1;
      }
      LoopDone(s0, inputs, i);
    }
  }

  /**
   * main over a bounded list of loop inputs: without all three tokens it exits
   * before its first request; otherwise its first request starts from the
   * clock's time and the loop runs as Loop describes.
   */
  method Launch(tokens: Tokens, now: int, inputs: seq<Input>) returns (bot: Bot)
    ensures (bot.phase == Exited) <==> !CheckTokens(tokens)
    ensures !CheckTokens(tokens) ==> bot.fromDates == [] && bot.outbox == [] && bot.slept == 0
    ensures CheckTokens(tokens) ==> bot.Progress() == Loop(Initial(now), inputs)
    ensures CheckTokens(tokens) && inputs != [] ==> bot.fromDates[0] == Int(now)
  {
    bot := new Bot(tokens, now);
    bot.Poll(inputs);
    OneRequestPerCycle(Initial(now), inputs);
  }
}
