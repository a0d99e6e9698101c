/**
 * The decision functions of homework.py: the token check, the verdict table,
 * sending a message, classifying the answer of the homework-status API,
 * validating its shape and rendering the notification text.
 */
module Homework {
  import opened Wrappers
  import opened Values
  import opened Exceptions

  /** Seconds the loop sleeps per `time.sleep(RETRY_PERIOD)`. */
  const RetryPeriod: nat := 600

  /** HTTPStatus.OK, section 15.3.1 of RFC 9110. */
  const StatusOk: int := 200

  /** HOMEWORK_VERDICTS: the human-readable text for each documented status. */
  const HomeworkVerdicts: map<string, string> := map[
    "approved" := "Работа проверена: ревьюеру всё понравилось. Ура!",
    "reviewing" := "Работа взята на проверку ревьюером.",
    "rejected" := "Работа проверена: у ревьюера есть замечания."
  ]

  const RequestFailedText := "Ошибка при запросе к API"
  const BadStatusPrefix := "Ошибка "
  const MalformedJsonText := "Ошибка парсинга ответа из формата json"
  const NotDictText := "Ответ API не словарь"
  const NoHomeworksText := "Данные приходят не в виде словаря"
  const NotListText := "Данные приходят не в виде списка"
  const NoNameText := "Отсутствие ожидаемых ключей в ответе API (homework_name)"
  const NoStatusText := "Отсутствие ожидаемых ключей в ответе API (status)"
  const UndocumentedStatusText := "Недокументированный статус домашней работы в ответе от API"
  const SendFailedPrefix := "Ошибка отправки статуса в telegram: "
  const NotificationPrefix := "Изменился статус проверки работы \""
  const NotificationSeparator := "\". "

  // ---------------------------------------------------------------- tokens

  /** PRACTICUM_TOKEN, TELEGRAM_TOKEN and TELEGRAM_CHAT_ID as `os.getenv` returns them. */
  datatype Tokens = Tokens(practicum: Option<string>, telegram: Option<string>, chatId: Option<string>)

  /** Python truthiness of an optional string: present and not empty. */
  predicate Truthy(token: Option<string>)
  {
    token.Some? && token.value != ""
  }

  /** Python's `all` over a list of optional strings. */
  function All(tokens: seq<Option<string>>): (r: bool)
    ensures r <==> forall k :: 0 <= k < |tokens| ==> Truthy(tokens[k])
  {
    if tokens == [] then true
    else
      assert forall k :: 0 < k < |tokens| ==> tokens[1..][k - 1] == tokens[k];
      Truthy(tokens[0]) && All(tokens[1..])
  }

  /** check_tokens: every one of the three credentials is present and non-empty. */
  function CheckTokens(t: Tokens): (r: bool)
    ensures r <==> Truthy(t.practicum) && Truthy(t.telegram) && Truthy(t.chatId)
  {
    var all := [t.practicum, t.telegram, t.chatId];
    assert all[0] == t.practicum && all[1] == t.telegram && all[2] == t.chatId;
    All(all)
  }

  // ---------------------------------------------------------------- sending

  /** What the messaging transport does with one `bot.send_message` call. */
  datatype Delivery = Delivered | Refused(reason: string)

  /**
   * send_message: the error it raises, if any. A refusal by the transport is
   * re-raised as a TelegramError that names the transport's own text.
   */
  function SendMessage(message: string, d: Delivery): (raised: Option<Error>)
    ensures raised.None? <==> d.Delivered?
    ensures raised.Some? ==> raised.value.TelegramError?
    ensures raised.Some? ==> Text(raised.value) == SendFailedPrefix + d.reason
  {
    match d
    case Delivered => None
    case Refused(reason) => Some(TelegramError(SendFailedPrefix + reason))
  }

  // ---------------------------------------------------------------- the API answer

  /** The body of an HTTP answer: decodable as JSON, or not. */
  datatype Body = Json(value: Value) | Malformed

  /** What `requests.get` does: fail in transport, or answer with a status code and a body. */
  datatype Reply = RequestFailed | Answered(statusCode: int, body: Body)

  /**
   * get_api_answer: only a 200 answer is decoded; a transport failure and any
   * other status are EndpointExceptions, an undecodable body a ParseStatusException.
   */
  function GetApiAnswer(reply: Reply): (r: Result<Value, Error>)
    ensures r.Success? <==> reply.Answered? && reply.statusCode == StatusOk && reply.body.Json?
    ensures r.Success? ==> r.value == reply.body.value
    ensures r.Failure? ==> (r.error.EndpointException? <==> reply.RequestFailed? || reply.statusCode != StatusOk)
    ensures r.Failure? ==> (r.error.ParseStatusException? <==> !r.error.EndpointException?)
    ensures reply.RequestFailed? ==> r == Failure(EndpointException(RequestFailedText))
    ensures reply.Answered? && reply.statusCode == StatusOk && reply.body.Malformed? ==>
              r == Failure(ParseStatusException(MalformedJsonText))
  {
    match reply
    case RequestFailed => Failure(EndpointException(RequestFailedText))
    case Answered(code, body) =>
      if code != StatusOk then Failure(EndpointException(BadStatusPrefix + IntToString(code)))
      else match body
        case Malformed => Failure(ParseStatusException(MalformedJsonText))
        case Json(v) => Success(v)
  }

  /** The error for a non-200 answer is "Ошибка " followed by the status code, which can be read back from it. */
  lemma BadStatusNamesCode(code: int, body: Body)
    requires code != StatusOk
    ensures var r := GetApiAnswer(Answered(code, body));
            r.Failure? && r.error.EndpointException? &&
            Text(r.error)[..|BadStatusPrefix|] == BadStatusPrefix &&
            ParseInt(Text(r.error)[|BadStatusPrefix|..]) == Some(code)
  {
    var t := BadStatusPrefix + IntToString(code);
    assert t[|BadStatusPrefix|..] == IntToString(code);
    IntToStringRoundTrip(code);
  }

  // ---------------------------------------------------------------- response shape

  /**
   * check_response: the answer must be a dict with a `homeworks` key whose value
   * is a list; that list is returned as it is, empty or not.
   */
  function CheckResponse(response: Value): (r: Result<seq<Value>, Error>)
    ensures r.Success? <==> response.Dict? && Find(response.entries, "homeworks").Some?
                            && Find(response.entries, "homeworks").value.List?
    ensures r.Success? ==> r.value == Find(response.entries, "homeworks").value.items
    ensures !response.Dict? ==> r == Failure(TypeError(NotDictText))
    ensures response.Dict? && Find(response.entries, "homeworks").None? ==> r == Failure(KeyError(NoHomeworksText))
    ensures response.Dict? && Find(response.entries, "homeworks").Some? && !Find(response.entries, "homeworks").value.List? ==>
              r == Failure(TypeError(NotListText))
  {
    if !response.Dict? then Failure(TypeError(NotDictText))
    else match Find(response.entries, "homeworks")
      case None => Failure(KeyError(NoHomeworksText))
      case Some(homeworks) =>
        if !homeworks.List? then Failure(TypeError(NotListText))
        else Success(homeworks.items)
  }

  // ---------------------------------------------------------------- status formatting

  /** The f-string of parse_status: a fixed opening, the name in quotes, a fixed separator, the verdict. */
  function Notification(name: string, verdict: string): (r: string)
    ensures |r| == |NotificationPrefix| + |name| + |NotificationSeparator| + |verdict|
    ensures r[..|NotificationPrefix|] == NotificationPrefix
    ensures r[|r| - |verdict|..] == verdict
  {
    NotificationPrefix + name + NotificationSeparator + verdict
  }

  /** A homework record parse_status renders: a dict with a name and a documented status. */
  predicate IsReportable(homework: Value)
  {
    homework.Dict? && Get(homework.entries, "homework_name") != Null
    && Get(homework.entries, "status").Str? && Get(homework.entries, "status").s in HomeworkVerdicts
  }

  /** `HOMEWORK_VERDICTS.get(status)` followed by the None check. */
  function VerdictFor(status: Value): (r: Result<string, Error>)
    ensures r.Success? <==> status.Str? && status.s in HomeworkVerdicts
    ensures r.Success? ==> r.value == HomeworkVerdicts[status.s]
    ensures status.List? || status.Dict? ==> r == Failure(TypeError("unhashable type: '" + TypeName(status) + "'"))
    ensures !status.List? && !status.Dict? && r.Failure? ==> r == Failure(ParseStatusException(UndocumentedStatusText))
  {
    match status
    case List(_) => Failure(TypeError("unhashable type: '" + TypeName(status) + "'"))
    case Dict(_) => Failure(TypeError("unhashable type: '" + TypeName(status) + "'"))
    case Str(s) =>
      if s in HomeworkVerdicts then Success(HomeworkVerdicts[s])
      else Failure(ParseStatusException(UndocumentedStatusText))
    case _ => Failure(ParseStatusException(UndocumentedStatusText))
  }

  /**
   * parse_status: the name is checked first, then the status, then the verdict
   * table; only a reportable record is rendered, as the notification text.
   */
  function ParseStatus(homework: Value): (r: Result<string, Error>)
    ensures r.Success? <==> IsReportable(homework)
    ensures r.Success? ==> r.value == Notification(Render(Get(homework.entries, "homework_name")),
                                                   HomeworkVerdicts[Get(homework.entries, "status").s])
    ensures !homework.Dict? ==> r == Failure(AttributeError("'" + TypeName(homework) + "' object has no attribute 'get'"))
    ensures homework.Dict? && Get(homework.entries, "homework_name") == Null ==>
              r == Failure(KeyError(NoNameText))
    ensures homework.Dict? && Get(homework.entries, "homework_name") != Null && Get(homework.entries, "status") == Null ==>
              r == Failure(KeyError(NoStatusText))
    ensures homework.Dict? && Get(homework.entries, "homework_name") != Null && Get(homework.entries, "status").Str?
            && Get(homework.entries, "status").s !in HomeworkVerdicts ==>
              r == Failure(ParseStatusException(UndocumentedStatusText))
    ensures homework.Dict? && Get(homework.entries, "homework_name") != Null && Get(homework.entries, "status") != Null
            && !Get(homework.entries, "status").Str? ==>
              var status := Get(homework.entries, "status");
              r == Failure(if status.List? || status.Dict? then TypeError("unhashable type: '" + TypeName(status) + "'")
                           else ParseStatusException(UndocumentedStatusText))
  {
    if !homework.Dict? then
      Failure(AttributeError("'" + TypeName(homework) + "' object has no attribute 'get'"))
    else
      var name := Get(homework.entries, "homework_name");
      if name == Null then Failure(KeyError(NoNameText))
      else
        var status := Get(homework.entries, "status");
        if status == Null then Failure(KeyError(NoStatusText))
        else match VerdictFor(status)
          case Failure(e) => Failure(e)
          case Success(verdict) => Success(Notification(Render(name), verdict))
  }

  /** A rendered notification mentions the homework's name and its status's verdict. */
  lemma NotificationMentions(homework: Value)
    requires IsReportable(homework)
    ensures var r := ParseStatus(homework);
            r.Success? &&
            Contains(r.value, Render(Get(homework.entries, "homework_name"))) &&
            Contains(r.value, HomeworkVerdicts[Get(homework.entries, "status").s])
  {
    var name := Render(Get(homework.entries, "homework_name"));
    var verdict := HomeworkVerdicts[Get(homework.entries, "status").s];
    var m := Notification(name, verdict);
    var at := |NotificationPrefix|;
    assert m[at..] == name + NotificationSeparator + verdict;
    var after := at + |name| + |NotificationSeparator|;
    assert m[after..] == verdict;
  }

  /** No two documented statuses share their verdict's last two characters. */
  lemma VerdictEndingsDiffer(s1: string, s2: string)
    requires s1 in HomeworkVerdicts && s2 in HomeworkVerdicts
    requires var v1, v2 := HomeworkVerdicts[s1], HomeworkVerdicts[s2];
             |v1| >= 2 && |v2| >= 2 && v1[|v1| - 2..] == v2[|v2| - 2..]
    ensures s1 == s2
  {
    var a, r, j := HomeworkVerdicts["approved"], HomeworkVerdicts["reviewing"], HomeworkVerdicts["rejected"];
    assert a[|a| - 1] == '!' && r[|r| - 1] == '.' && j[|j| - 1] == '.';
    assert r[|r| - 2] == 'м' && j[|j| - 2] == 'я';
    assert s1 == "approved" || s1 == "reviewing" || s1 == "rejected";
    assert s2 == "approved" || s2 == "reviewing" || s2 == "rejected";
    var v1, v2 := HomeworkVerdicts[s1], HomeworkVerdicts[s2];
    assert v1[|v1| - 1] == v2[|v2| - 1] && v1[|v1| - 2] == v2[|v2| - 2];
  }

  lemma EndingOf(x: string, y: string)
    requires |y| >= 2
    ensures (x + y)[|x + y| - 2..] == y[|y| - 2..]
  {
  }

  /** A notification text determines the name it was rendered with and the status. */
  lemma NotificationInjective(n1: string, s1: string, n2: string, s2: string)
    requires s1 in HomeworkVerdicts && s2 in HomeworkVerdicts
    requires Notification(n1, HomeworkVerdicts[s1]) == Notification(n2, HomeworkVerdicts[s2])
    ensures n1 == n2 && s1 == s2
  {
    var v1, v2 := HomeworkVerdicts[s1], HomeworkVerdicts[s2];
    var m := Notification(n1, v1);
    assert |v1| >= 2 && |v2| >= 2;
    EndingOf(NotificationPrefix + n1 + NotificationSeparator, v1);
    EndingOf(NotificationPrefix + n2 + NotificationSeparator, v2);
    VerdictEndingsDiffer(s1, s2);
    assert |n1| == |n2|;
    assert n1 == m[|NotificationPrefix|..|NotificationPrefix| + |n1|];
  }

  /**
   * Two records with the same notification text have the same rendered name and
   * the same status, so the loop's message cache changes when one of them does.
   */
  lemma NotificationDeterminesRecord(h1: Value, h2: Value)
    requires ParseStatus(h1).Success? && ParseStatus(h2).Success?
    requires ParseStatus(h1).value == ParseStatus(h2).value
    ensures Render(Get(h1.entries, "homework_name")) == Render(Get(h2.entries, "homework_name"))
    ensures Get(h1.entries, "status") == Get(h2.entries, "status")
  {
    NotificationInjective(Render(Get(h1.entries, "homework_name")), Get(h1.entries, "status").s,
                          Render(Get(h2.entries, "homework_name")), Get(h2.entries, "status").s);
  }
}
