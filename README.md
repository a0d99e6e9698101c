# homework_bot: a verified model of the poll-detect-notify core

homework_bot polls a homework-review API for one student and relays status changes
to a Telegram chat. This project models the decision logic of `homework.py` in Dafny
and proves what it does:

- the credential check;
- the classification of the API's HTTP answer;
- the response-shape validator;
- the status formatter and its verdict table;
- one pass of `main`'s `while True` loop, as written, and bounded runs of that loop.

Files:

- `wrappers.dfy`: `Option` and `Result`, standing for Python's `None` and for raised exceptions.
- `values.dfy`: the decoded JSON values the bot inspects, with `dict.get`, `str()`,
  `repr()` and decimal rendering of integers. `ParseInt` reads integers back.
- `exceptions.dfy`: the errors that can escape one pass of the loop. These are the two
  classes of `exceptions.py` that `homework.py` raises, Python's built-in `TypeError`,
  `KeyError` and `AttributeError`, and Telegram's `TelegramError`. `Text` is `str(error)`.
  A `KeyError` renders the repr of its argument, so its text is quoted.
- `homework.py`'s pure functions live in `homework.dfy` (module `Homework`).
- `poll_loop.dfy` (module `PollLoop`) holds the loop:
  - `TryBlock` and `Iteration` give one pass of the loop body as a pure function;
  - `Loop` folds `Iteration` over a bounded list of inputs;
  - class `Bot` holds `main`'s locals as fields. Its methods `Try`, `Cycle` and `Poll`
    update those fields step by step and are proved equal to the pure functions.

The outside world is passed in as inputs:

- the API's answer is a `Reply`: a transport failure, or a status code with a body
  that is decodable JSON or is not;
- the clock is an `int`;
- each `send_message` call is either delivered or refused with the transport's text;
- the three tokens are optional strings.

Behaviour of the code as written, which the model keeps and the lemmas state:

- A new notification is sent twice (homework.py:128 and 131). A notification equal to
  the cache is still sent once per pass, so the cache only suppresses the second send.
- The cursor first becomes `response.get("current_date")` (homework.py:129). That
  value can be `None` or earlier than the old cursor. For a new message the cursor is
  then overwritten by the clock (homework.py:133). So the cursor is not monotone.
- The error cache is never cleared (homework.py:118, 142). An error text that comes
  back after successful passes is not sent again.
- If the second send of a new message fails, the cursor has already moved to
  `current_date`.
- The error notification is sent inside the `except` clause (homework.py:141). When
  that send fails, its `TelegramError` leaves the loop after the `finally` sleep, and
  `main` ends. The model calls this a crash.
- Error texts are those of the code (Russian), for example "Ошибка 500" for a
  non-200 answer.

## Model

| member | source | states |
|---|---|---|
| `Values.Find` | homework.py:86-89 | a key lookup succeeds exactly when some entry has that key, and returns that entry's value |
| `Values.Get` | homework.py:97-105 | `dict.get` gives the stored value, or None when the key is absent |
| `Values.NatToString` | homework.py:75 | an f-string renders a natural number as non-empty decimal digits without a leading zero |
| `Values.IntToString` | homework.py:75 | an f-string renders an int as a minus sign exactly when it is negative, followed by decimal digits without a leading zero |
| `Values.IntToStringRoundTrip` | homework.py:73-75 | the decimal rendering of a status code reads back as the same integer, so it loses nothing |
| `Values.Render` | homework.py:110 | the name inserted into the notification is the string itself, and an int name reads back as that int |
| `Homework.All` | homework.py:50 | `all([...])` is true exactly when every token is present and non-empty |
| `Homework.CheckTokens` | homework.py:48-50 | the token check passes exactly when PRACTICUM_TOKEN, TELEGRAM_TOKEN and TELEGRAM_CHAT_ID are all present and non-empty |
| `Homework.SendMessage` | homework.py:53-61 | a send raises nothing exactly when it is delivered; a refusal becomes a TelegramError whose text is the fixed prefix followed by the transport's text |
| `Homework.GetApiAnswer` | homework.py:64-79 | only a 200 answer with a decodable body succeeds, with that body; a transport failure and any other status give EndpointException, an undecodable 200 body gives ParseStatusException |
| `Homework.BadStatusNamesCode` | homework.py:73-75 | a non-200 answer gives an EndpointException whose text is "Ошибка " followed by the code, and the code reads back from that text |
| `Homework.CheckResponse` | homework.py:82-92 | success exactly for a dict whose `homeworks` value is a list, returned as it is (empty included); a non-dict gives TypeError, a missing key KeyError, a non-list value TypeError |
| `Exceptions.Text` | homework.py:139 | `str(error)` is the message itself, except for a KeyError, whose text is its message in single quotes; it is empty only for an empty message of another class |
| `Homework.VerdictFor` | homework.py:41-109 | the verdict lookup succeeds exactly for the three documented status strings and returns their table entry; a list or dict status cannot be hashed and gives TypeError "unhashable type: '<type>'"; any other miss gives ParseStatusException |
| `Homework.Notification` | homework.py:110 | the notification is the fixed opening, then the quoted name and the separator, and ends with the verdict; its length is the sum of its parts |
| `Homework.ParseStatus` | homework.py:95-110 | succeeds exactly for a dict with a name and a documented status, with the notification text; a non-dict fails with AttributeError "'<type>' object has no attribute 'get'"; a missing name fails with KeyError whatever the status; then a missing status fails with KeyError; then an undocumented string status, int or bool fails with ParseStatusException, and a list or dict status with TypeError "unhashable type: '<type>'" |
| `Homework.NotificationMentions` | homework.py:105-110 | a rendered notification contains the homework's name and its status's verdict |
| `Homework.VerdictEndingsDiffer` | homework.py:41-45 | no two documented statuses have verdicts ending in the same two characters |
| `Homework.NotificationInjective` | homework.py:110 | the notification text determines the rendered name and the status |
| `Homework.NotificationDeterminesRecord` | homework.py:95-110 | two homeworks with the same notification have the same rendered name and the same status |
| `PollLoop.Initial` | homework.py:116-118 | main's loop starts with the clock's time as cursor and both caches empty |
| `PollLoop.Prepare` | homework.py:124-129 | fetching, validating and formatting succeed exactly when the answer, its shape and (for a non-empty list) the first homework are all accepted; an empty list is the quiet outcome; a failure is the exception of the first stage that fails, unchanged, and has a non-empty text; a notification carries `response.get("current_date")` |
| `PollLoop.TryBlock` | homework.py:123-135 | the try block never changes the error cache, and any exception it raises has a non-empty text |
| `PollLoop.Publish` | homework.py:128-133 | the sending part sends the message once or twice and leaves the error cache alone; the cursor stays, becomes `current_date` or becomes the clock's time; the cache stays or takes the message; it raises nothing exactly when the first send is delivered and, for a new message, the second too; what it raises is a TelegramError with a non-empty text |
| `PollLoop.Iteration` | homework.py:123-145 | one pass sends at most three texts; it sleeps 1200 seconds after an exception it survives and 600 otherwise; what ends main is always a TelegramError |
| `PollLoop.FreshStartSendsFirstError` | homework.py:118-141 | from main's initial locals, the text of an exception raised in the first pass is always sent |
| `PollLoop.QuietCycle` | homework.py:126-135 | with an empty `homeworks` list nothing is sent, no local changes, and the pass sleeps once |
| `PollLoop.NewMessageSentTwice` | homework.py:127-133 | a notification that differs from the cache is sent twice; the cache takes it and the cursor becomes the clock's time |
| `PollLoop.RepeatedMessageSentOnce` | homework.py:127-130 | a notification equal to the cache is still sent once; the cache stays and the cursor becomes `current_date` |
| `PollLoop.FirstSendRefused` | homework.py:127-129 | when the first send is refused, cursor and cache stay, and a TelegramError carrying the transport's text is raised |
| `PollLoop.SecondSendRefused` | homework.py:129-132 | when the second send of a new message is refused, the cursor has already become `current_date` while the cache keeps its old text |
| `PollLoop.FailedCycle` | homework.py:124-145 | a failure to fetch, validate or format leaves cursor and message cache unchanged; its text is sent exactly when it differs from the error cache; unless main crashes, the error cache then holds the text and the pass sleeps twice |
| `PollLoop.CrashOnlyFromErrorNotice` | homework.py:137-145 | main ends exactly when an exception's text is new and sending it is refused; it then ends with a TelegramError after one sleep |
| `PollLoop.DeliveredNeverCrashes` | homework.py:122-145 | when every send of every pass is delivered, the loop never ends |
| `PollLoop.ErrorCacheOnlyReplaced` | homework.py:137-142 | in one pass the error cache either stays or becomes the non-empty text of an exception raised in that pass |
| `PollLoop.CursorMoves` | homework.py:129-133 | in one pass the cursor stays, becomes the answer's `current_date`, or becomes the clock's time |
| `PollLoop.ErrorCacheNeverCleared` | homework.py:137-142 | once set, the error cache is never emptied by any run of passes |
| `PollLoop.PersistentErrorReportedOnce` | homework.py:137-145 | a failure that repeats with the same text is sent once, or not at all when already cached; cursor and message cache stay |
| `PollLoop.PersistentErrorReportedOnceCached` | homework.py:122-145 | while the cached error keeps recurring, nothing is sent, each pass sleeps twice, and every request uses the same cursor |
| `PollLoop.ErrorNotResentAfterRecovery` | homework.py:124-145 | an error that returns after a successful pass is not sent again |
| `PollLoop.SameReportTwice` | homework.py:127-133 | the same new homework on two passes is sent twice, then once more; the second pass moves the cursor to `current_date` |
| `PollLoop.OneRequestPerCycle` | homework.py:122-124 | each pass makes one request, and request `k` uses the cursor left by the first `k` passes; a run stops early only by crashing |
| `PollLoop.Unroll` | homework.py:122-124 | a run of passes makes at most one request per input, exactly one unless it crashed, and the first from the starting cursor |
| `PollLoop.Loop` | homework.py:122-145 | the `while True` loop over a bounded list of inputs makes at most one request per input, exactly one unless main crashed, and the first from the starting cursor |
| `PollLoop.ThenAssociative` | homework.py:122 | running passes one after another composes associatively |
| `PollLoop.UnrollSnoc` | homework.py:122-145 | one more input extends a run by one pass, unless the run has already crashed |
| `PollLoop.UnrollAfterCrash` | homework.py:137-145 | after a crash no further input is consumed |
| `PollLoop.LoopStep` | homework.py:122-145 | running input `i` after the first `i` inputs is the run over the first `i + 1` |
| `PollLoop.LoopDone` | homework.py:122-145 | a loop that consumed all inputs, or crashed, has run the whole list |
| `PollLoop.ApprovedHomeworkScenario` | homework.py:110-133 | a fresh loop that sees an approved "hw1" sends its notification twice and moves the cursor to the clock |
| `PollLoop.ServerErrorScenario` | homework.py:73-75 | a 500 answer raises "Ошибка 500", which is sent once and cached |
| `PollLoop.UnknownStatusScenario` | homework.py:105-109 | an undocumented status is reported by the ParseStatusException text, not as a notification |
| `PollLoop.CursorCanMoveBack` | homework.py:129 | a repeated notification can move the cursor back to an earlier `current_date` |
| `PollLoop.CursorCanBecomeNone` | homework.py:129 | without `current_date` a repeated notification leaves the cursor as None |
| `PollLoop.Bot.constructor` | homework.py:113-121 | main starts with the clock's time as cursor and empty caches, and exits when a token is missing |
| `PollLoop.Bot.Send` | homework.py:53-61 | one send call appends the text to the outbox and raises what SendMessage says |
| `PollLoop.Bot.Try` | homework.py:123-135 | the try block updates cursor, cache and outbox exactly as TryBlock describes |
| `PollLoop.Bot.SendReport` | homework.py:128-133 | the sending part updates cursor, cache and outbox exactly as Publish describes |
| `PollLoop.Bot.Cycle` | homework.py:122-145 | one pass records one request from the old cursor and updates locals, outbox, sleep and phase exactly as Iteration describes |
| `PollLoop.Bot.Poll` | homework.py:122-145 | the loop over a bounded list of inputs does what Loop describes, and does nothing once main has exited |
| `PollLoop.Launch` | homework.py:113-145 | without all three tokens main makes no request and sends nothing; otherwise it runs Loop from the clock's time, and its first request uses that time |

## Left out

- Logging: the logger, the rotating file handler and `logging.basicConfig` are log plumbing with no effect on behaviour.
- Environment loading (`load_dotenv`, `os.getenv`): the three tokens are inputs.
- The HTTP request (`requests.get`, the `OAuth` header, the endpoint URL): network I/O. The model takes the `Reply` as input and records only each request's `from_date`.
- `response.json()` raising: an undecodable body is taken to raise a `requests.RequestException`. This holds for requests 2.27 and later, where `JSONDecodeError` derives from it.
- Exceptions from the libraries other than those named here (for instance `requests.get` raising something other than a `RequestException`): foreign code.
- `telegram.Bot(token=...)`: it runs before the token check (homework.py:115). What the library does with a missing token is foreign code and is not modelled.
- `TelegramError`'s own processing of its message: the model uses the text it is given.
- `time.time`: the clock is an input. `time.sleep`: only the seconds are recorded; no waiting is modelled.
- `sys.exit`: modelled as `Phase.Exited`; the exit status and the printed message are not modelled.
- The infinite `while True`: only bounded lists of passes are modelled.
- `SendMessageException`, `ErrorException`, `CheckResponseException` and `NoTokensException` of `exceptions.py`: `homework.py` never raises them. `ErrorException` is only the base class of the two that are modelled.
- Floating-point JSON numbers: the value model has no floats.
- Values.Repr: strings inside a list or dict are quoted with single quotes, without Python's escaping rules. This only matters for a `homework_name` that is a list or dict.
- Values.Find: a dict holds each key once; for a value built with a repeated key, the first entry wins.
- PollLoop.ApprovedHomeworkScenario: the expected text is stated through `Notification("hw1", ...)`, which spells `Изменился статус проверки работы "hw1". Работа проверена: ревьюеру всё понравилось. Ура!`. The solver does not decide equality of such long string literals, so the literal itself is not compared.
