# homework_bot: the validation and formatting core, in Dafny

The bot polls a homework-review status API every ten minutes. It forwards the
status of the first homework in the answer to a Telegram chat. When a cycle fails, it
relays the error to the same chat. This project models the deterministic part
of `homework.py`:

- the verdict table `HOMEWORK_VERDICTS`;
- `check_tokens`, the startup check of the three secrets;
- `check_response`, which demands a `homeworks` key that holds a list;
- `parse_status`, which checks the `status` and `homework_name` fields in order,
  looks the status up and builds the notification text;
- the body of `main`'s loop: which messages one cycle hands to `send_message`.
  The loop itself runs over a finite list of cycles, after the credential check.

Layout:

- `wrappers.dfy`: `Option` and `Result`. Each exception the script raises becomes a `Failure`.
- `json.dfy`: decoded JSON values, plus the Python behaviour the bot relies on:
  `type(v)` names, `str(v)` in an f-string, and substring `in`.
- `homework.dfy`: the verdict table, the error kinds with their `str()` texts,
  and the check_tokens, check_response and parse_status functions.
  Also `PollOnce` and `CycleMessages`, one cycle of `main` as a function of the API answer.
- `homework_properties.dfy`: the properties of those functions as lemmas.
- `notification.dfy`: `ReadNotification`, the inverse of the notification
  format. It shows that a notification determines the printed homework name and the status.
  It also shows that no failure report reads as a notification.
- `bot_loop.dfy`: the chat client as a class holding the list of received
  messages, one imperative cycle (`RunCycle`), and `RunBot`. `RunBot` runs the
  credential check, then the loop. Both methods are proved against the functions above.

Behaviour of the script that is easy to misread, which the model follows:

- `str()` of a `KeyError` is the repr of its message, so it is in single quotes.
  The failure report for a missing field therefore reads `Сбой в работе программы: 'Отсутствуют данные status'`.
- Only a `dict` answer can produce the missing-key error. Any other answer (a list, a
  string, null, a number) raises the interpreter's `TypeError` when subscripted,
  which `except KeyError` does not catch.
- `section not in homework` is Python's `in`. For a list record it tests
  element membership; for a string record it is a substring test; for null, a
  boolean or a number it raises `TypeError`. A list or string record that passes
  the test still fails on `homework['status']`.
- A list or dict `status` cannot be hashed. The lookup then raises `TypeError`,
  not the unknown-status error. Null, booleans and numbers give the unknown-status error.
- A failed delivery inside `send_message` is swallowed. So a status message that
  the chat does not accept never turns into a failure report.

## Model

| member | source | states |
|---|---|---|
| `HomeworkProperties.KnownStatuses` | homework.py:21-25 | the verdict table knows exactly `approved`, `reviewing` and `rejected` |
| `Homework.All` | homework.py:30-31 | Python's `all(...)` over the secrets holds exactly when every one is set and non-empty |
| `Homework.KeyErrorText` | homework.py:81 | `str()` of a KeyError is its message in single quotes |
| `Homework.ErrorText` | homework.py:104-105 | the text a caught error prints as: KeyErrors in single quotes, a missing-field error naming its field, the fetch's and the interpreter's exceptions as their own text |
| `Homework.FailureMessage` | homework.py:105 | a failure report is the failure prefix followed by the error's text, and never starts like a status notification |
| `Homework.StatusMessage` | homework.py:88 | a notification has the printed name between the prefix and the closing quote, then the separator and the verdict |
| `Json.PyStr` | homework.py:88 | the f-string inserts a string name as it is and an integer name as decimal text without leading zeros that reads back as the number |
| `Json.Decimal` | homework.py:88 | `str(n)` of an int is decimal text without leading zeros, with a minus sign exactly for negative numbers, that reads back as `n` |
| `Homework.CheckTokens` | homework.py:28-34 | returns true exactly when all three secrets are set and non-empty; otherwise raises the missing-credentials error; never returns false |
| `Homework.CheckResponse` | homework.py:62-71 | succeeds exactly when the answer is an object whose `homeworks` value is a list, and then returns true, never false |
| `HomeworkProperties.CheckResponseMissingKey` | homework.py:64-67 | an object without `homeworks` fails with the missing-key error |
| `HomeworkProperties.CheckResponseNotAList` | homework.py:68-70 | a `homeworks` value that is not a list fails with the type error naming its class, which is distinct from the missing-key error |
| `HomeworkProperties.CheckResponseAcceptsEveryList` | homework.py:65-71 | every list is accepted, the empty one included |
| `HomeworkProperties.CheckResponseReadsOnlyHomeworks` | homework.py:64-71 | two objects that agree on `homeworks` get the same verdict: no other key is read |
| `HomeworkProperties.CheckResponseNonObject` | homework.py:64-67 | an answer that is not an object fails with the interpreter's type error, not the missing-key error |
| `Homework.SubscriptError` | homework.py:64-67 | subscripting a value that is not a dict raises the interpreter's TypeError, which `except KeyError` does not catch |
| `Homework.MissingSection` | homework.py:76-81 | the section loop passes exactly when every section is present; otherwise it raises the error of the first section, in list order, that fails |
| `Homework.Verdict` | homework.py:84-87 | the lookup succeeds exactly for a string status in the table and returns that status's verdict text |
| `HomeworkProperties.ParseStatusMessage` | homework.py:82-88 | a valid record gives exactly `Изменился статус проверки работы "<name>". <verdict>` |
| `Homework.ParseStatus` | homework.py:74-88 | parse_status succeeds if and only if the record is an object with both fields and a status of the table, and then returns the notification of the printed name and that status's verdict |
| `HomeworkProperties.ParseStatusChecksStatusFirst` | homework.py:76-81 | a record without `status` fails naming `status`, whether or not it has `homework_name` |
| `HomeworkProperties.ParseStatusChecksFieldsBeforeStatus` | homework.py:76-86 | a record with a status but no `homework_name` fails naming `homework_name`, even when the status is unknown |
| `HomeworkProperties.ParseStatusUnknownStatus` | homework.py:84-86 | with both fields present, a status outside the table (another string, null, a boolean, a number) fails with the unknown-status error |
| `HomeworkProperties.ParseStatusReadsTwoFields` | homework.py:76-88 | the result depends only on the `status` and `homework_name` entries |
| `HomeworkProperties.ParseStatusNonObject` | homework.py:78-83 | a record that is not an object never produces a notification |
| `Homework.PollOnce` | homework.py:96-103 | a cycle's try block succeeds only on an answer with a `homeworks` list, and has nothing to send exactly when that list is empty |
| `Homework.CycleMessages` | homework.py:96-107 | a cycle sends at most one message, and none exactly when the list is empty and nothing failed |
| `HomeworkProperties.CycleEmptyList` | homework.py:99-100 | an empty `homeworks` list sends nothing and reports no error |
| `HomeworkProperties.CycleFirstElement` | homework.py:100-103 | a non-empty list sends exactly one message: element 0's notification, or the report of the error its parsing raised |
| `HomeworkProperties.CycleIgnoresLaterElements` | homework.py:100-101 | elements after the first do not change what a cycle sends |
| `HomeworkProperties.CycleReportsErrors` | homework.py:104-107 | any error in a cycle sends exactly one message, `Сбой в работе программы: ` followed by the error's text, and it is not a status notification |
| `HomeworkProperties.CycleReportsApiError` | homework.py:98-107 | an exception from the fetch is reported with its own text |
| `HomeworkProperties.CycleApprovedExample` | homework.py:96-103 | the answer with one approved record `hw1` sends exactly the approval notification for `hw1` |
| `Notification.TailsExclusive` | homework.py:21-25 | no text ends with the verdicts of two different statuses |
| `Notification.ReadNotificationRoundTrip` | homework.py:88 | reading a notification back gives the name and the status it was built from |
| `Notification.ReadNotificationSound` | homework.py:88 | any text that reads as a notification is the notification for the name and status read |
| `Notification.StatusMessageInjective` | homework.py:88 | different names or statuses give different notification texts |
| `Notification.FailureIsNoNotification` | homework.py:104-107 | a failure report never reads as a status notification |
| `BotLoop.Bot.constructor` | homework.py:94 | the bot is built with the Telegram token and has sent nothing yet |
| `BotLoop.Bot.SendMessage` | homework.py:37-43 | the chat receives the message when delivery works; a failed delivery is swallowed and changes nothing |
| `BotLoop.Transcript` | homework.py:95-108 | the chat receives at most one message per cycle |
| `BotLoop.RunCycle` | homework.py:96-107 | the imperative try/except of one cycle adds exactly that cycle's received messages to the chat |
| `BotLoop.RunBot` | homework.py:91-108 | with a missing secret, main stops with the missing-credentials error before a bot exists; otherwise the chat receives the transcript of every cycle, in order |
| `BotLoop.TranscriptAppend` | homework.py:95-108 | the transcript of two consecutive runs of cycles is the transcript of the first followed by that of the second |

## Left out

- `get_api_answer` (homework.py:46-59) makes the HTTP request and is not modelled. Its outcome is an input: the decoded body, or the text of the exception it raised. That covers the non-200 `RequestException` and a failed JSON decode. A transport failure makes the code read an unbound `response`; this case is also only an exception text here.
- `ENDPOINT`, `HEADERS` and the `from_date` parameter belong to the request and are not modelled.
- `time.time()`, `time.sleep(RETRY_PERIOD)` and the endless `while True`: the clock and the sleep are left out. The loop runs over a finite list of cycles.
- All `logging` calls and the logging setup under `__main__` are output side effects only.
- `load_dotenv` and `os.getenv`: the three secrets are inputs, `None` when unset.
- `telegram.Bot` and its network call: the client is a class that records the messages the chat receives. Whether a delivery works is an input per cycle. A failure while constructing the client is not modelled.
- Json: JSON numbers are integers. A float `status` or `homework_name` is not modelled.
- ParseStatus: a `homework_name` that is a JSON array or object is printed with a stand-in text (`[...]`, `{...}`). Python's repr of containers, with its key order and escaping, is not modelled. Strings, integers, null and booleans print exactly as `str()` prints them.
- The texts of the interpreter's own `TypeError`s are those of CPython 3.10. From 3.11 on, subscripting a string with a string reads `string indices must be integers, not 'str'`.
- KeyErrorText: puts the message between single quotes, which is Python's repr only for a message with no single quote, no backslash and no non-printable character. Every message homework.py raises is like that: the two field names of parse_status and the fixed texts. A missing-field error for any other name is not reachable from the code, and for such a name the model does not give Python's repr.
