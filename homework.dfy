/** The validation and formatting core of the homework status bot (homework.py):
    the verdict table, the credential check, the response check, the status
    parser and what one cycle of the main loop sends.  Every exception the
    script raises is a `Failure` carrying an `Error`. */
module Homework {
  import opened Wrappers
  import opened Json

  /** HOMEWORK_VERDICTS: the review statuses the bot knows, with the verdict text sent for each. */
  const HomeworkVerdicts: map<string, string> := map[
    "approved" := "Работа проверена: ревьюеру всё понравилось. Ура!",
    "reviewing" := "Работа взята на проверку ревьюером.",
    "rejected" := "Работа проверена: у ревьюера есть замечания."
  ]

  /** The text every status notification starts with, up to the opening quote of the homework name. */
  const StatusPrefix: string := "Изменился статус проверки работы \""

  /** What separates the closing quote of the name from the verdict text. */
  const NameVerdictSeparator: string := "\". "

  /** The text every failure report starts with. */
  const FailurePrefix: string := "Сбой в работе программы: "

  /** The fields parse_status demands of a homework record, in the order it checks them. */
  const Sections: seq<string> := ["status", "homework_name"]

  /** The exceptions raised on the way from the API answer to a notification. */
  datatype Error =
    | MissingCredentials              // ValueError of check_tokens
    | MissingKey                      // KeyError of check_response: no "homeworks" key
    | NotAList(typeName: string)      // TypeError of check_response: "homeworks" is not a list
    | MissingField(name: string)      // KeyError of parse_status: a required field is absent
    | UnknownStatus                   // KeyError of parse_status: status not in the verdict table
    | ApiError(text: string)          // whatever get_api_answer raised, by its text
    | RuntimeTypeError(text: string)  // TypeError raised by the interpreter on a value of the wrong kind

  /** `str()` of a KeyError raised with `message`: the repr of the message,
      which, holding no single quote, is put in single quotes. */
  function KeyErrorText(message: string): (r: string)
    ensures |r| == |message| + 2 && r[0] == '\'' && r[|r| - 1] == '\'' && r[1..|r| - 1] == message
  {
    "'" + message + "'"
  }

  /** `str(error)` for each exception the bot raises. The KeyErrors (missing key,
      missing field, unknown status) print in single quotes, and a missing-field
      text names its field. The exceptions of the fetch and of the interpreter
      print their own text. */
  function ErrorText(e: Error): (r: string)
    ensures e.MissingKey? || e.MissingField? || e.UnknownStatus? ==> 2 <= |r| && r[0] == '\'' && r[|r| - 1] == '\''
    ensures e.MissingField? ==> |e.name| + 2 <= |r| && r[|r| - 1 - |e.name|..|r| - 1] == e.name
    ensures e.ApiError? || e.RuntimeTypeError? ==> r == e.text
  {
    match e
    case MissingCredentials => "Отсутствуют переменные окружения"
    case MissingKey => KeyErrorText("Нет ключа \"homeworks\"")
    case NotAList(typeName) => "Данные не в виде списка. Текущий тип данных - <class '" + typeName + "'>"
    case MissingField(name) => KeyErrorText("Отсутствуют данные " + name)
    case UnknownStatus => KeyErrorText("Такого статуса нет в перечне.")
    case ApiError(text) => text
    case RuntimeTypeError(text) => text
  }

  /** The report main sends for an error caught in a cycle: the failure prefix,
      then the error's text, which can be read back after the prefix. It never
      starts like a status notification. */
  function FailureMessage(e: Error): (r: string)
    ensures FailurePrefix <= r && r[|FailurePrefix|..] == ErrorText(e)
    ensures !(StatusPrefix <= r)
  {
    var r := FailurePrefix + ErrorText(e);
    assert r[0] == FailurePrefix[0] != StatusPrefix[0];
    r
  }

  /** The notification for a homework whose name prints as `name` and whose
      verdict text is `verdict`: the name stands between the prefix and the
      separator, the verdict ends the text. */
  function StatusMessage(name: string, verdict: string): (r: string)
    ensures StatusPrefix <= r && |r| == |StatusPrefix| + |name| + |NameVerdictSeparator| + |verdict|
    ensures r[|StatusPrefix|..|StatusPrefix| + |name|] == name
    ensures r[|StatusPrefix| + |name|..] == NameVerdictSeparator + verdict
  {
    StatusPrefix + name + NameVerdictSeparator + verdict
  }

  // ---------------------------------------------------------------- check_tokens

  /** The three secrets read from the environment; `None` when the variable is unset. */
  datatype Credentials = Credentials(
    practicumToken: Option<string>,
    telegramToken: Option<string>,
    telegramChatId: Option<string>)

  /** Python truthiness of an optional string. */
  predicate Truthy(v: Option<string>) {
    v.Some? && v.value != []
  }

  /** Python's `all(...)` over a list of optional strings. */
  function All(vs: seq<Option<string>>): (r: bool)
    ensures r <==> forall i :: 0 <= i < |vs| ==> Truthy(vs[i])
  {
    if vs == [] then true else Truthy(vs[0]) && All(vs[1..])
  }

  /** check_tokens: raises unless all three secrets are set and non-empty; never returns false. */
  function CheckTokens(c: Credentials): (r: Result<bool, Error>)
    ensures r == Success(true) <==> Truthy(c.practicumToken) && Truthy(c.telegramToken) && Truthy(c.telegramChatId)
    ensures r != Success(false)
    ensures r.Failure? ==> r.error == MissingCredentials
  {
    var variables := [c.telegramToken, c.telegramChatId, c.practicumToken];
    assert variables[0] == c.telegramToken && variables[1] == c.telegramChatId && variables[2] == c.practicumToken;
    if !All(variables) then Failure(MissingCredentials) else Success(All(variables))
  }

  // ---------------------------------------------------------------- Python operations on decoded values

  /** The TypeError the interpreter raises for `v['key']` when `v` is not a dict.
      It is no KeyError, so `except KeyError` does not catch it. */
  function SubscriptError(v: Json): (e: Error)
    requires !v.JObj?
    ensures e.RuntimeTypeError?
  {
    match v
    case JArr(_) => RuntimeTypeError("list indices must be integers or slices, not str")
    case JStr(_) => RuntimeTypeError("string indices must be integers")
    case _ => RuntimeTypeError("'" + PyTypeName(v) + "' object is not subscriptable")
  }

  /** Python's `key in container` for a decoded value: key membership for a dict,
      element membership for a list, a substring test for a string, and a
      TypeError for None, booleans and numbers. */
  function Contains(container: Json, key: string): Result<bool, Error>
  {
    match container
    case JObj(fields) => Success(key in fields)
    case JArr(items) => Success(JStr(key) in items)
    case JStr(s) => Success(IsSubstring(key, s))
    case _ => Failure(RuntimeTypeError("argument of type '" + PyTypeName(container) + "' is not iterable"))
  }

  // ---------------------------------------------------------------- check_response

  /** What check_response demands of an API answer: a `homeworks` key holding a list. */
  predicate HasHomeworkList(response: Json) {
    response.JObj? && "homeworks" in response.fields && response.fields["homeworks"].JArr?
  }

  /** check_response: `response['homeworks']` must exist and be a list; returns true or raises. */
  function CheckResponse(response: Json): (r: Result<bool, Error>)
    ensures r.Success? <==> HasHomeworkList(response)
    ensures r.Success? ==> r.value
  {
    match response
    case JObj(fields) =>
      if "homeworks" !in fields then Failure(MissingKey)
      else if !fields["homeworks"].JArr? then Failure(NotAList(PyTypeName(fields["homeworks"])))
      else Success(true)
    case _ => Failure(SubscriptError(response))
  }

  // ---------------------------------------------------------------- parse_status

  /** One round of the `for section in sections` loop: the error it raises, if any. */
  function SectionCheck(homework: Json, section: string): Option<Error> {
    match Contains(homework, section)
    case Failure(e) => Some(e)
    case Success(present) => if present then None else Some(MissingField(section))
  }

  /** The whole `for section in sections` loop: the first section check that raises, in order. */
  function MissingSection(homework: Json, sections: seq<string>): (r: Option<Error>)
    ensures r.None? <==> forall i :: 0 <= i < |sections| ==> SectionCheck(homework, sections[i]).None?
    ensures r.Some? ==> exists k :: 0 <= k < |sections| && r == SectionCheck(homework, sections[k]) &&
                          forall i :: 0 <= i < k ==> SectionCheck(homework, sections[i]).None?
  {
    if sections == [] then None
    else if SectionCheck(homework, sections[0]).Some? then SectionCheck(homework, sections[0])
    else
      var r := MissingSection(homework, sections[1..]);
      if r.Some? then
        var k' :| 0 <= k' < |sections| - 1 && r == SectionCheck(homework, sections[1..][k']) &&
                  forall i :: 0 <= i < k' ==> SectionCheck(homework, sections[1..][i]).None?;
        assert forall i :: 0 <= i < k' + 1 ==> SectionCheck(homework, sections[i]).None? by {
          forall i | 0 <= i < k' + 1 ensures SectionCheck(homework, sections[i]).None? {
            if i > 0 { assert sections[i] == sections[1..][i - 1]; }
          }
        }
        r
      else
        assert forall i :: 0 <= i < |sections| ==> SectionCheck(homework, sections[i]).None? by {
          forall i | 0 <= i < |sections| ensures SectionCheck(homework, sections[i]).None? {
            if i > 0 { assert sections[i] == sections[1..][i - 1]; }
          }
        }
        r
  }

  /** `status not in HOMEWORK_VERDICTS` and the lookup after it. A list or dict
      status cannot be hashed and raises a TypeError. */
  function Verdict(status: Json): (r: Result<string, Error>)
    ensures r.Success? <==> status.JStr? && status.s in HomeworkVerdicts
    ensures r.Success? ==> r.value == HomeworkVerdicts[status.s]
  {
    match status
    case JStr(s) => if s in HomeworkVerdicts then Success(HomeworkVerdicts[s]) else Failure(UnknownStatus)
    case JArr(_) => Failure(RuntimeTypeError("unhashable type: 'list'"))
    case JObj(_) => Failure(RuntimeTypeError("unhashable type: 'dict'"))
    case _ => Failure(UnknownStatus)
  }

  /** A homework record parse_status accepts: an object with both fields and a status of the table. */
  predicate ValidRecord(homework: Json) {
    homework.JObj? && "status" in homework.fields && "homework_name" in homework.fields &&
    homework.fields["status"].JStr? && homework.fields["status"].s in HomeworkVerdicts
  }

  /** parse_status: check the sections in order, look the status up, format the
      notification. It succeeds exactly on valid records, with the notification
      of the printed name and the status's verdict. */
  function ParseStatus(homework: Json): (r: Result<string, Error>)
    ensures r.Success? <==> ValidRecord(homework)
    ensures r.Success? ==>
      r.value == StatusMessage(PyStr(homework.fields["homework_name"]), HomeworkVerdicts[homework.fields["status"].s])
  {
    match MissingSection(homework, Sections)
    case Some(e) =>
      assert !ValidRecord(homework) by {
        if homework.JObj? && "status" in homework.fields && "homework_name" in homework.fields {
          assert SectionCheck(homework, Sections[0]).None? && SectionCheck(homework, Sections[1]).None?;
        }
      }
      Failure(e)
    case None =>
      match homework
      case JObj(fields) =>
        assert SectionCheck(homework, Sections[0]).None? && SectionCheck(homework, Sections[1]).None?;
        (match Verdict(fields["status"])
         case Failure(e) => Failure(e)
         case Success(verdict) => Success(StatusMessage(PyStr(fields["homework_name"]), verdict)))
      case _ => Failure(SubscriptError(homework))
  }

  // ---------------------------------------------------------------- one cycle of main

  /** The outcome of get_api_answer, which is not modelled: the decoded body, or the text of what it raised. */
  datatype ApiAnswer = Answer(body: Json) | Raised(text: string)

  /** The try block of one cycle: fetch, check_response, and parse_status of element 0
      when the list is not empty. `Success(None)` means there is nothing to send. */
  function PollOnce(answer: ApiAnswer): (r: Result<Option<string>, Error>)
    ensures r.Success? ==> answer.Answer? && HasHomeworkList(answer.body)
    ensures r == Success(None) <==> answer.Answer? && HasHomeworkList(answer.body) && answer.body.fields["homeworks"].items == []
  {
    match answer
    case Raised(text) => Failure(ApiError(text))
    case Answer(response) =>
      match CheckResponse(response)
      case Failure(e) => Failure(e)
      case Success(_) =>
        var homeworks := response.fields["homeworks"].items;
        if homeworks == [] then Success(None)
        else
          match ParseStatus(homeworks[0])
          case Failure(e) => Failure(e)
          case Success(message) => Success(Some(message))
  }

  /** The messages one cycle hands to send_message, in order: none, the status
      notification, or the failure report of the exception the except clause caught. */
  function CycleMessages(answer: ApiAnswer): (sent: seq<string>)
    ensures |sent| <= 1
    ensures sent == [] <==> PollOnce(answer) == Success(None)
  {
    match PollOnce(answer)
    case Failure(e) => [FailureMessage(e)]
    case Success(None) => []
    case Success(Some(message)) => [message]
  }
}
