/** What check_tokens, check_response, parse_status and one cycle of main
    promise, stated over the model in module Homework. */
module HomeworkProperties {
  import opened Wrappers
  import opened Json
  import opened Homework

  // ---------------------------------------------------------------- check_response

  /** An object without a `homeworks` key is refused with the missing-key error. */
  lemma CheckResponseMissingKey(fields: map<string, Json>)
    requires "homeworks" !in fields
    ensures CheckResponse(JObj(fields)) == Failure(MissingKey)
  {
  }

  /** A `homeworks` value that is not a list (null, a boolean, a number, a string,
      an object) is refused with the type error naming its class, never with the
      missing-key error. */
  lemma CheckResponseNotAList(fields: map<string, Json>)
    requires "homeworks" in fields && !fields["homeworks"].JArr?
    ensures CheckResponse(JObj(fields)) == Failure(NotAList(PyTypeName(fields["homeworks"])))
    ensures CheckResponse(JObj(fields)) != Failure(MissingKey)
  {
  }

  /** Every list is accepted, the empty one included, whatever the other keys hold. */
  lemma CheckResponseAcceptsEveryList(fields: map<string, Json>, items: seq<Json>)
    ensures CheckResponse(JObj(fields["homeworks" := JArr(items)])) == Success(true)
  {
  }

  /** No key but `homeworks` is inspected. */
  lemma CheckResponseReadsOnlyHomeworks(fields1: map<string, Json>, fields2: map<string, Json>)
    requires "homeworks" in fields1 <==> "homeworks" in fields2
    requires "homeworks" in fields1 ==> fields1["homeworks"] == fields2["homeworks"]
    ensures CheckResponse(JObj(fields1)) == CheckResponse(JObj(fields2))
  {
  }

  /** An answer that is not an object cannot be subscripted and raises the interpreter's TypeError. */
  lemma CheckResponseNonObject(response: Json)
    requires !response.JObj?
    ensures CheckResponse(response).Failure? && CheckResponse(response).error.RuntimeTypeError?
  {
  }

  // ---------------------------------------------------------------- parse_status

  /** The statuses the verdict table knows. */
  lemma KnownStatuses()
    ensures HomeworkVerdicts.Keys == {"approved", "reviewing", "rejected"}
  {
  }

  /** A valid record gives exactly the notification text: the name as `str()` prints
      it (a string as it is), then the verdict of its status. */
  lemma ParseStatusMessage(fields: map<string, Json>, status: string)
    requires "status" in fields && fields["status"] == JStr(status) && status in HomeworkVerdicts
    requires "homework_name" in fields
    ensures ParseStatus(JObj(fields)) ==
      Success("Изменился статус проверки работы \"" + PyStr(fields["homework_name"]) + "\". " + HomeworkVerdicts[status])
  {
    assert SectionCheck(JObj(fields), Sections[0]).None? && SectionCheck(JObj(fields), Sections[1]).None?;
  }

  /** `status` is checked first: a record lacking it fails naming `status`, whether or not it has a name. */
  lemma ParseStatusChecksStatusFirst(fields: map<string, Json>)
    requires "status" !in fields
    ensures ParseStatus(JObj(fields)) == Failure(MissingField("status"))
  {
    assert SectionCheck(JObj(fields), Sections[0]) == Some(MissingField("status"));
  }

  /** The missing-field check comes before the lookup: without `homework_name` the
      record fails naming it, whatever its status, known or not. */
  lemma ParseStatusChecksFieldsBeforeStatus(fields: map<string, Json>)
    requires "status" in fields && "homework_name" !in fields
    ensures ParseStatus(JObj(fields)) == Failure(MissingField("homework_name"))
  {
    assert SectionCheck(JObj(fields), Sections[0]).None?;
    assert SectionCheck(JObj(fields), Sections[1]) == Some(MissingField("homework_name"));
  }

  /** A status outside the table (any other string, null, a boolean or a number)
      fails with the unknown-status error. */
  lemma ParseStatusUnknownStatus(fields: map<string, Json>)
    requires "status" in fields && "homework_name" in fields
    requires !fields["status"].JArr? && !fields["status"].JObj?
    requires !(fields["status"].JStr? && fields["status"].s in HomeworkVerdicts)
    ensures ParseStatus(JObj(fields)) == Failure(UnknownStatus)
  {
    assert SectionCheck(JObj(fields), Sections[0]).None? && SectionCheck(JObj(fields), Sections[1]).None?;
  }

  /** The result depends on the `status` and `homework_name` entries only. */
  lemma ParseStatusReadsTwoFields(fields1: map<string, Json>, fields2: map<string, Json>)
    requires forall k :: k in Sections ==> (k in fields1 <==> k in fields2)
    requires forall k :: k in Sections && k in fields1 ==> fields1[k] == fields2[k]
    ensures ParseStatus(JObj(fields1)) == ParseStatus(JObj(fields2))
  {
    assert Sections[0] in Sections && Sections[1] in Sections;
    assert SectionCheck(JObj(fields1), Sections[0]) == SectionCheck(JObj(fields2), Sections[0]);
    assert SectionCheck(JObj(fields1), Sections[1]) == SectionCheck(JObj(fields2), Sections[1]);
  }

  /** A record that is not an object is never turned into a notification. */
  lemma ParseStatusNonObject(homework: Json)
    requires !homework.JObj?
    ensures ParseStatus(homework).Failure?
  {
  }

  // ---------------------------------------------------------------- one cycle of main

  /** An empty `homeworks` list sends nothing and reports nothing. */
  lemma CycleEmptyList(fields: map<string, Json>)
    requires "homeworks" in fields && fields["homeworks"] == JArr([])
    ensures CycleMessages(Answer(JObj(fields))) == []
  {
  }

  /** A non-empty list sends exactly one message, made from element 0: its
      notification, or the report of the error parse_status raised on it. */
  lemma CycleFirstElement(fields: map<string, Json>, items: seq<Json>)
    requires "homeworks" in fields && fields["homeworks"] == JArr(items) && items != []
    ensures CycleMessages(Answer(JObj(fields))) ==
      match ParseStatus(items[0])
      case Success(message) => [message]
      case Failure(e) => [FailureMessage(e)]
  {
  }

  /** Elements after the first are never looked at. */
  lemma CycleIgnoresLaterElements(fields: map<string, Json>, first: Json, rest1: seq<Json>, rest2: seq<Json>)
    ensures CycleMessages(Answer(JObj(fields["homeworks" := JArr([first] + rest1)]))) ==
            CycleMessages(Answer(JObj(fields["homeworks" := JArr([first] + rest2)])))
  {
  }

  /** An error anywhere in the cycle (the fetch, check_response, parse_status) sends
      exactly one failure report and no notification. */
  lemma CycleReportsErrors(answer: ApiAnswer)
    requires PollOnce(answer).Failure?
    ensures CycleMessages(answer) == [FailurePrefix + ErrorText(PollOnce(answer).error)]
    ensures !(StatusPrefix <= CycleMessages(answer)[0])
  {
    assert FailurePrefix[0] != StatusPrefix[0];
  }

  /** An exception from the fetch is reported with its own text. */
  lemma CycleReportsApiError(text: string)
    ensures CycleMessages(Raised(text)) == ["Сбой в работе программы: " + text]
  {
  }

  /** The answer `{"homeworks": [{"status": "approved", "homework_name": "hw1"}]}`
      sends exactly the approval notification for hw1. */
  lemma CycleApprovedExample()
    ensures CycleMessages(Answer(JObj(map["homeworks" := JArr([JObj(map["status" := JStr("approved"), "homework_name" := JStr("hw1")])])])))
         == ["Изменился статус проверки работы \"" + "hw1" + "\". " + "Работа проверена: ревьюеру всё понравилось. Ура!"]
  {
    var record := map["status" := JStr("approved"), "homework_name" := JStr("hw1")];
    var response := map["homeworks" := JArr([JObj(record)])];
    ParseStatusMessage(record, "approved");
    assert CheckResponse(JObj(response)) == Success(true);
  }
}
