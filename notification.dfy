/** Reading a status notification back: the text parse_status builds names the
    homework and the review status unambiguously, and no failure report reads
    as a notification. */
module Notification {
  import opened Wrappers
  import opened Homework

  /** What a notification for `status` ends with: the closing quote of the name, then the verdict. */
  function Tail(status: string): (t: string)
    requires status in HomeworkVerdicts
    ensures |t| == |NameVerdictSeparator| + |HomeworkVerdicts[status]| && t[0] == '"'
  {
    NameVerdictSeparator + HomeworkVerdicts[status]
  }

  /** `message` is long enough to hold the prefix and ends with the tail of `status`. */
  predicate EndsWithVerdict(message: string, status: string)
    requires status in HomeworkVerdicts
  {
    |StatusPrefix| + |Tail(status)| <= |message| && message[|message| - |Tail(status)|..] == Tail(status)
  }

  /** The name part of a message that ends with the tail of `status`. */
  function NameBefore(message: string, status: string): string
    requires status in HomeworkVerdicts && EndsWithVerdict(message, status)
  {
    message[|StatusPrefix|..|message| - |Tail(status)|]
  }

  /** The printed homework name and the status of a notification, or None for any other text. */
  function ReadNotification(message: string): Option<(string, string)> {
    if !(StatusPrefix <= message) then None
    else if EndsWithVerdict(message, "approved") then Some((NameBefore(message, "approved"), "approved"))
    else if EndsWithVerdict(message, "reviewing") then Some((NameBefore(message, "reviewing"), "reviewing"))
    else if EndsWithVerdict(message, "rejected") then Some((NameBefore(message, "rejected"), "rejected"))
    else None
  }

  /** No message ends with the tails of two different statuses: the verdict
      texts differ in one of their last two characters. */
  lemma TailsExclusive(message: string, status1: string, status2: string)
    requires status1 in HomeworkVerdicts && status2 in HomeworkVerdicts
    requires EndsWithVerdict(message, status1) && EndsWithVerdict(message, status2)
    ensures status1 == status2
  {
    var approved, reviewing, rejected := HomeworkVerdicts["approved"], HomeworkVerdicts["reviewing"], HomeworkVerdicts["rejected"];
    assert approved[47] == '!' && reviewing[34] == '.' && rejected[43] == '.';
    assert reviewing[33] == 'м' && rejected[42] == 'я';
    var n := |message|;
    assert message[n - 1] == Tail(status1)[|Tail(status1)| - 1] == Tail(status2)[|Tail(status2)| - 1];
    assert message[n - 2] == Tail(status1)[|Tail(status1)| - 2] == Tail(status2)[|Tail(status2)| - 2];
  }

  /** Reading a notification gives back the name and the status it was made from. */
  lemma ReadNotificationRoundTrip(name: string, status: string)
    requires status in HomeworkVerdicts
    ensures ReadNotification(StatusMessage(name, HomeworkVerdicts[status])) == Some((name, status))
  {
    var message := StatusMessage(name, HomeworkVerdicts[status]);
    assert message == StatusPrefix + name + Tail(status);
    assert StatusPrefix <= message;
    assert EndsWithVerdict(message, status) && NameBefore(message, status) == name;
    forall other | other in HomeworkVerdicts && EndsWithVerdict(message, other) ensures other == status {
      TailsExclusive(message, other, status);
    }
  }

  /** A text with the notification prefix and the tail of `status` is the
      notification of the name between them. */
  lemma {:induction false} Reassemble(message: string, status: string)
    requires status in HomeworkVerdicts && StatusPrefix <= message && EndsWithVerdict(message, status)
    ensures message == StatusMessage(NameBefore(message, status), HomeworkVerdicts[status])
  {
    var n := |message| - |Tail(status)|;
    assert message[..|StatusPrefix|] == StatusPrefix;
    assert message[n..] == NameVerdictSeparator + HomeworkVerdicts[status];
    assert message == message[..|StatusPrefix|] + message[|StatusPrefix|..n] + message[n..];
  }

  /** Whatever reads as a notification is the notification of the name and status read. */
  lemma ReadNotificationSound(message: string, name: string, status: string)
    requires ReadNotification(message) == Some((name, status))
    ensures status in HomeworkVerdicts && message == StatusMessage(name, HomeworkVerdicts[status])
  {
    assert status in HomeworkVerdicts && EndsWithVerdict(message, status) && name == NameBefore(message, status);
    Reassemble(message, status);
  }

  /** Notifications for different homeworks or statuses are different texts. */
  lemma StatusMessageInjective(name1: string, status1: string, name2: string, status2: string)
    requires status1 in HomeworkVerdicts && status2 in HomeworkVerdicts
    requires StatusMessage(name1, HomeworkVerdicts[status1]) == StatusMessage(name2, HomeworkVerdicts[status2])
    ensures name1 == name2 && status1 == status2
  {
    ReadNotificationRoundTrip(name1, status1);
    ReadNotificationRoundTrip(name2, status2);
  }

  /** A failure report never reads as a status notification. */
  lemma FailureIsNoNotification(e: Error)
    ensures ReadNotification(FailureMessage(e)) == None
  {
    assert FailureMessage(e)[0] != StatusPrefix[0];
  }
}
