/** What one run of the send loop does, shared by mailing_send in
    mailing_app/views.py and the send_mailing management command: one letter per
    recipient in relation order, one Attempt per letter whatever the transport
    answered, and (for the command) one output line per recipient. */
module Dispatch {
  import opened Basics
  import opened Models
  import opened Access

  const SenderAddress := "noreply@example.com"
  const SuccessResponse := "Письмо отправлено успешно"

  /** The arguments of one send_mail call. */
  datatype Letter = Letter(subject: string, body: string, sender: string, recipient: string)

  /** What the transport did with one letter: returned, or raised an exception
      whose str() is `error`. */
  datatype Delivery = Delivered | Raised(error: string)

  /** The mail transport, as an oracle answering each letter. */
  type Transport = Letter -> Delivery

  function LetterTo(msg: Message, c: Client): Letter {
    Letter(msg.subject, msg.body, SenderAddress, c.email)
  }

  /** The row written after one send_mail call. */
  function AttemptFor(id: MailingId, d: Delivery): Attempt {
    match d
    case Delivered => Attempt(id, Success, SuccessResponse)
    case Raised(e) => Attempt(id, Failure, e)
  }

  /** The transport's answers to the letters for `recipients`, in order. */
  function Outcomes(msg: Message, recipients: seq<Client>, transport: Transport): (ds: seq<Delivery>)
    ensures |ds| == |recipients|
    ensures forall i :: 0 <= i < |ds| ==> ds[i] == transport(LetterTo(msg, recipients[i]))
  {
    if recipients == [] then []
    else
      var last := recipients[|recipients| - 1];
      Outcomes(msg, recipients[..|recipients| - 1], transport) + [transport(LetterTo(msg, last))]
  }

  /** The attempts one run appends: exactly one per answer, each pointing at
      mailing `id`, a success with the fixed response iff the call returned,
      otherwise a failure carrying the exception text. */
  function AttemptsFor(id: MailingId, ds: seq<Delivery>): (log: seq<Attempt>)
    ensures |log| == |ds|
    ensures forall i :: 0 <= i < |ds| ==>
              log[i].mailing == id
              && (log[i].status == Success <==> ds[i].Delivered?)
              && log[i].serverResponse == (if ds[i].Delivered? then SuccessResponse else ds[i].error)
  {
    if ds == [] then []
    else AttemptsFor(id, ds[..|ds| - 1]) + [AttemptFor(id, ds[|ds| - 1])]
  }

  /** One more recipient processed: the log so far grows by exactly that
      recipient's attempt. */
  lemma AttemptsForStep(id: MailingId, msg: Message, rs: seq<Client>, i: nat, transport: Transport,
                        base: seq<Attempt>, log: seq<Attempt>, d: Delivery)
    requires i < |rs|
    requires log == base + AttemptsFor(id, Outcomes(msg, rs[..i], transport))
    requires d == transport(LetterTo(msg, rs[i]))
    ensures log + [AttemptFor(id, d)] == base + AttemptsFor(id, Outcomes(msg, rs[..i + 1], transport))
  {
    assert rs[..i + 1][..i] == rs[..i];
    var ds := Outcomes(msg, rs[..i + 1], transport);
    assert ds[..|ds| - 1] == Outcomes(msg, rs[..i], transport);
  }

  function DeliveredCount(ds: seq<Delivery>): nat {
    if ds == [] then 0
    else DeliveredCount(ds[..|ds| - 1]) + (if ds[|ds| - 1].Delivered? then 1 else 0)
  }

  /** Seen through the home-page counters: a run for a counted mailing adds one
      attempt per answer, a success per delivered letter and a failure per
      raised one; a run for any other mailing adds nothing. */
  lemma {:induction false} AttemptsForCounts(id: MailingId, ds: seq<Delivery>, ids: set<MailingId>)
    ensures DeliveredCount(ds) <= |ds|
    ensures CountOf(AttemptsFor(id, ds), ids) == if id in ids then |ds| else 0
    ensures CountWithStatus(AttemptsFor(id, ds), ids, Success)
            == if id in ids then DeliveredCount(ds) else 0
    ensures CountWithStatus(AttemptsFor(id, ds), ids, Failure)
            == if id in ids then |ds| - DeliveredCount(ds) else 0
    decreases |ds|
  {
    if ds != [] {
      var front := ds[..|ds| - 1];
      AttemptsForCounts(id, front, ids);
      var log := AttemptsFor(id, ds);
      assert log[..|log| - 1] == AttemptsFor(id, front);
    }
  }

  /** First line the command writes. */
  function HeaderLine(mailingId: int): string {
    "Отправка рассылки #" + IntToString(mailingId) + "..."
  }

  /** Last line the command writes. */
  const DoneLine := "Рассылка завершена"

  /** Text of the CommandError raised for an id that names no mailing. */
  function NotFoundError(mailingId: int): string {
    "Рассылка с ID " + IntToString(mailingId) + " не найдена."
  }

  /** The line written for one recipient. */
  function ResultLine(c: Client, d: Delivery): string {
    match d
    case Delivered => "✅ " + c.email + " — отправлено"
    case Raised(e) => "❌ " + c.email + " — ошибка: " + e
  }

  /** A recipient's line starts with a mark telling the outcome, then a space,
      then the client's email. */
  lemma ResultLineShowsOutcome(c: Client, d: Delivery)
    ensures var line := ResultLine(c, d);
            |line| >= 2 + |c.email|
            && (line[0] == '✅' <==> d.Delivered?)
            && (line[0] == '✅' || line[0] == '❌')
            && line[2..2 + |c.email|] == c.email
  {
  }

  /** One line per recipient, in the order the recipients were processed. */
  function ResultLines(recipients: seq<Client>, ds: seq<Delivery>): (lines: seq<string>)
    requires |ds| == |recipients|
    ensures |lines| == |recipients|
    ensures forall i :: 0 <= i < |lines| ==> lines[i] == ResultLine(recipients[i], ds[i])
  {
    if recipients == [] then []
    else
      var front := ResultLines(recipients[..|recipients| - 1], ds[..|ds| - 1]);
      var lines := front + [ResultLine(recipients[|recipients| - 1], ds[|ds| - 1])];
      assert forall i :: 0 <= i < |front| ==> lines[i] == front[i];
      lines
  }

  /** One more recipient processed: the output so far grows by exactly that
      recipient's line. */
  lemma ResultLinesStep(msg: Message, rs: seq<Client>, i: nat, transport: Transport,
                        out: seq<string>, d: Delivery)
    requires i < |rs|
    requires out == ResultLines(rs[..i], Outcomes(msg, rs[..i], transport))
    requires d == transport(LetterTo(msg, rs[i]))
    ensures out + [ResultLine(rs[i], d)] == ResultLines(rs[..i + 1], Outcomes(msg, rs[..i + 1], transport))
  {
    assert rs[..i + 1][..i] == rs[..i];
    var ds := Outcomes(msg, rs[..i + 1], transport);
    assert ds[..|ds| - 1] == Outcomes(msg, rs[..i], transport);
  }

  /** The whole output of a run that found its mailing. */
  function CommandOutput(mailingId: int, recipients: seq<Client>, ds: seq<Delivery>): (out: seq<string>)
    requires |ds| == |recipients|
    ensures |out| == |recipients| + 2
    ensures out[0] == HeaderLine(mailingId) && out[|out| - 1] == DoneLine
    ensures forall i :: 0 <= i < |recipients| ==> out[i + 1] == ResultLine(recipients[i], ds[i])
  {
    var lines := ResultLines(recipients, ds);
    Framed(HeaderLine(mailingId), lines, DoneLine);
    [HeaderLine(mailingId)] + lines + [DoneLine]
  }

  lemma Framed<T>(first: T, middle: seq<T>, last: T)
    ensures forall i :: 0 <= i < |middle| ==> ([first] + middle + [last])[i + 1] == middle[i]
  {
  }
}
