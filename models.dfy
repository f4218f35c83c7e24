/** The records of mailing_app/models.py: clients, message templates, mailings
    and delivery attempts, with their status choices, defaults and text forms. */
module Models {
  import opened Basics
  import opened Users

  type ClientId = nat
  type MessageId = nat
  type MailingId = nat

  /** A DateTimeField value; no operation does arithmetic on it. */
  type Timestamp = int

  /** Mailing.STATUS_CHOICES. */
  datatype MailingStatus = Created | Running | Finished

  function StatusValue(st: MailingStatus): string {
    match st
    case Created => "Создана"
    case Running => "Запущена"
    case Finished => "Завершена"
  }

  /** Choice validation of a submitted status: exactly the three values pass. */
  function ParseMailingStatus(s: string): (r: Option<MailingStatus>)
    ensures r.Some? <==> s == "Создана" || s == "Запущена" || s == "Завершена"
    ensures r.Some? ==> StatusValue(r.value) == s
  {
    if s == "Создана" then Some(Created)
    else if s == "Запущена" then Some(Running)
    else if s == "Завершена" then Some(Finished)
    else None
  }

  lemma StatusValueRoundTrip(st: MailingStatus)
    ensures ParseMailingStatus(StatusValue(st)) == Some(st)
  {
  }

  /** Attempt.STATUS_CHOICES: only two outcomes exist. */
  datatype AttemptStatus = Success | Failure

  function AttemptStatusValue(st: AttemptStatus): string {
    match st
    case Success => "Успешно"
    case Failure => "Не успешно"
  }

  /** The two stored texts the home counters filter on are different, so no
      attempt is counted as both a success and a failure. */
  lemma AttemptStatusValueInjective(a: AttemptStatus, b: AttemptStatus)
    ensures AttemptStatusValue(a) == AttemptStatusValue(b) <==> a == b
  {
    assert AttemptStatusValue(Success)[0] != AttemptStatusValue(Failure)[0];
  }

  /** A Client has no owner field; it belongs to users only through mailings. */
  datatype Client = Client(email: string, fullName: string, comment: string)

  /** A Message has no owner field either. */
  datatype Message = Message(subject: string, body: string)

  /** The many-to-many `clients` relation is a duplicate-free sequence whose order
      is the order in which the relation's rows are read back. */
  datatype Mailing = Mailing(
    owner: UserId,
    startTime: Timestamp,
    endTime: Timestamp,
    status: MailingStatus,
    message: MessageId,
    clients: seq<ClientId>,
    isActive: bool)

  /** An Attempt points at its mailing only: it does not record which client it was for. */
  datatype Attempt = Attempt(mailing: MailingId, status: AttemptStatus, serverResponse: string)

  /** A Mailing created without naming status or is_active gets the field defaults. */
  function NewMailing(owner: UserId, start: Timestamp, end: Timestamp, message: MessageId,
                      clients: seq<ClientId>): (m: Mailing)
    ensures m.status == Created && m.isActive
    ensures m.owner == owner && m.startTime == start && m.endTime == end
    ensures m.message == message && m.clients == clients
  {
    Mailing(owner, start, end, Created, message, clients, true)
  }

  /** str(Client): "full_name <email>". */
  function ClientLabel(c: Client): string {
    c.fullName + " <" + c.email + ">"
  }

  /** Position of the last occurrence of `c` in `s`. */
  function LastIndexOf(s: string, c: char): (r: Option<nat>)
    ensures r.Some? ==> r.value < |s| && s[r.value] == c
    ensures r.Some? ==> forall j :: r.value < j < |s| ==> s[j] != c
    ensures r.None? ==> forall j :: 0 <= j < |s| ==> s[j] != c
  {
    if s == [] then None
    else if s[|s| - 1] == c then Some(|s| - 1)
    else LastIndexOf(s[..|s| - 1], c)
  }

  /** Splits a client label at its last '<' back into full name and email. */
  function ParseClientLabel(s: string): Option<(string, string)> {
    if |s| == 0 || s[|s| - 1] != '>' then None
    else match LastIndexOf(s, '<')
      case None => None
      case Some(p) =>
        if p == 0 || s[p - 1] != ' ' || p + 1 > |s| - 1 then None
        else Some((s[..p - 1], s[p + 1..|s| - 1]))
  }

  /** The label shows a client's name and email recoverably whenever the email has
      no '<' in it. That is an assumption of this lemma: a quoted local part may
      contain '<' and still be a valid address. */
  lemma ClientLabelRoundTrip(c: Client)
    requires forall j :: 0 <= j < |c.email| ==> c.email[j] != '<'
    ensures ParseClientLabel(ClientLabel(c)) == Some((c.fullName, c.email))
  {
    var s := ClientLabel(c);
    var p := |c.fullName| + 1;
    assert s[p] == '<';
    forall j | p < j < |s|
      ensures s[j] != '<'
    {
      if j < |s| - 1 {
        assert s[j] == c.email[j - p - 1];
      }
    }
    var r := LastIndexOf(s, '<');
    assert r == Some(p);
    assert s[..p - 1] == c.fullName;
    assert s[p + 1..|s| - 1] == c.email;
  }

  /** str(Message) is its subject. */
  function MessageLabel(msg: Message): (s: string)
    ensures s == msg.subject
  {
    msg.subject
  }

  function StatusSuffix(st: MailingStatus): string {
    " (" + StatusValue(st) + ")"
  }

  const MailingPrefix: string := "Рассылка: "

  /** str(Mailing): "Рассылка: subject (status)"; the subject shown is the
      message's own label. */
  function MailingLabel(m: Mailing, msg: Message): string {
    MailingPrefix + MessageLabel(msg) + StatusSuffix(m.status)
  }

  function StatusOfLabel(s: string): Option<MailingStatus> {
    if HasSuffix(s, StatusSuffix(Created)) then Some(Created)
    else if HasSuffix(s, StatusSuffix(Running)) then Some(Running)
    else if HasSuffix(s, StatusSuffix(Finished)) then Some(Finished)
    else None
  }

  /** The label of a mailing always tells its status: no status suffix is a
      suffix of another. */
  lemma MailingLabelShowsStatus(m: Mailing, msg: Message)
    ensures StatusOfLabel(MailingLabel(m, msg)) == Some(m.status)
  {
    var s := MailingLabel(m, msg);
    var n := |s|;
    // the last four characters tell the three suffixes apart
    match m.status
    case Created =>
      assert s[n - 3] == 'н';
    case Running =>
      assert s[n - 3] == 'н' && s[n - 4] == 'е' && s[n - 5] == 'щ';
      assert StatusSuffix(Created)[|StatusSuffix(Created)| - 4] == 'а';
    case Finished =>
      assert s[n - 4] == 'е' && s[n - 5] == 'ш';
      assert StatusSuffix(Created)[|StatusSuffix(Created)| - 4] == 'а';
      assert StatusSuffix(Running)[|StatusSuffix(Running)| - 5] == 'щ';
  }

  /** Reads a mailing label back: the prefix, the status from the suffix, and
      the text in between. */
  function ParseMailingLabel(s: string): Option<(string, MailingStatus)> {
    match StatusOfLabel(s)
    case None => None
    case Some(st) =>
      var n := |StatusSuffix(st)|;
      if |MailingPrefix| + n <= |s| && s[..|MailingPrefix|] == MailingPrefix
      then Some((s[|MailingPrefix|..|s| - n], st))
      else None
  }

  /** A mailing label gives back both the message's label and the status. */
  lemma MailingLabelRoundTrip(m: Mailing, msg: Message)
    ensures ParseMailingLabel(MailingLabel(m, msg)) == Some((MessageLabel(msg), m.status))
  {
    MailingLabelShowsStatus(m, msg);
    var s := MailingLabel(m, msg);
    var n := |StatusSuffix(m.status)|;
    assert s[..|MailingPrefix|] == MailingPrefix;
    assert s[|MailingPrefix|..|s| - n] == msg.subject;
  }
}
