/** The model forms of mailing_app/forms.py. Each form's field list is the set
    of record fields that a create or an update may write; the validation
    predicates say when a bound form is valid (required fields, max_length,
    choices, existing foreign keys, unique email). */
module Forms {
  import opened Basics
  import opened Models

  /** EmailField's default max_length. */
  const MaxEmailLength := 254
  /** max_length of Client.full_name and Message.subject. */
  const MaxTextLength := 255

  /** ClientForm: fields = ['email', 'full_name', 'comment']. */
  datatype ClientForm = ClientForm(email: string, fullName: string, comment: string)

  /** MessageForm: fields = ['subject', 'body']. */
  datatype MessageForm = MessageForm(subject: string, body: string)

  /** MailingForm: fields = ['start_time', 'end_time', 'status', 'message', 'clients'].
      The status arrives as submitted text; message and clients as primary keys. */
  datatype MailingForm = MailingForm(
    startTime: Timestamp,
    endTime: Timestamp,
    status: string,
    message: MessageId,
    clients: seq<ClientId>)

  /** Unique-field validation of Client.email, skipping the instance being edited. */
  predicate EmailAvailable(clients: map<ClientId, Client>, email: string, instance: Option<ClientId>) {
    forall id :: id in clients && Some(id) != instance ==> clients[id].email != email
  }

  predicate ClientFormValid(f: ClientForm, clients: map<ClientId, Client>, instance: Option<ClientId>) {
    0 < |f.email| <= MaxEmailLength
    && 0 < |f.fullName| <= MaxTextLength
    && EmailAvailable(clients, f.email, instance)
  }

  predicate MessageFormValid(f: MessageForm) {
    0 < |f.subject| <= MaxTextLength && 0 < |f.body|
  }

  /** No clean method: nothing relates start_time to end_time, and any of the
      three status values is accepted whatever the mailing's current status. */
  predicate MailingFormValid(f: MailingForm, messages: map<MessageId, Message>,
                             clients: map<ClientId, Client>) {
    ParseMailingStatus(f.status).Some?
    && f.message in messages
    && |f.clients| > 0
    && forall i :: 0 <= i < |f.clients| ==> f.clients[i] in clients
  }

  /** The client rows a multiple-choice field selects: each id once, first
      occurrence first. */
  function Dedup(s: seq<ClientId>): (r: seq<ClientId>)
    ensures Distinct(r)
    ensures forall x :: x in r <==> x in s
    ensures |r| <= |s|
  {
    if s == [] then []
    else
      var d := Dedup(s[..|s| - 1]);
      assert forall x :: x in s <==> x in s[..|s| - 1] || x == s[|s| - 1];
      if s[|s| - 1] in d then d else d + [s[|s| - 1]]
  }

  function ClientFromForm(f: ClientForm): Client {
    Client(f.email, f.fullName, f.comment)
  }

  function MessageFromForm(f: MessageForm): Message {
    Message(f.subject, f.body)
  }

  /** Saving a valid MailingForm onto `m`: the five listed fields are taken from
      the form, `owner` and `is_active` are kept. */
  function ApplyMailingForm(m: Mailing, f: MailingForm): (r: Mailing)
    requires ParseMailingStatus(f.status).Some?
    ensures r.owner == m.owner && r.isActive == m.isActive
    ensures StatusValue(r.status) == f.status
    ensures r.startTime == f.startTime && r.endTime == f.endTime && r.message == f.message
    ensures Distinct(r.clients) && forall c :: c in r.clients <==> c in f.clients
  {
    m.(startTime := f.startTime, endTime := f.endTime,
       status := ParseMailingStatus(f.status).value,
       message := f.message, clients := Dedup(f.clients))
  }

  /** Any status may be written back, including 'Создана' after 'Запущена', and
      an end time before the start time passes validation. */
  lemma {:induction false} MailingFormHasNoRules(m: Mailing, f: MailingForm, st: MailingStatus,
                                                 messages: map<MessageId, Message>,
                                                 clients: map<ClientId, Client>,
                                                 start: Timestamp, end: Timestamp)
    requires MailingFormValid(f, messages, clients)
    ensures var g := f.(status := StatusValue(st), startTime := start, endTime := end);
            MailingFormValid(g, messages, clients) && ApplyMailingForm(m, g).status == st
  {
  }
}
