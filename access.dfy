/** The read-only half of mailing_app/views.py: who may update, delete or send
    which record, what each list view shows, and the counters of the home page.
    A manager passes every check; anyone else reaches clients and messages only
    through the mailings they own. */
module Access {
  import opened Basics
  import opened Users
  import opened Models

  predicate IsManager(actor: Account) {
    actor.role == Manager
  }

  /** mailing_update, mailing_delete and mailing_send refuse unless this holds. */
  predicate CanManageMailing(actor: Account, m: Mailing) {
    m.owner == actor.id || IsManager(actor)
  }

  /** client_update and client_delete: a manager, or the owner of some mailing
      that includes the client. */
  predicate CanManageClient(actor: Account, mailings: map<MailingId, Mailing>, c: ClientId) {
    IsManager(actor)
    || exists id :: id in mailings && mailings[id].owner == actor.id && c in mailings[id].clients
  }

  /** message_update and message_delete: a manager, or the owner of some mailing
      that uses the message. */
  predicate CanManageMessage(actor: Account, mailings: map<MailingId, Mailing>, msg: MessageId) {
    IsManager(actor)
    || exists id :: id in mailings && mailings[id].owner == actor.id && mailings[id].message == msg
  }

  function OwnedMailings(mailings: map<MailingId, Mailing>, owner: UserId): (r: set<MailingId>)
    ensures forall id :: id in r <==> id in mailings && mailings[id].owner == owner
  {
    set id | id in mailings && mailings[id].owner == owner
  }

  /** mailing_list: the whole table for a manager, the own mailings otherwise.
      The list holds exactly the mailings the actor may update, delete or send. */
  function VisibleMailings(actor: Account, mailings: map<MailingId, Mailing>): (r: set<MailingId>)
    ensures forall id :: id in r <==> id in mailings && CanManageMailing(actor, mailings[id])
    ensures IsManager(actor) ==> r == mailings.Keys
  {
    if IsManager(actor) then mailings.Keys else OwnedMailings(mailings, actor.id)
  }

  /** client_list: every client for a manager; otherwise the distinct clients
      joined through the actor's own mailings. The list holds exactly the existing
      clients the actor may update or delete. */
  function VisibleClients(actor: Account, clients: map<ClientId, Client>,
                          mailings: map<MailingId, Mailing>): (r: set<ClientId>)
    ensures forall c :: c in r <==> c in clients && CanManageClient(actor, mailings, c)
    ensures IsManager(actor) ==> r == clients.Keys
  {
    if IsManager(actor) then clients.Keys
    else set id, c | id in mailings && mailings[id].owner == actor.id
                     && c in mailings[id].clients && c in clients :: c
  }

  /** message_list: every message for a manager; otherwise the distinct messages
      of the actor's own mailings. The list holds exactly the existing messages
      the actor may update or delete. */
  function VisibleMessages(actor: Account, messages: map<MessageId, Message>,
                           mailings: map<MailingId, Mailing>): (r: set<MessageId>)
    ensures forall msg :: msg in r <==> msg in messages && CanManageMessage(actor, mailings, msg)
    ensures IsManager(actor) ==> r == messages.Keys
  {
    if IsManager(actor) then messages.Keys
    else set id | id in mailings && mailings[id].owner == actor.id
                  && mailings[id].message in messages :: mailings[id].message
  }

  /** user_list: managers only (None is the 403 answer). */
  function UserList(actor: Account, accounts: map<UserId, Account>): (r: Option<set<UserId>>)
    ensures r.Some? <==> IsManager(actor)
    ensures r.Some? ==> r.value == accounts.Keys
  {
    if IsManager(actor) then Some(accounts.Keys) else None
  }

  /** Blocking does not hide an account: the list shows blocked and unblocked
      accounts alike, so a blocked account stays listed. */
  lemma BlockedAccountStaysListed(actor: Account, accounts: map<UserId, Account>, u: UserId)
    requires u in accounts
    ensures UserList(actor, accounts[u := accounts[u].(isBlocked := true)]) == UserList(actor, accounts)
    ensures IsManager(actor) ==> u in UserList(actor, accounts[u := accounts[u].(isBlocked := true)]).value
  {
    assert accounts[u := accounts[u].(isBlocked := true)].Keys == accounts.Keys;
  }

  /** Number of attempts belonging to one of the mailings `ids`. */
  function CountOf(attempts: seq<Attempt>, ids: set<MailingId>): nat {
    if attempts == [] then 0
    else CountOf(attempts[..|attempts| - 1], ids)
         + (if attempts[|attempts| - 1].mailing in ids then 1 else 0)
  }

  /** Number of those attempts that also have status `st`. */
  function CountWithStatus(attempts: seq<Attempt>, ids: set<MailingId>, st: AttemptStatus): nat {
    if attempts == [] then 0
    else CountWithStatus(attempts[..|attempts| - 1], ids, st)
         + (var a := attempts[|attempts| - 1]; if a.mailing in ids && a.status == st then 1 else 0)
  }

  /** With two statuses only, every counted attempt is either a success or a failure. */
  lemma {:induction false} CountSplit(attempts: seq<Attempt>, ids: set<MailingId>)
    ensures CountOf(attempts, ids)
            == CountWithStatus(attempts, ids, Success) + CountWithStatus(attempts, ids, Failure)
    ensures CountOf(attempts, ids) <= |attempts|
  {
    if attempts != [] {
      CountSplit(attempts[..|attempts| - 1], ids);
    }
  }

  /** Counting distributes over appending rows. */
  lemma {:induction false} CountAppend(a: seq<Attempt>, b: seq<Attempt>, ids: set<MailingId>)
    ensures CountOf(a + b, ids) == CountOf(a, ids) + CountOf(b, ids)
    ensures forall st :: CountWithStatus(a + b, ids, st)
                         == CountWithStatus(a, ids, st) + CountWithStatus(b, ids, st)
    decreases |b|
  {
    if b != [] {
      var b' := b[..|b| - 1];
      assert (a + b)[..|a + b| - 1] == a + b';
      CountAppend(a, b', ids);
    } else {
      assert a + b == a;
    }
  }

  datatype HomeStats = HomeStats(successful: nat, failed: nat, total: nat)

  /** home_view: the attempts of the mailings owned by the requesting account,
      whatever its role; successes and failures add up to the total. */
  function HomeView(actor: Account, mailings: map<MailingId, Mailing>,
                    attempts: seq<Attempt>): (h: HomeStats)
    ensures h.total == h.successful + h.failed
    ensures h.total <= |attempts|
  {
    var ids := OwnedMailings(mailings, actor.id);
    CountSplit(attempts, ids);
    HomeStats(CountWithStatus(attempts, ids, Success),
              CountWithStatus(attempts, ids, Failure),
              CountOf(attempts, ids))
  }

  /** A manager's home page counts the same attempts as a plain user with the
      same id would: only their own mailings. */
  lemma HomeViewIgnoresRole(actor: Account, r: Role, mailings: map<MailingId, Mailing>,
                            attempts: seq<Attempt>)
    ensures HomeView(actor.(role := r), mailings, attempts) == HomeView(actor, mailings, attempts)
  {
  }

  /** Owning a mailing is what grants access to its clients and its message:
      every client and the message of a mailing owned by `actor` pass the
      client and message checks and appear in the actor's lists. Since a mailing
      form accepts any existing client or message, this is also how a user gains
      access to records first created by someone else. */
  lemma {:induction false} OwnedMailingGrantsAccess(actor: Account, clients: map<ClientId, Client>,
                                                    messages: map<MessageId, Message>,
                                                    mailings: map<MailingId, Mailing>, id: MailingId)
    requires id in mailings && mailings[id].owner == actor.id
    ensures forall c :: c in mailings[id].clients ==> CanManageClient(actor, mailings, c)
    ensures forall c :: c in mailings[id].clients && c in clients ==> c in VisibleClients(actor, clients, mailings)
    ensures CanManageMessage(actor, mailings, mailings[id].message)
    ensures mailings[id].message in messages ==> mailings[id].message in VisibleMessages(actor, messages, mailings)
  {
  }

  /** A user who owns no mailing reaches no client and no message: clients and
      messages have no owner of their own. */
  lemma NoMailingNoReach(actor: Account, clients: map<ClientId, Client>,
                         messages: map<MessageId, Message>, mailings: map<MailingId, Mailing>)
    requires !IsManager(actor)
    requires OwnedMailings(mailings, actor.id) == {}
    ensures VisibleClients(actor, clients, mailings) == {}
    ensures VisibleMessages(actor, messages, mailings) == {}
    ensures forall c :: !CanManageClient(actor, mailings, c)
    ensures forall msg :: !CanManageMessage(actor, mailings, msg)
  {
  }
}
