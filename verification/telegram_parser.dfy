/**
  The content parser's Telegram adapter: the registry of one client per
  configured session, `TelegramService.getClient` (which session serves a
  request), `TelegramMessageService` (what is asked of the client) and the
  queue processor's job dispatch. The Telegram network is an uninterpreted
  `Network` value.
*/
module TelegramParser {
  import opened Wrappers
  import opened Contracts

  const SendMessageJob := "sendMessage"
  const GetMessageJob := "getMessage"
  const UnknownJob := "unknown-job"
  const NoSessions := "No Telegram sessions configured"
  /** The `limit` `getMessages` uses when the job gives none. */
  const DefaultMessagesLimit := 50

  /** `TelegramSessionOptions`: connection details are kept opaque. */
  datatype SessionOptions = SessionOptions(name: string, sessionString: string)

  /** `TelegramModuleOptions` */
  datatype ModuleOptions = ModuleOptions(defaultSessionName: Option<string>, sessions: seq<SessionOptions>)

  /** A connected client, identified by the session it was built from. */
  datatype Client = Client(session: SessionOptions)

  /** The service's injected state: its options and the clients by session name. */
  datatype TelegramService = TelegramService(options: ModuleOptions, clients: map<string, Client>)

  /** What a client's `getMessages` is asked for. */
  datatype ClientQuery = ClientQuery(peer: string, offsetId: Option<int>, reverse: bool, limit: int)

  /**
    The Telegram network: `send` gives the error a send fails with, if any;
    `fetch` gives the messages a query returns, or the error it fails with.
  */
  datatype Network = Network(
    send: (Client, string, Option<string>) -> Option<string>,
    fetch: (Client, ClientQuery) -> Result<seq<TelegramMessage>, string>)

  /** A job's data: the union of the send and get payloads. */
  datatype JobData = JobData(
    peer: string,
    message: Option<string>,
    offsetId: Option<int>,
    limit: Option<int>,
    sessionName: Option<string>)

  /** The message when no client is registered under a session name. */
  function ClientNotFound(name: string): string {
    "Telegram client for session \"" + name + "\" not found"
  }

  /**
    The client provider: one client per configured session, registered
    under its name; a later session of the same name replaces an earlier one.
  */
  function RegisteredClients(sessions: seq<SessionOptions>): (r: map<string, Client>)
    ensures forall i | 0 <= i < |sessions| :: sessions[i].name in r
    ensures forall n | n in r :: exists i | 0 <= i < |sessions| :: sessions[i].name == n && r[n] == Client(sessions[i])
    ensures |sessions| > 0 ==> r[sessions[|sessions| - 1].name] == Client(sessions[|sessions| - 1])
  {
    if |sessions| == 0 then map[]
    else
      var init := sessions[..|sessions| - 1];
      var last := sessions[|sessions| - 1];
      assert forall i | 0 <= i < |init| :: init[i] == sessions[i];
      RegisteredClients(init)[last.name := Client(last)]
  }

  /**
    The session name `getClient` settles on: an explicit name whenever one
    is given (even an empty one), otherwise the default name, otherwise the
    first configured session's name.
  */
  function ResolveSessionName(options: ModuleOptions, sessionName: Option<string>): (r: Option<string>)
    ensures sessionName.Some? ==> r == sessionName
    ensures sessionName.None? && options.defaultSessionName.Some? ==> r == options.defaultSessionName
    ensures r.None? <==> sessionName.None? && options.defaultSessionName.None? && |options.sessions| == 0
    ensures r.Some? && sessionName.None? && options.defaultSessionName.None? ==> r.value == options.sessions[0].name
  {
    if sessionName.Some? then sessionName
    else if options.defaultSessionName.Some? then options.defaultSessionName
    else if |options.sessions| > 0 then Some(options.sessions[0].name)
    else None
  }

  /** `getClient`: the client of the resolved session, or the thrown message. */
  function GetClient(tg: TelegramService, sessionName: Option<string>): (r: Result<Client, string>)
    ensures var name := ResolveSessionName(tg.options, sessionName);
      r.Ok? <==> name.Some? && name.value != "" && name.value in tg.clients
    ensures var name := ResolveSessionName(tg.options, sessionName);
      r.Ok? ==> r.value == tg.clients[name.value]
    ensures var name := ResolveSessionName(tg.options, sessionName);
      r == Err(NoSessions) <==> name.None? || name.value == ""
    ensures var name := ResolveSessionName(tg.options, sessionName);
      name.Some? && name.value != "" && name.value !in tg.clients ==> r == Err(ClientNotFound(name.value))
  {
    match ResolveSessionName(tg.options, sessionName)
    case None => Err(NoSessions)
    case Some(name) =>
      if name == "" then Err(NoSessions)
      else if name !in tg.clients then
        assert ClientNotFound(name)[0] == 'T' != NoSessions[0];
        Err(ClientNotFound(name))
      else Ok(tg.clients[name])
  }

  /**
    An explicit empty session name is used as is and then refused as
    missing, whatever sessions are configured.
  */
  lemma EmptySessionNameRefused(tg: TelegramService)
    ensures GetClient(tg, Some("")) == Err(NoSessions)
  {
  }

  /**
    With neither an explicit nor a default name, and clients registered from
    the configured sessions, the first session serves every request,
    unless its name is empty.
  */
  lemma FirstSessionServes(options: ModuleOptions)
    requires options.defaultSessionName.None? && |options.sessions| > 0
    ensures var tg := TelegramService(options, RegisteredClients(options.sessions));
      var first := options.sessions[0].name;
      (first != "" ==> GetClient(tg, None) == Ok(tg.clients[first]))
      && (first == "" ==> GetClient(tg, None) == Err(NoSessions))
  {
    assert options.sessions[0].name in RegisteredClients(options.sessions);
  }

  /** Any name registered by the provider resolves to that session's client. */
  lemma RegisteredNameServes(sessions: seq<SessionOptions>, defaultSessionName: Option<string>, i: nat)
    requires i < |sessions| && sessions[i].name != ""
    ensures var tg := TelegramService(ModuleOptions(defaultSessionName, sessions), RegisteredClients(sessions));
      GetClient(tg, Some(sessions[i].name)).Ok?
      && GetClient(tg, Some(sessions[i].name)).value.session.name == sessions[i].name
  {
    var tg := TelegramService(ModuleOptions(defaultSessionName, sessions), RegisteredClients(sessions));
    var n := sessions[i].name;
    assert n in tg.clients;
    var j :| 0 <= j < |sessions| && sessions[j].name == n && tg.clients[n] == Client(sessions[j]);
    assert ResolveSessionName(tg.options, Some(n)) == Some(n);
    assert GetClient(tg, Some(n)) == Ok(Client(sessions[j]));
  }

  /** The client query `getMessages` builds: `limit` defaults to 50 only when absent, and a truthy offset reverses the order. */
  function MessagesQuery(peer: string, offsetId: Option<int>, limit: Option<int>): (q: ClientQuery)
    ensures q.peer == peer && q.offsetId == offsetId
    ensures q.reverse <==> offsetId.Some? && offsetId.value != 0
    ensures limit.None? ==> q.limit == DefaultMessagesLimit
    ensures limit.Some? ==> q.limit == limit.value
  {
    ClientQuery(peer, offsetId, offsetId.Some? && offsetId.value != 0, limit.GetOr(DefaultMessagesLimit))
  }

  /** `TelegramMessageService.sendMessage`: `None` when the send went through, else the error. */
  function SendMessage(tg: TelegramService, net: Network, peer: string, message: Option<string>, sessionName: Option<string>): (r: Option<string>)
    ensures GetClient(tg, sessionName).Err? ==> r == Some(GetClient(tg, sessionName).error)
    ensures GetClient(tg, sessionName).Ok? ==> r == net.send(GetClient(tg, sessionName).value, peer, message)
  {
    match GetClient(tg, sessionName)
    case Err(e) => Some(e)
    case Ok(client) => net.send(client, peer, message)
  }

  /** `TelegramMessageService.getMessages` */
  function GetMessages(tg: TelegramService, net: Network, peer: string, offsetId: Option<int>, limit: Option<int>, sessionName: Option<string>): (r: Result<seq<TelegramMessage>, string>)
    ensures GetClient(tg, sessionName).Err? ==> r == Err(GetClient(tg, sessionName).error)
    ensures GetClient(tg, sessionName).Ok? ==>
      r == net.fetch(GetClient(tg, sessionName).value, MessagesQuery(peer, offsetId, limit))
  {
    match GetClient(tg, sessionName)
    case Err(e) => Err(e)
    case Ok(client) => net.fetch(client, MessagesQuery(peer, offsetId, limit))
  }

  /** `TelegramProcessor.process`: the tagged result of a job, or the error it fails with. */
  function Process(jobName: string, data: JobData, tg: TelegramService, net: Network): (r: Result<ParseTelegramResult, string>)
    ensures jobName == SendMessageJob ==>
      (r == Ok(Sent) <==> SendMessage(tg, net, data.peer, data.message, data.sessionName).None?)
    ensures jobName == GetMessageJob ==>
      (r.Ok? <==> GetMessages(tg, net, data.peer, data.offsetId, data.limit, data.sessionName).Ok?)
    ensures jobName == GetMessageJob && r.Ok? ==>
      r.value == Received(GetMessages(tg, net, data.peer, data.offsetId, data.limit, data.sessionName).value)
    ensures jobName != SendMessageJob && jobName != GetMessageJob ==> r == Ok(Skipped(UnknownJob))
    ensures r.Ok? && r.value.Sent? ==> jobName == SendMessageJob
    ensures r.Ok? && r.value.Received? ==> jobName == GetMessageJob
  {
    if jobName == SendMessageJob then
      match SendMessage(tg, net, data.peer, data.message, data.sessionName)
      case Some(e) => Err(e)
      case None => Ok(Sent)
    else if jobName == GetMessageJob then
      match GetMessages(tg, net, data.peer, data.offsetId, data.limit, data.sessionName)
      case Err(e) => Err(e)
      case Ok(messages) => Ok(Received(messages))
    else Ok(Skipped(UnknownJob))
  }

  /** An unknown job touches neither the sessions nor the network. */
  lemma UnknownJobTouchesNothing(jobName: string, data: JobData, tg: TelegramService, net: Network, tg': TelegramService, net': Network)
    requires jobName != SendMessageJob && jobName != GetMessageJob
    ensures Process(jobName, data, tg, net) == Process(jobName, data, tg', net') == Ok(Skipped(UnknownJob))
  {
  }

  /**
    A send job sends exactly the job's peer and message through the client of
    the job's session: two networks that agree on that one send give the same result.
  */
  lemma SendUsesJobData(data: JobData, tg: TelegramService, net: Network, net': Network)
    requires GetClient(tg, data.sessionName).Ok?
    requires var c := GetClient(tg, data.sessionName).value;
      net.send(c, data.peer, data.message) == net'.send(c, data.peer, data.message)
    ensures Process(SendMessageJob, data, tg, net) == Process(SendMessageJob, data, tg, net')
  {
  }

  /**
    A get job asks the client of the job's session for the job's peer, offset
    and limit, and returns what it gets: two networks that agree on that one
    query give the same result.
  */
  lemma GetUsesJobData(data: JobData, tg: TelegramService, net: Network, net': Network)
    requires GetClient(tg, data.sessionName).Ok?
    requires var c := GetClient(tg, data.sessionName).value;
      var q := ClientQuery(data.peer, data.offsetId, data.offsetId.Some? && data.offsetId.value != 0, data.limit.GetOr(50));
      net.fetch(c, q) == net'.fetch(c, q)
    ensures Process(GetMessageJob, data, tg, net) == Process(GetMessageJob, data, tg, net')
  {
  }

  /** A job whose session cannot be resolved fails with the resolver's message, before any network call. */
  lemma UnresolvedSessionFails(jobName: string, data: JobData, tg: TelegramService, net: Network, net': Network)
    requires jobName == SendMessageJob || jobName == GetMessageJob
    requires GetClient(tg, data.sessionName).Err?
    ensures Process(jobName, data, tg, net) == Process(jobName, data, tg, net') == Err(GetClient(tg, data.sessionName).error)
  {
  }
}
