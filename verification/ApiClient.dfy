/**
 * The request protocol of the dashboard: scope tags on requests, dropping of stale responses, and the
 * single-flight token refresh; together with the user switch that clears the scoped caches.
 */
module ApiClient {
  import opened Seqs

  /** Whose data is shown: a user id, or "" for the logged-in user itself. */
  type Scope = string

  /** Where a response is stored. `Strategies` and `BrokerSymbols` are not cleared by a user switch. */
  datatype Slot =
    | Overview | PerformanceAccounts | ActivityFeed | DrillDown
    | AccountList | AccountDetails(id: string) | AccountStatus(id: string)
    | Strategies | BrokerSymbols(id: string)

  /** What the caller does with the response: replace a slot, append to the account list, or nothing scoped. */
  datatype Call = Fetch(slot: Slot, key: string) | AddAccount | Plain(url: string)

  predicate Cleared(slot: Slot) { !slot.Strategies? && !slot.BrokerSymbols? }

  function Url(call: Call): string {
    match call
    case Fetch(Overview, _) => "/performance/overview"
    case Fetch(PerformanceAccounts, _) => "/performance/accounts"
    case Fetch(ActivityFeed, _) => "/performance/activity"
    case Fetch(DrillDown, account) => "/performance/accounts/" + account + "/trades"
    case Fetch(AccountList, _) => "/accounts"
    case Fetch(AccountDetails(id), _) => "/accounts/" + id + "/details"
    case Fetch(AccountStatus(id), _) => "/accounts/" + id + "/status"
    case Fetch(Strategies, _) => "/performance/strategies"
    case Fetch(BrokerSymbols(id), _) => "/accounts/" + id + "/broker-symbols"
    case AddAccount => "/accounts"
    case Plain(url) => url
  }

  const REFRESH_URL := "/auth/refresh"

  predicate StartsWith(url: string, prefix: string) { |prefix| <= |url| && url[..|prefix|] == prefix }

  predicate Contains(url: string, part: string) {
    StartsWith(url, part) || (url != "" && Contains(url[1..], part))
  }

  predicate IsAuthOrUsers(url: string) { StartsWith(url, "/auth") || url == "/users" || url == "/users/me" }

  predicate IsRefreshUrl(url: string) { Contains(url, REFRESH_URL) }

  predicate Truthy(text: Option<string>) { text.Some? && text.value != "" }

  function OrEmpty(text: Option<string>): string { if text.Some? then text.value else "" }

  datatype Tokens = Tokens(access: string, refresh: string)

  /** The three keys of `localStorage` that the protocol reads and writes. */
  datatype Storage = Storage(access: Option<string>, refresh: Option<string>, viewing: Option<string>)

  function CurrentScope(s: Storage): Scope { OrEmpty(s.viewing) }

  function WithTokens(s: Storage, t: Tokens): Storage { s.(access := Some(t.access), refresh := Some(t.refresh)) }

  function WithoutTokens(s: Storage): Storage { s.(access := None, refresh := None) }

  /** A request config: `asUser` is the query parameter the server honours, `tag` the scope at sending. */
  datatype Request = Request(
    call: Call, asUser: Option<string>, tag: Option<Scope>, bearer: Option<string>, refresher: bool)

  /** The request interceptor. It also runs on a retry, over the config of the first attempt. */
  function Prepare(s: Storage, r: Request): (p: Request)
    ensures p.call == r.call && p.refresher == r.refresher
  {
    var r := if Truthy(s.access) then r.(bearer := s.access) else r;
    if IsAuthOrUsers(Url(r.call)) then r
    else r.(asUser := if Truthy(s.viewing) then s.viewing else r.asUser, tag := Some(OrEmpty(s.viewing)))
  }

  /** The scope whose data the server returns for `r`. */
  function Served(r: Request): Scope { OrEmpty(r.asUser) }

  /** Where a stored value came from: the tag of its request, and the scope the server answered for. */
  datatype Datum = Datum(tag: Scope, served: Scope)

  /** `Ignored` is the promise that never settles. */
  datatype Outcome = Resolved | Rejected | Ignored

  /**
   * Requests by id: on the network, parked on the refresh promise, or settled. `started` and `settled`
   * count refreshes.
   */
  datatype Net = Net(
    inFlight: map<nat, Request>, parked: map<nat, Request>, refreshPromise: Option<nat>, outcomes: map<nat, Outcome>,
    nextId: nat, started: nat, settled: nat)

  datatype Client = Client(storage: Storage, net: Net, caches: map<Slot, seq<Datum>>)

  datatype Event =
    | Issue(call: Call) | Respond(id: nat) | Fail(id: nat, status: nat)
    | RefreshOk(tokens: Tokens) | RefreshFail(status: nat)
    | Login(newTokens: Tokens) | SwitchUser(choice: Option<string>)

  function Initial(storage: Storage): Client { Client(storage, Net(map[], map[], None, map[], 0, 0, 0), map[]) }

  function Fresh(call: Call, refresher: bool): Request { Request(call, None, None, None, refresher) }

  function Sent(c: Client, call: Call): Client {
    c.(net := c.net.(
         inFlight := c.net.inFlight[c.net.nextId := Prepare(c.storage, Fresh(call, false))],
         nextId := c.net.nextId + 1))
  }

  function Content(caches: map<Slot, seq<Datum>>, slot: Slot): seq<Datum> {
    if slot in caches then caches[slot] else []
  }

  function Saved(caches: map<Slot, seq<Datum>>, r: Request): map<Slot, seq<Datum>> {
    var d := Datum(OrEmpty(r.tag), Served(r));
    match r.call
    case Fetch(slot, _) => caches[slot := [d]]
    case AddAccount => caches[AccountList := Content(caches, AccountList) + [d]]
    case Plain(_) => caches
  }

  function Settle(n: Net, id: nat, o: Outcome): Net { n.(inFlight := n.inFlight - {id}, outcomes := n.outcomes[id := o]) }

  /** The response interceptor on success: a response tagged with another scope is never handed on. */
  function Responded(c: Client, id: nat): Client {
    if id !in c.net.inFlight || c.net.inFlight[id].refresher then c
    else
      var r := c.net.inFlight[id];
      if r.tag.Some? && r.tag.value != CurrentScope(c.storage) then c.(net := Settle(c.net, id, Ignored))
      else c.(net := Settle(c.net, id, Resolved), caches := Saved(c.caches, r))
  }

  /** Start the shared refresh unless one is outstanding. */
  function WithRefresh(c: Client): Client {
    if c.net.refreshPromise.Some? then c
    else
      c.(net := c.net.(
           inFlight := c.net.inFlight[c.net.nextId := Prepare(c.storage, Fresh(Plain(REFRESH_URL), true))],
           refreshPromise := Some(c.net.nextId), nextId := c.net.nextId + 1, started := c.net.started + 1))
  }

  /** A 401 that finds neither a refresh under way nor a refresh token, or that hits the refresh URL itself. */
  predicate GivesUp(c: Client, r: Request) {
    IsRefreshUrl(Url(r.call)) || (c.net.refreshPromise.None? && !Truthy(c.storage.refresh))
  }

  /** The response interceptor on an error of a request other than the shared refresh. */
  function Failed(c: Client, id: nat, status: nat): Client {
    if id !in c.net.inFlight || c.net.inFlight[id].refresher then c
    else
      var r := c.net.inFlight[id];
      if status != 401 then c.(net := Settle(c.net, id, Rejected))
      else if GivesUp(c, r) then c.(storage := WithoutTokens(c.storage), net := Settle(c.net, id, Rejected))
      else
        var t := WithRefresh(c);
        t.(net := t.net.(inFlight := t.net.inFlight - {id}, parked := t.net.parked[id := r]))
  }

  /** A parked request resumes with the new token; sending it again runs the request interceptor again. */
  function Retry(s: Storage, r: Request): Request { Prepare(s, r.(bearer := s.access)) }

  function RefreshSettled(n: Net, o: Outcome): Net
    requires n.refreshPromise.Some?
  {
    Settle(n, n.refreshPromise.value, o).(refreshPromise := None, parked := map[], settled := n.settled + 1)
  }

  function Refreshed(c: Client, tokens: Tokens): Client {
    if c.net.refreshPromise.None? then c
    else
      var s, n := WithTokens(c.storage, tokens), RefreshSettled(c.net, Resolved);
      c.(storage := s,
         net := n.(inFlight := n.inFlight + map id | id in c.net.parked :: Retry(s, c.net.parked[id])))
  }

  function RefreshFailed(c: Client): Client {
    if c.net.refreshPromise.None? then c
    else
      var n := RefreshSettled(c.net, Outcome.Rejected);
      c.(storage := WithoutTokens(c.storage),
         net := n.(outcomes := n.outcomes + map id | id in c.net.parked :: Outcome.Rejected))
  }

  /** The user switcher: clear the scoped caches, then flip the scope. Choosing the current scope does nothing. */
  function Switched(c: Client, choice: Option<string>): Client {
    var next := if Truthy(choice) then choice else None;
    if next == c.storage.viewing then c
    else
      c.(caches := map slot | slot in c.caches && !Cleared(slot) :: c.caches[slot],
         storage := c.storage.(viewing := next))
  }

  function Step(c: Client, e: Event): Client {
    match e
    case Issue(call) => Sent(c, call)
    case Respond(id) => Responded(c, id)
    case Fail(id, status) => Failed(c, id, status)
    case RefreshOk(tokens) => Refreshed(c, tokens)
    case RefreshFail(_) => RefreshFailed(c)
    case Login(tokens) => c.(storage := WithTokens(c.storage, tokens))
    case SwitchUser(choice) => Switched(c, choice)
  }

  function Exec(c: Client, es: seq<Event>): Client
    decreases |es|
  {
    if es == [] then c else Exec(Step(c, es[0]), es[1..])
  }

  // ----- What each step means -----

  /** The URLs that are scoped by the token alone. */
  predicate OwnUrl(url: string) { (|url| >= 5 && url[..5] == "/auth") || url == "/users" || url == "/users/me" }

  /**
   * What goes out, on a first attempt and on a retry: a stored token whatever the URL; and on every URL but the
   * own ones the scope of this moment, as the tag, and as the user id if there is one.
   */
  lemma RequestMeaning(s: Storage, r: Request)
    ensures var p := Prepare(s, r);
      && p.call == r.call && p.refresher == r.refresher
      && (s.access.Some? && s.access.value != "" ==> p.bearer == s.access)
      && (s.access == None || s.access == Some("") ==> p.bearer == r.bearer)
      && (OwnUrl(Url(r.call)) ==> p.asUser == r.asUser && p.tag == r.tag)
      && (!OwnUrl(Url(r.call)) ==>
            && (s.viewing == None || s.viewing == Some("") ==> p.tag == Some("") && p.asUser == r.asUser)
            && (s.viewing.Some? && s.viewing.value != "" ==> p.tag == s.viewing && p.asUser == s.viewing))
  {
    hide Url;
  }

  predicate PartAt(url: string, part: string, i: int) { 0 <= i && i + |part| <= |url| && url[i..i + |part|] == part }

  /** The refresh URL is recognised anywhere in a URL, and nothing else is. */
  lemma RefreshUrlMeaning(url: string)
    ensures IsRefreshUrl(url) <==> exists i :: PartAt(url, "/auth/refresh", i)
  {
    ContainsSomewhere(url, REFRESH_URL);
    hide Contains, PartAt;
  }

  lemma {:induction false} ContainsSomewhere(url: string, part: string)
    ensures Contains(url, part) <==> exists i :: PartAt(url, part, i)
  {
    if StartsWith(url, part) { assert PartAt(url, part, 0); }
    if url != "" {
      var rest := url[1..];
      ContainsSomewhere(rest, part);
      if Contains(rest, part) {
        var i :| PartAt(rest, part, i);
        assert rest[i..i + |part|] == url[i + 1..i + 1 + |part|];
        assert PartAt(url, part, i + 1);
      }
      if i :| PartAt(url, part, i) && i > 0 {
        assert rest[i - 1..i - 1 + |part|] == url[i..i + |part|];
        assert PartAt(rest, part, i - 1);
      }
    }
  }

  /** A new request is on the network under a new number, carrying the stored token and the current scope. */
  lemma IssueMeaning(c: Client, call: Call)
    ensures var t := Step(c, Issue(call));
      && t.storage == c.storage && t.caches == c.caches && t.net.nextId == c.net.nextId + 1
      && t.net.inFlight.Keys == c.net.inFlight.Keys + {c.net.nextId}
      && var r := t.net.inFlight[c.net.nextId];
        && r.call == call && !r.refresher
        && r.bearer == (if c.storage.access == Some("") then None else c.storage.access)
        && (!OwnUrl(Url(call)) ==> Served(r) == CurrentScope(c.storage) && r.tag == Some(CurrentScope(c.storage)))
        && (OwnUrl(Url(call)) ==> r.asUser == None && r.tag == None)
  {
    RequestMeaning(c.storage, Fresh(call, false));
    hide Url, Prepare;
  }

  /** A response of another scope leaves everything but its own request; any other is handed on and stored. */
  lemma ResponseMeaning(c: Client, id: nat)
    requires id in c.net.inFlight && !c.net.inFlight[id].refresher
    ensures var t, r := Step(c, Respond(id)), c.net.inFlight[id];
      && t.storage == c.storage && t.net.parked == c.net.parked && t.net.refreshPromise == c.net.refreshPromise
      && t.net.inFlight == c.net.inFlight - {id} && id in t.net.outcomes
      && (r.tag.Some? && r.tag.value != CurrentScope(c.storage) ==>
            t.net.outcomes[id] == Ignored && t.caches == c.caches)
      && (r.tag.None? || r.tag.value == CurrentScope(c.storage) ==>
            && t.net.outcomes[id] == Resolved
            && (r.call.Plain? ==> t.caches == c.caches)
            && forall slot :: Content(t.caches, slot) ==
                 var d := Datum(OrEmpty(r.tag), OrEmpty(r.asUser));
                 if r.call.Fetch? && r.call.slot == slot then [d]
                 else if r.call.AddAccount? && slot == AccountList then Content(c.caches, AccountList) + [d]
                 else Content(c.caches, slot))
  {
  }

  /**
   * An error other than 401 rejects its request and changes nothing else. A 401 that cannot be helped, of the
   * refresh URL or without a refresh token, rejects it and forgets both tokens.
   */
  lemma ErrorMeaning(c: Client, id: nat, status: nat)
    requires id in c.net.inFlight && !c.net.inFlight[id].refresher
    requires status != 401 || IsRefreshUrl(Url(c.net.inFlight[id].call))
      || (c.net.refreshPromise == None && (c.storage.refresh == None || c.storage.refresh == Some("")))
    ensures var t := Step(c, Fail(id, status));
      && t.net == c.net.(inFlight := c.net.inFlight - {id}, outcomes := c.net.outcomes[id := Rejected])
      && t.caches == c.caches && t.storage.viewing == c.storage.viewing
      && (status != 401 ==> t.storage == c.storage)
      && (status == 401 ==> t.storage.access == None && t.storage.refresh == None)
  {
    hide Url, IsRefreshUrl;
  }

  /** After a login or a refresh, every request carries the new token. */
  lemma NewTokensAreUsed(c: Client, e: Event, call: Call)
    requires e.Login? || (e.RefreshOk? && c.net.refreshPromise.Some?)
    ensures var tokens, t := if e.Login? then e.newTokens else e.tokens, Step(c, e);
      && t.storage == Storage(Some(tokens.access), Some(tokens.refresh), c.storage.viewing)
      && (tokens.access != "" ==> Step(t, Issue(call)).net.inFlight[t.net.nextId].bearer == Some(tokens.access))
  {
    IssueMeaning(Step(c, e), call);
    hide Url, Prepare;
  }

  // ----- Where each request is -----

  /** Every request ever sent is in exactly one place, and at most one refresh is on the network. */
  ghost predicate NetInv(n: Net) {
    && n.inFlight.Keys !! n.parked.Keys !! n.outcomes.Keys
    && (forall id: nat :: id < n.nextId <==> id in n.inFlight || id in n.parked || id in n.outcomes)
    && (forall id :: id in n.inFlight && n.inFlight[id].refresher <==> n.refreshPromise == Some(id))
    && (n.parked != map[] <==> n.refreshPromise.Some?)
    && (forall id :: id in n.parked ==> !n.parked[id].refresher && !IsRefreshUrl(Url(n.parked[id].call)))
    && n.started == n.settled + if n.refreshPromise.Some? then 1 else 0
  }

  lemma SendKeepsNet(c: Client, call: Call)
    requires NetInv(c.net)
    ensures NetInv(Sent(c, call).net)
  {
    hide Url, IsRefreshUrl, Prepare;
  }

  lemma RespondKeepsNet(c: Client, id: nat)
    requires NetInv(c.net)
    ensures NetInv(Responded(c, id).net)
  {
    hide Url, IsRefreshUrl, Saved;
  }

  lemma RefreshStartKeepsNet(c: Client, id: nat)
    requires NetInv(c.net) && id in c.net.inFlight && !c.net.inFlight[id].refresher
    requires !IsRefreshUrl(Url(c.net.inFlight[id].call))
    ensures var t := WithRefresh(c);
      NetInv(t.net.(inFlight := t.net.inFlight - {id}, parked := t.net.parked[id := c.net.inFlight[id]]))
  {
    hide Url, IsRefreshUrl, Prepare;
    var t := WithRefresh(c);
    assert t.net.refreshPromise.Some? && t.net.inFlight[id] == c.net.inFlight[id];
    assert id in t.net.parked[id := c.net.inFlight[id]];
  }

  lemma FailKeepsNet(c: Client, id: nat, status: nat)
    requires NetInv(c.net)
    ensures NetInv(Failed(c, id, status).net)
  {
    hide Url, IsRefreshUrl, WithRefresh;
    if id in c.net.inFlight && !c.net.inFlight[id].refresher && status == 401 && !GivesUp(c, c.net.inFlight[id]) {
      RefreshStartKeepsNet(c, id);
    }
  }

  lemma RefreshKeepsNet(c: Client, tokens: Tokens)
    requires NetInv(c.net)
    ensures NetInv(Refreshed(c, tokens).net)
  {
    hide Url, IsRefreshUrl, Prepare;
  }

  lemma RefreshFailureKeepsNet(c: Client)
    requires NetInv(c.net)
    ensures NetInv(RefreshFailed(c).net)
  {
    hide Url, IsRefreshUrl, Prepare;
  }

  lemma StepKeepsNet(c: Client, e: Event)
    requires NetInv(c.net)
    ensures NetInv(Step(c, e).net)
  {
    hide NetInv, Sent, Responded, Failed, Refreshed, RefreshFailed;
    match e
    case Issue(call) => SendKeepsNet(c, call);
    case Respond(id) => RespondKeepsNet(c, id);
    case Fail(id, status) => FailKeepsNet(c, id, status);
    case RefreshOk(tokens) => RefreshKeepsNet(c, tokens);
    case RefreshFail(_) => RefreshFailureKeepsNet(c);
    case _ =>
  }

  lemma {:induction false} RunKeepsNet(c: Client, es: seq<Event>)
    requires NetInv(c.net)
    ensures NetInv(Exec(c, es).net)
    decreases |es|
  {
    hide NetInv, Step;
    if es != [] {
      StepKeepsNet(c, es[0]);
      RunKeepsNet(Step(c, es[0]), es[1..]);
    }
  }

  /**
   * Single flight, over every run: two refresh requests are never on the network together, a request waits
   * only while one is, and no request that waits is itself a refresh.
   */
  lemma SingleFlight(storage: Storage, es: seq<Event>)
    ensures var n := Exec(Initial(storage), es).net;
      && (forall i, j :: i in n.inFlight && j in n.inFlight && n.inFlight[i].refresher && n.inFlight[j].refresher ==> i == j)
      && (n.parked != map[] <==> exists i :: i in n.inFlight && n.inFlight[i].refresher)
      && (forall id :: id in n.parked ==> !n.parked[id].refresher && !IsRefreshUrl(Url(n.parked[id].call)))
      && n.settled <= n.started <= n.settled + 1
  {
    hide Exec, Url, IsRefreshUrl;
    RunKeepsNet(Initial(storage), es);
    var n := Exec(Initial(storage), es).net;
    if n.refreshPromise.Some? {
      assert n.inFlight[n.refreshPromise.value].refresher;
    }
  }

  /** A refresh starts exactly on a 401 of a non-refresh URL, with a refresh token and no refresh outstanding. */
  lemma RefreshStarts(c: Client, e: Event)
    requires NetInv(c.net)
    ensures Step(c, e).net.started == c.net.started +
      if e.Fail? && e.status == 401 && e.id in c.net.inFlight && !c.net.inFlight[e.id].refresher
         && !IsRefreshUrl(Url(c.net.inFlight[e.id].call))
         && c.net.refreshPromise.None? && Truthy(c.storage.refresh)
      then 1 else 0
  {
    hide Url, IsRefreshUrl, Prepare, Saved;
  }

  predicate Unsettling(es: seq<Event>) { forall i :: 0 <= i < |es| ==> !es[i].RefreshOk? && !es[i].RefreshFail? }

  lemma {:induction false} UnsettlingKeepsSettled(c: Client, es: seq<Event>)
    requires Unsettling(es)
    ensures Exec(c, es).net.settled == c.net.settled
    decreases |es|
  {
    hide Url, IsRefreshUrl, Prepare, Saved;
    if es != [] { UnsettlingKeepsSettled(Step(c, es[0]), es[1..]); }
  }

  /** However many 401s arrive before the refresh settles, they share one refresh. */
  lemma BurstSharesRefresh(storage: Storage, es: seq<Event>, burst: seq<Event>)
    requires Unsettling(burst)
    ensures var c := Exec(Initial(storage), es);
      Exec(c, burst).net.started <= c.net.started + 1
  {
    hide Exec, Step;
    var c := Exec(Initial(storage), es);
    RunKeepsNet(Initial(storage), es);
    RunKeepsNet(c, burst);
    UnsettlingKeepsSettled(c, burst);
  }

  /** Every request ever sent is on the network, waiting, or answered; never two of these, over every run. */
  lemma ConservedRequests(storage: Storage, es: seq<Event>, id: nat)
    ensures var n := Exec(Initial(storage), es).net;
      && (id < n.nextId <==> id in n.inFlight || id in n.parked || id in n.outcomes)
      && !(id in n.inFlight && id in n.parked) && !(id in n.inFlight && id in n.outcomes)
      && !(id in n.parked && id in n.outcomes)
  {
    hide Exec, Url, IsRefreshUrl;
    RunKeepsNet(Initial(storage), es);
  }

  /** An answer is final, and a request number is never given out again. */
  lemma {:induction false} AnsweredOnce(c: Client, es: seq<Event>, id: nat)
    requires NetInv(c.net) && id in c.net.outcomes
    ensures var n := Exec(c, es).net; id in n.outcomes && n.outcomes[id] == c.net.outcomes[id]
    decreases |es|
  {
    if es != [] {
      StepKeepsNet(c, es[0]);
      StepKeepsAnswers(c, es[0], id);
      hide Step, NetInv;
      AnsweredOnce(Step(c, es[0]), es[1..], id);
    }
  }

  lemma StepKeepsAnswers(c: Client, e: Event, id: nat)
    requires NetInv(c.net) && id in c.net.outcomes
    ensures var n := Step(c, e).net; id in n.outcomes && n.outcomes[id] == c.net.outcomes[id]
  {
    hide Url, IsRefreshUrl, Prepare, Saved;
  }

  /**
   * When the refresh succeeds, every request that joined it is back on the network, once, with the new
   * token and the scope of that moment; when it fails, every one of them is rejected and the tokens are gone.
   */
  lemma SettleAnswersAll(c: Client, tokens: Tokens)
    requires NetInv(c.net) && c.net.refreshPromise.Some?
    ensures var t := Refreshed(c, tokens);
      && t.net.parked == map[] && t.net.refreshPromise == None
      && t.storage.access == Some(tokens.access) && t.storage.refresh == Some(tokens.refresh)
      && (forall id :: id in c.net.parked ==>
            && id in t.net.inFlight
            && t.net.inFlight[id].call == c.net.parked[id].call
            && t.net.inFlight[id].bearer == Some(tokens.access)
            && (!IsAuthOrUsers(Url(c.net.parked[id].call)) ==> t.net.inFlight[id].tag == Some(CurrentScope(c.storage))))
      && t.net.inFlight.Keys == c.net.inFlight.Keys - {c.net.refreshPromise.value} + c.net.parked.Keys
      && t.net.outcomes == c.net.outcomes[c.net.refreshPromise.value := Resolved] && t.caches == c.caches
    ensures var t := RefreshFailed(c);
      && t.net.parked == map[] && t.net.refreshPromise == None
      && t.storage.access == None && t.storage.refresh == None
      && (forall id :: id in c.net.parked ==> id in t.net.outcomes && t.net.outcomes[id] == Outcome.Rejected)
      && t.net.inFlight == c.net.inFlight - {c.net.refreshPromise.value}
  {
    hide Url, IsRefreshUrl, IsAuthOrUsers;
  }

  /** A 401 makes its request wait exactly if it is not one of the refresh URL and a refresh is out or can start. */
  lemma UnauthorizedJoins(c: Client, id: nat)
    requires NetInv(c.net) && id in c.net.inFlight && !c.net.inFlight[id].refresher
    ensures var t, r := Step(c, Fail(id, 401)), c.net.inFlight[id];
      && (id in t.net.parked <==> !IsRefreshUrl(Url(r.call)) && (c.net.refreshPromise.Some? || Truthy(c.storage.refresh)))
      && (id in t.net.parked ==>
            && t.net.parked == c.net.parked[id := r] && id !in t.net.inFlight
            && t.storage == c.storage && t.caches == c.caches
            && (c.net.refreshPromise.Some? ==>
                  && t.net.refreshPromise == c.net.refreshPromise && t.net.started == c.net.started
                  && t.net.inFlight == c.net.inFlight - {id})
            && (c.net.refreshPromise.None? ==>
                  && t.net.refreshPromise == Some(c.net.nextId) && t.net.started == c.net.started + 1
                  && t.net.inFlight.Keys == c.net.inFlight.Keys - {id} + {c.net.nextId}
                  && t.net.inFlight[c.net.nextId].refresher && t.net.inFlight[c.net.nextId].call == Plain("/auth/refresh")))
  {
    hide Url, IsRefreshUrl, Prepare;
  }

  lemma StepKeepsWaiting(c: Client, e: Event, id: nat)
    requires NetInv(c.net) && id in c.net.parked && !e.RefreshOk? && !e.RefreshFail?
    ensures var n := Step(c, e).net;
      id in n.parked && n.parked[id] == c.net.parked[id] && n.refreshPromise == c.net.refreshPromise && n.started == c.net.started
  {
    hide Url, IsRefreshUrl, Prepare, Saved;
  }

  lemma {:induction false} WaitsUntilSettled(c: Client, es: seq<Event>, id: nat)
    requires NetInv(c.net) && id in c.net.parked && Unsettling(es)
    ensures var n := Exec(c, es).net;
      && NetInv(n) && id in n.parked && n.parked[id] == c.net.parked[id]
      && n.refreshPromise == c.net.refreshPromise && n.started == c.net.started
    decreases |es|
  {
    if es != [] {
      StepKeepsNet(c, es[0]);
      StepKeepsWaiting(c, es[0], id);
      hide Step, NetInv;
      WaitsUntilSettled(Step(c, es[0]), es[1..], id);
    }
  }

  /**
   * Every 401 that arrives while a refresh is out joins it, over every run: its request waits, through
   * whatever else happens, until that refresh settles; and then it is sent again once with the new token, or
   * rejected with the tokens gone. The same holds for the 401 that starts the refresh.
   */
  lemma JoinedIsAnswered(storage: Storage, es: seq<Event>, id: nat, meanwhile: seq<Event>, tokens: Tokens, status: nat)
    requires var c := Exec(Initial(storage), es);
      && id in c.net.inFlight && !c.net.inFlight[id].refresher && !IsRefreshUrl(Url(c.net.inFlight[id].call))
      && (c.net.refreshPromise.Some? || Truthy(c.storage.refresh))
    requires Unsettling(meanwhile)
    ensures var c := Exec(Initial(storage), es);
      var r, w := c.net.inFlight[id], Exec(Step(c, Fail(id, 401)), meanwhile);
      var ok, bad := Step(w, RefreshOk(tokens)), Step(w, RefreshFail(status));
      && id in w.net.parked && w.net.parked[id] == r && id !in w.net.inFlight && id !in w.net.outcomes
      && w.net.refreshPromise.Some?
      && (c.net.refreshPromise.Some? ==> w.net.refreshPromise == c.net.refreshPromise && w.net.started == c.net.started)
      && id in ok.net.inFlight && id !in ok.net.parked && ok.net.inFlight[id].call == r.call
      && ok.net.inFlight[id].bearer == Some(tokens.access)
      && id in bad.net.outcomes && bad.net.outcomes[id] == Outcome.Rejected
      && bad.storage.access == None && bad.storage.refresh == None
  {
    hide Exec, Step;
    var c := Exec(Initial(storage), es);
    RunKeepsNet(Initial(storage), es);
    UnauthorizedJoins(c, id);
    StepKeepsNet(c, Fail(id, 401));
    var t := Step(c, Fail(id, 401));
    WaitsUntilSettled(t, meanwhile, id);
    var w := Exec(t, meanwhile);
    WaitingPlaces(w.net, id);
    hide NetInv, IsRefreshUrl, Url;
    SettleAnswersAll(w, tokens);
    SettleSteps(w, tokens, status);
    hide Refreshed, RefreshFailed;
  }

  lemma WaitingPlaces(n: Net, id: nat)
    requires NetInv(n) && id in n.parked
    ensures n.refreshPromise.Some? && id !in n.inFlight && id !in n.outcomes
  {
    hide IsRefreshUrl, Url;
  }

  lemma SettleSteps(c: Client, tokens: Tokens, status: nat)
    ensures Step(c, RefreshOk(tokens)) == Refreshed(c, tokens) && Step(c, RefreshFail(status)) == RefreshFailed(c)
  {
  }

  // ----- Scope safety -----

  predicate Scoped(call: Call) { !IsAuthOrUsers(Url(call)) }

  /** Every call whose response is stored in a scoped cache goes to a URL that the interceptor tags. */
  lemma StoredCallsAreScoped(call: Call)
    requires !call.Plain?
    ensures Scoped(call)
  {
    var u := Url(call);
    assert |u| > 5 && (u[1] == 'p' || (u[1] == 'a' && u[2] == 'c')) && u != "/users" && u != "/users/me";
    assert |"/auth"| == 5 && "/auth"[1] == 'a' && "/auth"[2] == 'u';
    assert u[..5][1] == u[1] && u[..5][2] == u[2];
  }

  /** Calls whose response goes into a cache that a switch clears. */
  predicate Guarded(call: Call) { call.AddAccount? || (call.Fetch? && Cleared(call.slot)) }

  /** Sent as the user itself, but with another user's id still in its parameters. */
  predicate Leaky(r: Request) { Guarded(r.call) && r.tag == Some("") && Truthy(r.asUser) }

  predicate WellTagged(r: Request) {
    Guarded(r.call) ==> r.tag.Some? && (Served(r) == r.tag.value || Leaky(r))
  }

  /** A retry becomes leaky exactly when it carries a user id and runs while the admin views itself. */
  lemma RetryLeaks(s: Storage, r: Request)
    ensures Leaky(Retry(s, r)) <==> Guarded(r.call) && !Truthy(s.viewing) && Truthy(r.asUser)
    ensures WellTagged(Retry(s, r)) && (Scoped(r.call) ==> Retry(s, r).tag == Some(CurrentScope(s)))
  {
    if !r.call.Plain? { StoredCallsAreScoped(r.call); }
    hide Url, IsAuthOrUsers;
  }

  ghost predicate CachesTagged(caches: map<Slot, seq<Datum>>, scope: Scope) {
    forall slot, d :: slot in caches && Cleared(slot) && d in caches[slot] ==> d.tag == scope
  }

  ghost predicate CachesServed(caches: map<Slot, seq<Datum>>, scope: Scope) {
    forall slot, d :: slot in caches && Cleared(slot) && d in caches[slot] ==> d.served == scope
  }

  ghost predicate ScopeInv(c: Client) {
    && (forall id :: id in c.net.inFlight ==> WellTagged(c.net.inFlight[id]))
    && CachesTagged(c.caches, CurrentScope(c.storage))
  }

  /** No request on the network is leaky, and the scoped caches hold what the server said about the current scope. */
  ghost predicate Clean(c: Client) {
    && (forall id :: id in c.net.inFlight ==> !Leaky(c.net.inFlight[id]))
    && CachesServed(c.caches, CurrentScope(c.storage))
  }

  /** A refresh succeeds while the admin views itself and a request sent for another user is waiting. */
  ghost predicate Crosses(c: Client, e: Event) {
    && e.RefreshOk? && c.net.refreshPromise.Some? && !Truthy(c.storage.viewing)
    && exists id :: id in c.net.parked && Guarded(c.net.parked[id].call) && Truthy(c.net.parked[id].asUser)
  }

  ghost predicate CrossesIn(c: Client, es: seq<Event>)
    decreases |es|
  {
    es != [] && (Crosses(c, es[0]) || CrossesIn(Step(c, es[0]), es[1..]))
  }

  lemma PreparedIsTagged(s: Storage, call: Call, refresher: bool)
    ensures var r := Prepare(s, Fresh(call, refresher)); WellTagged(r) && !Leaky(r)
  {
    if !call.Plain? { StoredCallsAreScoped(call); }
    hide Url, IsAuthOrUsers;
  }

  lemma RespondKeepsScope(c: Client, id: nat)
    requires ScopeInv(c)
    ensures ScopeInv(Responded(c, id)) && (Clean(c) ==> Clean(Responded(c, id)))
  {
    hide Url, IsAuthOrUsers, WellTagged;
    var t := Responded(c, id);
    if t.caches != c.caches {
      var r := c.net.inFlight[id];
      SavedKeepsScope(c, r);
    }
  }

  lemma SavedKeepsScope(c: Client, r: Request)
    requires ScopeInv(c) && WellTagged(r) && !r.call.Plain?
    requires r.tag.Some? ==> r.tag.value == CurrentScope(c.storage)
    ensures CachesTagged(Saved(c.caches, r), CurrentScope(c.storage))
    ensures Clean(c) && !Leaky(r) ==> CachesServed(Saved(c.caches, r), CurrentScope(c.storage))
  {
    StoredCallsAreScoped(r.call);
    hide Url, IsAuthOrUsers;
    var scope, d := CurrentScope(c.storage), Datum(OrEmpty(r.tag), Served(r));
    assert Guarded(r.call) ==> d.tag == scope && (!Leaky(r) ==> d.served == scope);
    var saved := Saved(c.caches, r);
    var target := if r.call.AddAccount? then AccountList else r.call.slot;
    assert forall slot :: slot in saved && slot != target ==> slot in c.caches && saved[slot] == c.caches[slot];
    assert forall x :: x in saved[target] ==> x == d || (target in c.caches && x in c.caches[target]);
  }

  lemma FailKeepsScope(c: Client, id: nat, status: nat)
    requires ScopeInv(c)
    ensures ScopeInv(Failed(c, id, status)) && (Clean(c) ==> Clean(Failed(c, id, status)))
  {
    PreparedIsTagged(c.storage, Plain(REFRESH_URL), true);
    hide Url, IsAuthOrUsers, IsRefreshUrl, WellTagged, Leaky, Prepare;
  }

  lemma RefreshKeepsScope(c: Client, tokens: Tokens)
    requires ScopeInv(c)
    ensures ScopeInv(Refreshed(c, tokens))
    ensures Clean(c) && !Crosses(c, RefreshOk(tokens)) ==> Clean(Refreshed(c, tokens))
  {
    var s := WithTokens(c.storage, tokens);
    forall id | id in c.net.parked
      ensures WellTagged(Retry(s, c.net.parked[id]))
      ensures Leaky(Retry(s, c.net.parked[id])) ==>
                !Truthy(c.storage.viewing) && Guarded(c.net.parked[id].call) && Truthy(c.net.parked[id].asUser)
    {
      RetryLeaks(s, c.net.parked[id]);
    }
    hide Url, IsAuthOrUsers, WellTagged, Leaky, Retry;
  }

  lemma StepKeepsScope(c: Client, e: Event)
    requires ScopeInv(c)
    ensures ScopeInv(Step(c, e)) && (Clean(c) && !Crosses(c, e) ==> Clean(Step(c, e)))
  {
    match e
    case Issue(call) => SendKeepsScope(c, call);
    case Respond(id) => hide ScopeInv, Clean, Responded; RespondKeepsScope(c, id);
    case Fail(id, status) => hide ScopeInv, Clean, Failed; FailKeepsScope(c, id, status);
    case RefreshOk(tokens) => hide ScopeInv, Clean, Crosses, Refreshed; RefreshKeepsScope(c, tokens);
    case RefreshFail(_) => hide WellTagged, Leaky;
    case Login(tokens) => hide WellTagged, Leaky;
    case SwitchUser(choice) => hide WellTagged, Leaky; assert CachesTagged(Step(c, e).caches, CurrentScope(Step(c, e).storage));
  }

  lemma SendKeepsScope(c: Client, call: Call)
    requires ScopeInv(c)
    ensures ScopeInv(Sent(c, call)) && (Clean(c) ==> Clean(Sent(c, call)))
  {
    PreparedIsTagged(c.storage, call, false);
    hide WellTagged, Leaky, Prepare;
  }

  lemma {:induction false} RunKeepsScope(c: Client, es: seq<Event>)
    requires ScopeInv(c)
    ensures ScopeInv(Exec(c, es)) && (Clean(c) && !CrossesIn(c, es) ==> Clean(Exec(c, es)))
    decreases |es|
  {
    hide ScopeInv, Clean, Crosses, Step;
    if es != [] {
      StepKeepsScope(c, es[0]);
      RunKeepsScope(Step(c, es[0]), es[1..]);
    }
  }

  /**
   * Scope safety. In every reachable state, everything in the caches that a switch clears was fetched by a
   * request tagged with the current scope; and unless some refresh succeeded while the admin viewed itself
   * and a request sent for another user was waiting, it is what the server returned for the current scope.
   */
  lemma ScopeSafety(storage: Storage, es: seq<Event>)
    ensures var c := Exec(Initial(storage), es);
      && CachesTagged(c.caches, CurrentScope(c.storage))
      && (!CrossesIn(Initial(storage), es) ==> CachesServed(c.caches, CurrentScope(c.storage)))
  {
    hide Exec, CrossesIn, WellTagged, Leaky;
    RunKeepsScope(Initial(storage), es);
  }

  predicate OnlyResponses(es: seq<Event>) { forall i :: 0 <= i < |es| ==> es[i].Respond? }

  lemma {:induction false} ResponsesCrossNothing(c: Client, es: seq<Event>)
    requires OnlyResponses(es)
    ensures !CrossesIn(c, es)
    decreases |es|
  {
    hide Step;
    if es != [] { ResponsesCrossNothing(Step(c, es[0]), es[1..]); }
  }

  /** After a crossing, one response is enough to store another user's data in the admin's own cache. */
  lemma CrossingStores(c: Client, e: Event) returns (id: nat)
    requires Crosses(c, e) && NetInv(c.net)
    ensures var t := Responded(Step(c, e), id); !CachesServed(t.caches, CurrentScope(t.storage))
  {
    id :| id in c.net.parked && Guarded(c.net.parked[id].call) && Truthy(c.net.parked[id].asUser);
    ParkedAreNoRefresh(c, id);
    RetryLeaks(WithTokens(c.storage, e.tokens), c.net.parked[id]);
    hide NetInv, Url, IsAuthOrUsers, IsRefreshUrl, Retry;
    LeakyResponseStores(Step(c, e), id);
  }

  lemma LeakyResponseStores(c: Client, id: nat)
    requires id in c.net.inFlight && Leaky(c.net.inFlight[id]) && !c.net.inFlight[id].refresher
    requires CurrentScope(c.storage) == ""
    ensures var t := Responded(c, id); !CachesServed(t.caches, CurrentScope(t.storage))
  {
    var r, t := c.net.inFlight[id], Responded(c, id);
    var slot := if r.call.AddAccount? then AccountList else r.call.slot;
    assert Datum("", Served(r)) in t.caches[slot];
  }

  lemma ParkedAreNoRefresh(c: Client, id: nat)
    requires NetInv(c.net) && id in c.net.parked
    ensures !c.net.parked[id].refresher
  {
  }

  /**
   * The condition is exact: after a run without crossings and one more step, every order of responses keeps
   * the scoped caches right if, and only if, that step does not cross.
   */
  lemma CrossingIsExact(storage: Storage, es: seq<Event>, e: Event)
    requires !CrossesIn(Initial(storage), es)
    ensures var c := Exec(Initial(storage), es);
      (forall rs :: OnlyResponses(rs) ==> RightAfter(Step(c, e), rs)) <==> !Crosses(c, e)
  {
    hide Exec, CrossesIn, NetInv, ScopeInv, Clean, Crosses, Step, CachesServed, OnlyResponses;
    var c := Exec(Initial(storage), es);
    InitialScope(storage);
    RunKeepsScope(Initial(storage), es);
    RunKeepsNet(Initial(storage), es);
    StepKeepsScope(c, e);
    if Crosses(c, e) {
      var id := CrossingStores(c, e);
      OneResponse(Step(c, e), id);
    } else {
      forall rs | OnlyResponses(rs) ensures RightAfter(Step(c, e), rs) {
        ResponsesCrossNothing(Step(c, e), rs);
        RunKeepsScope(Step(c, e), rs);
        CleanMeansServed(Exec(Step(c, e), rs));
      }
    }
  }

  ghost predicate RightAfter(c: Client, rs: seq<Event>) {
    var t := Exec(c, rs); CachesServed(t.caches, CurrentScope(t.storage))
  }

  lemma CleanMeansServed(c: Client)
    requires Clean(c)
    ensures CachesServed(c.caches, CurrentScope(c.storage))
  {
  }

  lemma InitialScope(storage: Storage)
    ensures var c := Initial(storage); NetInv(c.net) && ScopeInv(c) && Clean(c)
  {
  }

  lemma OneResponse(c: Client, id: nat)
    ensures Exec(c, [Respond(id)]) == Responded(c, id)
    ensures OnlyResponses([Respond(id)])
  {
    hide Responded;
    var rs := [Respond(id)];
    assert rs[1..] == [];
  }

  lemma {:induction false} ExecAppend(c: Client, es: seq<Event>, fs: seq<Event>)
    ensures Exec(c, es + fs) == Exec(Exec(c, es), fs)
    decreases |es|
  {
    hide Step;
    if es == [] {
      assert es + fs == fs;
    } else {
      ExecAppend(Step(c, es[0]), es[1..], fs);
      assert (es + fs)[1..] == es[1..] + fs;
    }
  }

  lemma Run3(c: Client, e: Event, f: Event, g: Event)
    ensures Exec(c, [e, f, g]) == Step(Step(Step(c, e), f), g)
  {
    hide Step;
    assert [e, f, g][1..] == [f, g] && [f, g][1..] == [g] && [g][1..] == [];
    assert Exec(Step(c, e), [f, g]) == Exec(Step(Step(c, e), f), [g]);
    assert Exec(Step(Step(c, e), f), [g]) == Exec(Step(Step(Step(c, e), f), g), []);
  }

  const ME := Storage(Some("t0"), Some("r0"), None)

  const LISTING := Request(Fetch(AccountList, ""), Some("u1"), Some("u1"), Some("t0"), false)

  /** The admin asked for u1's accounts and switched back to itself before the answer came. */
  const LATE := Client(ME, Net(map[0 := LISTING], map[], None, map[], 1, 0, 0), map[])

  lemma AskedThenSwitchedBack()
    ensures Exec(Initial(ME), [SwitchUser(Some("u1")), Issue(LISTING.call), SwitchUser(None)]) == LATE
  {
    var c0 := Initial(ME);
    Run3(c0, SwitchUser(Some("u1")), Issue(LISTING.call), SwitchUser(None));
    StoredCallsAreScoped(LISTING.call);
    hide Exec, IsAuthOrUsers, Url;
    var c1 := Step(c0, SwitchUser(Some("u1")));
    assert c1 == c0.(storage := ME.(viewing := Some("u1")));
    var c2 := Step(c1, Issue(LISTING.call));
    assert c2 == c1.(net := LATE.net);
  }

  /**
   * The crossing is possible even if the scope is stable from the 401 to the retry: the late answer is a 401,
   * the refresh succeeds, and the retry brings u1's accounts into the admin's own list.
   */
  lemma CrossingLeaks()
    ensures var t := Exec(Initial(ME),
        [SwitchUser(Some("u1")), Issue(Fetch(AccountList, "")), SwitchUser(None)] +
        [Fail(0, 401), RefreshOk(Tokens("t1", "r1")), Respond(0)]);
      && CurrentScope(t.storage) == "" && AccountList in t.caches && t.caches[AccountList] == [Datum("", "u1")]
  {
    var fs := [Fail(0, 401), RefreshOk(Tokens("t1", "r1")), Respond(0)];
    AskedThenSwitchedBack();
    ExecAppend(Initial(ME), [SwitchUser(Some("u1")), Issue(LISTING.call), SwitchUser(None)], fs);
    Run3(LATE, fs[0], fs[1], fs[2]);
    WaitsForRefresh();
    StoredCallsAreScoped(LISTING.call);
    hide Exec, IsAuthOrUsers, Url, WithRefresh, Failed;
    var c := Step(Step(LATE, fs[0]), fs[1]);
    assert c.net.inFlight[0] == LISTING.(tag := Some(""), bearer := Some("t1"));
  }

  lemma WaitsForRefresh()
    ensures var c := Failed(LATE, 0, 401);
      && c.storage == ME && c.caches == map[] && c.net.parked == map[0 := LISTING]
      && c.net.refreshPromise == Some(1) && c.net.inFlight.Keys == {1}
  {
    AccountsUrl();
    hide IsAuthOrUsers, IsRefreshUrl, Prepare;
  }

  lemma AccountsUrl()
    ensures !IsRefreshUrl("/accounts")
  {
    var u := "/accounts";
    assert |REFRESH_URL| == 13 && |u| == 9;
    ShortHasNot(u, REFRESH_URL);
  }

  lemma {:induction false} ShortHasNot(url: string, part: string)
    requires |url| < |part|
    ensures !Contains(url, part)
  {
    if url != "" { ShortHasNot(url[1..], part); }
  }

  // ----- What a switch clears, and what it leaves -----

  /**
   * A real switch empties the performance overview, accounts, feed and drill-down and the account list, details
   * and statuses, leaves the other two caches as they are, and changes the scope; another switch does nothing.
   */
  lemma SwitchContents(c: Client, choice: Option<string>, slot: Slot)
    ensures var t := Step(c, SwitchUser(choice));
      if (if choice == Some("") then None else choice) == c.storage.viewing then t == c
      else
        && t.net == c.net && t.storage.access == c.storage.access && t.storage.refresh == c.storage.refresh
        && CurrentScope(t.storage) == OrEmpty(choice) && t.storage.viewing != Some("")
        && Content(t.caches, slot) ==
             match slot
             case Strategies => Content(c.caches, slot)
             case BrokerSymbols(_) => Content(c.caches, slot)
             case _ => []
  {
  }

  /** The event is a response that is handed on and stored in `slot`. */
  predicate StoresIn(c: Client, e: Event, slot: Slot) {
    && e.Respond? && e.id in c.net.inFlight
    && var r := c.net.inFlight[e.id];
      && !r.refresher && r.call.Fetch? && r.call.slot == slot
      && (r.tag.Some? ==> r.tag.value == CurrentScope(c.storage))
  }

  /** The contents of `slot` after the event, when only responses change them. */
  function StoredBy(before: seq<Datum>, c: Client, e: Event, slot: Slot): (r: seq<Datum>)
    ensures |before| <= 1 ==> |r| <= 1
  {
    if StoresIn(c, e, slot) then [Datum(OrEmpty(c.net.inFlight[e.id].tag), Served(c.net.inFlight[e.id]))] else before
  }

  /** What the last response of the run that was stored in `slot` brought; `before` precedes the run. */
  function LastStored(before: seq<Datum>, c: Client, es: seq<Event>, slot: Slot): seq<Datum>
    decreases |es|
  {
    if es == [] then before
    else LastStored(StoredBy(before, c, es[0], slot), Step(c, es[0]), es[1..], slot)
  }

  lemma UnclearedStep(c: Client, e: Event, slot: Slot)
    requires !Cleared(slot)
    ensures Content(Step(c, e).caches, slot) == StoredBy(Content(c.caches, slot), c, e, slot)
  {
    hide Url, IsAuthOrUsers, IsRefreshUrl, Prepare;
  }

  /** Over every run, whatever the switches, an uncleared cache shows what was last stored in it. */
  lemma {:induction false} UnclearedIsLastStored(c: Client, es: seq<Event>, slot: Slot)
    requires !Cleared(slot)
    ensures Content(Exec(c, es).caches, slot) == LastStored(Content(c.caches, slot), c, es, slot)
    decreases |es|
  {
    hide Step, StoredBy;
    if es != [] {
      UnclearedStep(c, es[0], slot);
      UnclearedIsLastStored(Step(c, es[0]), es[1..], slot);
    }
  }

  /**
   * The strategy figures and the broker symbols are not cleared. After any run and a real switch they show only
   * data of the new scope exactly when nothing was stored in them, or what was last stored came for that scope.
   */
  lemma UnclearedAfterSwitch(storage: Storage, es: seq<Event>, choice: Option<string>, slot: Slot)
    requires !Cleared(slot)
    requires (if Truthy(choice) then choice else None) != Exec(Initial(storage), es).storage.viewing
    ensures var t, last := Step(Exec(Initial(storage), es), SwitchUser(choice)), LastStored([], Initial(storage), es, slot);
      (forall d :: d in Content(t.caches, slot) ==> d.served == CurrentScope(t.storage)) <==>
        last == [] || last[0].served == OrEmpty(choice)
  {
    hide Exec, Step, LastStored;
    var c := Exec(Initial(storage), es);
    UnclearedIsLastStored(Initial(storage), es, slot);
    LastStoredIsOne([], Initial(storage), es, slot);
    SwitchContents(c, choice, slot);
  }

  lemma {:induction false} LastStoredIsOne(before: seq<Datum>, c: Client, es: seq<Event>, slot: Slot)
    requires |before| <= 1
    ensures |LastStored(before, c, es, slot)| <= 1
    decreases |es|
  {
    hide Step, StoredBy;
    if es != [] { LastStoredIsOne(StoredBy(before, c, es[0], slot), Step(c, es[0]), es[1..], slot); }
  }

  /** It does happen, for each such cache and each user: what the admin loaded for itself is shown for the user. */
  lemma UnclearedSurvives(slot: Slot, key: string, user: string)
    requires !Cleared(slot) && user != ""
    ensures var t := Exec(Initial(ME), [Issue(Fetch(slot, key)), Respond(0), SwitchUser(Some(user))]);
      CurrentScope(t.storage) == user && Content(t.caches, slot) == [Datum("", "")]
  {
    var c0 := Initial(ME);
    var call := Fetch(slot, key);
    Run3(c0, Issue(call), Respond(0), SwitchUser(Some(user)));
    StoredCallsAreScoped(call);
    hide Exec, IsAuthOrUsers, Url;
    var c1 := Step(c0, Issue(call));
    assert c1.net.inFlight == map[0 := Request(call, None, Some(""), Some("t0"), false)];
    var c2 := Step(c1, Respond(0));
    assert c2.caches == map[slot := [Datum("", "")]];
    SwitchContents(c2, Some(user), slot);
  }

  ghost predicate Inv(c: Client) { NetInv(c.net) && ScopeInv(c) }

  lemma StepKeepsInv(c: Client, e: Event)
    requires Inv(c)
    ensures Inv(Step(c, e))
  {
    StepKeepsNet(c, e);
    StepKeepsScope(c, e);
    hide NetInv, ScopeInv, Step;
  }

  /**
   * The client, the browser storage it reads and writes, and the two stores a switch clears. Each method is
   * one event: an issued request, an interceptor run, or the admin's choice.
   */
  class ApiClient {
    var access: Option<string>
    var refresh: Option<string>
    var viewing: Option<string>
    var net: Net
    var caches: map<Slot, seq<Datum>>

    ghost function Stored(): Storage
      reads this
    {
      Storage(access, refresh, viewing)
    }

    ghost function State(): Client
      reads this
    {
      Client(Stored(), net, caches)
    }

    ghost predicate Valid()
      reads this
    {
      Inv(State())
    }

    constructor (storage: Storage)
      ensures Valid() && State() == Initial(storage)
    {
      access, refresh, viewing := storage.access, storage.refresh, storage.viewing;
      net, caches := Net(map[], map[], None, map[], 0, 0, 0), map[];
    }

    method StoreTokens(tokens: Tokens)
      modifies this`access, this`refresh
      ensures Stored() == WithTokens(old(Stored()), tokens)
    {
      access := Some(tokens.access);
      refresh := Some(tokens.refresh);
    }

    method ClearTokens()
      modifies this`access, this`refresh
      ensures Stored() == WithoutTokens(old(Stored()))
    {
      access := None;
      refresh := None;
    }

    method OnRequest(config: Request) returns (r: Request)
      ensures r == Prepare(Stored(), config)
      ensures access.Some? && access.value != "" ==> r.bearer == access
      ensures OwnUrl(Url(config.call)) ==> r.asUser == config.asUser && r.tag == config.tag
      ensures !OwnUrl(Url(config.call)) ==> r.tag == Some(if viewing.Some? then viewing.value else "")
    {
      r := config;
      if Truthy(access) { r := r.(bearer := access); }
      if !IsAuthOrUsers(Url(config.call)) {
        if Truthy(viewing) { r := r.(asUser := viewing); }
        r := r.(tag := Some(OrEmpty(viewing)));
      }
    }

    method Issue(call: Call) returns (id: nat)
      requires Valid()
      modifies this
      ensures Valid() && State() == Step(old(State()), Event.Issue(call)) && id == old(net.nextId)
    {
      StepKeepsInv(State(), Event.Issue(call));
      hide Inv, Prepare;
      var r := OnRequest(Fresh(call, false));
      id := net.nextId;
      net := net.(inFlight := net.inFlight[id := r], nextId := id + 1);
    }

    method OnResponse(id: nat)
      requires Valid() && id in net.inFlight && !net.inFlight[id].refresher
      modifies this
      ensures Valid() && State() == Step(old(State()), Respond(id))
    {
      StepKeepsInv(State(), Respond(id));
      hide Inv;
      var r := net.inFlight[id];
      if r.tag.Some? {
        var current := if viewing.Some? then viewing.value else "";
        if r.tag.value != current {
          net := Settle(net, id, Ignored);
          return;
        }
      }
      net := Settle(net, id, Resolved);
      match r.call
      case Fetch(slot, _) => caches := caches[slot := [Datum(OrEmpty(r.tag), Served(r))]];
      case AddAccount =>
        var accounts := if AccountList in caches then caches[AccountList] else [];
        caches := caches[AccountList := accounts + [Datum(OrEmpty(r.tag), Served(r))]];
      case Plain(_) =>
    }

    method OnError(id: nat, status: nat)
      requires Valid() && id in net.inFlight && !net.inFlight[id].refresher
      modifies this
      ensures Valid() && State() == Step(old(State()), Fail(id, status))
    {
      StepKeepsInv(State(), Fail(id, status));
      hide Inv, Prepare, Url, IsRefreshUrl;
      var r := net.inFlight[id];
      if status != 401 {
        net := Settle(net, id, Outcome.Rejected);
        return;
      }
      if IsRefreshUrl(Url(r.call)) {
        ClearTokens();
        net := Settle(net, id, Outcome.Rejected);
        return;
      }
      if net.refreshPromise.None? {
        if !Truthy(refresh) {
          ClearTokens();
          net := Settle(net, id, Outcome.Rejected);
          return;
        }
        var post := OnRequest(Fresh(Plain(REFRESH_URL), true));
        net := net.(
          inFlight := net.inFlight[net.nextId := post],
          refreshPromise := Some(net.nextId), nextId := net.nextId + 1, started := net.started + 1);
      }
      net := net.(inFlight := net.inFlight - {id}, parked := net.parked[id := r]);
    }

    /** The shared refresh resolved: `finally` forgets the promise, and everything parked on it goes out again. */
    method OnRefreshed(tokens: Tokens)
      requires Valid() && net.refreshPromise.Some?
      modifies this
      ensures Valid() && State() == Step(old(State()), RefreshOk(tokens))
    {
      StepKeepsInv(State(), RefreshOk(tokens));
      hide Inv, Prepare, Retry;
      var joined := net.parked;
      net := RefreshSettled(net, Resolved);
      StoreTokens(tokens);
      var s := Storage(access, refresh, viewing);
      net := net.(inFlight := net.inFlight + map id | id in joined :: Retry(s, joined[id]));
    }

    /** The shared refresh failed: everything parked on it is rejected with its own 401. */
    method OnRefreshError(status: nat)
      requires Valid() && net.refreshPromise.Some?
      modifies this
      ensures Valid() && State() == Step(old(State()), RefreshFail(status))
    {
      StepKeepsInv(State(), RefreshFail(status));
      hide Inv;
      if status == 401 { ClearTokens(); }
      var joined := net.parked;
      net := RefreshSettled(net, Outcome.Rejected);
      ClearTokens();
      net := net.(outcomes := net.outcomes + map id | id in joined :: Outcome.Rejected);
    }

    /** Every scoped request sent from now on is tagged with the chosen scope, and asks the server for that scope. */
    method SetViewingAs(id: Option<string>)
      modifies this`viewing
      ensures CurrentScope(Stored()) == OrEmpty(id) && viewing != Some("")
      ensures forall call :: Scoped(call) ==>
        var r := Prepare(Stored(), Fresh(call, false)); Served(r) == OrEmpty(id) && r.tag == Some(OrEmpty(id))
    {
      hide Url, IsAuthOrUsers;
      if Truthy(id) { viewing := id; } else { viewing := None; }
    }

    method OnUserChosen(choice: Option<string>)
      requires Valid()
      modifies this
      ensures Valid() && State() == Step(old(State()), SwitchUser(choice))
    {
      StepKeepsInv(State(), SwitchUser(choice));
      hide Inv;
      var next := if Truthy(choice) then choice else None;
      if next == viewing { return; }
      caches := map slot | slot in caches && !Cleared(slot) :: caches[slot];
      SetViewingAs(next);
    }
  }
}
