/** public/js/admin.js: the licence dashboard. It lists the licences the
    server returns, searches them, counts them, and creates, revokes and
    unlinks licences; a missing or rejected admin secret sends the browser
    to the login page. */
module Admin {
  import opened Optional
  import opened JsString
  import opened JsArray
  import opened LicenseCodes

  /** A licence as the server lists it; "" stands for a missing field. The
      machine id may come as `machine_id` or as `machineId`. */
  datatype License = License(code: string, name: string, email: string, status: string,
                             machine_id: string, machineId: string)

  // ---------------------------------------------------------------------
  // Search
  // ---------------------------------------------------------------------

  /** A licence matches a lower-cased term when its lower-cased code, name or
      email (the last two only when present) contains the term. */
  predicate Matches(l: License, term: string)
    ensures term == "" ==> Matches(l, term)
    ensures Matches(l, term) ==> |term| <= |l.code| || |term| <= |l.name| || |term| <= |l.email|
  {
    assert OccursAt(ToLowerCase(l.code), "", 0);
    || Includes(ToLowerCase(l.code), term)
    || (l.name != "" && Includes(ToLowerCase(l.name), term))
    || (l.email != "" && Includes(ToLowerCase(l.email), term))
  }

  /** The search box's input handler: the licences, in their order, that
      match the lower-cased term. */
  function Search(licenses: seq<License>, rawTerm: string): (r: seq<License>)
    ensures forall l :: l in r <==> l in licenses && Matches(l, ToLowerCase(rawTerm))
    ensures IsSubsequence(r, licenses)
    ensures |r| <= |licenses|
    ensures forall l :: multiset(r)[l] == if Matches(l, ToLowerCase(rawTerm)) then multiset(licenses)[l] else 0
  {
    var term := ToLowerCase(rawTerm);
    FilterIsSubsequence(licenses, l => Matches(l, term));
    forall l | true
      ensures multiset(Filter(licenses, l => Matches(l, term)))[l] == if Matches(l, term) then multiset(licenses)[l] else 0
    {
      FilterMultiplicity(licenses, l => Matches(l, term), l);
    }
    Filter(licenses, l => Matches(l, term))
  }

  /** An empty search keeps every licence. */
  lemma SearchEmptyTermKeepsAll(licenses: seq<License>)
    ensures Search(licenses, "") == licenses
  {
    forall k | 0 <= k < |licenses| ensures Matches(licenses[k], ToLowerCase("")) {
      assert OccursAt(ToLowerCase(licenses[k].code), "", 0);
    }
  }

  /** Lower-casing after upper-casing is lower-casing. */
  lemma LowerOfUpper(s: string)
    ensures ToLowerCase(ToUpperCase(s)) == ToLowerCase(s)
  {
  }

  /** The case in which the term is typed does not change the result. */
  lemma SearchIgnoresTermCase(licenses: seq<License>, rawTerm: string)
    ensures Search(licenses, ToUpperCase(rawTerm)) == Search(licenses, rawTerm)
  {
    LowerOfUpper(rawTerm);
  }

  /** The case of a licence's fields does not change whether it matches. */
  lemma MatchIgnoresFieldCase(l: License, term: string)
    ensures Matches(l.(code := ToUpperCase(l.code), name := ToUpperCase(l.name), email := ToUpperCase(l.email)), term)
      == Matches(l, term)
  {
    LowerOfUpper(l.code);
    LowerOfUpper(l.name);
    LowerOfUpper(l.email);
    assert ToUpperCase(l.name) == "" <==> l.name == "";
    assert ToUpperCase(l.email) == "" <==> l.email == "";
  }

  // ---------------------------------------------------------------------
  // Statistics
  // ---------------------------------------------------------------------

  datatype Stats = Stats(total: nat, active: nat, revoked: nat, devices: nat)

  predicate IsActive(l: License) { l.status == "active" }
  predicate IsRevoked(l: License) { l.status == "revoked" }
  /** `l.machine_id || l.machineId` is truthy. */
  predicate HasDevice(l: License) { l.machine_id != "" || l.machineId != "" }

  /** `updateStats`: the four counters. No licence is both active and
      revoked, so the two together never exceed the total. */
  function StatsOf(licenses: seq<License>): (s: Stats)
    ensures s.total == |licenses|
    ensures s.active + s.revoked <= s.total
    ensures s.devices <= s.total
    ensures s.active == |Filter(licenses, IsActive)| && s.revoked == |Filter(licenses, IsRevoked)|
    ensures s.devices == |Filter(licenses, HasDevice)|
  {
    FilterDisjointLength(licenses, IsActive, IsRevoked);
    Stats(|licenses|, |Filter(licenses, IsActive)|, |Filter(licenses, IsRevoked)|, |Filter(licenses, HasDevice)|)
  }

  /** Each counter is the number of its licences, taken one by one. */
  lemma {:induction false} StatsAppend(licenses: seq<License>, l: License)
    ensures var s := StatsOf(licenses + [l]);
      var t := StatsOf(licenses);
      && s.total == t.total + 1
      && s.active == t.active + (if IsActive(l) then 1 else 0)
      && s.revoked == t.revoked + (if IsRevoked(l) then 1 else 0)
      && s.devices == t.devices + (if HasDevice(l) then 1 else 0)
  {
    FilterConcat(licenses, [l], IsActive);
    FilterConcat(licenses, [l], IsRevoked);
    FilterConcat(licenses, [l], HasDevice);
  }

  // ---------------------------------------------------------------------
  // The table
  // ---------------------------------------------------------------------

  /** What a table row shows: its code, name ('Unknown' when missing),
      email ('-' when missing), status label, machine id, and, for an
      active licence only, the reset and revoke buttons, the reset button
      carrying the machine id or "". */
  datatype Row = Row(code: string, name: string, email: string, statusLabel: string,
                     machine: string, actions: bool)

  function MachineOf(l: License): string
  {
    if l.machine_id != "" then l.machine_id else l.machineId
  }

  function RowFor(l: License): (r: Row)
    ensures r.actions <==> l.status == "active"
    ensures r.machine != "" <==> HasDevice(l)
    ensures r.code == l.code
  {
    var status := if l.status != "" then l.status else "unknown";
    Row(l.code, if l.name != "" then l.name else "Unknown", if l.email != "" then l.email else "-",
        ToUpperCase(status), MachineOf(l), status == "active")
  }

  /** The contents of the table body. */
  datatype TableView = Blank | Loading | NoLicenses | Rows(rows: seq<Row>) | ConnectionError(message: string)

  /** `renderTable(data)`: 'No Licenses Found' for an empty list, otherwise
      one row per licence in order. */
  function RenderTable(data: seq<License>): (v: TableView)
    ensures data == [] <==> v == NoLicenses
    ensures data != [] ==> v.Rows? && |v.rows| == |data|
    ensures v.Rows? ==> forall i :: 0 <= i < |data| ==> v.rows[i] == RowFor(data[i])
  {
    if data == [] then NoLicenses else Rows(seq(|data|, i requires 0 <= i < |data| => RowFor(data[i])))
  }

  /** Action buttons appear exactly on the rows of active licences. */
  lemma ActionsOnlyForActive(data: seq<License>, i: int)
    requires 0 <= i < |data|
    ensures RenderTable(data).Rows? && (RenderTable(data).rows[i].actions <==> data[i].status == "active")
  {
  }

  // ---------------------------------------------------------------------
  // The dashboard
  // ---------------------------------------------------------------------

  /** The POST requests the dashboard sends (each with the admin secret). */
  datatype AdminRequest =
    | ListLicenses
    | CreateLicense(code: string, name: string, email: string)
    | RevokeLicense(code: string)
    | ResetMachine(code: string, machineId: string)

  /** How `/licenses` answered: status 401, a JSON body with or without a
      `licenses` field, or a failed fetch or parse with its message. */
  datatype ListReply = Unauthorized | Listed(licenses: Option<seq<License>>) | ListFailed(message: string)

  /** How `/create-license` answered: an ok response with or without a
      `code` field, or a response without `ok` or a failed fetch. */
  datatype CreateReply = Created(code: Option<string>) | CreateFailed

  /** How `/revoke-license` and `/reset-machine` answered. */
  datatype ActionReply = ActionOk | ActionNotOk | ActionThrew

  const LoginPath := "admin/login/"
  const BadSecretAlert := "Invalid Admin Secret Key. Please login again."
  const CreateFailedAlert := "Failed to create license"
  const RevokeFailedAlert := "Failed to revoke"
  const NoMachineAlert := "No machine active properly."
  const ResetFailedAlert := "Failed to reset machine"
  const UnlinkedAlert := "Machine Unlinked"

  /** The code `createLicense` reports: the server's `data.code` when it is
      there and not empty, the generated one otherwise. */
  function ReportedCode(server: Option<string>, generated: string): (c: string)
    ensures server.Some? && server.value != "" ==> c == server.value
    ensures server.None? || server.value == "" ==> c == generated
  {
    if server.Some? && server.value != "" then server.value else generated
  }

  /** Everything of the dashboard its handlers change: the stored secret,
      the page the browser was sent to, the licence list, the table body, the
      counters, whether the create dialog is open, the requests sent and the
      alerts shown, both in order. */
  datatype DashState = DashState(
    storedSecret: Option<string>, location: Option<string>,
    licenses: seq<License>, table: TableView, stats: Option<Stats>, modalOpen: bool,
    requests: seq<AdminRequest>, alerts: seq<string>)

  /** The state after `fetchLicenses` got `reply`, where `loginUrl` is the
      login page: the table shows 'Loading' until the answer comes; a 401
      logs out, a list replaces the licences, the table and the counters, and
      a failure shows its message in the table. */
  function AfterList(s: DashState, loginUrl: string, reply: ListReply): (r: DashState)
    ensures r.requests == s.requests + [ListLicenses] && r.modalOpen == s.modalOpen
    ensures reply.Unauthorized? ==> r.storedSecret == None && r.location == Some(loginUrl) && r.alerts == s.alerts + [BadSecretAlert]
    ensures !reply.Unauthorized? ==> r.storedSecret == s.storedSecret && r.location == s.location && r.alerts == s.alerts
    ensures reply.Listed? ==> r.licenses == reply.licenses.GetOr([]) && StatsCurrent(r) && r.stats.Some?
    ensures !reply.Listed? ==> r.licenses == s.licenses && r.stats == s.stats
    ensures StatsCurrent(s) ==> StatsCurrent(r)
  {
    var asked := s.(table := Loading, requests := s.requests + [ListLicenses]);
    match reply
    case Unauthorized =>
      asked.(alerts := s.alerts + [BadSecretAlert], storedSecret := None, location := Some(loginUrl))
    case Listed(ls) =>
      var l := ls.GetOr([]);
      asked.(licenses := l, table := RenderTable(l), stats := Some(StatsOf(l)))
    case ListFailed(message) =>
      asked.(table := ConnectionError(message))
  }

  /** The counters describe the licence list once they are shown. */
  predicate StatsCurrent(s: DashState)
  {
    s.stats.Some? ==> s.stats.value == StatsOf(s.licenses)
  }

  /** The admin page. `started` is false when the script stopped at the
      authentication check; no handler is installed then. */
  class Dashboard {
    const basePath: string
    const started: bool
    var storedSecret: Option<string>
    var location: Option<string>
    var licenses: seq<License>
    var table: TableView
    var stats: Option<Stats>
    var modalOpen: bool
    var requests: seq<AdminRequest>
    var alerts: seq<string>

    /** The page's load handler: without a stored secret the browser goes
        to the login page and nothing else happens; with one, the licence
        list is fetched, `initial` being how that first fetch went.
        `windowBasePath` is `window.BASE_PATH`, "/" standing in when it is
        missing or empty. */
    constructor (windowBasePath: Option<string>, secret: Option<string>, initial: ListReply)
      ensures basePath == (if windowBasePath.Some? && windowBasePath.value != "" then windowBasePath.value else "/")
      ensures started <==> secret.Some? && secret.value != ""
      ensures !started ==> State() == DashState(secret, Some(basePath + LoginPath), [], Blank, None, false, [], [])
      ensures started ==>
        State() == AfterList(DashState(secret, None, [], Blank, None, false, [], []), basePath + LoginPath, initial)
    {
      basePath := if windowBasePath.Some? && windowBasePath.value != "" then windowBasePath.value else "/";
      started := secret.Some? && secret.value != "";
      storedSecret := secret;
      location := if secret.Some? && secret.value != "" then None else Some(basePath + LoginPath);
      licenses, table, stats, modalOpen := [], Blank, None, false;
      requests, alerts := [], [];
      new;
      if started {
        FetchLicenses(initial);
      }
    }

    function State(): DashState
      reads this
    {
      DashState(storedSecret, location, licenses, table, stats, modalOpen, requests, alerts)
    }

    /** `handleLogout`: forget the secret and go to the login page. */
    method Logout()
      requires started
      modifies this
      ensures storedSecret == None && location == Some(basePath + LoginPath)
      ensures licenses == old(licenses) && table == old(table) && stats == old(stats) && modalOpen == old(modalOpen)
      ensures requests == old(requests) && alerts == old(alerts)
    {
      storedSecret := None;
      location := Some(basePath + LoginPath);
    }

    /** `fetchLicenses`. A 401 logs out and keeps the old list; an answer
        without a `licenses` field gives the empty list. */
    method FetchLicenses(reply: ListReply)
      requires started
      modifies this
      ensures State() == AfterList(old(State()), basePath + LoginPath, reply)
      ensures reply.Unauthorized? ==>
        State() == old(State()).(table := Loading, requests := old(requests) + [ListLicenses],
          alerts := old(alerts) + [BadSecretAlert], storedSecret := None, location := Some(basePath + LoginPath))
      ensures reply.Listed? ==>
        var ls := reply.licenses.GetOr([]);
        State() == old(State()).(licenses := ls, table := RenderTable(ls), stats := Some(StatsOf(ls)),
          requests := old(requests) + [ListLicenses])
      ensures reply.ListFailed? ==>
        State() == old(State()).(table := ConnectionError(reply.message), requests := old(requests) + [ListLicenses])
    {
      table := Loading;
      requests := requests + [ListLicenses];
      match reply
      case Unauthorized =>
        alerts := alerts + [BadSecretAlert];
        Logout();
        assert State() == old(State()).(table := Loading, requests := old(requests) + [ListLicenses],
          alerts := old(alerts) + [BadSecretAlert], storedSecret := None, location := Some(basePath + LoginPath));
      case Listed(ls) =>
        licenses := ls.GetOr([]);
        table := RenderTable(licenses);
        stats := Some(StatsOf(licenses));
      case ListFailed(message) =>
        table := ConnectionError(message);
        assert State() == old(State()).(table := ConnectionError(message), requests := old(requests) + [ListLicenses]);
    }

    /** The search box's input handler: the table shows the matching
        licences; the list itself is untouched. */
    method SearchInput(rawTerm: string)
      requires started
      modifies this
      ensures table == RenderTable(Search(old(licenses), rawTerm))
      ensures licenses == old(licenses) && stats == old(stats) && modalOpen == old(modalOpen)
      ensures requests == old(requests) && alerts == old(alerts)
      ensures storedSecret == old(storedSecret) && location == old(location)
    {
      table := RenderTable(Search(licenses, rawTerm));
    }

    method OpenModal()
      requires started
      modifies this
      ensures modalOpen
      ensures licenses == old(licenses) && table == old(table) && stats == old(stats)
      ensures requests == old(requests) && alerts == old(alerts)
      ensures storedSecret == old(storedSecret) && location == old(location)
    {
      modalOpen := true;
    }

    /** `closeModal`: hide the create dialog. */
    method CloseModal()
      requires started
      modifies this
      ensures State() == old(State()).(modalOpen := false)
    {
      modalOpen := false;
    }

    /** `createLicense(name, email)` with the two random draws `a` and `b`;
        on success the modal closes and the list is fetched again with
        `refetch` as its answer. */
    method CreateLicenseFor(name: string, email: string, a: nat, b: nat, reply: CreateReply, refetch: ListReply)
      requires started
      requires a < 65535 && b < 65535
      modifies this
      ensures var code := LicenseCode(a, b);
        |requests| >= |old(requests)| + 1 && requests[|old(requests)|] == CreateLicense(code, name, email)
      ensures reply.CreateFailed? ==>
        State() == old(State()).(requests := old(requests) + [CreateLicense(LicenseCode(a, b), name, email)],
          alerts := old(alerts) + [CreateFailedAlert])
      ensures reply.Created? ==>
        && requests == old(requests) + [CreateLicense(LicenseCode(a, b), name, email), ListLicenses]
        && |alerts| >= |old(alerts)| + 1
        && alerts[|old(alerts)|] == "License Created: " + ReportedCode(reply.code, LicenseCode(a, b))
        && !modalOpen
      ensures reply.Created? ==>
        State() == AfterList(old(State()).(
          requests := old(requests) + [CreateLicense(LicenseCode(a, b), name, email)],
          alerts := old(alerts) + ["License Created: " + ReportedCode(reply.code, LicenseCode(a, b))],
          modalOpen := false), basePath + LoginPath, refetch)
    {
      var code := LicenseCode(a, b);
      requests := requests + [CreateLicense(code, name, email)];
      match reply
      case CreateFailed =>
        alerts := alerts + [CreateFailedAlert];
        assert State() == old(State()).(requests := old(requests) + [CreateLicense(code, name, email)],
          alerts := old(alerts) + [CreateFailedAlert]);
      case Created(serverCode) =>
        alerts := alerts + ["License Created: " + ReportedCode(serverCode, code)];
        modalOpen := false;
        ghost var asked := State();
        FetchLicenses(refetch);
        assert State() == AfterList(asked, basePath + LoginPath, refetch);
    }

    /** `revokeLicense(code)`: nothing without confirmation; the answer's
        status is not looked at, only a failed fetch is reported. */
    method Revoke(code: string, confirmed: bool, reply: ActionReply, refetch: ListReply)
      requires started
      modifies this
      ensures !confirmed ==>
        && requests == old(requests) && alerts == old(alerts)
        && licenses == old(licenses) && table == old(table) && stats == old(stats)
        && storedSecret == old(storedSecret) && location == old(location)
      ensures confirmed && reply.ActionThrew? ==>
        && requests == old(requests) + [RevokeLicense(code)]
        && alerts == old(alerts) + [RevokeFailedAlert]
        && licenses == old(licenses) && table == old(table) && stats == old(stats)
        && storedSecret == old(storedSecret) && location == old(location)
      ensures confirmed && !reply.ActionThrew? ==> requests == old(requests) + [RevokeLicense(code), ListLicenses]
      ensures confirmed && !reply.ActionThrew? ==>
        State() == AfterList(old(State()).(requests := old(requests) + [RevokeLicense(code)]), basePath + LoginPath, refetch)
      ensures modalOpen == old(modalOpen)
    {
      if !confirmed {
        return;
      }
      requests := requests + [RevokeLicense(code)];
      if reply.ActionThrew? {
        alerts := alerts + [RevokeFailedAlert];
      } else {
        FetchLicenses(refetch);
      }
    }

    /** `resetMachine(code, machineId)`: nothing is sent without a machine
        id or without confirmation; an ok answer refetches the list. The
        'Machine Unlinked' alert comes before the refetch's answer, which
        `fetchLicenses` awaits while the handler goes on. */
    method Reset(code: string, machineId: string, confirmed: bool, reply: ActionReply, refetch: ListReply)
      requires started
      modifies this
      ensures machineId == "" || !confirmed ==>
        && requests == old(requests)
        && alerts == old(alerts) + (if machineId == "" then [NoMachineAlert] else [])
        && licenses == old(licenses) && table == old(table) && stats == old(stats)
        && storedSecret == old(storedSecret) && location == old(location)
      ensures machineId != "" && confirmed && !reply.ActionOk? ==>
        && requests == old(requests) + [ResetMachine(code, machineId)]
        && alerts == old(alerts) + [ResetFailedAlert]
        && licenses == old(licenses) && table == old(table) && stats == old(stats)
        && storedSecret == old(storedSecret) && location == old(location)
      ensures machineId != "" && confirmed && reply.ActionOk? ==>
        && requests == old(requests) + [ResetMachine(code, machineId), ListLicenses]
        && |alerts| >= |old(alerts)| + 1 && alerts[|old(alerts)|] == UnlinkedAlert
      ensures machineId != "" && confirmed && reply.ActionOk? ==>
        State() == AfterList(old(State()).(
          requests := old(requests) + [ResetMachine(code, machineId)],
          alerts := old(alerts) + [UnlinkedAlert]), basePath + LoginPath, refetch)
      ensures modalOpen == old(modalOpen)
    {
      if machineId == "" {
        alerts := alerts + [NoMachineAlert];
        return;
      }
      if !confirmed {
        return;
      }
      requests := requests + [ResetMachine(code, machineId)];
      if reply.ActionOk? {
        alerts := alerts + [UnlinkedAlert];
        FetchLicenses(refetch);
      } else {
        alerts := alerts + [ResetFailedAlert];
      }
    }
  }
}
