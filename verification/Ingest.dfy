/** Project connections and idempotent ingest
    (apps/control-plane/internal/store/memory_integration.go, service/integration.go). */
module Ingest {
  import opened Text
  import opened Portfolio

  /** The tables behind the repository's lock. */
  datatype Hub = Hub(
    projects: map<string, Project>, connections: map<string, Connection>, reports: map<string, Report>,
    publications: map<string, Publication>)

  /** What the service hands over; the connection may be an outdated copy. */
  datatype Delivery = Delivery(connection: Connection, report: Option<Report>, certificate: Option<Publication>)

  datatype Call =
    | Connect(connection: Connection)
    | Revoke(id: string)
    | Save(delivery: Delivery, clock: int)

  datatype Answer = NotFound | Conflict | Connected | Revoked(connection: Connection) | Saved(delivery: Delivery)

  // ---- What each call does

  predicate HasActive(connections: map<string, Connection>, project: string) {
    exists k | k in connections :: connections[k].project == project && connections[k].Active()
  }

  predicate ReportKnown(reports: map<string, Report>, connection: string, externalId: string) {
    exists k | k in reports :: reports[k].connection == connection && reports[k].externalId == externalId
  }

  predicate PublicationKnown(publications: map<string, Publication>, project: string, digest: string) {
    exists k | k in publications :: publications[k].project == project && publications[k].digest == digest
  }

  /** A known report is answered with a stored one and not stored again. */
  ghost predicate StoresReport(before: map<string, Report>, connection: string, r: Report, answer: Report, after: map<string, Report>) {
    if ReportKnown(before, connection, r.externalId) then
      after == before
      && exists k | k in before :: before[k].connection == connection && before[k].externalId == r.externalId && answer == before[k]
    else after == before[r.id := r] && answer == r
  }

  ghost predicate StoresPublication(before: map<string, Publication>, project: string, p: Publication, answer: Publication,
                                    after: map<string, Publication>) {
    if PublicationKnown(before, project, p.digest) then
      after == before
      && exists k | k in before :: before[k].project == project && before[k].digest == p.digest && answer == before[k]
    else after == before[p.id := p] && answer == p
  }

  function SeenAt(delivery: Delivery, clock: int): int {
    if delivery.report.Some? then delivery.report.value.receivedAt
    else if delivery.certificate.Some? then delivery.certificate.value.receivedAt
    else clock
  }

  ghost predicate Connects(h: Hub, c: Connection, answer: Answer, t: Hub) {
    if c.project !in h.projects || h.projects[c.project].account != c.account then answer == NotFound && t == h
    else if HasActive(h.connections, c.project) then answer == Conflict && t == h
    else answer == Connected && t == h.(connections := h.connections[c.id := c])
  }

  ghost predicate Revokes(h: Hub, id: string, answer: Answer, t: Hub) {
    if id !in h.connections then answer == NotFound && t == h
    else
      var c := h.connections[id].(status := "revoked");
      answer == Revoked(c) && t == h.(connections := h.connections[id := c])
  }

  ghost predicate Saves(h: Hub, delivery: Delivery, clock: int, answer: Answer, t: Hub) {
    var id := delivery.connection.id;
    if id !in h.connections || !h.connections[id].Active() then answer == NotFound && t == h
    else
      && answer.Saved?
      && (var c, out := h.connections[id], answer.delivery;
          && out.connection == c.(lastSeen := Some(SeenAt(delivery, clock)))
          && t == h.(connections := h.connections[c.id := out.connection], reports := t.reports, publications := t.publications)
          && (out.report.Some? <==> delivery.report.Some?)
          && (if delivery.report.Some?
              then StoresReport(h.reports, c.id, delivery.report.value, out.report.value, t.reports)
              else t.reports == h.reports)
          && (out.certificate.Some? <==> delivery.certificate.Some?)
          && (if delivery.certificate.Some?
              then StoresPublication(h.publications, c.project, delivery.certificate.value, out.certificate.value, t.publications)
              else t.publications == h.publications))
  }

  ghost predicate Next(h: Hub, call: Call, answer: Answer, t: Hub) {
    match call
    case Connect(c) => Connects(h, c, answer, t)
    case Revoke(id) => Revokes(h, id, answer, t)
    case Save(delivery, clock) => Saves(h, delivery, clock, answer, t)
  }

  // ---- The repository

  class IntegrationStore {
    var projects: map<string, Project>
    var connections: map<string, Connection>
    var reports: map<string, Report>
    var publications: map<string, Publication>

    ghost function Contents(): Hub
      reads this
    {
      Hub(projects, connections, reports, publications)
    }

    method CreateProjectConnection(connection: Connection) returns (answer: Answer)
      modifies this
      ensures Next(old(Contents()), Connect(connection), answer, Contents())
    {
      if connection.project !in projects || projects[connection.project].account != connection.account {
        return NotFound;
      }
      var todo := connections.Keys;
      while todo != {}
        invariant todo <= connections.Keys && connections == old(connections) && Contents() == old(Contents())
        invariant forall k | k in connections && k !in todo :: !(connections[k].project == connection.project && connections[k].Active())
      {
        var k :| k in todo;
        if connections[k].project == connection.project && connections[k].status == "active" {
          return Conflict;
        }
        todo := todo - {k};
      }
      connections := connections[connection.id := connection];
      answer := Connected;
    }

    /** Any active connection with this token hash. */
    method GetProjectConnectionByTokenHash(tokenHash: string) returns (found: Option<Connection>)
      ensures found.None? <==> forall k | k in connections :: !(connections[k].tokenHash == tokenHash && connections[k].Active())
      ensures found.Some? ==> found.value in connections.Values && found.value.tokenHash == tokenHash && found.value.Active()
    {
      var todo := connections.Keys;
      while todo != {}
        invariant todo <= connections.Keys
        invariant forall k | k in connections && k !in todo :: !(connections[k].tokenHash == tokenHash && connections[k].Active())
      {
        var k :| k in todo;
        if connections[k].tokenHash == tokenHash && connections[k].status == "active" {
          return Some(connections[k]);
        }
        todo := todo - {k};
      }
      found := None;
    }

    method RevokeProjectConnection(id: string) returns (answer: Answer)
      modifies this
      ensures Next(old(Contents()), Revoke(id), answer, Contents())
    {
      if id !in connections {
        return NotFound;
      }
      var connection := connections[id];
      connection := connection.(status := "revoked");
      connections := connections[id := connection];
      answer := Revoked(connection);
    }

    method SaveProjectIngest(delivery: Delivery, clock: int) returns (answer: Answer)
      modifies this
      ensures Next(old(Contents()), Save(delivery, clock), answer, Contents())
    {
      var id := delivery.connection.id;
      if id !in connections || connections[id].status != "active" {
        return NotFound;
      }
      var connection := connections[id];
      var now := clock;
      var out := delivery;
      if delivery.report.Some? {
        now := delivery.report.value.receivedAt;
        var known := FindReport(connection.id, delivery.report.value.externalId);
        if known.Some? {
          out := out.(report := known);
        } else {
          reports := reports[delivery.report.value.id := delivery.report.value];
        }
      }
      if delivery.certificate.Some? {
        if delivery.report.None? {
          now := delivery.certificate.value.receivedAt;
        }
        var known := FindPublication(connection.project, delivery.certificate.value.digest);
        if known.Some? {
          out := out.(certificate := known);
        } else {
          publications := publications[delivery.certificate.value.id := delivery.certificate.value];
        }
      }
      connection := connection.(lastSeen := Some(now));
      connections := connections[connection.id := connection];
      answer := Saved(out.(connection := connection));
    }

    method FindReport(connection: string, externalId: string) returns (found: Option<Report>)
      ensures found.Some? <==> ReportKnown(reports, connection, externalId)
      ensures found.Some? ==> exists k | k in reports ::
                reports[k].connection == connection && reports[k].externalId == externalId && found.value == reports[k]
    {
      var todo := reports.Keys;
      while todo != {}
        invariant todo <= reports.Keys
        invariant forall k | k in reports && k !in todo :: !(reports[k].connection == connection && reports[k].externalId == externalId)
      {
        var k :| k in todo;
        if reports[k].connection == connection && reports[k].externalId == externalId {
          return Some(reports[k]);
        }
        todo := todo - {k};
      }
      found := None;
    }

    method FindPublication(project: string, digest: string) returns (found: Option<Publication>)
      ensures found.Some? <==> PublicationKnown(publications, project, digest)
      ensures found.Some? ==> exists k | k in publications ::
                publications[k].project == project && publications[k].digest == digest && found.value == publications[k]
    {
      var todo := publications.Keys;
      while todo != {}
        invariant todo <= publications.Keys
        invariant forall k | k in publications && k !in todo :: !(publications[k].project == project && publications[k].digest == digest)
      {
        var k :| k in todo;
        if publications[k].project == project && publications[k].digest == digest {
          return Some(publications[k]);
        }
        todo := todo - {k};
      }
      found := None;
    }
  }

  // ---- The invariant

  ghost predicate ActiveOnce(connections: map<string, Connection>) {
    forall j, k | j in connections && k in connections && connections[j].Active() && connections[k].Active()
                  && connections[j].project == connections[k].project :: j == k
  }

  ghost predicate ReportsOnce(reports: map<string, Report>) {
    forall j, k | j in reports && k in reports && reports[j].connection == reports[k].connection
                  && reports[j].externalId == reports[k].externalId :: j == k
  }

  ghost predicate PublicationsOnce(publications: map<string, Publication>) {
    forall j, k | j in publications && k in publications && publications[j].project == publications[k].project
                  && publications[j].digest == publications[k].digest :: j == k
  }

  ghost predicate Inv(h: Hub) {
    && (forall k | k in h.connections :: h.connections[k].id == k)
    && ActiveOnce(h.connections) && ReportsOnce(h.reports) && PublicationsOnce(h.publications)
  }

  /** What `IngestProject` and `CreateProjectConnection` make sure of before they call the
      repository: new IDs, and records that carry the connection's own identity. */
  ghost predicate WellMade(h: Hub, call: Call) {
    match call
    case Connect(c) => c.id !in h.connections && c.Active()
    case Revoke(_) => true
    case Save(delivery, _) =>
      && (delivery.report.Some? ==>
            delivery.report.value.id !in h.reports && delivery.report.value.connection == delivery.connection.id)
      && (delivery.certificate.Some? ==>
            && delivery.certificate.value.id !in h.publications
            && (delivery.connection.id in h.connections ==>
                  delivery.certificate.value.project == h.connections[delivery.connection.id].project))
  }

  lemma ConnectKeepsInv(h: Hub, c: Connection, answer: Answer, t: Hub)
    requires Inv(h) && WellMade(h, Connect(c)) && Connects(h, c, answer, t)
    ensures Inv(t)
  {
  }

  lemma SaveKeepsInv(h: Hub, delivery: Delivery, clock: int, answer: Answer, t: Hub)
    requires Inv(h) && WellMade(h, Save(delivery, clock)) && Saves(h, delivery, clock, answer, t)
    ensures Inv(t)
  {
    assert ActiveOnce(t.connections);
    assert ReportsOnce(t.reports);
    assert PublicationsOnce(t.publications);
  }

  lemma CallKeepsInv(h: Hub, call: Call, answer: Answer, t: Hub)
    requires Inv(h) && WellMade(h, call) && Next(h, call, answer, t)
    ensures Inv(t)
  {
    match call
    case Connect(c) => ConnectKeepsInv(h, c, answer, t);
    case Revoke(id) =>
    case Save(delivery, clock) => SaveKeepsInv(h, delivery, clock, answer, t);
  }

  // ---- Whole histories

  ghost predicate Empty(h: Hub) {
    h.connections == map[] && h.reports == map[] && h.publications == map[]
  }

  ghost predicate History(hubs: seq<Hub>, calls: seq<Call>, answers: seq<Answer>) {
    && |hubs| == |calls| + 1 && |answers| == |calls| && Empty(hubs[0])
    && forall i | 0 <= i < |calls| :: WellMade(hubs[i], calls[i]) && Next(hubs[i], calls[i], answers[i], hubs[i + 1])
  }

  lemma {:induction false} ReachableKeepsInv(hubs: seq<Hub>, calls: seq<Call>, answers: seq<Answer>, i: nat)
    requires History(hubs, calls, answers) && i < |hubs|
    ensures Inv(hubs[i])
  {
    if i > 0 {
      ReachableKeepsInv(hubs, calls, answers, i - 1);
      CallKeepsInv(hubs[i - 1], calls[i - 1], answers[i - 1], hubs[i]);
    }
  }

  /** Nothing stored is changed or lost, and revoked is terminal. */
  ghost predicate Grows(h: Hub, t: Hub) {
    && (forall k | k in h.reports :: k in t.reports && t.reports[k] == h.reports[k])
    && (forall k | k in h.publications :: k in t.publications && t.publications[k] == h.publications[k])
    && (forall k | k in h.connections ::
          && k in t.connections && t.connections[k].project == h.connections[k].project
          && (!h.connections[k].Active() ==> !t.connections[k].Active()))
  }

  lemma CallGrows(h: Hub, call: Call, answer: Answer, t: Hub)
    requires Inv(h) && WellMade(h, call) && Next(h, call, answer, t)
    ensures Grows(h, t)
  {
  }

  lemma {:induction false} HistoryGrows(hubs: seq<Hub>, calls: seq<Call>, answers: seq<Answer>, i: nat, j: nat)
    requires History(hubs, calls, answers) && i <= j < |hubs|
    ensures Grows(hubs[i], hubs[j])
  {
    if i < j {
      HistoryGrows(hubs, calls, answers, i, j - 1);
      ReachableKeepsInv(hubs, calls, answers, j - 1);
      CallGrows(hubs[j - 1], calls[j - 1], answers[j - 1], hubs[j]);
    }
  }

  /** In every state at most one connection of a project is active; a revoked one stays so. */
  lemma OneActiveConnection(hubs: seq<Hub>, calls: seq<Call>, answers: seq<Answer>, i: nat, j: nat)
    requires History(hubs, calls, answers) && i <= j < |hubs|
    ensures ActiveOnce(hubs[j].connections)
    ensures forall k | k in hubs[i].connections && !hubs[i].connections[k].Active() ::
              k in hubs[j].connections && !hubs[j].connections[k].Active()
  {
    ReachableKeepsInv(hubs, calls, answers, j);
    HistoryGrows(hubs, calls, answers, i, j);
  }

  // ---- What single calls answer and leave behind, record by record

  /** A connection is refused for an unknown project or another account's, and while the
      project has an active one; else it is stored as it is. */
  lemma ConnectedExactly(h: Hub, c: Connection, answer: Answer, t: Hub)
    requires Next(h, Connect(c), answer, t)
    ensures var known := c.project in h.projects && h.projects[c.project].account == c.account;
            var taken := exists k :: k in h.connections && h.connections[k].project == c.project && h.connections[k].status == "active";
            && (!known ==> answer == NotFound && t == h)
            && (known && taken ==> answer == Conflict && t == h)
            && (known && !taken ==> answer == Connected && t == h.(connections := h.connections[c.id := c]))
  {
    if k :| k in h.connections && h.connections[k].project == c.project && h.connections[k].status == "active" {
      assert h.connections[k].Active();
    }
  }

  lemma RevokedExactly(h: Hub, id: string, answer: Answer, t: Hub)
    requires Next(h, Revoke(id), answer, t)
    ensures id !in h.connections ==> answer == NotFound && t == h
    ensures id in h.connections ==>
              && t == h.(connections := h.connections[id := t.connections[id]])
              && t.connections[id] == h.connections[id].(status := "revoked") && answer == Revoked(t.connections[id])
              && !t.connections[id].Active()
  {
    assert "revoked" != "active" by { assert "revoked"[0] == 'r' && "active"[0] == 'a'; }
  }

  /** The first accepted delivery of a report, or of a certificate, is stored as it was
      delivered and stays so. */
  lemma FirstDeliveryIsKept(hubs: seq<Hub>, calls: seq<Call>, answers: seq<Answer>, i: nat, j: nat, pair: (string, string))
    requires History(hubs, calls, answers) && i < j < |hubs|
    ensures AcceptsReport(calls[i], answers[i], pair) && !ReportAccepted(calls, answers, i, pair) ==>
              var r := calls[i].delivery.report.value;
              r.id in hubs[j].reports && hubs[j].reports[r.id] == r && answers[i].delivery.report == Some(r)
    ensures AcceptsPublication(calls[i], answers[i], pair) && !PublicationAccepted(calls, answers, i, pair) ==>
              var p := calls[i].delivery.certificate.value;
              p.id in hubs[j].publications && hubs[j].publications[p.id] == p && answers[i].delivery.certificate == Some(p)
  {
    hide ReportKnown, PublicationKnown, ReportsOnce, PublicationsOnce, ActiveOnce, ReportAccepted, PublicationAccepted;
    RecordsMatchAccepted(hubs, calls, answers, i, pair);
    ReachableKeepsInv(hubs, calls, answers, i);
    HistoryGrows(hubs, calls, answers, i + 1, j);
    assert Next(hubs[i], calls[i], answers[i], hubs[i + 1]);
    if calls[i].Save? && answers[i].Saved? {
      NewRecordsStored(hubs[i], calls[i].delivery, calls[i].clock, answers[i], hubs[i + 1]);
    }
  }

  lemma NewRecordsStored(h: Hub, delivery: Delivery, clock: int, answer: Answer, t: Hub)
    requires (forall k | k in h.connections :: h.connections[k].id == k) && Saves(h, delivery, clock, answer, t) && answer.Saved?
    ensures delivery.report.Some? && !ReportKnown(h.reports, delivery.connection.id, delivery.report.value.externalId) ==>
              var r := delivery.report.value;
              answer.delivery.report == Some(r) && r.id in t.reports && t.reports[r.id] == r
    ensures delivery.certificate.Some?
            && !PublicationKnown(h.publications, answer.delivery.connection.project, delivery.certificate.value.digest) ==>
              var p := delivery.certificate.value;
              answer.delivery.certificate == Some(p) && p.id in t.publications && t.publications[p.id] == p
  {
    hide ReportKnown, PublicationKnown;
  }

  // ---- Reports and publications stand for the accepted deliveries, one each

  predicate AcceptsReport(call: Call, answer: Answer, pair: (string, string)) {
    call.Save? && answer.Saved? && call.delivery.report.Some?
    && pair == (call.delivery.connection.id, call.delivery.report.value.externalId)
  }

  predicate AcceptsPublication(call: Call, answer: Answer, pair: (string, string)) {
    call.Save? && answer.Saved? && call.delivery.certificate.Some?
    && pair == (answer.delivery.connection.project, call.delivery.certificate.value.digest)
  }

  ghost predicate ReportAccepted(calls: seq<Call>, answers: seq<Answer>, i: nat, pair: (string, string))
    requires i <= |calls| == |answers|
  {
    exists k | 0 <= k < i :: AcceptsReport(calls[k], answers[k], pair)
  }

  ghost predicate PublicationAccepted(calls: seq<Call>, answers: seq<Answer>, i: nat, pair: (string, string))
    requires i <= |calls| == |answers|
  {
    exists k | 0 <= k < i :: AcceptsPublication(calls[k], answers[k], pair)
  }

  lemma CallReports(h: Hub, call: Call, answer: Answer, t: Hub, pair: (string, string))
    requires Inv(h) && WellMade(h, call) && Next(h, call, answer, t)
    ensures ReportKnown(t.reports, pair.0, pair.1) <==> ReportKnown(h.reports, pair.0, pair.1) || AcceptsReport(call, answer, pair)
    ensures PublicationKnown(t.publications, pair.0, pair.1) <==>
              PublicationKnown(h.publications, pair.0, pair.1) || AcceptsPublication(call, answer, pair)
  {
    hide PublicationKnown, ReportKnown;
    if call.Save? && answer.Saved? {
      if call.delivery.report.Some? {
        var r := call.delivery.report.value;
        assert !ReportKnown(h.reports, call.delivery.connection.id, r.externalId) ==> r.id in t.reports && t.reports[r.id] == r;
        StoredReports(h.reports, r, pair);
      }
      if call.delivery.certificate.Some? {
        var p := call.delivery.certificate.value;
        assert !PublicationKnown(h.publications, p.project, p.digest) ==> p.id in t.publications && t.publications[p.id] == p;
        StoredPublications(h.publications, p, pair);
      }
    }
  }

  lemma StoredReports(reports: map<string, Report>, r: Report, pair: (string, string))
    requires r.id !in reports
    ensures ReportKnown(reports[r.id := r], pair.0, pair.1) <==>
              ReportKnown(reports, pair.0, pair.1) || pair == (r.connection, r.externalId)
  {
    var after := reports[r.id := r];
    if k :| k in reports && reports[k].connection == pair.0 && reports[k].externalId == pair.1 {
      assert after[k] == reports[k];
    }
    assert after[r.id] == r;
  }

  lemma StoredPublications(publications: map<string, Publication>, p: Publication, pair: (string, string))
    requires p.id !in publications
    ensures PublicationKnown(publications[p.id := p], pair.0, pair.1) <==>
              PublicationKnown(publications, pair.0, pair.1) || pair == (p.project, p.digest)
  {
    var after := publications[p.id := p];
    if k :| k in publications && publications[k].project == pair.0 && publications[k].digest == pair.1 {
      assert after[k] == publications[k];
    }
    assert after[p.id] == p;
  }

  /** A pair has a stored record exactly when some earlier delivery with that pair was
      accepted, and (by `Inv`) then exactly one record: a bijection. */
  lemma {:induction false} RecordsMatchAccepted(hubs: seq<Hub>, calls: seq<Call>, answers: seq<Answer>, i: nat, pair: (string, string))
    requires History(hubs, calls, answers) && i < |hubs|
    ensures ReportKnown(hubs[i].reports, pair.0, pair.1) <==> ReportAccepted(calls, answers, i, pair)
    ensures PublicationKnown(hubs[i].publications, pair.0, pair.1) <==> PublicationAccepted(calls, answers, i, pair)
    ensures ReportsOnce(hubs[i].reports) && PublicationsOnce(hubs[i].publications)
  {
    ReachableKeepsInv(hubs, calls, answers, i);
    if i > 0 {
      RecordsMatchAccepted(hubs, calls, answers, i - 1, pair);
      ReachableKeepsInv(hubs, calls, answers, i - 1);
      CallReports(hubs[i - 1], calls[i - 1], answers[i - 1], hubs[i], pair);
      AcceptedOneMore(calls, answers, i, pair);
    }
  }

  lemma AcceptedOneMore(calls: seq<Call>, answers: seq<Answer>, i: nat, pair: (string, string))
    requires 0 < i <= |calls| == |answers|
    ensures ReportAccepted(calls, answers, i, pair) <==>
              ReportAccepted(calls, answers, i - 1, pair) || AcceptsReport(calls[i - 1], answers[i - 1], pair)
    ensures PublicationAccepted(calls, answers, i, pair) <==>
              PublicationAccepted(calls, answers, i - 1, pair) || AcceptsPublication(calls[i - 1], answers[i - 1], pair)
  {
  }

  // ---- Retries

  /** The record an accepted delivery is answered with is the stored one for its pair. */
  lemma AnsweredIsStored(h: Hub, delivery: Delivery, clock: int, answer: Answer, t: Hub)
    requires Inv(h) && WellMade(h, Save(delivery, clock)) && Saves(h, delivery, clock, answer, t) && answer.Saved?
    ensures answer.delivery.report.Some? ==>
              var r := answer.delivery.report.value;
              r in t.reports.Values && r.connection == delivery.connection.id && r.externalId == delivery.report.value.externalId
    ensures answer.delivery.certificate.Some? ==>
              var p := answer.delivery.certificate.value;
              p in t.publications.Values && p.project == answer.delivery.connection.project
              && p.digest == delivery.certificate.value.digest
  {
    if delivery.report.Some? && !ReportKnown(h.reports, delivery.connection.id, delivery.report.value.externalId) {
      assert t.reports[delivery.report.value.id] == delivery.report.value;
    }
    if delivery.certificate.Some?
       && !PublicationKnown(h.publications, h.connections[delivery.connection.id].project, delivery.certificate.value.digest) {
      assert t.publications[delivery.certificate.value.id] == delivery.certificate.value;
    }
  }

  /** Every retry is answered with the record the first accepted delivery stored: for
      reports per connection, for certificates per project, whatever connection is used. */
  lemma RetryReturnsTheFirst(hubs: seq<Hub>, calls: seq<Call>, answers: seq<Answer>, i: nat, j: nat, pair: (string, string))
    requires History(hubs, calls, answers) && i <= j < |calls|
    ensures AcceptsReport(calls[i], answers[i], pair) && AcceptsReport(calls[j], answers[j], pair) ==>
              answers[j].delivery.report == answers[i].delivery.report
    ensures AcceptsPublication(calls[i], answers[i], pair) && AcceptsPublication(calls[j], answers[j], pair) ==>
              answers[j].delivery.certificate == answers[i].delivery.certificate
  {
    hide Grows, Inv, PublicationsOnce, ReportsOnce, StoresReport;
    ReachableKeepsInv(hubs, calls, answers, i);
    ReachableKeepsInv(hubs, calls, answers, j);
    ReachableKeepsInv(hubs, calls, answers, j + 1);
    HistoryGrows(hubs, calls, answers, i + 1, j + 1);
    if calls[i].Save? && answers[i].Saved? && calls[j].Save? && answers[j].Saved? {
      AnsweredIsStored(hubs[i], calls[i].delivery, calls[i].clock, answers[i], hubs[i + 1]);
      AnsweredIsStored(hubs[j], calls[j].delivery, calls[j].clock, answers[j], hubs[j + 1]);
      if AcceptsReport(calls[i], answers[i], pair) && AcceptsReport(calls[j], answers[j], pair) {
        OneReport(hubs[i + 1].reports, hubs[j + 1].reports, answers[i].delivery.report.value, answers[j].delivery.report.value);
      }
      if AcceptsPublication(calls[i], answers[i], pair) && AcceptsPublication(calls[j], answers[j], pair) {
        OnePublication(hubs[i + 1].publications, hubs[j + 1].publications, answers[i].delivery.certificate.value,
                       answers[j].delivery.certificate.value);
      }
    }
  }

  lemma OneReport(before: map<string, Report>, after: map<string, Report>, a: Report, b: Report)
    requires a in before.Values && b in after.Values && ReportsOnce(after)
    requires forall k | k in before :: k in after && after[k] == before[k]
    requires a.connection == b.connection && a.externalId == b.externalId
    ensures a == b
  {
    var j :| j in before && before[j] == a;
    var k :| k in after && after[k] == b;
    assert after[j] == a;
  }

  lemma OnePublication(before: map<string, Publication>, after: map<string, Publication>, a: Publication, b: Publication)
    requires a in before.Values && b in after.Values && PublicationsOnce(after)
    requires forall k | k in before :: k in after && after[k] == before[k]
    requires a.project == b.project && a.digest == b.digest
    ensures a == b
  {
    var j :| j in before && before[j] == a;
    var k :| k in after && after[k] == b;
    assert after[j] == a;
  }

  /** Replaying an accepted delivery changes nothing but the connection's last-seen time. */
  lemma ReplayOnlyTouchesLastSeen(hubs: seq<Hub>, calls: seq<Call>, answers: seq<Answer>, i: nat, j: nat)
    requires History(hubs, calls, answers) && i < j < |calls|
    requires calls[i].Save? && calls[j].Save? && answers[i].Saved? && answers[j].Saved?
    requires calls[j].delivery.connection.id == calls[i].delivery.connection.id
    requires calls[j].delivery.report.Some? ==>
               calls[i].delivery.report.Some? && calls[j].delivery.report.value.externalId == calls[i].delivery.report.value.externalId
    requires calls[j].delivery.certificate.Some? ==>
               calls[i].delivery.certificate.Some?
               && calls[j].delivery.certificate.value.digest == calls[i].delivery.certificate.value.digest
    ensures var id := calls[j].delivery.connection.id;
            id in hubs[j].connections
            && hubs[j + 1] == hubs[j].(connections := hubs[j].connections[id :=
                 hubs[j].connections[id].(lastSeen := hubs[j + 1].connections[id].lastSeen)])
            && hubs[j + 1].connections[id].lastSeen
               == Some(if calls[j].delivery.report.Some? then calls[j].delivery.report.value.receivedAt
                       else if calls[j].delivery.certificate.Some? then calls[j].delivery.certificate.value.receivedAt
                       else calls[j].clock)
  {
    var id := calls[j].delivery.connection.id;
    ReachableKeepsInv(hubs, calls, answers, i);
    ReachableKeepsInv(hubs, calls, answers, j);
    HistoryGrows(hubs, calls, answers, i, j);
    assert Next(hubs[i], calls[i], answers[i], hubs[i + 1]);
    assert Next(hubs[j], calls[j], answers[j], hubs[j + 1]);
    if calls[j].delivery.report.Some? {
      var pair := (id, calls[j].delivery.report.value.externalId);
      assert AcceptsReport(calls[i], answers[i], pair);
      RecordsMatchAccepted(hubs, calls, answers, j, pair);
    }
    if calls[j].delivery.certificate.Some? {
      var pair := (hubs[j].connections[id].project, calls[j].delivery.certificate.value.digest);
      assert AcceptsPublication(calls[i], answers[i], pair);
      RecordsMatchAccepted(hubs, calls, answers, j, pair);
    }
  }
}
