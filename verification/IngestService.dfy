/** `CreateProjectConnection`, `RevokeProjectConnection` and `IngestProject`
    (apps/control-plane/internal/service/integration.go) over the repository of `Ingest`. */
module IngestService {
  import opened Text
  import opened Portfolio
  import opened Ingest
  import Domain
  import Json
  import Protocol
  import Seal

  /** A raw JSON message: absent, the text `null`, or a body. */
  datatype Part = Absent | NullText | Body(raw: Json.Raw)

  datatype Input = Input(externalId: string, aiSystem: string, policyVersion: string, report: Part, certificate: Part)

  datatype ReportFacts = ReportFacts(tool: string, status: string, exitCode: int, summary: string)
  datatype ResultFacts = ResultFacts(run: string, status: string, actionAllowed: bool)

  /** Token hashing and the typed decoding of the two payloads. */
  datatype Reader = Reader(
    token: string -> string, sha: Protocol.Sha, report: Json.Raw -> Option<ReportFacts>, result: Json.Json -> Option<ResultFacts>)

  datatype Refusal = Unauthorized | Invalid | UnknownSystem | Lost

  datatype Outcome = Refused(why: Refusal) | Accepted(connection: string, project: string, report: string, certificate: string)

  predicate ValidReportStatus(status: string) {
    status in ["passed", "failed", "error", "pending", "indeterminate"]
  }

  // ---- Building the two records

  function ReportOf(c: Connection, input: Input, facts: ReportFacts, n: nat, now: int): Report {
    Report(Domain.NewId("rpt", n), input.externalId, c.account, c.project, c.id, input.aiSystem,
           if facts.tool == "" then "project-quality" else facts.tool, facts.status, facts.exitCode, facts.summary, now)
  }

  function PublicationOf(c: Connection, input: Input, sealed: Seal.Certificate, facts: ResultFacts, n: nat, now: int): Publication {
    Publication(Domain.NewId("pub", n), input.externalId, c.account, c.project, c.id, input.aiSystem, sealed.decision,
                facts.run, facts.status, facts.actionAllowed,
                if input.policyVersion == "" then "epistemic.dev/v0.1" else input.policyVersion, sealed.digest,
                if sealed.artifacts.Some? then sealed.artifacts.value else [], sealed.issuedAt, now)
  }

  /** The report part is refused, left out, or built. */
  function ReportPart(c: Connection, input: Input, reader: Reader, n: nat, now: int): Option<Option<Report>> {
    if !input.report.Body? then Some(None)
    else
      match reader.report(input.report.raw)
      case None => None
      case Some(facts) => if ValidReportStatus(facts.status) then Some(Some(ReportOf(c, input, facts, n, now))) else None
  }

  function CertificatePart(c: Connection, input: Input, reader: Reader, n: nat, now: int): Option<Option<Publication>> {
    if !input.certificate.Body? then Some(None)
    else
      match Seal.Check(input.certificate.raw, reader.sha)
      case Accepted(sealed) =>
        (match reader.result(sealed.result)
         case None => None
         case Some(facts) => Some(Some(PublicationOf(c, input, sealed, facts, n, now))))
      case _ => None
  }

  datatype Prepared = Refuse(why: Refusal) | Ready(delivery: Delivery)

  /** The checks between finding the connection and calling the repository. */
  function Prepare(c: Connection, systems: map<string, AISystem>, input: Input, reader: Reader, n: nat, now: int): Prepared {
    if TrimSpace(input.externalId) == "" || (input.report.Absent? && input.certificate.Absent?) then Refuse(Invalid)
    else if input.aiSystem != "" && input.aiSystem !in systems then Refuse(UnknownSystem)
    else if input.aiSystem != "" && systems[input.aiSystem].project != c.project then Refuse(Invalid)
    else
      match (ReportPart(c, input, reader, n, now), CertificatePart(c, input, reader, n, now))
      case (Some(report), Some(certificate)) => Ready(Delivery(c, report, certificate))
      case _ => Refuse(Invalid)
  }

  // ---- What is refused and what is delivered, field by field

  /** The report as it was decoded, under the connection's identity. */
  ghost predicate ReportCarries(c: Connection, input: Input, facts: ReportFacts, n: nat, now: int, r: Report) {
    && r.id == Domain.NewId("rpt", n) && r.externalId == input.externalId && r.aiSystem == input.aiSystem
    && r.account == c.account && r.project == c.project && r.connection == c.id
    && r.tool == (if facts.tool != "" then facts.tool else "project-quality")
    && r.status == facts.status && r.exitCode == facts.exitCode && r.summary == facts.summary && r.receivedAt == now
  }

  /** Run, status and permission as the certificate's result was decoded, the rest as the
      checked certificate and the delivery say. */
  ghost predicate PublicationCarries(c: Connection, input: Input, sealed: Seal.Certificate, facts: ResultFacts, n: nat, now: int,
                                     p: Publication) {
    && p.id == Domain.NewId("pub", n) && p.externalId == input.externalId && p.aiSystem == input.aiSystem
    && p.account == c.account && p.project == c.project && p.connection == c.id
    && p.run == facts.run && p.status == facts.status && (p.actionAllowed <==> facts.actionAllowed)
    && p.decision == sealed.decision && p.digest == sealed.digest && p.issuedAt == sealed.issuedAt && p.receivedAt == now
    && p.artifacts == (if sealed.artifacts.None? then [] else sealed.artifacts.value)
    && p.policyVersion == (if input.policyVersion != "" then input.policyVersion else "epistemic.dev/v0.1")
  }

  ghost predicate SoundReport(raw: Json.Raw, reader: Reader) {
    && reader.report(raw).Some?
    && (var status := reader.report(raw).value.status;
        status == "passed" || status == "failed" || status == "error" || status == "pending" || status == "indeterminate")
  }

  ghost predicate SoundCertificate(raw: Json.Raw, reader: Reader) {
    && Seal.Check(raw, reader.sha).Accepted? && reader.result(Seal.Check(raw, reader.sha).certificate.result).Some?
  }

  /** A delivery is named, brings something, comes from an AI system of the project if it
      names one, and what it brings is sound. */
  ghost predicate Deliverable(c: Connection, systems: map<string, AISystem>, input: Input, reader: Reader) {
    && TrimSpace(input.externalId) != "" && !(input.report.Absent? && input.certificate.Absent?)
    && (input.aiSystem == "" || (input.aiSystem in systems && systems[input.aiSystem].project == c.project))
    && (input.report.Body? ==> SoundReport(input.report.raw, reader))
    && (input.certificate.Body? ==> SoundCertificate(input.certificate.raw, reader))
  }

  /** Exactly the deliverable requests are delivered; an unknown AI system is reported as such
      unless the request was already malformed. */
  lemma PreparedExactly(c: Connection, systems: map<string, AISystem>, input: Input, reader: Reader, n: nat, now: int)
    ensures var prepared := Prepare(c, systems, input, reader, n, now);
            && (prepared.Ready? <==> Deliverable(c, systems, input, reader))
            && (prepared == Refuse(UnknownSystem) <==>
                  && TrimSpace(input.externalId) != "" && !(input.report.Absent? && input.certificate.Absent?)
                  && input.aiSystem != "" && input.aiSystem !in systems)
            && (prepared.Refuse? ==> prepared.why in {Invalid, UnknownSystem})
  {
    hide TrimSpace, Seal.Check;
  }

  /** A delivery carries the report as decoded and the certificate as checked and decoded,
      each only when the request brought it. */
  lemma PreparedCarries(c: Connection, systems: map<string, AISystem>, input: Input, reader: Reader, n: nat, now: int)
    requires Prepare(c, systems, input, reader, n, now).Ready?
    ensures var d := Prepare(c, systems, input, reader, n, now).delivery;
            && d.connection == c
            && (d.report.Some? <==> input.report.Body?) && (d.certificate.Some? <==> input.certificate.Body?)
            && (d.report.Some? ==>
                  && SoundReport(input.report.raw, reader)
                  && ReportCarries(c, input, reader.report(input.report.raw).value, n, now, d.report.value))
            && (d.certificate.Some? ==>
                  && SoundCertificate(input.certificate.raw, reader)
                  && (var sealed := Seal.Check(input.certificate.raw, reader.sha).certificate;
                      PublicationCarries(c, input, sealed, reader.result(sealed.result).value, n, now, d.certificate.value)))
  {
    hide TrimSpace, Seal.Check, Domain.NewId;
  }

  /** The answer names the connection, its project and the stored records. */
  ghost predicate Names(outcome: Outcome, c: Connection, answer: Answer) {
    && answer.Saved? && outcome.Accepted? && outcome.connection == c.id && outcome.project == c.project
    && outcome.report == (if answer.delivery.report.Some? then answer.delivery.report.value.id else "")
    && outcome.certificate == (if answer.delivery.certificate.Some? then answer.delivery.certificate.value.id else "")
  }

  lemma PreparedIsWellMade(h: Hub, c: Connection, d: Delivery, n: nat, now: int)
    requires Ingest.Inv(h) && c in h.connections.Values && d.connection == c
    requires d.report.Some? ==> d.report.value.id == Domain.NewId("rpt", n) && d.report.value.connection == c.id
    requires d.certificate.Some? ==> d.certificate.value.id == Domain.NewId("pub", n) && d.certificate.value.project == c.project
    requires Domain.NewId("rpt", n) !in h.reports && Domain.NewId("pub", n) !in h.publications
    ensures WellMade(h, Save(d, now)) && c.id in h.connections && h.connections[c.id] == c
  {
  }

  /** When a connection can be made: for a stored project without an active connection, over
      the one provider, and to a repository given or the project's own. */
  ghost predicate Connectable(h: Hub, project: string, provider: string, repository: string) {
    && project in h.projects && (provider == "" || provider == "github-actions")
    && (if repository != "" then TrimSpace(repository) != "" else TrimSpace(h.projects[project].repository) != "")
    && forall k | k in h.connections && h.connections[k].project == project :: h.connections[k].status != "active"
  }

  /** An active connection of the project under a new ID, known by the token's hash. */
  ghost predicate ConnectionMade(owner: Project, repository: string, tokenHash: string, n: nat, now: int, c: Connection) {
    && c.id == Domain.NewId("con", n) && c.account == owner.account && c.project == owner.id
    && c.repository == TrimSpace(if repository != "" then repository else owner.repository)
    && c.status == "active" && c.tokenHash == tokenHash && c.createdAt == now && c.lastSeen == None
  }

  class ProjectService {
    const store: IntegrationStore
    const reader: Reader
    var systems: map<string, AISystem>
    var drawn: nat

    constructor (store: IntegrationStore, reader: Reader)
      ensures this.store == store && this.reader == reader && drawn == 0 && systems == map[]
    {
      this.store, this.reader, systems, drawn := store, reader, map[], 0;
    }

    /** Projects are stored under their IDs; no ID that is still to be drawn is stored. */
    ghost predicate Valid()
      reads this, store
    {
      && Ingest.Inv(store.Contents())
      && (forall k | k in store.projects :: store.projects[k].id == k)
      && (forall n | drawn <= n :: Domain.NewId("rpt", n) !in store.reports)
      && (forall n | drawn <= n :: Domain.NewId("pub", n) !in store.publications)
      && (forall n | drawn <= n :: Domain.NewId("con", n) !in store.connections)
    }

    method CreateProjectConnection(project: string, provider: string, repository: string, token: string, now: int)
        returns (outcome: Option<Connection>)
      requires Valid()
      modifies this, store
      ensures Valid() && systems == old(systems)
      ensures outcome.Some? <==> Connectable(old(store.Contents()), project, provider, repository)
      ensures outcome.None? ==> store.Contents() == old(store.Contents())
      ensures outcome.Some? ==>
                && ConnectionMade(old(store.projects)[project], repository, reader.token(token), old(drawn), now, outcome.value)
                && WellMade(old(store.Contents()), Connect(outcome.value))
                && Next(old(store.Contents()), Connect(outcome.value), Connected, store.Contents())
    {
      if project !in store.projects || (provider != "" && provider != "github-actions") {
        return None;
      }
      var owner := store.projects[project];
      var chosen := if repository == "" then owner.repository else repository;
      if TrimSpace(chosen) == "" {
        return None;
      }
      var n := drawn;
      drawn := drawn + 1;
      var connection := Connection(Domain.NewId("con", n), owner.account, owner.id, TrimSpace(chosen), "active",
                                   reader.token(token), now, None);
      NewIdsDiffer("con", n);
      var answer := store.CreateProjectConnection(connection);
      Ingest.CallKeepsInv(old(store.Contents()), Connect(connection), answer, store.Contents());
      outcome := if answer.Connected? then Some(connection) else None;
    }

    /** `connection` is the one the token was matched with. */
    method IngestProject(token: string, input: Input, now: int) returns (outcome: Outcome, ghost connection: Option<Connection>)
      requires Valid()
      modifies this, store
      ensures Valid() && systems == old(systems)
      ensures connection.None? <==>
                token == "" || forall k | k in old(store.connections) ::
                  !(old(store.connections)[k].tokenHash == reader.token(token) && old(store.connections)[k].Active())
      ensures connection.Some? ==>
                && connection.value in old(store.connections).Values && connection.value.Active()
                && connection.value.tokenHash == reader.token(token)
      ensures connection.None? ==> outcome == Refused(Unauthorized) && store.Contents() == old(store.Contents())
      ensures connection.Some? ==>
                match Prepare(connection.value, systems, input, reader, old(drawn), now)
                case Refuse(why) => outcome == Refused(why) && store.Contents() == old(store.Contents())
                case Ready(d) =>
                  && WellMade(old(store.Contents()), Save(d, now))
                  && exists answer ::
                       Next(old(store.Contents()), Save(d, now), answer, store.Contents())
                       && Names(outcome, connection.value, answer)
    {
      outcome, connection := Refused(Unauthorized), None;
      if token == "" {
        return;
      }
      var found := store.GetProjectConnectionByTokenHash(reader.token(token));
      if found.None? {
        return;
      }
      connection := found;
      var prepared := Prepare(found.value, systems, input, reader, drawn, now);
      if prepared.Refuse? {
        outcome := Refused(prepared.why);
        return;
      }
      PreparedCarries(found.value, systems, input, reader, drawn, now);
      outcome := Deliver(found.value, prepared.delivery, now);
    }

    method Deliver(c: Connection, d: Delivery, now: int) returns (outcome: Outcome)
      requires Valid() && c in store.connections.Values && c.Active() && d.connection == c
      requires d.report.Some? ==> d.report.value.id == Domain.NewId("rpt", drawn) && d.report.value.connection == c.id
      requires d.certificate.Some? ==> d.certificate.value.id == Domain.NewId("pub", drawn) && d.certificate.value.project == c.project
      modifies this, store
      ensures Valid() && systems == old(systems)
      ensures WellMade(old(store.Contents()), Save(d, now))
      ensures exists answer ::
                Next(old(store.Contents()), Save(d, now), answer, store.Contents()) && Names(outcome, c, answer)
    {
      PreparedIsWellMade(store.Contents(), c, d, drawn, now);
      NewIdsDiffer("rpt", drawn);
      NewIdsDiffer("pub", drawn);
      drawn := drawn + 1;
      var answer := store.SaveProjectIngest(d, now);
      Ingest.CallKeepsInv(old(store.Contents()), Save(d, now), answer, store.Contents());
      outcome := Refused(Lost);
      if answer.Saved? {
        var stored := answer.delivery;
        outcome := Accepted(c.id, c.project, if stored.report.Some? then stored.report.value.id else "",
                            if stored.certificate.Some? then stored.certificate.value.id else "");
      }
    }
  }

  lemma NewIdsDiffer(prefix: string, n: nat)
    ensures forall m: nat | n < m :: Domain.NewId(prefix, m) != Domain.NewId(prefix, n)
  {
    forall m: nat | n < m ensures Domain.NewId(prefix, m) != Domain.NewId(prefix, n) {
      if Domain.NewId(prefix, m) == Domain.NewId(prefix, n) {
        Domain.NewIdIsInjective(prefix, m, prefix, n);
      }
    }
  }
}
