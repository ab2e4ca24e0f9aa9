/** Accounts, projects, AI systems and what connected projects send in
    (apps/control-plane/internal/domain/portfolio.go, integration.go). */
module Portfolio {
  import opened Text

  datatype Project = Project(id: string, account: string, name: string, repository: string)

  datatype AISystem = AISystem(
    id: string, account: string, project: string, name: string, status: string, lastUsed: Option<int>, updatedAt: int)

  datatype Connection = Connection(
    id: string, account: string, project: string, repository: string, status: string, tokenHash: string,
    createdAt: int, lastSeen: Option<int>) {
    predicate Active() { status == "active" }
  }

  datatype Report = Report(
    id: string, externalId: string, account: string, project: string, connection: string, aiSystem: string,
    tool: string, status: string, exitCode: int, summary: string, receivedAt: int)

  datatype Publication = Publication(
    id: string, externalId: string, account: string, project: string, connection: string, aiSystem: string,
    decision: string, run: string, status: string, actionAllowed: bool, policyVersion: string, digest: string,
    artifacts: seq<string>, issuedAt: int, receivedAt: int)

  /** The repository's accounts, projects and AI systems. */
  datatype Directory = Directory(accounts: set<string>, projects: map<string, Project>, systems: map<string, AISystem>) {
    ghost predicate Keyed() {
      forall k | k in systems :: systems[k].id == k
    }
  }

  class PortfolioStore {
    var accounts: set<string>
    var projects: map<string, Project>
    var systems: map<string, AISystem>

    ghost function Contents(): Directory
      reads this
    {
      Directory(accounts, projects, systems)
    }

    /** A new run marks its AI system as used. */
    method Use(system: string, at: int)
      requires Contents().Keyed()
      modifies this
      ensures UsedNow(old(Contents()), system, at, Contents()) && Contents().Keyed()
    {
      if system in systems {
        var used := systems[system].(lastUsed := Some(at));
        used := used.(updatedAt := at);
        systems := systems[used.id := used];
      }
    }
  }

  /** The system, if there is one of this ID, was used and updated now; nothing else changed. */
  ghost predicate UsedNow(a: Directory, system: string, at: int, b: Directory) {
    && b.accounts == a.accounts && b.projects == a.projects && b.systems.Keys == a.systems.Keys
    && forall k | k in a.systems ::
         b.systems[k] == if k == system then a.systems[k].(lastUsed := Some(at), updatedAt := at) else a.systems[k]
  }
}
