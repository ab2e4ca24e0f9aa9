/** A deployment review from its events to its verdict: analysed, relabelled, stored,
    projected and judged. */
module RulesPipeline {
  import opened Text
  import opened Domain
  import opened Store
  import opened Service
  import opened Lifecycle
  import Pipeline
  import Policy
  import Relabel
  import Review
  import Rules
  import RulesGraph

  /** What the rules saw in a run. */
  function Observed(run: Run, read: Event -> Rules.Signs): Rules.Observed {
    Rules.Seen(RulesGraph.SignsOf(run, read))
  }

  /** Renaming changes nothing that decides. */
  lemma RenamedSays(claims: seq<Claim>, unknowns: seq<Unknown>, renamed: seq<Claim>, raised: seq<Unknown>, o: Rules.Observed)
    requires Rules.SaysOf(claims, unknowns, o) && |renamed| == |claims| && |raised| == |unknowns|
    requires forall i | 0 <= i < |claims| :: renamed[i].critical == claims[i].critical && renamed[i].state == claims[i].state
    requires forall i | 0 <= i < |unknowns| :: raised[i].critical == unknowns[i].critical && raised[i].resolved == unknowns[i].resolved
    ensures Rules.SaysOf(renamed, raised, o)
  {
    hide Rules.StateOf;
  }

  lemma RelabelledSays(run: Run, read: Event -> Rules.Signs, reader: Review.Reader, terms: Rules.Terms, wording: Rules.Wording,
                       made: int, n: nat, now: int, d: string)
    ensures var b := Relabel.Relabelled(RulesGraph.Analysed(run, read, reader, terms, wording, made), n, now, d);
            Rules.SaysOf(b.claims, b.unknowns, Observed(run, read))
  {
    hide Rules.SaysOf, Relabel.Relabelled, Rules.RulesAnalysis, Rules.Seen;
    var p := RulesGraph.Analysed(run, read, reader, terms, wording, made);
    var b := Relabel.Relabelled(p, n, now, d);
    Rules.AnalysisSays(RulesGraph.SignsOf(run, read), Review.EvidenceFromEvents(run, reader), terms, wording, made);
    Pipeline.RelabellingKeepsVerdictFields(p, n, now, d);
    RenamedSays(p.claims, p.unknowns, b.claims, b.unknowns, Observed(run, read));
  }

  /** The whole pipeline on one deployment review, with no check executed: VERIFIED exactly
      when the events show each critical topic passing and none of them failing. */
  lemma RulesVerdict(w: World, run: string, read: Event -> Rules.Signs, reader: Review.Reader, terms: Rules.Terms, wording: Rules.Wording,
                     made: int, approved: bool, hashes: Hashes, now: int, later: int)
    requires Inv(w, hashes) && run in w.db.runs && w.db.runs[run].status.Ingesting?
    requires w.db.runs[run].decision !in w.db.certificates
    ensures var r := w.db.runs[run];
            var t := After(w, Analyse(run, Some(RulesGraph.Analysed(r, read, reader, terms, wording, made))), hashes, now);
            var result := Service.Evaluate(t.db, r.decision, approved, hashes, later).1;
            result.Ok? && (result.value.verdict.Verified? <==> Rules.AllGood(Observed(r, read)))
  {
    hide Inv, Rules.SaysOf, Relabel.Relabelled, RulesGraph.Analysed, Rules.AllGood, Policy.Judge, Service.Evaluate, After, Observed;
    var r := w.db.runs[run];
    var p := RulesGraph.Analysed(r, read, reader, terms, wording, made);
    var b := Relabel.Relabelled(p, w.drawn, now, r.decision);
    Pipeline.JudgedRightAfter(w, run, p, approved, hashes, now, later);
    RelabelledSays(r, read, reader, terms, wording, made, w.drawn, now, r.decision);
    Rules.SayingDecides(b.claims, b.unknowns, Observed(r, read), approved);
  }

  lemma SupportedIsAllGood(claims: seq<Claim>, unknowns: seq<Unknown>, o: Rules.Observed)
    requires Rules.SaysOf(claims, unknowns, o) && Pipeline.CriticalsSupported(claims)
    ensures Rules.AllGood(o)
  {
    Rules.TopicStates(o);
    assert claims[0].critical && claims[1].critical && claims[2].critical && claims[3].critical;
  }

  /** Any certificate issued for such a run, at any later time and after any calls, says
      VERIFIED only if the analysed events showed that. */
  lemma VerifiedCertificateIsAllGood(worlds: seq<World>, calls: seq<Call>, times: seq<int>, hashes: Hashes, i: nat, j: nat, run: string,
                                     read: Event -> Rules.Signs, reader: Review.Reader, terms: Rules.Terms, wording: Rules.Wording, made: int)
    requires History(worlds, calls, times, hashes) && i < j < |worlds|
    requires run in worlds[i].db.runs && worlds[i].db.runs[run].status.Ingesting?
    requires var r := worlds[i].db.runs[run];
             && calls[i] == Analyse(run, Some(RulesGraph.Analysed(r, read, reader, terms, wording, made)))
             && r.decision !in worlds[i].db.certificates && r.decision in worlds[j].db.certificates
             && worlds[j].db.certificates[r.decision].verdict.Verified?
    ensures Rules.AllGood(Observed(worlds[i].db.runs[run], read))
  {
    hide Rules.SaysOf, Relabel.Relabelled, RulesGraph.Analysed, Rules.AllGood, Observed, Inv;
    var r := worlds[i].db.runs[run];
    var p := RulesGraph.Analysed(r, read, reader, terms, wording, made);
    var b := Relabel.Relabelled(p, worlds[i].drawn, times[i], r.decision);
    Pipeline.AnalysedWereSupported(worlds, calls, times, hashes, i, j, run, p);
    RelabelledSays(r, read, reader, terms, wording, made, worlds[i].drawn, times[i], r.decision);
    SupportedIsAllGood(b.claims, b.unknowns, Observed(r, read));
  }
}
