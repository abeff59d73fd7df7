/** On every journal that can be stored, the decision, the retrieval and the independent view check agree. */
module Agreement {
  import opened Models
  import opened Journal
  import opened Store
  import opened Chains
  import opened Eligibility
  import opened Retrieval

  predicate AdmittedWhole(f: Facts) {
    forall q :: q in f.qualifications ==> ValidQualification(q)
  }

  lemma ApplyAdmitsValid(f: Facts, e: Entry)
    requires Linked(f) && ValidEntry(e) && AdmittedWhole(f) && Apply(f, e).Ok?
    ensures AdmittedWhole(Apply(f, e).value)
  {
    hide ValidQualification;
    if e.body.Admit? {
      var q := e.body.q;
      assert q in (if e.body.Admit? then {e.body.q} else {});
      assert ValidQualification(q);
    }
  }

  /** Every qualification on record passed its field bounds when its entry was read. */
  lemma {:induction false} StoredAdmittedValid(rows: seq<Entry>)
    requires Stored(rows)
    ensures AdmittedWhole(FactsOf(rows))
    decreases |rows|
  {
    hide Replay, FactsOf, Apply, ValidEntry;
    if rows == [] {
      assert FactsOf(rows).qualifications == [] by { NothingAdmitted(); }
    } else {
      var n := |rows| - 1;
      assert rows == rows[..n] + [rows[n]];
      StoredFront(rows[..n], rows[n]);
      StoredAdmittedValid(rows[..n]);
      ReplayReadable(rows);
      ApplyAdmitsValid(FactsOf(rows[..n]), rows[n]);
    }
  }

  lemma NothingAdmitted()
    ensures FactsOf([]).qualifications == []
  {
    EmptyStored();
  }

  lemma ReplaysAdmittedValid(rows: seq<Entry>, s: State)
    requires Replays(rows, s)
    ensures AdmittedValid(s.facts)
  {
    hide *;
    ReplaysMeans(rows, s);
    StoredAdmittedValid(rows);
    WholeTicks(s.facts);
  }

  lemma WholeTicks(f: Facts)
    requires AdmittedWhole(f)
    ensures AdmittedValid(f)
  {
  }

  /**
   The two judgements define one relation on every stored journal: a view is accepted exactly when it
   is the finished view of an admitted qualification that the decision finds eligible now.
  */
  lemma JudgementsAgree(rows: seq<Entry>, s: State, host: Host, view: View, context: Context, input: string, now: int)
    requires Replays(rows, s)
    ensures CheckView(host, view, context, input, now, s) <==>
      && Resolves(s.facts, view.qualification)
      && var q := view.qualification.qualification;
        && ValidTick(now)
        && Eligible(host, q, context, input, now, s.facts)
        && view == Viewed(q, context, Revision(s), []).(
             claim := Promotion(host, q), reasons := view.reasons, report := view.report)
  {
    hide Replays, CheckView, Eligible;
    ReplaysAdmittedValid(rows, s);
    ViewAgreement(host, view, context, input, now, s);
  }

  /** Every view that retrieval returns passes the check on the same journal, host, input and time. */
  lemma RetrievedViewsAccepted(
      rows: seq<Entry>, s: State, host: Host, context: Context, input: string, now: int, query: Query, limit: nat,
      r: seq<View>, k: nat)
    requires Replays(rows, s) && IsRetrieval(host, context, input, now, query, limit, s, r) && k < |r|
    ensures CheckView(host, r[k], context, input, now, s)
  {
    hide Replays, CheckView, IsRetrieval;
    ReplaysAdmittedValid(rows, s);
    RetrievedViewsCheck(host, context, input, now, query, limit, s, r, k);
  }
}
