/**
 * The lead-list transitions of the pipeline board (features/Pipeline.tsx).
 * Each handler is a function from the board state before to the board state
 * after. The results of the remote AI calls are parameters: `None` stands for a
 * call that threw.
 */
module Pipeline {
  import opened Wrappers
  import opened Types
  import opened Records

  /** The new-lead form: a partial lead, a field being `None` when it is missing. */
  datatype LeadForm = LeadForm(
    name: Option<string>,
    phone: Option<string>,
    value: Option<int>,
    source: Option<Source>,
    stage: Option<Stage>,
    aiScore: Option<int>)

  /** The form when the board is first shown: it carries no score suggestion. */
  const INITIAL_FORM: LeadForm := LeadForm(Some(""), Some(""), Some(0), Some(Source.WHATSAPP), Some(NEW), None)

  /** The form after a lead was saved: a zero score suggestion is set. */
  const BLANK_FORM: LeadForm := LeadForm(Some(""), Some(""), Some(0), Some(Source.WHATSAPP), Some(NEW), Some(0))

  /** A parse that returned no field at all. */
  const EMPTY_PARSE: LeadForm := LeadForm(None, None, None, None, None, None)

  /** The board's state: the leads, the ids being scored, the form, the scan text, the open lead, the modal. */
  datatype Board = Board(
    leads: seq<Lead>,
    scoringIds: set<string>,
    form: LeadForm,
    aiInput: string,
    selectedLeadId: Option<string>,
    modalOpen: bool)

  /** The board's columns, in display order; LOST has none. */
  const STAGES: seq<Stage> := [NEW, CONTACTED, PROPOSAL, WON]

  // ---- selection ----

  /** `leads.find(l => l.id === selectedLeadId) || null`. */
  function SelectedLead(b: Board): (r: Option<Lead>)
    ensures b.selectedLeadId.None? ==> r.None?
    ensures b.selectedLeadId.Some? ==>
      match FirstIndex(b.leads, LeadId, b.selectedLeadId.value)
      case Some(i) => r == Some(b.leads[i])
      case None => r.None?
    ensures r.Some? ==> r.value in b.leads && Some(r.value.id) == b.selectedLeadId
  {
    match b.selectedLeadId
    case None => None
    case Some(id) => Find(b.leads, LeadId, id)
  }

  // ---- saving a new lead ----

  /** `s || fallback` on a string field: a missing or empty string falls back. */
  function TextOr(s: Option<string>, fallback: string): string
  {
    if s.Some? && s.value != "" then s.value else fallback
  }

  /** `n || fallback` on a number field: a missing or zero number falls back. */
  function NumberOr(n: Option<int>, fallback: int): int
  {
    if n.Some? && n.value != 0 then n.value else fallback
  }

  /**
   * The lead built from the form; the random id and today's date are parameters.
   * Its name is never empty, it belongs to tenant "t1", it always carries a
   * score and never an analysis, and a stage chosen in the form is kept.
   */
  function NewLead(form: LeadForm, id: string, createdAt: string): (r: Lead)
    ensures r.id == id && r.createdAt == createdAt && r.tenantId == "t1"
    ensures r.name != ""
    ensures r.aiScore.Some? && r.aiAnalysis.None?
    ensures form.stage.Some? ==> r.stage == form.stage.value
    ensures form.stage.None? ==> r.stage == NEW
  {
    Lead(
      id,
      TextOr(form.name, "New Lead"),
      TextOr(form.phone, ""),
      form.source.GetOr(Source.WHATSAPP),
      NumberOr(form.value, 0),
      form.stage.GetOr(NEW),
      "t1",
      createdAt,
      Some(NumberOr(form.aiScore, 0)),
      None)
  }

  /** The form as first shown and the form after a save give the same lead: a missing score and a zero score both save as 0. */
  lemma InitialAndBlankFormsAgree(id: string, createdAt: string)
    ensures INITIAL_FORM.aiScore != BLANK_FORM.aiScore
    ensures NewLead(INITIAL_FORM, id, createdAt) == NewLead(BLANK_FORM, id, createdAt)
  {
  }

  /** Put the new lead in front of the list, reset the form and close the modal. */
  function SaveLead(b: Board, id: string, createdAt: string): (r: Board)
    ensures |r.leads| == |b.leads| + 1 && r.leads[1..] == b.leads
    ensures var l := r.leads[0];
      && l.id == id && l.createdAt == createdAt && l.tenantId == "t1"
      && l.name == (if b.form.name.None? || b.form.name.value == "" then "New Lead" else b.form.name.value)
      && l.phone == (if b.form.phone.None? then "" else b.form.phone.value)
      && l.value == (if b.form.value.None? then 0 else b.form.value.value)
      && l.source == (if b.form.source.None? then Source.WHATSAPP else b.form.source.value)
      && l.stage == (if b.form.stage.None? then NEW else b.form.stage.value)
      && l.aiScore == Some(if b.form.aiScore.None? then 0 else b.form.aiScore.value)
      && l.aiAnalysis.None?
    ensures r.form == BLANK_FORM && !r.modalOpen
    ensures r.(leads := b.leads, form := b.form, modalOpen := b.modalOpen) == b
  {
    b.(leads := [NewLead(b.form, id, createdAt)] + b.leads, form := BLANK_FORM, modalOpen := false)
  }

  /** The "Add Lead" button under a column: preset the form's stage and open the modal. */
  function OpenFormForStage(b: Board, stage: Stage): (r: Board)
    ensures r.form.stage == Some(stage) && r.modalOpen
    ensures r.form.(stage := b.form.stage) == b.form
    ensures r.(form := b.form, modalOpen := b.modalOpen) == b
  {
    b.(form := b.form.(stage := Some(stage)), modalOpen := true)
  }

  /** A lead saved from a column's "Add Lead" button shows up first in that column. */
  lemma SavedLeadLandsInColumn(b: Board, stage: Stage, id: string, createdAt: string)
    ensures var r := SaveLead(OpenFormForStage(b, stage), id, createdAt);
      r.leads[0].stage == stage && Column(r.leads, stage)[0] == r.leads[0]
  {
    var r := SaveLead(OpenFormForStage(b, stage), id, createdAt);
    var l := r.leads[0];
    assert r.leads == [l] + r.leads[1..];
    assert Column(r.leads, stage) == [l] + Column(r.leads[1..], stage);
  }

  // ---- scoring ----

  /** `ai_score`, when there is an analysis, agrees with the analysis' score. */
  predicate ScoreConsistent(l: Lead)
  {
    l.aiAnalysis.Some? ==> l.aiScore == Some(l.aiAnalysis.value.score)
  }

  /** `leads.map(l => l.id === id ? {...l, ai_score: a.score, ai_analysis: a} : l)`. */
  function Rescore(leads: seq<Lead>, id: string, a: AiAnalysis): (r: seq<Lead>)
    ensures |r| == |leads|
    ensures forall i :: 0 <= i < |leads| && leads[i].id == id ==>
              r[i] == leads[i].(aiScore := Some(a.score), aiAnalysis := Some(a))
    ensures forall i :: 0 <= i < |leads| && leads[i].id != id ==> r[i] == leads[i]
  {
    if leads == [] then []
    else
      var l := leads[0];
      [if l.id == id then l.(aiScore := Some(a.score), aiAnalysis := Some(a)) else l] + Rescore(leads[1..], id, a)
  }

  /** Before the remote call: mark the lead as being scored; an unknown id changes nothing. */
  function StartScoring(b: Board, id: string): (r: Board)
    ensures Find(b.leads, LeadId, id).None? ==> r == b
    ensures Find(b.leads, LeadId, id).Some? ==> id in r.scoringIds
    ensures forall x :: x != id ==> (x in r.scoringIds <==> x in b.scoringIds)
    ensures r.(scoringIds := b.scoringIds) == b
  {
    if Find(b.leads, LeadId, id).None? then b
    else b.(scoringIds := b.scoringIds + {id})
  }

  /** After the remote call: write the analysis back (if there is one) and unmark the lead. */
  function FinishScoring(b: Board, id: string, outcome: Option<AiAnalysis>): (r: Board)
    ensures id !in r.scoringIds
    ensures forall x :: x != id ==> (x in r.scoringIds <==> x in b.scoringIds)
    ensures outcome.None? ==> r.leads == b.leads
    ensures outcome.Some? ==> |r.leads| == |b.leads|
    ensures outcome.Some? ==> forall i :: 0 <= i < |b.leads| && b.leads[i].id == id ==>
              r.leads[i] == b.leads[i].(aiScore := Some(outcome.value.score), aiAnalysis := outcome)
    ensures forall i :: 0 <= i < |b.leads| && b.leads[i].id != id ==> r.leads[i] == b.leads[i]
    ensures r.(leads := b.leads, scoringIds := b.scoringIds) == b
  {
    var leads := if outcome.Some? then Rescore(b.leads, id, outcome.value) else b.leads;
    b.(leads := leads, scoringIds := b.scoringIds - {id})
  }

  /**
   * The whole scoring handler when no other event interleaves with the remote
   * call: an unknown id returns early; otherwise the id ends outside the set of
   * leads being scored and the lead list keeps its length, and is unchanged
   * when the call failed.
   */
  function ScoreLead(b: Board, id: string, outcome: Option<AiAnalysis>): (r: Board)
    ensures Find(b.leads, LeadId, id).None? ==> r == b
    ensures Find(b.leads, LeadId, id).Some? ==> r.scoringIds == b.scoringIds - {id}
    ensures |r.leads| == |b.leads|
    ensures outcome.None? ==> r.leads == b.leads
    ensures forall i :: 0 <= i < |b.leads| && b.leads[i].id != id ==> r.leads[i] == b.leads[i]
    ensures outcome.Some? && Find(b.leads, LeadId, id).Some? ==>
              forall i :: 0 <= i < |b.leads| && b.leads[i].id == id ==>
                r.leads[i] == b.leads[i].(aiScore := Some(outcome.value.score), aiAnalysis := outcome)
  {
    if Find(b.leads, LeadId, id).None? then b
    else FinishScoring(StartScoring(b, id), id, outcome)
  }

  /**
   * Scoring an unknown id does nothing; otherwise the id set ends as it began
   * minus `id`, and only the leads with that id change, and only when scoring
   * succeeded. Scoring keeps every lead's score consistent with its analysis.
   */
  lemma ScoreLeadEffect(b: Board, id: string, outcome: Option<AiAnalysis>)
    ensures Find(b.leads, LeadId, id).None? ==> ScoreLead(b, id, outcome) == b
    ensures Find(b.leads, LeadId, id).Some? ==> ScoreLead(b, id, outcome).scoringIds == b.scoringIds - {id}
    ensures Find(b.leads, LeadId, id).Some? ==> id in StartScoring(b, id).scoringIds
    ensures outcome.None? ==> ScoreLead(b, id, outcome).leads == b.leads
    ensures |ScoreLead(b, id, outcome).leads| == |b.leads|
    ensures forall i :: 0 <= i < |b.leads| && b.leads[i].id != id ==> ScoreLead(b, id, outcome).leads[i] == b.leads[i]
    ensures outcome.Some? && Find(b.leads, LeadId, id).Some? ==>
              forall i :: 0 <= i < |b.leads| && b.leads[i].id == id ==>
                ScoreLead(b, id, outcome).leads[i] == b.leads[i].(aiScore := Some(outcome.value.score), aiAnalysis := outcome)
    ensures forall l :: l in ScoreLead(b, id, outcome).leads && l.id == id && outcome.Some? ==>
              l.aiScore == Some(outcome.value.score) && l.aiAnalysis == outcome
    ensures (forall l :: l in b.leads ==> ScoreConsistent(l)) ==>
              forall l :: l in ScoreLead(b, id, outcome).leads ==> ScoreConsistent(l)
  {
    var r := ScoreLead(b, id, outcome);
    if Find(b.leads, LeadId, id).Some? {
      assert r.scoringIds == b.scoringIds - {id};
      forall l | l in r.leads
        ensures l.id == id && outcome.Some? ==> l.aiScore == Some(outcome.value.score) && l.aiAnalysis == outcome
        ensures (forall k :: k in b.leads ==> ScoreConsistent(k)) ==> ScoreConsistent(l)
      {
        var i :| 0 <= i < |r.leads| && r.leads[i] == l;
        assert b.leads[i] in b.leads;
      }
    }
  }

  // ---- quick AI scan ----

  /** The characters JavaScript's `trim` removes: white space and line terminators. */
  predicate IsJsWhitespace(c: char)
  {
    c == ' ' || c == '\t' || c == '\n' || c == '\r' || c == '\U{000B}' || c == '\U{000C}' ||
    c == '\U{00A0}' || c == '\U{1680}' || ('\U{2000}' <= c <= '\U{200A}') ||
    c == '\U{2028}' || c == '\U{2029}' || c == '\U{202F}' || c == '\U{205F}' ||
    c == '\U{3000}' || c == '\U{FEFF}'
  }

  /** `!s.trim()`: the text is empty or white space only. */
  predicate IsBlank(s: string)
  {
    forall i :: 0 <= i < |s| ==> IsJsWhitespace(s[i])
  }

  /** `{...form, ...parsed}`: every field the parser returned overrides the form's. */
  function MergeForm(form: LeadForm, parsed: LeadForm): (r: LeadForm)
    ensures r.name == (if parsed.name.Some? then parsed.name else form.name)
    ensures r.phone == (if parsed.phone.Some? then parsed.phone else form.phone)
    ensures r.value == (if parsed.value.Some? then parsed.value else form.value)
    ensures r.source == (if parsed.source.Some? then parsed.source else form.source)
    ensures r.stage == (if parsed.stage.Some? then parsed.stage else form.stage)
    ensures r.aiScore == (if parsed.aiScore.Some? then parsed.aiScore else form.aiScore)
  {
    LeadForm(
      if parsed.name.Some? then parsed.name else form.name,
      if parsed.phone.Some? then parsed.phone else form.phone,
      if parsed.value.Some? then parsed.value else form.value,
      if parsed.source.Some? then parsed.source else form.source,
      if parsed.stage.Some? then parsed.stage else form.stage,
      if parsed.aiScore.Some? then parsed.aiScore else form.aiScore)
  }

  /** Merging an empty parse changes nothing, and merging the same parse twice is merging it once. */
  lemma MergeFormLaws(form: LeadForm, parsed: LeadForm)
    ensures MergeForm(form, EMPTY_PARSE) == form
    ensures MergeForm(MergeForm(form, parsed), parsed) == MergeForm(form, parsed)
  {
  }

  /** Scan the pasted text: blank text or a failed call leave the board as it is. */
  function AiScan(b: Board, parsed: Option<LeadForm>): (r: Board)
    ensures IsBlank(b.aiInput) ==> r == b
    ensures parsed.None? ==> r == b
    ensures !IsBlank(b.aiInput) && parsed.Some? ==>
              r == b.(form := MergeForm(b.form, parsed.value), aiInput := "")
  {
    if IsBlank(b.aiInput) then b
    else match parsed
      case None => b
      case Some(p) => b.(form := MergeForm(b.form, p), aiInput := "")
  }

  // ---- columns ----

  /** The column of one stage: the leads at that stage, in list order. */
  function Column(leads: seq<Lead>, stage: Stage): (r: seq<Lead>)
    ensures forall l :: l in r <==> l in leads && l.stage == stage
    ensures IsSubsequence(r, leads)
  {
    WithKeyMembers(leads, LeadStage, stage);
    FiltersKeepOrder(leads, LeadStage, stage);
    WithKey(leads, LeadStage, stage)
  }

  /** `reduce((sum, l) => sum + l.value, 0)`; no negative value means no negative total. */
  function TotalValue(leads: seq<Lead>): (r: int)
    ensures (forall l :: l in leads ==> l.value >= 0) ==> r >= 0
  {
    if leads == [] then 0 else leads[0].value + TotalValue(leads[1..])
  }

  /** The count shown in a column header: zero exactly when no lead is at that stage. */
  function ColumnCount(leads: seq<Lead>, stage: Stage): (r: nat)
    ensures r <= |leads|
    ensures r == 0 <==> forall l :: l in leads ==> l.stage != stage
  {
    var c := Column(leads, stage);
    assert c != [] ==> c[0] in c;
    |c|
  }

  /** The value total shown in a column header, before it is formatted. */
  function ColumnTotal(leads: seq<Lead>, stage: Stage): (r: int)
    ensures (forall l :: l in leads ==> l.value >= 0) ==> r >= 0
  {
    TotalValue(Column(leads, stage))
  }

  /** Peeling the first lead off the list peels it off its own stage's column only. */
  lemma ColumnStep(leads: seq<Lead>, s: Stage)
    requires leads != []
    ensures ColumnCount(leads, s) == (if leads[0].stage == s then 1 else 0) + ColumnCount(leads[1..], s)
    ensures ColumnTotal(leads, s) == (if leads[0].stage == s then leads[0].value else 0) + ColumnTotal(leads[1..], s)
  {
    var l := leads[0];
    var c := Column(leads[1..], s);
    assert Column(leads, s) == (if l.stage == s then [l] else []) + c;
    if l.stage == s {
      assert ([l] + c)[0] == l && ([l] + c)[1..] == c;
    } else {
      assert [] + c == c;
    }
  }

  /**
   * Every lead is counted in exactly one stage: the four board columns together
   * with the LOST leads account for the whole list, by count and by value.
   */
  lemma {:induction false} ColumnsPartitionLeads(leads: seq<Lead>)
    ensures ColumnCount(leads, NEW) + ColumnCount(leads, CONTACTED) + ColumnCount(leads, PROPOSAL)
            + ColumnCount(leads, WON) + ColumnCount(leads, LOST) == |leads|
    ensures ColumnTotal(leads, NEW) + ColumnTotal(leads, CONTACTED) + ColumnTotal(leads, PROPOSAL)
            + ColumnTotal(leads, WON) + ColumnTotal(leads, LOST) == TotalValue(leads)
  {
    if leads != [] {
      ColumnsPartitionLeads(leads[1..]);
      ColumnStep(leads, NEW);
      ColumnStep(leads, CONTACTED);
      ColumnStep(leads, PROPOSAL);
      ColumnStep(leads, WON);
      ColumnStep(leads, LOST);
    }
  }

  /** The board shows exactly the leads that are not LOST. */
  lemma BoardShowsAllButLost(leads: seq<Lead>)
    ensures ColumnCount(leads, NEW) + ColumnCount(leads, CONTACTED) + ColumnCount(leads, PROPOSAL)
            + ColumnCount(leads, WON) == |leads| - ColumnCount(leads, LOST)
    ensures forall s :: s in STAGES ==> s != LOST
    ensures forall l :: l in leads && l.stage != LOST ==> exists s :: s in STAGES && l in Column(leads, s)
  {
    ColumnsPartitionLeads(leads);
    forall l | l in leads && l.stage != LOST ensures exists s :: s in STAGES && l in Column(leads, s) {
      assert l.stage in STAGES;
    }
  }
}
