/**
 Promotion of a memory document to a wider visibility, and who can still find it
 afterwards.
 */
module Promotion {
  import opened Options
  import opened SqlFilters

  /** The document row that `promote_document` updates in place. */
  class MemoryDocument {
    const id: Id
    const workspaceId: Id
    var projectId: Option<Id>
    var sessionId: Option<Id>
    var visibility: string
    var status: string
    var deletedAt: Option<int>

    function Snapshot(): Document
      reads this
    {
      Document(id, workspaceId, projectId, sessionId, visibility, status, deletedAt)
    }

    constructor (document: Document)
      ensures Snapshot() == document
    {
      id, workspaceId := document.id, document.workspaceId;
      projectId, sessionId := document.projectId, document.sessionId;
      visibility, status, deletedAt := document.visibility, document.status, document.deletedAt;
    }

    method Promote(level: string)
      modifies this`visibility, this`sessionId, this`projectId
      ensures Snapshot() == Promoted(old(Snapshot()), level)
    {
      visibility := level;
      if level == "workspace" {
        sessionId := None;
        projectId := None;
      }
      if level == "project" {
        sessionId := None;
      }
    }

    /** The service's guards around the update: what it refuses leaves the row alone. */
    method RequestPromotion(level: string) returns (r: Result<(), PromotionError>)
      modifies this`visibility, this`sessionId, this`projectId
      ensures r.Ok? <==> Accepts(old(Snapshot()), level).Ok?
      ensures r.Err? ==> Snapshot() == old(Snapshot()) && r.error == Accepts(old(Snapshot()), level).error
      ensures r.Ok? ==> Snapshot() == Promoted(old(Snapshot()), level)
      ensures r.Ok? ==>
        visibility == level && sessionId.None? && projectId == if level == "workspace" then None else old(projectId)
      ensures status != "approved" ==> r == Err(NotApproved)
      ensures status == "approved" && level != "project" && level != "workspace" ==> r == Err(NotALevel)
      ensures status == "approved" && level == "project" && old(projectId).None? ==> r == Err(NeedsProject)
      ensures r.Err? ==> status != "approved" || level !in {"project", "workspace"} || old(projectId).None?
    {
      if status != "approved" {
        return Err(NotApproved);
      }
      if level !in {"project", "workspace"} {
        return Err(NotALevel);
      }
      if level == "project" && projectId.None? {
        return Err(NeedsProject);
      }
      Promote(level);
      return Ok(());
    }
  }

  datatype PromotionError = NotApproved | NotALevel | NeedsProject

  function Promoted(d: Document, level: string): Document
  {
    d.(visibility := level,
       sessionId := if level == "workspace" || level == "project" then None else d.sessionId,
       projectId := if level == "workspace" then None else d.projectId)
  }

  function Accepts(d: Document, level: string): Result<(), PromotionError>
  {
    if d.status != "approved" then Err(NotApproved)
    else if level !in {"project", "workspace"} then Err(NotALevel)
    else if level == "project" && d.projectId.None? then Err(NeedsProject)
    else Ok(())
  }

  /** Refused requests change nothing. */
  function AfterRequests(d: Document, levels: seq<string>): Document
  {
    if levels == [] then d
    else
      var before := AfterRequests(d, levels[..|levels| - 1]);
      var level := levels[|levels| - 1];
      if Accepts(before, level).Ok? then Promoted(before, level) else before
  }

  /** What a promotion leaves: a project document keeps its project only, a workspace document neither. */
  lemma PromotedColumns(d: Document, level: string)
    ensures var e := Promoted(d, level);
      && e.visibility == level
      && (level == "workspace" ==> e.sessionId.None? && e.projectId.None?)
      && (level == "project" ==> e.sessionId.None? && e.projectId == d.projectId)
      && (level != "workspace" && level != "project" ==> e.sessionId == d.sessionId && e.projectId == d.projectId)
      && e.id == d.id && e.workspaceId == d.workspaceId && e.status == d.status && e.deletedAt == d.deletedAt
    ensures Accepts(d, level).Ok?
      <==> d.status == "approved" && (level == "workspace" || (level == "project" && d.projectId.Some?))
  {
  }

  // ----- reach -----

  /** The search finds the document, its visibility list aside. */
  function AnyVisibility(search: Search): Search { search.(visibility := None) }

  /** Every search that finds `d` finds `e`, if its visibility list admits `e`'s level. */
  ghost predicate Widens(d: Document, e: Document)
  {
    forall search :: Reaches(search, d) && AdmitsVisibility(search, e.visibility) ==> Reaches(search, e)
  }

  /** The same, without asking the search to admit the level of `d`: closed under chaining. */
  ghost predicate ScopeWidens(d: Document, e: Document)
  {
    forall search :: Reaches(AnyVisibility(search), d) ==> Reaches(AnyVisibility(search), e)
  }

  predicate Live(d: Document) { d.status == "approved" && d.deletedAt.None? }

  /** The guard under which a promotion widens: checkable on the row before the update. */
  predicate WideningStep(d: Document, level: string)
  {
    || level == "workspace"
    || (d.visibility != "workspace" && level != "session")
    || (d.visibility == "session" && level == "session")
  }

  lemma ScopeWidensIsWidens(d: Document, e: Document)
    requires ScopeWidens(d, e)
    ensures Widens(d, e)
  {
    forall search | Reaches(search, d) && AdmitsVisibility(search, e.visibility)
      ensures Reaches(search, e)
    {
      assert Reaches(AnyVisibility(search), d);
      assert Reaches(AnyVisibility(search), e);
    }
  }

  lemma WideningStepWidens(d: Document, level: string)
    requires WideningStep(d, level)
    ensures ScopeWidens(d, Promoted(d, level))
  {
  }

  function OtherId(id: Option<Id>): Id { if id.Some? then id.value + 1 else 0 }

  /** A search that finds `d` but loses it in the promotion. */
  function LosingSearch(d: Document): Search
  {
    var search := Search(d.workspaceId, [], 1, None, None, None, None);
    if d.visibility == "workspace" then search.(projectId := Some(OtherId(d.projectId)))
    else search.(sessionId := Some(OtherId(d.sessionId)))
  }

  /**
   A promotion keeps every searcher exactly when it is a widening step, or no search
   could find the document anyway.
   */
  lemma PromotionWidensExactlyWhen(d: Document, level: string)
    ensures Widens(d, Promoted(d, level)) <==> !Live(d) || WideningStep(d, level)
  {
    if WideningStep(d, level) {
      WideningStepWidens(d, level);
      ScopeWidensIsWidens(d, Promoted(d, level));
    } else if Live(d) {
      var search := LosingSearch(d);
      assert Reaches(search, d);
      assert !Reaches(search, Promoted(d, level));
    }
  }

  // ----- runs of promotion requests -----

  /** A workspace-wide document that still names a project can be pulled back to it. */
  predicate CannotNarrow(d: Document) { d.visibility == "workspace" ==> d.projectId.None? }

  lemma AcceptedRequestWidens(d: Document, level: string)
    requires CannotNarrow(d) && Accepts(d, level).Ok?
    ensures ScopeWidens(d, Promoted(d, level))
    ensures CannotNarrow(Promoted(d, level))
  {
    WideningStepWidens(d, level);
  }

  lemma {:induction false} RequestsWiden(d: Document, levels: seq<string>)
    requires CannotNarrow(d)
    ensures ScopeWidens(d, AfterRequests(d, levels))
    ensures CannotNarrow(AfterRequests(d, levels))
  {
    if levels == [] {
    } else {
      var before := AfterRequests(d, levels[..|levels| - 1]);
      var level := levels[|levels| - 1];
      RequestsWiden(d, levels[..|levels| - 1]);
      if Accepts(before, level).Ok? {
        AcceptedRequestWidens(before, level);
        Chain(d, before, Promoted(before, level));
      }
    }
  }

  lemma Chain(d: Document, e: Document, f: Document)
    requires ScopeWidens(d, e) && ScopeWidens(e, f)
    ensures ScopeWidens(d, f)
  {
    forall search | Reaches(AnyVisibility(search), d)
      ensures Reaches(AnyVisibility(search), f)
    {
      assert Reaches(AnyVisibility(search), e);
    }
  }

  /**
   Whatever promotions are requested, in any order, a live document keeps every searcher
   whose list admits its final level - exactly when it did not start out workspace-wide
   with a project still attached.
   */
  lemma RequestsWidenExactlyWhen(d: Document)
    requires Live(d)
    ensures (forall levels :: Widens(d, AfterRequests(d, levels))) <==> CannotNarrow(d)
  {
    if CannotNarrow(d) {
      forall levels
        ensures Widens(d, AfterRequests(d, levels))
      {
        RequestsWiden(d, levels);
        ScopeWidensIsWidens(d, AfterRequests(d, levels));
      }
    } else {
      var levels := ["project"];
      assert levels[..0] == [];
      assert AfterRequests(d, levels[..0]) == d;
      assert AfterRequests(d, levels) == Promoted(d, "project");
      PromotionWidensExactlyWhen(d, "project");
      assert !Widens(d, AfterRequests(d, levels));
    }
  }
}
