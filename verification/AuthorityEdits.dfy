/** Edits of the facts a permission depends on: scope, authorizations, test cases, engagement fields.
    Each is a function of one engagement row; `revision` counts the edits that mattered. */
module AuthorityEdits {
  import opened Wrappers
  import opened Records

  datatype GrantField =
    | SetStatus(status: string) | SetPermits(text: string) | SetAuthorizedBy(text: string) | SetReference(text: string)
    | SetAuthorizedAt(at: Option<Instant>) | SetWindowStart(at: Option<Instant>) | SetWindowEnd(at: Option<Instant>)
    | SetNotes(text: string)

  datatype EngagementField =
    | SetKind(text: string) | SetEngagementStatus(text: string)
    | SetStartsAt(at: Option<Instant>) | SetEndsAt(at: Option<Instant>) | SetMaxRate(rate: Option<int>)
    | SetDescription(text: string)

  datatype Edit =
    | AddScope(id: ScopeId, row: ScopeRow)
    | RemoveScope(id: ScopeId, excluded: bool)
    | ImportScope(rows: seq<(ScopeId, ScopeRow)>)
    | CreateAuthorization(id: AuthorizationId, grant: Grant, note: string)
    | UpdateAuthorization(id: AuthorizationId, grantFields: seq<GrantField>)
    | CreateCase(case_: CaseId, spec: CaseSpec)
    | UpdateCase(case_: CaseId, newSpec: Option<CaseSpec>)
    | RemoveCase(case_: CaseId)
    | UpdateEngagement(fields: seq<EngagementField>)
    | ApplyRateCeiling(rate: int, pending: bool)

  function Advanced(g: Engagement): Engagement {
    g.(revision := g.revision + 1)
  }

  function WithGrantField(grant: Grant, f: GrantField): Grant {
    match f
    case SetStatus(s) => grant.(status := s)
    case SetPermits(s) => grant.(permits := s)
    case SetAuthorizedBy(s) => grant.(authorizedBy := s)
    case SetReference(s) => grant.(reference := s)
    case SetAuthorizedAt(t) => grant.(authorizedAt := t)
    case SetWindowStart(t) => grant.(windowStart := t)
    case SetWindowEnd(t) => grant.(windowEnd := t)
    case SetNotes(_) => grant
  }

  function WithGrantFields(grant: Grant, fields: seq<GrantField>): Grant {
    if fields == [] then grant
    else WithGrantField(WithGrantFields(grant, fields[..|fields| - 1]), fields[|fields| - 1])
  }

  function WithNotes(note: string, fields: seq<GrantField>): string {
    if fields == [] then note
    else if fields[|fields| - 1].SetNotes? then fields[|fields| - 1].text
    else WithNotes(note, fields[..|fields| - 1])
  }

  /** The field at i was given a value it did not have when its turn came. */
  predicate GrantTouchedAt(grant: Grant, fields: seq<GrantField>, i: nat)
    requires i < |fields|
  {
    WithGrantFields(grant, fields[..i]) != WithGrantField(WithGrantFields(grant, fields[..i]), fields[i])
  }

  predicate GrantTouched(grant: Grant, fields: seq<GrantField>) {
    exists i :: 0 <= i < |fields| && GrantTouchedAt(grant, fields, i)
  }

  function WithEngagementField(a: Authority, f: EngagementField): Authority {
    match f
    case SetKind(s) => a.(kind := s)
    case SetEngagementStatus(s) => a.(status := s)
    case SetStartsAt(t) => a.(startsAt := t)
    case SetEndsAt(t) => a.(endsAt := t)
    case SetMaxRate(r) => a.(maxRate := r)
    case SetDescription(_) => a
  }

  function WithEngagementFields(a: Authority, fields: seq<EngagementField>): Authority {
    if fields == [] then a
    else WithEngagementField(WithEngagementFields(a, fields[..|fields| - 1]), fields[|fields| - 1])
  }

  predicate AuthorityTouchedAt(a: Authority, fields: seq<EngagementField>, i: nat)
    requires i < |fields|
  {
    WithEngagementFields(a, fields[..i]) != WithEngagementField(WithEngagementFields(a, fields[..i]), fields[i])
  }

  predicate AuthorityTouched(a: Authority, fields: seq<EngagementField>) {
    exists i :: 0 <= i < |fields| && AuthorityTouchedAt(a, fields, i)
  }

  /** A row with the same list side and value is already present. */
  predicate InScopeRows(scope: map<ScopeId, ScopeRow>, row: ScopeRow) {
    exists id :: id in scope && scope[id].excluded == row.excluded && scope[id].value == row.value
  }

  /** Insert, in order, every row whose (list side, value) is not there yet. */
  function Imported(scope: map<ScopeId, ScopeRow>, rows: seq<(ScopeId, ScopeRow)>): map<ScopeId, ScopeRow> {
    if rows == [] then scope
    else
      var so_far := Imported(scope, rows[..|rows| - 1]);
      var (id, row) := rows[|rows| - 1];
      if InScopeRows(so_far, row) then so_far else so_far[id := row]
  }

  /** Generated row identifiers: new, and not repeated within one import. */
  predicate FreshRows(scope: map<ScopeId, ScopeRow>, rows: seq<(ScopeId, ScopeRow)>) {
    && (forall i :: 0 <= i < |rows| ==> rows[i].0 !in scope)
    && (forall i, k :: 0 <= i < k < |rows| ==> rows[i].0 != rows[k].0)
  }

  function Edited(g: Engagement, edit: Edit): Result<Engagement, Reason> {
    var a := g.authority;
    match edit
    case AddScope(id, row) =>
      :- Need(id !in a.scope, AlreadyExists);
      Success(Advanced(g).(authority := a.(scope := a.scope[id := row])))
    case RemoveScope(id, excluded) =>
      :- Need(id in a.scope && a.scope[id].excluded == excluded, NotFound);
      Success(Advanced(g).(authority := a.(scope := a.scope - {id})))
    case ImportScope(rows) =>
      :- Need(FreshRows(a.scope, rows), AlreadyExists);
      var scope := Imported(a.scope, rows);
      Success(if scope == a.scope then g else Advanced(g).(authority := a.(scope := scope)))
    case CreateAuthorization(id, grant, note) =>
      :- Need(id !in a.grants, AlreadyExists);
      Success(Advanced(g).(authority := a.(grants := a.grants[id := grant.(status := "active")]),
              notes := g.notes[id := note]))
    case UpdateAuthorization(id, fields) =>
      :- Need(id in a.grants, NotFound);
      var kept := if GrantTouched(a.grants[id], fields) then Advanced(g) else g;
      var note := WithNotes(if id in g.notes then g.notes[id] else "", fields);
      Success(kept.(authority := a.(grants := a.grants[id := WithGrantFields(a.grants[id], fields)]),
              notes := g.notes[id := note]))
    case CreateCase(id, spec) =>
      :- Need(id !in g.cases, AlreadyExists);
      Success(g.(cases := g.cases[id := spec]))
    case UpdateCase(id, spec) =>
      :- Need(id in g.cases, NotFound);
      Success(if spec.None? || spec.value == g.cases[id] then g else Advanced(g).(cases := g.cases[id := spec.value]))
    case RemoveCase(id) =>
      :- Need(id in g.cases, NotFound);
      Success(Advanced(g).(cases := g.cases - {id}))
    case UpdateEngagement(fields) =>
      var kept := if AuthorityTouched(a, fields) then Advanced(g) else g;
      Success(kept.(authority := WithEngagementFields(a, fields)))
    case ApplyRateCeiling(rate, pending) =>
      :- Need(pending, ProposalResolved);
      Success(Advanced(g).(authority := a.(maxRate := Some(rate))))
  }

  lemma {:induction false} UntouchedGrant(grant: Grant, fields: seq<GrantField>)
    requires !GrantTouched(grant, fields)
    ensures WithGrantFields(grant, fields) == grant
  {
    if fields != [] {
      var front := fields[..|fields| - 1];
      forall i | 0 <= i < |front| ensures !GrantTouchedAt(grant, front, i) {
        assert front[..i] == fields[..i] && !GrantTouchedAt(grant, fields, i);
      }
      assert !GrantTouchedAt(grant, fields, |front|);
      UntouchedGrant(grant, front);
    }
  }

  lemma {:induction false} UntouchedAuthority(a: Authority, fields: seq<EngagementField>)
    requires !AuthorityTouched(a, fields)
    ensures WithEngagementFields(a, fields) == a
  {
    if fields != [] {
      var front := fields[..|fields| - 1];
      forall i | 0 <= i < |front| ensures !AuthorityTouchedAt(a, front, i) {
        assert front[..i] == fields[..i] && !AuthorityTouchedAt(a, fields, i);
      }
      assert !AuthorityTouchedAt(a, fields, |front|);
      UntouchedAuthority(a, front);
    }
  }

  lemma {:induction false} FieldsKeepControls(a: Authority, fields: seq<EngagementField>)
    ensures var b := WithEngagementFields(a, fields); b.stopWork == a.stopWork && b.limits == a.limits
  {
    if fields != [] {
      FieldsKeepControls(a, fields[..|fields| - 1]);
    }
  }

  predicate KeepsCases(g: Engagement, h: Engagement) {
    forall c :: c in g.cases ==> c in h.cases && h.cases[c] == g.cases[c]
  }

  /** One edit either leaves every authority fact and every stored case as it was, or advances the
      revision by exactly one; it never touches the brake, the limits, the owner or the accounting. */
  lemma EditAdvances(g: Engagement, edit: Edit)
    requires Edited(g, edit).Success?
    ensures var h := Edited(g, edit).value;
            && (h.revision == g.revision || h.revision == g.revision + 1)
            && (h.revision == g.revision ==> h.authority == g.authority)
            && (h.revision == g.revision ==> KeepsCases(g, h))
            && h.authority.stopWork == g.authority.stopWork && h.authority.limits == g.authority.limits
            && h.owner == g.owner && h.targetsSpent == g.targetsSpent && h.durationAllocated == g.durationAllocated
  {
    match edit
    case UpdateAuthorization(id, fields) =>
      if !GrantTouched(g.authority.grants[id], fields) {
        UntouchedGrant(g.authority.grants[id], fields);
      }
    case UpdateEngagement(fields) =>
      FieldsKeepControls(g.authority, fields);
      if !AuthorityTouched(g.authority, fields) {
        UntouchedAuthority(g.authority, fields);
      }
    case _ =>
  }

  // ----- What each edit asks for, and what it changes -----

  /** A new row needs a new identifier, an old one has to be there, on the side of the list it is removed from, and a
      proposal has to be pending. */
  predicate MayEdit(g: Engagement, edit: Edit) {
    match edit
    case AddScope(id, _) => id !in g.authority.scope
    case RemoveScope(id, excluded) => id in g.authority.scope && g.authority.scope[id].excluded == excluded
    case ImportScope(rows) =>
      && (forall i :: 0 <= i < |rows| ==> rows[i].0 !in g.authority.scope)
      && (forall i, k :: 0 <= i < k < |rows| ==> rows[i].0 != rows[k].0)
    case CreateAuthorization(id, _, _) => id !in g.authority.grants
    case UpdateAuthorization(id, _) => id in g.authority.grants
    case CreateCase(id, _) => id !in g.cases
    case UpdateCase(id, _) => id in g.cases
    case RemoveCase(id) => id in g.cases
    case UpdateEngagement(_) => true
    case ApplyRateCeiling(_, pending) => pending
  }

  /** The one thing an edit changes, and whether that moves the revision. */
  predicate Changes(g: Engagement, h: Engagement, edit: Edit) {
    var a := g.authority;
    match edit
    case AddScope(id, row) => h == g.(revision := g.revision + 1, authority := a.(scope := a.scope[id := row]))
    case RemoveScope(id, _) => h == g.(revision := g.revision + 1, authority := a.(scope := a.scope - {id}))
    case ImportScope(_) =>
      h == g.(revision := if h.authority.scope == a.scope then g.revision else g.revision + 1,
              authority := a.(scope := h.authority.scope))
    case CreateAuthorization(id, grant, note) =>
      h == g.(revision := g.revision + 1, notes := g.notes[id := note],
              authority := a.(grants := a.grants[id := grant.(status := "active")]))
    case UpdateAuthorization(id, _) =>
      && id in h.authority.grants && id in h.notes
      && h == g.(revision := h.revision, notes := g.notes[id := h.notes[id]],
                 authority := a.(grants := a.grants[id := h.authority.grants[id]]))
    case CreateCase(id, spec) => h == g.(cases := g.cases[id := spec])
    case UpdateCase(id, spec) =>
      if spec.None? || (id in g.cases && g.cases[id] == spec.value) then h == g
      else h == g.(revision := g.revision + 1, cases := g.cases[id := spec.value])
    case RemoveCase(id) => h == g.(revision := g.revision + 1, cases := g.cases - {id})
    case UpdateEngagement(_) => h == g.(revision := h.revision, authority := h.authority)
    case ApplyRateCeiling(rate, _) => h == g.(revision := g.revision + 1, authority := a.(maxRate := Some(rate)))
  }

  lemma EditExactly(g: Engagement, edit: Edit)
    ensures Edited(g, edit).Success? <==> MayEdit(g, edit)
    ensures Edited(g, edit).Success? ==> Changes(g, Edited(g, edit).value, edit)
  {
    hide WithGrantFields, WithEngagementFields, GrantTouched, AuthorityTouched, WithNotes, Imported;
  }

  // ----- What a list of fields comes to -----

  /** The last window end and status given win, and one that is not given stays. */
  lemma {:induction false} LastGrantFieldsWin(grant: Grant, fields: seq<GrantField>, i: nat)
    requires i <= |fields|
    ensures var h := WithGrantFields(grant, fields);
            && (SaysLast(fields, i, (f: GrantField) => f.SetStatus?) ==>
                  h.status == if i == 0 then grant.status else fields[i - 1].status)
            && (SaysLast(fields, i, (f: GrantField) => f.SetWindowStart?) ==>
                  h.windowStart == if i == 0 then grant.windowStart else fields[i - 1].at)
            && (SaysLast(fields, i, (f: GrantField) => f.SetWindowEnd?) ==>
                  h.windowEnd == if i == 0 then grant.windowEnd else fields[i - 1].at)
            && (SaysLast(fields, i, (f: GrantField) => f.SetPermits?) ==>
                  h.permits == if i == 0 then grant.permits else fields[i - 1].text)
  {
    if |fields| > i {
      LastGrantFieldsWin(grant, fields[..|fields| - 1], i);
    }
  }

  /** The field before i is of this kind, or there is none before it, and none from i on is. */
  predicate SaysLast(fields: seq<GrantField>, i: nat, kind: GrantField -> bool)
    requires i <= |fields|
  {
    (i > 0 ==> kind(fields[i - 1])) && forall k :: i <= k < |fields| ==> !kind(fields[k])
  }

}
