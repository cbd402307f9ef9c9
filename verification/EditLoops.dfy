/** The loops of the edit routes, and the functions they compute. */
module EditLoops {
  import opened Wrappers
  import opened Records
  import opened AuthorityEdits

  function ScopeWith(scope: map<ScopeId, ScopeRow>, items: seq<(ScopeId, ScopeRow)>): map<ScopeId, ScopeRow> {
    if items == [] then scope
    else ScopeWith(scope, items[..|items| - 1])[items[|items| - 1].0 := items[|items| - 1].1]
  }

  /** Inserting fresh rows loses nothing and adds exactly them. */
  lemma {:induction false} FreshRowsShow(scope: map<ScopeId, ScopeRow>, items: seq<(ScopeId, ScopeRow)>)
    requires FreshRows(scope, items)
    ensures var s := ScopeWith(scope, items);
            && (forall id :: id in s <==> id in scope || exists i :: 0 <= i < |items| && items[i].0 == id)
            && (forall id :: id in scope ==> s[id] == scope[id])
            && (forall i :: 0 <= i < |items| ==> s[items[i].0] == items[i].1)
    ensures items != [] ==> ScopeWith(scope, items) != scope
  {
    if items != [] {
      var front, last := items[..|items| - 1], items[|items| - 1];
      FreshRowsShow(scope, front);
      assert ScopeWith(scope, items) == ScopeWith(scope, front)[last.0 := last.1];
      hide ScopeWith;
      assert forall i :: 0 <= i < |front| ==> front[i] == items[i];
      assert last.0 in ScopeWith(scope, items) && last.0 !in scope;
    }
  }

  /** A key is present after the insertions exactly when it was there or was inserted. */
  lemma KeyPresent(scope: map<ScopeId, ScopeRow>, items: seq<(ScopeId, ScopeRow)>, row: ScopeRow)
    requires FreshRows(scope, items)
    ensures InScopeRows(ScopeWith(scope, items), row) <==> InScopeRows(scope, row) || KeyOf(row) in KeysOf(items)
  {
    FreshRowsShow(scope, items);
    var s := ScopeWith(scope, items);
    if InScopeRows(scope, row) {
      var id :| id in scope && scope[id].excluded == row.excluded && scope[id].value == row.value;
      assert id in s && s[id] == scope[id];
    }
    forall i | 0 <= i < |items| && KeyOf(items[i].1) == KeyOf(row) ensures InScopeRows(s, row) {
      assert items[i].0 in s;
    }
  }

  lemma GrantTouchedStep(grant: Grant, fields: seq<GrantField>, n: nat)
    requires n < |fields|
    ensures GrantTouched(grant, fields[..n + 1]) <==>
            GrantTouched(grant, fields[..n]) || GrantTouchedAt(grant, fields, n)
  {
    hide WithGrantField, WithGrantFields;
    if GrantTouched(grant, fields[..n + 1]) {
      var i :| 0 <= i < n + 1 && GrantTouchedAt(grant, fields[..n + 1], i);
      assert fields[..n + 1][..i] == fields[..i] == fields[..n][..i];
      assert i < n ==> GrantTouchedAt(grant, fields[..n], i);
    }
    if GrantTouched(grant, fields[..n]) {
      var i :| 0 <= i < n && GrantTouchedAt(grant, fields[..n], i);
      assert fields[..n + 1][..i] == fields[..n][..i];
      assert GrantTouchedAt(grant, fields[..n + 1], i);
    }
    assert fields[..n + 1][..n] == fields[..n];
    assert GrantTouchedAt(grant, fields, n) == GrantTouchedAt(grant, fields[..n + 1], n);
  }

  lemma AuthorityTouchedStep(a: Authority, fields: seq<EngagementField>, n: nat)
    requires n < |fields|
    ensures AuthorityTouched(a, fields[..n + 1]) <==>
            AuthorityTouched(a, fields[..n]) || AuthorityTouchedAt(a, fields, n)
  {
    hide WithEngagementField, WithEngagementFields;
    if AuthorityTouched(a, fields[..n + 1]) {
      var i :| 0 <= i < n + 1 && AuthorityTouchedAt(a, fields[..n + 1], i);
      assert fields[..n + 1][..i] == fields[..i] == fields[..n][..i];
      assert i < n ==> AuthorityTouchedAt(a, fields[..n], i);
    }
    if AuthorityTouched(a, fields[..n]) {
      var i :| 0 <= i < n && AuthorityTouchedAt(a, fields[..n], i);
      assert fields[..n + 1][..i] == fields[..n][..i];
      assert AuthorityTouchedAt(a, fields[..n + 1], i);
    }
    assert fields[..n + 1][..n] == fields[..n];
    assert AuthorityTouchedAt(a, fields, n) == AuthorityTouchedAt(a, fields[..n + 1], n);
  }

  function KeyOf(row: ScopeRow): (bool, string) {
    (row.excluded, row.value)
  }

  function KeysOf(items: seq<(ScopeId, ScopeRow)>): set<(bool, string)> {
    set k | 0 <= k < |items| :: KeyOf(items[k].1)
  }

  lemma KeysAppended(items: seq<(ScopeId, ScopeRow)>, item: (ScopeId, ScopeRow))
    ensures KeysOf(items + [item]) == KeysOf(items) + {KeyOf(item.1)}
  {
    var more := items + [item];
    forall key | key in KeysOf(items) ensures key in KeysOf(more) {
      var k :| 0 <= k < |items| && KeyOf(items[k].1) == key;
      assert more[k] == items[k];
    }
    assert KeyOf(more[|items|].1) in KeysOf(more);
  }

  lemma ScopeKeys(scope: map<ScopeId, ScopeRow>, existing: set<(bool, string)>, row: ScopeRow)
    requires existing == set id | id in scope :: KeyOf(scope[id])
    ensures KeyOf(row) in existing <==> InScopeRows(scope, row)
  {
  }

  lemma AppendFresh(scope: map<ScopeId, ScopeRow>, rows: seq<(ScopeId, ScopeRow)>, items: seq<(ScopeId, ScopeRow)>,
                    i: nat)
    requires FreshRows(scope, rows) && FreshRows(scope, items) && i < |rows|
    requires forall k :: 0 <= k < |items| ==> items[k].0 in Ids(rows[..i])
    ensures FreshRows(scope, items + [rows[i]]) && (items + [rows[i]])[..|items|] == items
  {
    assert rows[i].0 !in Ids(rows[..i]);
  }

  lemma IdsGrow(rows: seq<(ScopeId, ScopeRow)>, i: nat)
    requires i < |rows|
    ensures Ids(rows[..i]) <= Ids(rows[..i + 1]) && rows[i].0 in Ids(rows[..i + 1])
  {
    forall id | id in Ids(rows[..i]) ensures id in Ids(rows[..i + 1]) {
      var k :| 0 <= k < i && rows[..i][k].0 == id;
      assert rows[..i + 1][k].0 == id;
    }
    assert rows[..i + 1][i].0 == rows[i].0;
  }

  function Ids(rows: seq<(ScopeId, ScopeRow)>): set<ScopeId> {
    set k | 0 <= k < |rows| :: rows[k].0
  }

  /** What the scan of an import has established after its first i rows. */
  ghost predicate Scanned(scope: map<ScopeId, ScopeRow>, rows: seq<(ScopeId, ScopeRow)>, i: nat,
                          items: seq<(ScopeId, ScopeRow)>, seen: set<(bool, string)>)
    requires i <= |rows|
  {
    && ScopeWith(scope, items) == Imported(scope, rows[..i]) && seen == KeysOf(items) && FreshRows(scope, items)
    && forall k :: 0 <= k < |items| ==> items[k].0 in Ids(rows[..i])
  }

  lemma ScanStep(scope: map<ScopeId, ScopeRow>, rows: seq<(ScopeId, ScopeRow)>, i: nat, items: seq<(ScopeId, ScopeRow)>,
                 seen: set<(bool, string)>, known: bool)
    requires i < |rows| && FreshRows(scope, rows) && Scanned(scope, rows, i, items, seen)
    requires known <==> InScopeRows(scope, rows[i].1) || KeyOf(rows[i].1) in seen
    ensures known ==> Scanned(scope, rows, i + 1, items, seen)
    ensures !known ==> Scanned(scope, rows, i + 1, items + [rows[i]], seen + {KeyOf(rows[i].1)})
  {
    hide FreshRows, InScopeRows, KeysOf, Ids, KeyOf;
    assert rows[..i + 1][..i] == rows[..i];
    KeyPresent(scope, items, rows[i].1);
    IdsGrow(rows, i);
    if !known {
      AppendFresh(scope, rows, items, i);
      KeysAppended(items, rows[i]);
    }
  }

  /** Scan an import for the rows whose (list side, value) is neither stored nor seen before. */
  method NewScopeItems(scope: map<ScopeId, ScopeRow>, rows: seq<(ScopeId, ScopeRow)>)
    returns (items: seq<(ScopeId, ScopeRow)>)
    requires FreshRows(scope, rows)
    ensures ScopeWith(scope, items) == Imported(scope, rows) && FreshRows(scope, items)
  {
    hide FreshRows, InScopeRows, ScopeWith, Imported;
    var existing := set id | id in scope :: KeyOf(scope[id]);
    var seen: set<(bool, string)> := {};
    items := [];
    NothingScanned(scope, rows);
    for i := 0 to |rows|
      invariant Scanned(scope, rows, i, items, seen)
    {
      hide Scanned;
      var row := rows[i].1;
      ScopeKeys(scope, existing, row);
      ScanStep(scope, rows, i, items, seen, KeyOf(row) in existing || KeyOf(row) in seen);
      if KeyOf(row) !in existing && KeyOf(row) !in seen {
        seen := seen + {KeyOf(row)};
        items := items + [rows[i]];
      }
    }
    assert rows[..|rows|] == rows;
  }

  /** An import changes the scope exactly when it found a new row, and then by inserting those it found. */
  lemma ImportEdited(g: Engagement, rows: seq<(ScopeId, ScopeRow)>, items: seq<(ScopeId, ScopeRow)>)
    requires FreshRows(g.authority.scope, rows) && FreshRows(g.authority.scope, items)
    requires ScopeWith(g.authority.scope, items) == Imported(g.authority.scope, rows)
    ensures Edited(g, ImportScope(rows)) ==
            Success(if items == [] then g
                    else Advanced(g).(authority := g.authority.(scope := ScopeWith(g.authority.scope, items))))
  {
    if items != [] { FreshRowsShow(g.authority.scope, items); }
  }

  lemma ImportRefused(g: Engagement, rows: seq<(ScopeId, ScopeRow)>)
    requires !FreshRows(g.authority.scope, rows)
    ensures Edited(g, ImportScope(rows)) == Failure(AlreadyExists)
  {
  }

  lemma NothingScanned(scope: map<ScopeId, ScopeRow>, rows: seq<(ScopeId, ScopeRow)>)
    ensures Scanned(scope, rows, 0, [], {})
  {
  }

  /** Apply the fields one by one, remembering whether a field other than the notes changed value. */
  method RevisedGrant(grant: Grant, note: string, fields: seq<GrantField>)
    returns (row: Grant, text: string, changed: bool)
    ensures row == WithGrantFields(grant, fields) && text == WithNotes(note, fields)
    ensures changed == GrantTouched(grant, fields)
  {
    row, text, changed := grant, note, false;
    for i := 0 to |fields|
      invariant row == WithGrantFields(grant, fields[..i]) && text == WithNotes(note, fields[..i])
      invariant changed == GrantTouched(grant, fields[..i])
    {
      assert fields[..i + 1][..i] == fields[..i];
      GrantTouchedStep(grant, fields, i);
      var next := WithGrantField(row, fields[i]);
      if next != row { changed := true; }
      row := next;
      if fields[i].SetNotes? { text := fields[i].text; }
    }
    assert fields[..|fields|] == fields;
  }

  /** Apply the fields one by one, remembering whether one that permissions depend on changed value. */
  method RevisedAuthority(a: Authority, fields: seq<EngagementField>) returns (row: Authority, changed: bool)
    ensures row == WithEngagementFields(a, fields) && changed == AuthorityTouched(a, fields)
  {
    row, changed := a, false;
    for i := 0 to |fields|
      invariant row == WithEngagementFields(a, fields[..i]) && changed == AuthorityTouched(a, fields[..i])
    {
      assert fields[..i + 1][..i] == fields[..i];
      AuthorityTouchedStep(a, fields, i);
      var next := WithEngagementField(row, fields[i]);
      if next != row { changed := true; }
      row := next;
    }
    assert fields[..|fields|] == fields;
  }

  /** A row of this value on this side of the list is stored. */
  predicate Stored(scope: map<ScopeId, ScopeRow>, excluded: bool, value: string) {
    exists id :: id in scope && scope[id].excluded == excluded && scope[id].value == value
  }

  predicate Extends(scope: map<ScopeId, ScopeRow>, after: map<ScopeId, ScopeRow>) {
    forall id :: id in scope ==> id in after && after[id] == scope[id]
  }

  lemma StillStored(scope: map<ScopeId, ScopeRow>, after: map<ScopeId, ScopeRow>, excluded: bool, value: string)
    requires Extends(scope, after) && Stored(scope, excluded, value)
    ensures Stored(after, excluded, value)
  {
    var id :| id in scope && scope[id].excluded == excluded && scope[id].value == value;
    assert id in after;
  }

  lemma {:induction false} ImportAdds(scope: map<ScopeId, ScopeRow>, rows: seq<(ScopeId, ScopeRow)>)
    requires FreshRows(scope, rows)
    ensures Extends(scope, Imported(scope, rows))
    ensures forall id :: id in Imported(scope, rows) && id !in scope ==> (id, Imported(scope, rows)[id]) in rows
  {
    if rows != [] {
      var front, last := rows[..|rows| - 1], rows[|rows| - 1];
      ImportAdds(scope, front);
      assert rows == front + [last];
    }
  }

  lemma {:induction false} EachStored(scope: map<ScopeId, ScopeRow>, rows: seq<(ScopeId, ScopeRow)>)
    requires FreshRows(scope, rows)
    ensures forall i :: 0 <= i < |rows| ==> Stored(Imported(scope, rows), rows[i].1.excluded, rows[i].1.value)
  {
    if rows != [] {
      var front, last := rows[..|rows| - 1], rows[|rows| - 1];
      FreshFront(scope, rows);
      hide Imported, Stored, FreshRows, Extends;
      EachStored(scope, front);
      LastImported(scope, rows);
      forall i | 0 <= i < |rows|
        ensures Stored(Imported(scope, rows), rows[i].1.excluded, rows[i].1.value)
      {
        if i < |front| {
          assert front[i] == rows[i];
          StillStored(Imported(scope, front), Imported(scope, rows), rows[i].1.excluded, rows[i].1.value);
        }
      }
    }
  }

  lemma FreshFront(scope: map<ScopeId, ScopeRow>, rows: seq<(ScopeId, ScopeRow)>)
    requires FreshRows(scope, rows) && rows != []
    ensures FreshRows(scope, rows[..|rows| - 1])
  {
  }

  /** An import keeps every stored row, adds only rows it was given, and leaves each of them stored on its own side of
      the list: a value listed as included never stands for one to be excluded. */
  lemma ImportComplete(scope: map<ScopeId, ScopeRow>, rows: seq<(ScopeId, ScopeRow)>)
    requires FreshRows(scope, rows)
    ensures Extends(scope, Imported(scope, rows))
    ensures forall id :: id in Imported(scope, rows) && id !in scope ==> (id, Imported(scope, rows)[id]) in rows
    ensures forall i :: 0 <= i < |rows| ==> Stored(Imported(scope, rows), rows[i].1.excluded, rows[i].1.value)
  {
    hide Imported, Stored, FreshRows, Extends;
    ImportAdds(scope, rows);
    EachStored(scope, rows);
  }

  lemma LastImported(scope: map<ScopeId, ScopeRow>, rows: seq<(ScopeId, ScopeRow)>)
    requires FreshRows(scope, rows) && rows != []
    ensures var front, last := rows[..|rows| - 1], rows[|rows| - 1];
            && Extends(Imported(scope, front), Imported(scope, rows))
            && Stored(Imported(scope, rows), last.1.excluded, last.1.value)
  {
    var front, last := rows[..|rows| - 1], rows[|rows| - 1];
    ImportAdds(scope, front);
    var before, after := Imported(scope, front), Imported(scope, rows);
    if !InScopeRows(before, last.1) { assert after[last.0] == last.1; }
  }
}
