/** Importing a probe: new hosts become rows, known hosts are enriched in place. */
module ReconUpsert {
  import opened Wrappers
  import opened Text

  type Instant = int

  /** The seven texts a probe enriches: url, host, title, webserver, port, tech, content type. */
  type Texts = t: seq<string> | |t| == 7 witness ["", "", "", "", "", "", ""]

  const URL := 0
  const HOST := 1

  /** A row's values. A text that was never set is empty. */
  datatype Values = Values(text: Texts, status: Option<int>, firstSeen: Option<Instant>, job: Option<int>)

  /** What follows the last c, or everything. */
  function AfterLast(s: string, c: char): string {
    if c in s then AfterLast(After(s, c), c) else s
  }

  /** The host a URL or bare name stands for: lower case, scheme, user, port and path removed. */
  function HostOf(value: string): string {
    var raw := Lower(Strip(value));
    var host := AfterLast(Before(AfterScheme(raw), '/'), '@');
    if raw == "" then ""
    else if StartsWith(host, "[") then Before(host, ']') + "]"
    else Before(host, ':')
  }

  /** The key a row is indexed by; empty if it names no host. */
  function Key(v: Values): string {
    HostOf(if v.text[HOST] != "" then v.text[HOST] else v.text[URL])
  }

  /** Only what the probe really reported overwrites. */
  function Enriched(row: Values, item: Values): Values {
    row.(text := seq(7, i requires 0 <= i < 7 => if item.text[i] != "" then item.text[i] else row.text[i]),
         status := if item.status.Some? then item.status else row.status)
  }

  /** Position of the first such key, or the number of keys. */
  function Position(keys: seq<string>, key: string): (n: nat)
    ensures n <= |keys| && (n < |keys| ==> keys[n] == key)
    ensures forall i :: 0 <= i < n ==> keys[i] != key
  {
    if keys == [] then 0 else if keys[0] == key then 0 else Position(keys[1..], key) + 1
  }

  function KeysOf(rows: seq<Values>): seq<string> {
    seq(|rows|, i requires 0 <= i < |rows| => Key(rows[i]))
  }

  /** Position of the first row with this key, or the number of rows. */
  function Find(rows: seq<Values>, key: string): (n: nat)
    ensures n <= |rows|
    ensures n < |rows| ==> Key(rows[n]) == key
    ensures forall i :: 0 <= i < n ==> Key(rows[i]) != key
  {
    var n := Position(KeysOf(rows), key);
    assert forall i :: 0 <= i < |rows| ==> KeysOf(rows)[i] == Key(rows[i]);
    n
  }

  predicate Known(rows: seq<Values>, item: Values) {
    Key(item) != "" && Find(rows, Key(item)) < |rows|
  }

  function UpsertOne(rows: seq<Values>, item: Values, now: Instant): seq<Values> {
    if Known(rows, item) then rows[Find(rows, Key(item)) := Enriched(rows[Find(rows, Key(item))], item)]
    else rows + [item.(firstSeen := Some(now))]
  }

  function Upserted(rows: seq<Values>, items: seq<Values>, now: Instant): seq<Values> {
    if items == [] then rows
    else UpsertOne(Upserted(rows, items[..|items| - 1], now), items[|items| - 1], now)
  }

  // ----- One host, however it was written -----

  /** A bare host name, already in lower case. */
  predicate PlainHost(h: string) {
    h != "" && Lower(h) == h && '/' !in h && ':' !in h && '@' !in h && '[' !in h
  }

  lemma {:induction false} NoScheme(s: string)
    requires ':' !in s
    ensures SchemeEnd(s) == |s|
  {
    if |s| >= 3 { NoScheme(s[1..]); }
  }

  /** What is left of an authority once user and port are gone. */
  lemma AuthorityHost(h: string, port: string)
    requires PlainHost(h) && '/' !in port && '@' !in port
    ensures AfterLast(h, '@') == h && Before(h, ':') == h && Before(h, '/') == h
    ensures var authority := h + ":" + port;
            '/' !in authority && AfterLast(authority, '@') == authority && !StartsWith(authority, "[")
            && Before(authority, ':') == h
  {
    IndexOfConcat(h, ":" + port, ':');
    assert h + ":" + port == h + (":" + port);
  }

  lemma BareKey(h: string)
    requires PlainHost(h) && Strip(h) == h
    ensures HostOf(h) == h
  {
    hide Strip, SchemeEnd, Before, AfterLast, PlainHost;
    assert ':' !in h && Lower(h) == h && h != "" && '[' !in h by { PlainFacts(h); }
    NoScheme(h);
    AuthorityHost(h, "");
  }

  lemma PlainFacts(h: string)
    requires PlainHost(h)
    ensures ':' !in h && Lower(h) == h && h != "" && '[' !in h
  {
  }

  lemma LowerAuthority(h: string, port: string)
    requires PlainHost(h) && Lower(port) == port
    ensures Lower(h + ":" + port) == h + ":" + port
  {
    var s := h + ":" + port;
    forall i | 0 <= i < |s| ensures Lower(s)[i] == s[i] {
      if i < |h| {
        assert s[i] == h[i] == Lower(h)[i];
      } else if i > |h| {
        assert s[i] == port[i - |h| - 1] == Lower(port)[i - |h| - 1];
      }
    }
  }

  lemma UrlKey(h: string, scheme: string, port: string, path: string)
    requires PlainHost(h) && ':' !in scheme && '/' !in port && '@' !in port && Lower(port) == port
    requires var url := scheme + "://" + (h + ":" + port + "/" + path); Strip(url) == url
    ensures HostOf(scheme + "://" + (h + ":" + port + "/" + path)) == h
  {
    hide Strip, SchemeEnd, Before, AfterLast, PlainHost, Lower, AfterScheme;
    var authority := h + ":" + port;
    var rest := authority + "/" + path;
    var url := scheme + "://" + rest;
    AuthorityHost(h, port);
    AfterSchemeOf(scheme, rest);
    LowerAfterScheme(url);
    LowerBefore(rest, '/');
    BeforeSlash(authority, path);
    LowerAuthority(h, port);
    assert |Lower(url)| == |url| > 0;
  }

  /** A host discovered by name and the same host probed by URL, port and path included, are one key. */
  lemma SameHostSameKey(h: string, scheme: string, port: string, path: string)
    requires PlainHost(h) && Strip(h) == h && ':' !in scheme && '/' !in port && '@' !in port && Lower(port) == port
    requires var url := scheme + "://" + (h + ":" + port + "/" + path); Strip(url) == url
    ensures HostOf(scheme + "://" + (h + ":" + port + "/" + path)) == HostOf(h) == h
  {
    hide HostOf, Strip;
    BareKey(h);
    UrlKey(h, scheme, port, path);
  }

  /** An address in brackets is its own key, whatever port follows it. */
  lemma BracketedKey(inner: string, tail: string)
    requires ']' !in inner
    requires var v := "[" + inner + "]" + tail;
             SchemeEnd(v) == |v| && '/' !in v && '@' !in v && Strip(v) == v && Lower(v) == v
    ensures HostOf("[" + inner + "]" + tail) == "[" + inner + "]"
  {
    hide Strip, SchemeEnd, Lower, IndexOf;
    var v := "[" + inner + "]" + tail;
    BracketCut(inner, tail);
    assert AfterLast(v, '@') == v && AfterScheme(v) == v;
    hide Before, AfterLast, AfterScheme;
  }

  lemma BracketCut(inner: string, tail: string)
    requires ']' !in inner
    ensures var v := "[" + inner + "]" + tail; StartsWith(v, "[") && Before(v, ']') == "[" + inner
    ensures var v := "[" + inner + "]" + tail; '/' !in v ==> Before(v, '/') == v
  {
    hide IndexOf;
    AroundSeparator("[" + inner, tail, ']');
    assert ("[" + inner + "]" + tail)[..1] == "[";
  }

  lemma BeforeSlash(authority: string, path: string)
    requires '/' !in authority
    ensures Before(authority + "/" + path, '/') == authority
  {
    assert authority + "/" + path == authority + ("/" + path);
    IndexOfConcat(authority, "/" + path, '/');
  }

  // ----- What the import keeps -----

  /** Enriching keeps a row's key, first-seen time and job, takes every text and status the probe reported, and keeps
      what it did not. */
  lemma EnrichmentKeeps(row: Values, item: Values)
    requires Key(item) == Key(row) != ""
    ensures var after := Enriched(row, item);
            && Key(after) == Key(row) && after.firstSeen == row.firstSeen && after.job == row.job
            && (forall i :: 0 <= i < 7 && item.text[i] != "" ==> after.text[i] == item.text[i])
            && (forall i :: 0 <= i < 7 && item.text[i] == "" ==> after.text[i] == row.text[i])
            && after.status == (if item.status.Some? then item.status else row.status)
  {
    hide HostOf;
    EmptyHost();
  }

  lemma EmptyHost()
    ensures HostOf("") == ""
  {
  }

  /** No two rows name the same host. */
  predicate DistinctKeys(rows: seq<Values>) {
    forall i, k :: 0 <= i < k < |rows| && Key(rows[i]) != "" ==> Key(rows[i]) != Key(rows[k])
  }

  /** The row still names the same host, with its first-seen time and job. */
  predicate SameIdentity(was: Values, now: Values) {
    Key(now) == Key(was) && now.firstSeen == was.firstSeen && now.job == was.job
  }

  lemma OneKeeps(rows: seq<Values>, item: Values, now: Instant)
    ensures var after := UpsertOne(rows, item, now);
            && |rows| <= |after| <= |rows| + 1 && (|after| == |rows| <==> Known(rows, item))
            && (forall i :: 0 <= i < |rows| ==> SameIdentity(rows[i], after[i]))
            && (DistinctKeys(rows) ==> DistinctKeys(after))
            && (Key(item) != "" ==> Find(after, Key(item)) < |after|)
  {
    hide Key, HostOf, Enriched;
    var n := Find(rows, Key(item));
    var after := UpsertOne(rows, item, now);
    if Known(rows, item) {
      EnrichmentKeeps(rows[n], item);
    } else {
      KeyUnaffected(item, now);
      assert Key(after[|rows|]) == Key(item);
    }
    if Key(item) != "" {
      var m := if Known(rows, item) then n else |rows|;
      assert Key(after[m]) == Key(item);
    }
  }

  lemma KeyUnaffected(item: Values, now: Instant)
    ensures Key(item.(firstSeen := Some(now))) == Key(item)
  {
  }

  /** Rows keep their place, key, first-seen time and job through a whole import; distinct hosts stay
      distinct; and every host of the batch is a row afterwards. */
  lemma {:induction false} ImportKeeps(rows: seq<Values>, items: seq<Values>, now: Instant)
    ensures var after := Upserted(rows, items, now);
            && |rows| <= |after| <= |rows| + |items|
            && (forall i :: 0 <= i < |rows| ==> SameIdentity(rows[i], after[i]))
            && (DistinctKeys(rows) ==> DistinctKeys(after))
            && (forall i :: 0 <= i < |items| && Key(items[i]) != "" ==> Find(after, Key(items[i])) < |after|)
  {
    hide Key, HostOf, UpsertOne;
    if items != [] {
      var front, last := items[..|items| - 1], items[|items| - 1];
      ImportKeeps(rows, front, now);
      var before, after := Upserted(rows, front, now), Upserted(rows, items, now);
      OneKeeps(before, last, now);
      forall i | 0 <= i < |items| && Key(items[i]) != "" ensures Find(after, Key(items[i])) < |after| {
        if i < |front| {
          assert front[i] == items[i];
          assert Key(after[Find(before, Key(items[i]))]) == Key(items[i]);
        }
      }
    }
  }

  function Hostless(items: seq<Values>): nat {
    if items == [] then 0 else Hostless(items[..|items| - 1]) + if Key(items[|items| - 1]) == "" then 1 else 0
  }

  /** Importing a batch again inserts no row with a host: only the rows that name none are repeated. */
  lemma {:induction false} ReimportInsertsNoHost(rows: seq<Values>, items: seq<Values>, now: Instant)
    requires forall i :: 0 <= i < |items| && Key(items[i]) != "" ==> Find(rows, Key(items[i])) < |rows|
    ensures |Upserted(rows, items, now)| == |rows| + Hostless(items)
  {
    hide Key, HostOf, UpsertOne;
    if items != [] {
      var front, last := items[..|items| - 1], items[|items| - 1];
      ReimportInsertsNoHost(rows, front, now);
      ImportKeeps(rows, front, now);
      var before := Upserted(rows, front, now);
      OneKeeps(before, last, now);
      if Key(last) != "" { assert Key(before[Find(rows, Key(last))]) == Key(last); }
    }
  }

  lemma TwiceIsOnce(rows: seq<Values>, items: seq<Values>, first: Instant, second: Instant)
    ensures var once := Upserted(rows, items, first);
            |Upserted(once, items, second)| == |once| + Hostless(items)
  {
    ImportKeeps(rows, items, first);
    ReimportInsertsNoHost(Upserted(rows, items, first), items, second);
  }

  // ----- The import as it runs: rows in the session, and an index into them by host -----

  class Row {
    var values: Values

    constructor (v: Values)
      ensures values == v
    {
      values := v;
    }
  }

  function ValuesOf(rows: seq<Row>): seq<Values>
    reads set r | r in rows
  {
    seq(|rows|, i requires 0 <= i < |rows| reads set r | r in rows => rows[i].values)
  }

  predicate AllDistinct(rows: seq<Row>) {
    forall i, k :: 0 <= i < k < |rows| ==> rows[i] != rows[k]
  }

  /** The index points each host at its first row, and knows no other host. */
  ghost predicate Indexed(index: map<string, Row>, rows: seq<Row>)
    reads set r | r in rows
  {
    var values := ValuesOf(rows);
    && (forall h :: h in index ==> h != "" && Find(values, h) < |rows| && index[h] == rows[Find(values, h)])
    && (forall i :: 0 <= i < |rows| && Key(rows[i].values) != "" ==> Key(rows[i].values) in index)
  }

  /** Copy each non-empty reported field onto the row. */
  method Enrich(target: Row, item: Row)
    requires target != item
    modifies target
    ensures target.values == Enriched(old(target.values), item.values)
  {
    for i := 0 to 7
      invariant target.values == old(target.values).(text := target.values.text)
      invariant forall k :: 0 <= k < 7 ==> target.values.text[k] ==
                                           if k < i && item.values.text[k] != "" then item.values.text[k]
                                           else old(target.values).text[k]
    {
      var value := item.values.text[i];
      if value != "" { target.values := target.values.(text := target.values.text[i := value]); }
    }
    if item.values.status.Some? { target.values := target.values.(status := item.values.status); }
  }

  /** Index the stored rows by host; the first row of a host wins. */
  method BuildIndex(rows: seq<Row>) returns (index: map<string, Row>)
    ensures Indexed(index, rows)
  {
    hide Key;
    index := map[];
    for n := 0 to |rows|
      invariant forall h :: h in index ==>
                              h != "" && Find(ValuesOf(rows), h) < n && index[h] == rows[Find(ValuesOf(rows), h)]
      invariant forall i :: 0 <= i < n && Key(rows[i].values) != "" ==> Key(rows[i].values) in index
    {
      var h := Key(rows[n].values);
      if h != "" && h !in index {
        FindFirst(ValuesOf(rows), h, n);
        index := index[h := rows[n]];
      }
    }
  }

  lemma FindFirst(values: seq<Values>, key: string, n: nat)
    requires n < |values| && Key(values[n]) == key && forall i :: 0 <= i < n ==> Key(values[i]) != key
    ensures Find(values, key) == n
  {
  }

  /** What one step of the import must find: distinct rows, not shared with the batch, exactly indexed. */
  ghost predicate Ready(rows: seq<Row>, rest: seq<Row>, index: map<string, Row>)
    reads set r | r in rows
  {
    AllDistinct(rows + rest) && Indexed(index, rows)
  }

  lemma EnrichedIndex(index: map<string, Row>, rows: seq<Row>, before: seq<Values>, h: string, item: Values)
    requires h != "" && Key(item) == h && |before| == |rows| && Find(before, h) < |rows|
    requires ValuesOf(rows) == before[Find(before, h) := Enriched(before[Find(before, h)], item)]
    requires forall k :: k in index ==> k != "" && Find(before, k) < |rows| && index[k] == rows[Find(before, k)]
    requires forall i :: 0 <= i < |rows| && Key(before[i]) != "" ==> Key(before[i]) in index
    ensures Indexed(index, rows)
  {
    hide Key, Enriched;
    var n := Find(before, h);
    var after := ValuesOf(rows);
    EnrichmentKeeps(before[n], item);
    assert forall i :: 0 <= i < |rows| ==> Key(after[i]) == Key(before[i]);
    forall k | k in index ensures Find(after, k) == Find(before, k) { FindFirst(after, k, Find(before, k)); }
    forall i | 0 <= i < |rows| && Key(rows[i].values) != "" ensures Key(rows[i].values) in index {
      assert after[i] == rows[i].values;
    }
  }

  lemma AppendedIndex(index: map<string, Row>, more: map<string, Row>, rows: seq<Row>, item: Row)
    requires Indexed(index, rows) && (Key(item.values) == "" || Key(item.values) !in index)
    requires more == if Key(item.values) == "" then index else index[Key(item.values) := item]
    ensures Indexed(more, rows + [item])
  {
    hide Key;
    var before, after := ValuesOf(rows), ValuesOf(rows + [item]);
    var h := Key(item.values);
    assert after == before + [item.values];
    forall k | k in index ensures Find(after, k) == Find(before, k) { FindFirst(after, k, Find(before, k)); }
    if h != "" {
      forall i | 0 <= i < |rows| ensures Key(after[i]) != h { assert after[i] == rows[i].values; }
      FindFirst(after, h, |rows|);
    }
    forall i | 0 <= i < |rows + [item]| && Key((rows + [item])[i].values) != ""
      ensures Key((rows + [item])[i].values) in more {
      if i < |rows| { assert (rows + [item])[i] == rows[i]; }
    }
  }

  lemma RestApart(rows: seq<Row>, rest: seq<Row>)
    requires rest != [] && AllDistinct(rows + rest)
    ensures forall i, k :: 0 <= i < |rows| && 0 <= k < |rest| ==> rows[i] != rest[k]
    ensures forall i, k :: 0 <= i < k < |rows| ==> rows[i] != rows[k]
    ensures forall k :: 0 < k < |rest| ==> rest[k] != rest[0]
    ensures AllDistinct(rows + rest[1..]) && rows + [rest[0]] + rest[1..] == rows + rest
  {
    var all := rows + rest;
    assert forall i :: 0 <= i < |rows| ==> all[i] == rows[i];
    assert forall k :: 0 <= k < |rest| ==> all[|rows| + k] == rest[k];
    assert forall k :: 0 <= k < |rows + rest[1..]| ==>
                         (rows + rest[1..])[k] == if k < |rows| then all[k] else all[k + 1];
    assert rows + [rest[0]] + rest[1..] == rows + rest;
  }

  /** One item of the batch. */
  method UpsertItem(rows: seq<Row>, rest: seq<Row>, index: map<string, Row>, now: Instant)
    returns (rows': seq<Row>, index': map<string, Row>)
    requires rest != [] && Ready(rows, rest, index)
    modifies (set r | r in rows), rest[0]
    ensures Ready(rows', rest[1..], index')
    ensures rows' == rows || rows' == rows + [rest[0]]
    ensures forall k :: 0 < k < |rest| ==> rest[k].values == old(rest[k].values)
    ensures ValuesOf(rows') == UpsertOne(old(ValuesOf(rows)), old(rest[0].values), now)
  {
    hide Key, Enriched, Position;
    var item := rest[0];
    RestApart(rows, rest);
    ghost var before := ValuesOf(rows);
    var host := Key(item.values);
    if host in index {
      var target := index[host];
      ghost var n := Find(before, host);
      Enrich(target, item);
      assert ValuesOf(rows) == before[n := Enriched(before[n], item.values)];
      EnrichedIndex(index, rows, before, host, item.values);
      rows', index' := rows, index;
    } else {
      ghost var reported := item.values;
      item.values := item.values.(firstSeen := Some(now));
      assert ValuesOf(rows) == before;
      KeyUnaffected(reported, now);
      index' := if host == "" then index else index[host := item];
      rows' := rows + [item];
      AppendedIndex(index, index', rows, item);
      assert ValuesOf(rows') == before + [item.values];
    }
  }

  /** The whole batch, in order: how many rows are new, how many were enriched. */
  method Upsert(stored: seq<Row>, incoming: seq<Row>, now: Instant) returns (rows: seq<Row>, added: nat, updated: nat)
    requires AllDistinct(stored + incoming)
    modifies (set r | r in stored), (set r | r in incoming)
    ensures ValuesOf(rows) == Upserted(old(ValuesOf(stored)), old(ValuesOf(incoming)), now)
    ensures added + updated == |incoming| && |rows| == |stored| + added
  {
    hide Key, AllDistinct, Indexed, UpsertOne;
    ghost var before, items := ValuesOf(stored), ValuesOf(incoming);
    assert incoming[0..] == incoming;
    rows, added, updated := stored, 0, 0;
    var index := BuildIndex(stored);
    for i := 0 to |incoming|
      invariant Ready(rows, incoming[i..], index)
      invariant forall r :: r in rows ==> r in stored || r in incoming
      invariant forall k :: i <= k < |incoming| ==> incoming[k].values == items[k]
      invariant ValuesOf(rows) == Upserted(before, items[..i], now)
      invariant added + updated == i && |rows| == |stored| + added
    {
      var n := |rows|;
      ghost var rest, current := incoming[i..], ValuesOf(rows);
      assert rest[0] == incoming[i] && rest[1..] == incoming[i + 1..];
      assert items[..i + 1][..i] == items[..i];
      rows, index := UpsertItem(rows, incoming[i..], index, now);
      assert ValuesOf(rows) == UpsertOne(current, items[i], now);
      forall k | i < k < |incoming| ensures incoming[k].values == items[k] { assert incoming[k] == rest[k - i]; }
      if |rows| == n { updated := updated + 1; } else { added := added + 1; }
    }
    assert items[..|incoming|] == items;
  }
}
