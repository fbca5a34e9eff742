/**
 The path-suffix index of local tracks (app/navidrome_migration.py:504-523,
 541-547): its lists are what a linear scan for the suffix finds.
 */
module PathSuffixes {
  import opened CatalogTables

  /** A row of the local tracks: its id and its normalized path. */
  datatype Row = Row(id: TrackId, path: string)

  /** The length of the text before the first slash. */
  function Run(s: string): (n: nat)
    ensures n <= |s| && '/' !in s[..n] && (n < |s| ==> s[n] == '/')
  {
    if s == "" || s[0] == '/' then 0 else 1 + Run(s[1..])
  }

  /** The non-empty components of a path. */
  function Parts(s: string): (parts: seq<string>)
    ensures Components(parts)
    decreases |s|
  {
    if s == "" then []
    else if s[0] == '/' then Parts(s[1..])
    else [s[..Run(s)]] + Parts(s[Run(s)..])
  }

  ghost predicate Components(parts: seq<string>) {
    forall i :: 0 <= i < |parts| ==> parts[i] != "" && '/' !in parts[i]
  }

  function Join(parts: seq<string>): string {
    if parts == [] then "" else if |parts| == 1 then parts[0] else parts[0] + "/" + Join(parts[1..])
  }

  /** `key` is all of the path or what follows one of its slashes. */
  ghost predicate EndsWith(path: string, key: string) {
    && key != ""
    && |key| <= |path| && path[|path| - |key|..] == key
    && (|key| < |path| ==> path[|path| - |key| - 1] == '/')
  }

  // ------------------------------------------------- what the components are

  lemma {:induction false} RunJoin(a: string, s: string)
    requires '/' !in a && (s == "" || s[0] == '/')
    ensures Run(a + s) == |a|
  {
    if a == "" {
      assert a + s == s;
    } else {
      assert (a + s)[0] == a[0] && a[0] in a;
      assert (a + s)[1..] == a[1..] + s;
      RunJoin(a[1..], s);
    }
  }

  /** A text without a slash is its only component, unless it is empty. */
  lemma {:induction false} PartsWhole(p: string)
    requires '/' !in p
    ensures Parts(p) == if p == "" then [] else [p]
  {
    if p != "" {
      assert p[0] in p;
      RunJoin(p, "");
      assert p + "" == p;
    }
  }

  /** The components of two texts joined by a slash are those of the first, then those of the second. */
  lemma {:induction false} PartsJoin(a: string, b: string)
    ensures Parts(a + "/" + b) == Parts(a) + Parts(b)
    decreases |a|
  {
    var s := a + "/" + b;
    if a == "" {
      assert s[1..] == b;
    } else if a[0] == '/' {
      assert s[1..] == a[1..] + "/" + b;
      PartsJoin(a[1..], b);
    } else {
      var n := Run(a);
      assert a[..n] + (a[n..] + "/" + b) == s;
      RunJoin(a[..n], a[n..] + "/" + b);
      assert s[n..] == a[n..] + "/" + b && s[..n] == a[..n];
      PartsJoin(a[n..], b);
    }
  }

  /** Neither empty components nor a slash at the end; a slash in front marks an absolute path. */
  ghost predicate Tidy(path: string) {
    path != "" && forall i :: 0 <= i < |path| && path[i] == '/' ==> i + 1 < |path| && path[i + 1] != '/'
  }

  /** The path without the slash in front. */
  ghost function Relative(path: string): string {
    if path != "" && path[0] == '/' then path[1..] else path
  }

  /** Joining the components of a tidy path gives the path back, without the slash in front. */
  lemma {:induction false} PartsRoundTrip(path: string)
    requires Tidy(path)
    ensures Join(Parts(path)) == Relative(path)
    decreases |path|
  {
    if path[0] == '/' {
      PartsRoundTrip(path[1..]);
    } else {
      var n := Run(path);
      if n == |path| {
        assert path[..n] == path && path[n..] == "";
      } else {
        var rest := path[n + 1..];
        assert Tidy(rest);
        PartsRoundTrip(rest);
        assert path[n..][1..] == rest;
        assert path == path[..n] + "/" + rest;
        var parts := Parts(path);
        assert parts == [path[..n]] + Parts(rest);
        assert parts[1..] == Parts(rest);
        assert Parts(rest) != [];
      }
    }
  }

  ghost predicate Suffix(s: string, end: string) {
    |end| <= |s| && s[|s| - |end|..] == end
  }

  /** The path is the key or ends with a slash and the key. */
  ghost predicate EndsAt(path: string, key: string) {
    key != "" && key[0] != '/' && (path == key || Suffix(path, "/" + key))
  }

  lemma {:induction false} RelativeEnding(path: string, key: string)
    requires Tidy(path) && EndsWith(Relative(path), key)
    ensures EndsAt(path, key)
  {
    var n := |path| - |key|;
    assert path[n..] == Relative(path)[|Relative(path)| - |key|..];
    if n > 0 {
      assert path[n - 1] == '/';
      assert path[n - 1..] == [path[n - 1]] + path[n..];
    }
  }

  lemma {:induction false} EndingRelative(path: string, key: string)
    requires Tidy(path) && EndsAt(path, key)
    ensures EndsWith(Relative(path), key)
  {
    if Suffix(path, "/" + key) {
      var n := |path| - |key|;
      var tail := path[n - 1..];
      assert tail == "/" + key && tail[0] == path[n - 1] && tail[1..] == path[n..];
      assert Relative(path)[|Relative(path)| - |key|..] == path[n..];
    }
  }

  /** For a tidy path the keys can be read off its text. */
  lemma {:induction false} TextEndings(path: string, key: string)
    requires Tidy(path)
    ensures EndsWith(Join(Parts(path)), key) <==> EndsAt(path, key)
  {
    hide EndsWith, EndsAt, Tidy, Relative, Join, Parts;
    PartsRoundTrip(path);
    if EndsWith(Relative(path), key) {
      RelativeEnding(path, key);
    }
    if EndsAt(path, key) {
      EndingRelative(path, key);
    }
  }

  ghost predicate IsTail(parts: seq<string>, n: nat, key: string)
    requires n <= |parts|
  {
    exists s :: 0 <= s < n && Join(parts[s..]) == key
  }

  lemma {:induction false} JoinTail(parts: seq<string>, s: nat)
    requires Components(parts) && s < |parts|
    ensures Join(parts[s..]) != ""
    ensures |Join(parts[s + 1..])| < |Join(parts[s..])|
  {
    assert parts[s..][0] == parts[s];
    assert parts[s..][1..] == parts[s + 1..];
  }

  lemma {:induction false} TailsShrink(parts: seq<string>, s: nat, t: nat)
    requires Components(parts) && s < t < |parts|
    ensures |Join(parts[t..])| < |Join(parts[s..])|
  {
    JoinTail(parts, t - 1);
    if s < t - 1 {
      TailsShrink(parts, s, t - 1);
    }
  }

  /** The joined tails of the components are exactly the texts the joined path ends with at a slash. */
  lemma {:induction false} TailsAreEndings(parts: seq<string>, key: string)
    requires Components(parts)
    ensures IsTail(parts, |parts|, key) <==> EndsWith(Join(parts), key)
  {
    if |parts| > 0 {
      var rest := parts[1..];
      assert parts[0..] == parts;
      assert Components(rest);
      TailsAreEndings(rest, key);
      TailStep(parts, key);
      if |parts| > 1 {
        EndingStep(parts[0], Join(rest), key);
        JoinTail(parts, 1);
      } else {
        assert Join(rest) == "";
        EndingOfPart(parts[0], key);
      }
    }
  }

  lemma {:induction false} TailStep(parts: seq<string>, key: string)
    requires |parts| > 0
    ensures IsTail(parts, |parts|, key) <==> key == Join(parts) || IsTail(parts[1..], |parts| - 1, key)
  {
    if IsTail(parts, |parts|, key) {
      var s :| 0 <= s < |parts| && Join(parts[s..]) == key;
      if s > 0 {
        assert parts[1..][s - 1..] == parts[s..];
      } else {
        assert parts[0..] == parts;
      }
    }
    if IsTail(parts[1..], |parts| - 1, key) {
      var s :| 0 <= s < |parts| - 1 && Join(parts[1..][s..]) == key;
      assert parts[1..][s..] == parts[s + 1..];
    }
    if key == Join(parts) {
      assert parts[0..] == parts;
    }
  }

  lemma {:induction false} EndingStep(head: string, rest: string, key: string)
    requires '/' !in head && rest != ""
    ensures EndsWith(head + "/" + rest, key) <==> key == head + "/" + rest || EndsWith(rest, key)
  {
    var path := head + "/" + rest;
    assert forall i :: 0 <= i < |head| ==> path[i] == head[i] && head[i] in head && head[i] != '/';
    if EndsWith(path, key) && |key| < |path| {
      var q := |path| - |key| - 1;
      assert path[q + 1..] == rest[q - |head|..];
    }
    if EndsWith(rest, key) {
      assert path[|path| - |key|..] == rest[|rest| - |key|..];
      assert path[|path| - |key| - 1] == if |key| == |rest| then '/' else rest[|rest| - |key| - 1];
    }
  }

  lemma {:induction false} EndingOfPart(part: string, key: string)
    requires part != "" && '/' !in part
    ensures EndsWith(part, key) <==> key == part
  {
    assert forall i :: 0 <= i < |part| ==> part[i] in part && part[i] != '/';
  }

  // ------------------------------------------------------------------ the index

  type Index = map<string, seq<TrackId>>

  /** `index.get(key, [])`. */
  function Entry(index: Index, key: string): seq<TrackId> {
    if key in index then index[key] else []
  }

  /** The rows whose path, without empty components, ends with the key: a linear scan in row order. */
  ghost function Scan(rows: seq<Row>, key: string): seq<TrackId> {
    if rows == [] then []
    else
      var last := rows[|rows| - 1];
      Scan(rows[..|rows| - 1], key) + if EndsWith(Join(Parts(last.path)), key) then [last.id] else []
  }

  ghost predicate Indexed(rows: seq<Row>, index: Index) {
    forall key :: Entry(index, key) == Scan(rows, key)
  }

  /** Within one row: the tails before `n` have been entered. */
  ghost predicate Entering(rows: seq<Row>, row: Row, parts: seq<string>, n: nat, index: Index)
    requires n <= |parts|
  {
    forall key {:trigger Entry(index, key)} :: Entry(index, key) == Scan(rows, key) + if IsTail(parts, n, key)
        then [row.id] else []
  }

  function Append(index: Index, key: string, id: TrackId): Index {
    index[key := Entry(index, key) + [id]]
  }

  lemma {:induction false} EnterOne(rows: seq<Row>, row: Row, parts: seq<string>, n: nat, index: Index)
    requires Components(parts) && n < |parts| && Entering(rows, row, parts, n, index)
    ensures Entering(rows, row, parts, n + 1, Append(index, Join(parts[n..]), row.id))
  {
    var added := Join(parts[n..]);
    var after := Append(index, added, row.id);
    assert !IsTail(parts, n, added) by {
      forall s | 0 <= s < n ensures Join(parts[s..]) != added {
        TailsShrink(parts, s, n);
      }
    }
    forall key {:trigger Entry(after, key)}
      ensures Entry(after, key) == Scan(rows, key) + if IsTail(parts, n + 1, key) then [row.id] else []
    {
      assert IsTail(parts, n + 1, key) <==> IsTail(parts, n, key) || key == added;
      assert Entry(index, key) == Scan(rows, key) + if IsTail(parts, n, key) then [row.id] else [];
    }
  }

  lemma {:induction false} RowEntered(rows: seq<Row>, row: Row, index: Index)
    requires Entering(rows, row, Parts(row.path), |Parts(row.path)|, index)
    ensures Indexed(rows + [row], index)
  {
    assert (rows + [row])[..|rows|] == rows;
    forall key ensures Entry(index, key) == Scan(rows + [row], key) {
      TailsAreEndings(Parts(row.path), key);
    }
  }

  ghost predicate DistinctIds(rows: seq<Row>) {
    forall i, j :: 0 <= i < j < |rows| ==> rows[i].id != rows[j].id
  }

  /** Some row with this id matches. */
  ghost predicate Matches(rows: seq<Row>, key: string, id: TrackId) {
    exists i :: 0 <= i < |rows| && rows[i].id == id && EndsWith(Join(Parts(rows[i].path)), key)
  }

  lemma {:induction false} MatchesStep(rows: seq<Row>, row: Row, key: string, id: TrackId)
    ensures Matches(rows + [row], key, id) <==>
            Matches(rows, key, id) || (row.id == id && EndsWith(Join(Parts(row.path)), key))
  {
    hide EndsWith, Join, Parts;
    var all := rows + [row];
    assert all[|rows|] == row && forall i :: 0 <= i < |rows| ==> all[i] == rows[i];
  }

  /** A scan lists exactly the ids of the rows that match, none twice. */
  lemma {:induction false} ScanLists(rows: seq<Row>, key: string)
    requires DistinctIds(rows)
    ensures forall id :: id in Scan(rows, key) <==> Matches(rows, key, id)
    ensures forall i, j :: 0 <= i < j < |Scan(rows, key)| ==> Scan(rows, key)[i] != Scan(rows, key)[j]
  {
    hide EndsWith, Join, Parts;
    if rows != [] {
      var n := |rows| - 1;
      var front, last := Scan(rows[..n], key), rows[n];
      assert rows == rows[..n] + [last];
      assert DistinctIds(rows[..n]);
      ScanLists(rows[..n], key);
      forall i | 0 <= i < |front| ensures front[i] != last.id {
        assert front[i] in front;
        var j :| 0 <= j < n && rows[..n][j].id == front[i];
        assert rows[j].id != rows[n].id;
      }
      forall id ensures id in Scan(rows, key) <==> Matches(rows, key, id) {
        MatchesStep(rows[..n], last, key, id);
      }
    }
  }

  /** The list of a key holds exactly the tracks whose path is the key or ends with a slash and the key. */
  ghost predicate Finds(rows: seq<Row>, index: Index) {
    forall i, key :: 0 <= i < |rows| && Tidy(rows[i].path) ==>
      (rows[i].id in Entry(index, key) <==> EndsAt(rows[i].path, key))
  }

  lemma {:induction false} FindsOne(rows: seq<Row>, index: Index, i: nat, key: string)
    requires Indexed(rows, index) && DistinctIds(rows) && i < |rows| && Tidy(rows[i].path)
    ensures rows[i].id in Entry(index, key) <==> EndsAt(rows[i].path, key)
  {
    assert Entry(index, key) == Scan(rows, key);
    hide *;
    ScanLists(rows, key);
    TextEndings(rows[i].path, key);
    MatchesOwn(rows, i, key);
  }

  lemma {:induction false} MatchesOwn(rows: seq<Row>, i: nat, key: string)
    requires DistinctIds(rows) && i < |rows|
    ensures Matches(rows, key, rows[i].id) <==> EndsWith(Join(Parts(rows[i].path)), key)
  {
    hide EndsWith, Join, Parts;
  }

  lemma {:induction false} IndexFinds(rows: seq<Row>, index: Index)
    requires Indexed(rows, index) && DistinctIds(rows)
    ensures Finds(rows, index)
  {
    hide Indexed, DistinctIds, Tidy, EndsAt, Entry;
    forall i, key | 0 <= i < |rows| && Tidy(rows[i].path)
      ensures rows[i].id in Entry(index, key) <==> EndsAt(rows[i].path, key)
    {
      FindsOne(rows, index, i, key);
    }
  }

  /** `local_track_suffix_index` from the rows of the local tracks on. */
  method LocalTrackSuffixIndex(rows: seq<Row>) returns (index: Index)
    ensures Indexed(rows, index)
    ensures DistinctIds(rows) ==> Finds(rows, index)
  {
    index := map[];
    for i := 0 to |rows|
      invariant Indexed(rows[..i], index)
    {
      var row := rows[i];
      var parts := Parts(row.path);
      for start := 0 to |parts|
        invariant Entering(rows[..i], row, parts, start, index)
      {
        var suffix := Join(parts[start..]);
        JoinTail(parts, start);
        EnterOne(rows[..i], row, parts, start, index);
        if suffix != "" {
          index := Append(index, suffix, row.id);
        }
      }
      RowEntered(rows[..i], row, index);
      assert rows[..i + 1] == rows[..i] + [row];
    }
    assert rows[..|rows|] == rows;
    if DistinctIds(rows) {
      IndexFinds(rows, index);
    }
  }

  lemma {:induction false} OneElement(s: seq<TrackId>, x: TrackId)
    requires forall i, j :: 0 <= i < j < |s| ==> s[i] != s[j]
    ensures s == [x] <==> forall y :: y in s <==> y == x
  {
    assert |s| > 1 ==> s[0] != s[1];
    if forall y :: y in s <==> y == x {
      assert forall i :: 0 <= i < |s| ==> s[i] in s;
      assert x in s;
    }
  }
}
