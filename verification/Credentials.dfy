// The agent's credentials file: one `key=value` line an entry, written in
// whatever order the hash map yields, and read back line by line.
module Credentials {
  import opened Wrappers

  type Table = map<string, string>

  // Unicode White_Space, as `str::trim` knows it.
  predicate IsSpace(c: char) {
    var n := c as int;
    || 0x9 <= n <= 0xd || n == 0x20 || n == 0x85 || n == 0xa0 || n == 0x1680
    || 0x2000 <= n <= 0x200a || n == 0x2028 || n == 0x2029 || n == 0x202f || n == 0x205f || n == 0x3000
  }

  function Trim(s: string): string {
    if s != [] && IsSpace(s[0]) then Trim(s[1..])
    else if s != [] && IsSpace(s[|s| - 1]) then Trim(s[..|s| - 1])
    else s
  }

  function IndexOf(s: string, c: char): (i: nat)
    ensures i <= |s| && c !in s[..i]
    ensures i < |s| ==> s[i] == c
  {
    if s == [] || s[0] == c then 0 else 1 + IndexOf(s[1..], c)
  }

  ghost predicate AllSpace(s: string) {
    forall i | 0 <= i < |s| :: IsSpace(s[i])
  }

  ghost predicate CutAt(s: string, i: nat, j: nat) {
    i <= j <= |s| && Trim(s) == s[i..j] && AllSpace(s[..i]) && AllSpace(s[j..])
  }

  lemma CutAfterFirst(s: string, i: nat, j: nat)
    requires s != [] && IsSpace(s[0]) && CutAt(s[1..], i, j)
    ensures CutAt(s, i + 1, j + 1)
  {
    assert s[i + 1..j + 1] == s[1..][i..j] && s[j + 1..] == s[1..][j..];
    assert s[..i + 1] == [s[0]] + s[1..][..i];
  }

  lemma CutBeforeLast(s: string, i: nat, j: nat)
    requires s != [] && !IsSpace(s[0]) && IsSpace(s[|s| - 1]) && CutAt(s[..|s| - 1], i, j)
    ensures CutAt(s, i, j)
  {
    var front := s[..|s| - 1];
    assert s[i..j] == front[i..j] && s[..i] == front[..i];
    assert s[j..] == front[j..] + [s[|s| - 1]];
  }

  // What is cut is white space at the ends, and all of it.
  lemma {:induction false} TrimCutsEnds(s: string) returns (i: nat, j: nat)
    ensures i <= j <= |s| && Trim(s) == s[i..j] && AllSpace(s[..i]) && AllSpace(s[j..])
    ensures Trim(s) != [] ==> !IsSpace(Trim(s)[0]) && !IsSpace(Trim(s)[|Trim(s)| - 1])
    decreases |s|
  {
    if s != [] && IsSpace(s[0]) {
      i, j := TrimCutsEnds(s[1..]);
      CutAfterFirst(s, i, j);
      i, j := i + 1, j + 1;
    } else if s != [] && IsSpace(s[|s| - 1]) {
      i, j := TrimCutsEnds(s[..|s| - 1]);
      CutBeforeLast(s, i, j);
    } else {
      i, j := 0, |s|;
    }
  }

  // `split_once('=')`, both halves trimmed; a line without '=' says nothing.
  function ParseLine(line: string): Option<(string, string)> {
    var i := IndexOf(line, '=');
    if i == |line| then None else Some((Trim(line[..i]), Trim(line[i + 1..])))
  }

  // Later lines win. A carriage return before the line feed falls to the trim.
  function Parse(content: string): Table
    decreases |content|
  {
    if content == [] then map[]
    else
      var i := IndexOf(content, '\n');
      var rest := Parse(if i < |content| then content[i + 1..] else []);
      match ParseLine(content[..i])
      case Some((k, v)) => map[k := v] + rest
      case None => rest
  }

  function Lines(content: string): seq<string>
    decreases |content|
  {
    if content == [] then []
    else
      var i := IndexOf(content, '\n');
      [content[..i]] + Lines(if i < |content| then content[i + 1..] else [])
  }

  function ParseLines(lines: seq<string>): Table {
    if lines == [] then map[]
    else
      match ParseLine(lines[0])
      case Some((k, v)) => map[k := v] + ParseLines(lines[1..])
      case None => ParseLines(lines[1..])
  }

  lemma {:induction false} ParseByLines(content: string)
    ensures Parse(content) == ParseLines(Lines(content))
    decreases |content|
  {
    if content != [] {
      var i := IndexOf(content, '\n');
      var tail := if i < |content| then content[i + 1..] else [];
      ParseByLines(tail);
      assert ([content[..i]] + Lines(tail))[1..] == Lines(tail);
    }
  }

  predicate SetsKey(line: string, k: string) {
    ParseLine(line).Some? && ParseLine(line).value.0 == k
  }

  ghost predicate NoneSets(lines: seq<string>, k: string) {
    forall j | 0 <= j < |lines| :: !SetsKey(lines[j], k)
  }

  // The i-th line gives the key this value, and no later line sets the key.
  ghost predicate LastLine(lines: seq<string>, i: nat, k: string, v: string) {
    i < |lines| && ParseLine(lines[i]) == Some((k, v)) && NoneSets(lines[i + 1..], k)
  }

  ghost predicate SetLast(lines: seq<string>, k: string, v: string) {
    exists i: nat :: LastLine(lines, i, k, v)
  }

  predicate Holds(table: Table, k: string, v: string) {
    k in table && table[k] == v
  }

  lemma {:induction false} AbsentKey(lines: seq<string>, k: string)
    ensures k !in ParseLines(lines) <==> NoneSets(lines, k)
  {
    if lines != [] {
      var rest := lines[1..];
      AbsentKey(rest, k);
      assert forall j | 0 <= j < |rest| :: rest[j] == lines[j + 1];
      assert k in ParseLines(lines) <==> SetsKey(lines[0], k) || k in ParseLines(rest);
      if NoneSets(rest, k) && !SetsKey(lines[0], k) {
        assert forall j | 0 < j < |lines| :: lines[j] == rest[j - 1];
      }
    }
  }

  lemma SetLastUnfold(lines: seq<string>, k: string, v: string)
    requires lines != []
    ensures SetLast(lines, k, v) <==>
            SetLast(lines[1..], k, v) || (ParseLine(lines[0]) == Some((k, v)) && NoneSets(lines[1..], k))
  {
    var rest := lines[1..];
    if i: nat :| LastLine(lines, i, k, v) {
      if i > 0 {
        assert rest[i - 1] == lines[i] && rest[i - 1 + 1..] == lines[i + 1..];
        assert LastLine(rest, i - 1, k, v);
      }
    }
    if i: nat :| LastLine(rest, i, k, v) {
      assert lines[i + 1] == rest[i] && lines[i + 2..] == rest[i + 1..];
      assert LastLine(lines, i + 1, k, v);
    }
    if ParseLine(lines[0]) == Some((k, v)) && NoneSets(rest, k) {
      assert LastLine(lines, 0, k, v);
    }
  }

  lemma {:induction false} LastLineWins(lines: seq<string>, k: string, v: string)
    ensures Holds(ParseLines(lines), k, v) <==> SetLast(lines, k, v)
  {
    if lines != [] {
      LastLineWins(lines[1..], k, v);
      AbsentKey(lines[1..], k);
      SetLastUnfold(lines, k, v);
    }
  }

  function PrintEntry(k: string, v: string): string {
    k + "=" + v + "\n"
  }

  function Print(entries: seq<(string, string)>): string {
    if entries == [] then []
    else PrintEntry(entries[0].0, entries[0].1) + Print(entries[1..])
  }

  // The entries of a table, each once, in some order.
  ghost predicate Enumerates(entries: seq<(string, string)>, table: Table) {
    && (forall i | 0 <= i < |entries| :: entries[i].0 in table && table[entries[i].0] == entries[i].1)
    && (forall i, j | 0 <= i < j < |entries| :: entries[i].0 != entries[j].0)
    && (forall k | k in table :: exists i :: 0 <= i < |entries| && entries[i].0 == k)
  }

  predicate CleanEntry(k: string, v: string) {
    '=' !in k && '\n' !in k && Trim(k) == k && '\n' !in v && Trim(v) == v
  }

  ghost predicate Clean(table: Table) {
    forall k | k in table :: CleanEntry(k, table[k])
  }

  // Empty values delete their key.
  function Merged(table: Table, updates: Table): Table {
    map k | k in table.Keys + updates.Keys && !(k in updates && updates[k] == "") ::
      if k in updates then updates[k] else table[k]
  }

  ghost predicate CleanUpdates(updates: Table) {
    forall k | k in updates && updates[k] != "" :: CleanEntry(k, updates[k])
  }

  class CredentialsFile {
    var content: string

    constructor ()
      ensures content == ""
    {
      content := "";
    }

    method Load() returns (table: Table)
      ensures table == Parse(content) && Clean(table)
      ensures forall k: string, v: string :: Holds(table, k, v) <==> SetLast(Lines(content), k, v)
    {
      ParseIsClean(content);
      ParseByLines(content);
      forall k: string, v: string ensures Holds(Parse(content), k, v) <==> SetLast(Lines(content), k, v) {
        LastLineWins(Lines(content), k, v);
      }
      table := Parse(content);
    }

    // Reading the file back gives the merged table exactly when the updates are
    // clean, whatever the file held before and whatever order it is written in.
    method Save(updates: Table)
      modifies this
      ensures Saves(old(content), updates, content)
      ensures Parse(content) == Merged(Parse(old(content)), updates) <==> CleanUpdates(updates)
      ensures CleanUpdates(updates) ==> forall k: string, v: string ::
                Holds(Parse(content), k, v) <==>
                if k in updates then updates[k] == v && v != "" else Holds(Parse(old(content)), k, v)
    {
      var table := Load();
      table := Merge(table, updates);
      content := Render(table);
      SaveReadsBackIff(old(content), updates, content);
    }
  }

  function Only(updates: Table, keys: set<string>): Table
    requires keys <= updates.Keys
  {
    map k | k in keys :: updates[k]
  }

  lemma MergedOneMore(table: Table, updates: Table, keys: set<string>, key: string)
    requires keys <= updates.Keys && key in updates
    ensures Merged(table, Only(updates, keys + {key})) ==
            if updates[key] == "" then Merged(table, Only(updates, keys)) - {key}
            else Merged(table, Only(updates, keys))[key := updates[key]]
  {
    var before, after := Only(updates, keys), Only(updates, keys + {key});
    assert after == before[key := updates[key]];
  }

  // The result holds a value for a key exactly as the update says, if there is
  // one, and as before otherwise.
  method Merge(before: Table, updates: Table) returns (table: Table)
    ensures table == Merged(before, updates)
    ensures forall k: string, v: string ::
              Holds(table, k, v) <==> if k in updates then updates[k] == v && v != "" else k in before && before[k] == v
  {
    table := before;
    var todo := updates.Keys;
    while todo != {}
      invariant todo <= updates.Keys
      invariant table == Merged(before, Only(updates, updates.Keys - todo))
      decreases todo
    {
      var key :| key in todo;
      MergedOneMore(before, updates, updates.Keys - todo, key);
      assert updates.Keys - (todo - {key}) == updates.Keys - todo + {key};
      if updates[key] == "" {
        table := table - {key};
      } else {
        table := table[key := updates[key]];
      }
      todo := todo - {key};
    }
    assert Only(updates, updates.Keys - todo) == updates;
  }

  // One line for every entry, in some order.
  ghost predicate Renders(text: string, table: Table) {
    exists entries :: Enumerates(entries, table) && text == Print(entries)
  }

  method Render(table: Table) returns (text: string)
    ensures Renders(text, table)
  {
    text := "";
    ghost var entries: seq<(string, string)> := [];
    var rest := table.Keys;
    while rest != {}
      invariant rest <= table.Keys
      invariant text == Print(entries)
      invariant forall i | 0 <= i < |entries| ::
                  entries[i].0 in table && entries[i].0 !in rest && table[entries[i].0] == entries[i].1
      invariant forall i, j | 0 <= i < j < |entries| :: entries[i].0 != entries[j].0
      invariant forall k | k in table.Keys - rest :: exists i :: 0 <= i < |entries| && entries[i].0 == k
      decreases rest
    {
      var key :| key in rest;
      PrintAppend(entries, (key, table[key]));
      Enlisted(entries, table.Keys - rest, (key, table[key]));
      text := text + PrintEntry(key, table[key]);
      entries := entries + [(key, table[key])];
      assert table.Keys - (rest - {key}) == table.Keys - rest + {key};
      rest := rest - {key};
    }
    assert table.Keys - rest == table.Keys;
  }

  lemma {:induction false} PrintAppend(entries: seq<(string, string)>, e: (string, string))
    ensures Print(entries + [e]) == Print(entries) + PrintEntry(e.0, e.1)
  {
    if entries == [] {
      assert [e][1..] == [];
      assert Print([e]) == PrintEntry(e.0, e.1) + Print([]);
    } else {
      PrintAppend(entries[1..], e);
      assert (entries + [e])[1..] == entries[1..] + [e];
    }
  }

  lemma Enlisted(entries: seq<(string, string)>, keys: set<string>, e: (string, string))
    requires forall k | k in keys :: exists i :: 0 <= i < |entries| && entries[i].0 == k
    ensures forall k | k in keys + {e.0} :: exists i :: 0 <= i < |entries + [e]| && (entries + [e])[i].0 == k
  {
    forall k | k in keys + {e.0} ensures exists i :: 0 <= i < |entries + [e]| && (entries + [e])[i].0 == k {
      if k == e.0 {
        assert (entries + [e])[|entries|].0 == k;
      } else {
        var i :| 0 <= i < |entries| && entries[i].0 == k;
        assert (entries + [e])[i].0 == k;
      }
    }
  }

  // What one save may leave in the file.
  ghost predicate Saves(before: string, updates: Table, after: string) {
    Renders(after, Merged(Parse(before), updates))
  }

  // ---- Reading back what was written ------------------------------------------------

  lemma {:induction false} IndexAfter(a: string, c: char, b: string)
    requires c !in a
    ensures IndexOf(a + [c] + b, c) == |a|
  {
    if a == [] {
      assert ([] + [c] + b)[0] == c;
    } else {
      IndexAfter(a[1..], c, b);
      assert (a + [c] + b)[1..] == a[1..] + [c] + b;
      assert (a + [c] + b)[0] == a[0];
    }
  }

  lemma ParseEntry(k: string, v: string, rest: string)
    requires CleanEntry(k, v)
    ensures Parse(PrintEntry(k, v) + rest) == map[k := v] + Parse(rest)
  {
    var line := k + "=" + v;
    var content := PrintEntry(k, v) + rest;
    assert content == line + ['\n'] + rest;
    IndexAfter(line, '\n', rest);
    assert content[..|line|] == line && content[|line| + 1..] == rest;
    assert line == k + ['='] + v;
    IndexAfter(k, '=', v);
    assert line[..|k|] == k && line[|k| + 1..] == v;
  }

  function Tabulate(entries: seq<(string, string)>): Table {
    if entries == [] then map[] else map[entries[0].0 := entries[0].1] + Tabulate(entries[1..])
  }

  lemma {:induction false} ParsePrint(entries: seq<(string, string)>)
    requires forall i | 0 <= i < |entries| :: CleanEntry(entries[i].0, entries[i].1)
    ensures Parse(Print(entries)) == Tabulate(entries)
  {
    if entries != [] {
      ParseEntry(entries[0].0, entries[0].1, Print(entries[1..]));
      ParsePrint(entries[1..]);
    }
  }

  lemma {:induction false} TabulateHas(entries: seq<(string, string)>, k: string)
    requires forall i, j | 0 <= i < j < |entries| :: entries[i].0 != entries[j].0
    ensures k in Tabulate(entries) <==> exists i :: 0 <= i < |entries| && entries[i].0 == k
    ensures forall i | 0 <= i < |entries| && entries[i].0 == k :: k in Tabulate(entries) && Tabulate(entries)[k] == entries[i].1
  {
    if entries != [] {
      var tail := entries[1..];
      TabulateHas(tail, k);
      assert forall i | 0 <= i < |tail| :: tail[i] == entries[i + 1];
      if i :| 0 <= i < |entries| && entries[i].0 == k {
        assert i > 0 ==> tail[i - 1].0 == k;
      }
    }
  }

  lemma EnumeratedTable(entries: seq<(string, string)>, table: Table)
    requires Enumerates(entries, table)
    ensures Tabulate(entries) == table
  {
    forall k: string
      ensures k in Tabulate(entries) <==> k in table
      ensures k in table ==> k in Tabulate(entries) && Tabulate(entries)[k] == table[k] {
      TabulateHas(entries, k);
    }
  }

  // ---- Nothing unclean can be read ------------------------------------------------------

  lemma {:induction false} TrimTwice(s: string)
    ensures Trim(Trim(s)) == Trim(s)
    decreases |s|
  {
    if s != [] && IsSpace(s[0]) {
      TrimTwice(s[1..]);
    } else if s != [] && IsSpace(s[|s| - 1]) {
      TrimTwice(s[..|s| - 1]);
    }
  }

  lemma {:induction false} TrimShrinks(s: string, c: char)
    requires c !in s
    ensures c !in Trim(s)
    decreases |s|
  {
    if s != [] && IsSpace(s[0]) {
      TrimShrinks(s[1..], c);
    } else if s != [] && IsSpace(s[|s| - 1]) {
      TrimShrinks(s[..|s| - 1], c);
    }
  }

  lemma ParsedLineIsClean(line: string)
    requires '\n' !in line && ParseLine(line).Some?
    ensures CleanEntry(ParseLine(line).value.0, ParseLine(line).value.1)
  {
    var i := IndexOf(line, '=');
    TrimTwice(line[..i]);
    TrimTwice(line[i + 1..]);
    TrimShrinks(line[..i], '=');
    TrimShrinks(line[..i], '\n');
    TrimShrinks(line[i + 1..], '\n');
  }

  lemma {:induction false} ParseIsClean(content: string)
    ensures Clean(Parse(content))
    decreases |content|
  {
    if content != [] {
      var i := IndexOf(content, '\n');
      ParseIsClean(if i < |content| then content[i + 1..] else []);
      if ParseLine(content[..i]).Some? {
        ParsedLineIsClean(content[..i]);
      }
    }
  }

  // In any write order the table is read back if and only if it is clean.
  lemma RoundTripIff(entries: seq<(string, string)>, table: Table)
    requires Enumerates(entries, table)
    ensures Parse(Print(entries)) == table <==> Clean(table)
  {
    if Clean(table) {
      ParsePrint(entries);
      EnumeratedTable(entries, table);
    } else {
      ParseIsClean(Print(entries));
    }
  }

  lemma MergedCleanIff(table: Table, updates: Table)
    requires Clean(table)
    ensures Clean(Merged(table, updates)) <==> CleanUpdates(updates)
  {
    if !CleanUpdates(updates) {
      var k :| k in updates && updates[k] != "" && !CleanEntry(k, updates[k]);
      assert k in Merged(table, updates);
    }
  }

  lemma SaveReadsBackIff(before: string, updates: Table, after: string)
    requires Saves(before, updates, after)
    ensures Parse(after) == Merged(Parse(before), updates) <==> CleanUpdates(updates)
  {
    var entries :| Enumerates(entries, Merged(Parse(before), updates)) && after == Print(entries);
    ParseIsClean(before);
    MergedCleanIff(Parse(before), updates);
    RoundTripIff(entries, Merged(Parse(before), updates));
  }

  // ---- A series of saves -------------------------------------------------------------------

  function MergedAll(table: Table, updates: seq<Table>): Table
    decreases |updates|
  {
    if updates == [] then table else MergedAll(Merged(table, updates[0]), updates[1..])
  }

  // `files` are the contents before, between and after the saves.
  lemma {:induction false} SavesFold(files: seq<string>, updates: seq<Table>)
    requires |files| == |updates| + 1
    requires forall i | 0 <= i < |updates| :: CleanUpdates(updates[i]) && Saves(files[i], updates[i], files[i + 1])
    ensures Parse(files[|updates|]) == MergedAll(Parse(files[0]), updates)
    decreases |updates|
  {
    if updates != [] {
      SaveReadsBackIff(files[0], updates[0], files[1]);
      var files', updates' := files[1..], updates[1..];
      forall i | 0 <= i < |updates'| ensures CleanUpdates(updates'[i]) && Saves(files'[i], updates'[i], files'[i + 1]) {
        assert updates'[i] == updates[i + 1] && files'[i] == files[i + 1] && files'[i + 1] == files[i + 2];
      }
      SavesFold(files', updates');
    }
  }

  // The last update of the series that mentions the key sets it to this value.
  ghost predicate UpdatedLast(updates: seq<Table>, i: nat, k: string, v: string) {
    && i < |updates| && k in updates[i] && updates[i][k] == v && v != ""
    && forall j | i < j < |updates| :: k !in updates[j]
  }

  ghost predicate NeverMentioned(updates: seq<Table>, k: string) {
    forall j | 0 <= j < |updates| :: k !in updates[j]
  }

  // After one clean save an updated key has its new value, or none if that is
  // empty, and every other key what it had before.
  lemma SaveHolds(before: string, updates: Table, after: string, k: string, v: string)
    requires Saves(before, updates, after) && CleanUpdates(updates)
    ensures Holds(Parse(after), k, v) <==>
            if k in updates then updates[k] == v && v != "" else Holds(Parse(before), k, v)
  {
    SaveReadsBackIff(before, updates, after);
  }

  lemma UpdatedLastExtends(front: seq<Table>, last: Table, k: string, v: string)
    ensures (exists i: nat :: UpdatedLast(front + [last], i, k, v)) <==>
            if k in last then last[k] == v && v != "" else exists i: nat :: UpdatedLast(front, i, k, v)
    ensures NeverMentioned(front + [last], k) <==> k !in last && NeverMentioned(front, k)
  {
    var all := front + [last];
    assert all[|front|] == last && forall j | 0 <= j < |front| :: all[j] == front[j];
    if k in last {
      if last[k] == v && v != "" {
        assert UpdatedLast(all, |front|, k, v);
      }
      forall i: nat | UpdatedLast(all, i, k, v) ensures last[k] == v && v != "" {
        assert i == |front|;
      }
    } else {
      if i: nat :| UpdatedLast(front, i, k, v) {
        assert UpdatedLast(all, i, k, v);
      }
      if i: nat :| UpdatedLast(all, i, k, v) {
        assert i < |front|;
        assert UpdatedLast(front, i, k, v);
      }
    }
  }

  // `files` are the contents before, between and after the saves.
  ghost predicate CleanSeries(files: seq<string>, updates: seq<Table>) {
    && |files| == |updates| + 1
    && forall i | 0 <= i < |updates| :: CleanUpdates(updates[i]) && Saves(files[i], updates[i], files[i + 1])
  }

  // Each table holds the value exactly as the update before it says.
  ghost predicate FollowUpdates(tables: seq<Table>, updates: seq<Table>, k: string, v: string) {
    && |tables| == |updates| + 1
    && forall i | 0 <= i < |updates| ::
         Holds(tables[i + 1], k, v) <==>
         if k in updates[i] then updates[i][k] == v && v != "" else Holds(tables[i], k, v)
  }

  lemma {:induction false} TablesKeepLastUpdate(tables: seq<Table>, updates: seq<Table>, k: string, v: string)
    requires FollowUpdates(tables, updates, k, v)
    ensures Holds(tables[|updates|], k, v) <==>
            (exists i: nat :: UpdatedLast(updates, i, k, v)) || (NeverMentioned(updates, k) && Holds(tables[0], k, v))
    decreases |updates|
  {
    if updates == [] {
      assert forall i: nat :: !UpdatedLast(updates, i, k, v);
    } else {
      var n := |updates| - 1;
      TablesKeepLastUpdate(tables[..n + 1], updates[..n], k, v);
      UpdatedLastExtends(updates[..n], updates[n], k, v);
      assert updates == updates[..n] + [updates[n]];
    }
  }

  // After any series of clean saves a key reads back as the last update that
  // mentions it, and as in the first file if none does.
  lemma SavesKeepLastUpdate(files: seq<string>, updates: seq<Table>, k: string, v: string)
    requires CleanSeries(files, updates)
    ensures Holds(Parse(files[|updates|]), k, v) <==>
            (exists i: nat :: UpdatedLast(updates, i, k, v)) || (NeverMentioned(updates, k) && Holds(Parse(files[0]), k, v))
  {
    var tables := seq(|files|, i requires 0 <= i < |files| => Parse(files[i]));
    forall i | 0 <= i < |updates|
      ensures Holds(tables[i + 1], k, v) <==>
              if k in updates[i] then updates[i][k] == v && v != "" else Holds(tables[i], k, v) {
      SaveHolds(files[i], updates[i], files[i + 1], k, v);
    }
    TablesKeepLastUpdate(tables, updates, k, v);
  }
}
