/** The content rewriting of `update_env_file` in agent/config.py, with the
    file read and write taken out: the existing text (or none, for a missing
    file) goes in, the text to write comes out.

    The source matches each key with the multi-line pattern `^KEY=.*$` and
    replaces every match by `KEY=value`.  A match is a whole line that starts
    with `KEY=`, so the model reads the content as its lines (the pieces of
    `content.split("\n")`) and keys are matched literally. */
module EnvFile {
  import opened Jobs
  import opened PyText

  /** `s.split("\n")`: never empty, and no piece holds a line feed. */
  function Lines(s: string): (r: seq<string>)
    ensures |r| >= 1
    ensures forall i :: 0 <= i < |r| ==> '\n' !in r[i]
    decreases |s|
  {
    if |s| == 0 then [""]
    else
      var rest := Lines(s[1..]);
      if s[0] == '\n' then [""] + rest
      else [[s[0]] + rest[0]] + rest[1..]
  }

  /** `"\n".join(ls)`. */
  function Join(ls: seq<string>): string
    requires |ls| >= 1
    decreases |ls|
  {
    if |ls| == 1 then ls[0] else ls[0] + "\n" + Join(ls[1..])
  }

  lemma {:induction false} JoinLines(s: string)
    ensures Join(Lines(s)) == s
    decreases |s|
  {
    if |s| > 0 {
      JoinLines(s[1..]);
      var rest := Lines(s[1..]);
      if s[0] == '\n' {
        assert ([""] + rest)[1..] == rest;
      } else if |rest| > 1 {
        var ls := [[s[0]] + rest[0]] + rest[1..];
        assert ls[1..] == rest[1..];
        assert s == [s[0]] + s[1..];
      } else {
        assert s == [s[0]] + s[1..];
      }
    }
  }

  lemma {:induction false} LinesOfLine(x: string)
    requires '\n' !in x
    ensures Lines(x) == [x]
    decreases |x|
  {
    if |x| > 0 {
      LinesOfLine(x[1..]);
      assert x == [x[0]] + x[1..];
    }
  }

  lemma {:induction false} LinesAfterLine(x: string, y: string)
    requires '\n' !in x
    ensures Lines(x + "\n" + y) == [x] + Lines(y)
    decreases |x|
  {
    var s := x + "\n" + y;
    if |x| == 0 {
      assert s[1..] == y;
    } else {
      assert s[1..] == x[1..] + "\n" + y;
      LinesAfterLine(x[1..], y);
      assert x == [x[0]] + x[1..];
    }
  }

  /** Splitting a join gives back the lines, when no line holds a line feed. */
  lemma {:induction false} LinesJoin(ls: seq<string>)
    requires |ls| >= 1
    requires forall i :: 0 <= i < |ls| ==> '\n' !in ls[i]
    ensures Lines(Join(ls)) == ls
    decreases |ls|
  {
    if |ls| == 1 {
      LinesOfLine(ls[0]);
    } else {
      LinesJoin(ls[1..]);
      LinesAfterLine(ls[0], Join(ls[1..]));
    }
  }

  lemma {:induction false} JoinAppend(a: seq<string>, b: seq<string>)
    requires |a| >= 1 && |b| >= 1
    ensures Join(a + b) == Join(a) + "\n" + Join(b)
    decreases |a|
  {
    if |a| > 1 {
      assert (a + b)[1..] == a[1..] + b;
      JoinAppend(a[1..], b);
    } else {
      assert (a + b)[1..] == b;
    }
  }

  /** The lines of `a + "\n" + b` are the lines of a followed by those of b. */
  lemma LinesAppend(a: string, b: string)
    ensures Lines(a + "\n" + b) == Lines(a) + Lines(b)
  {
    JoinLines(a);
    JoinLines(b);
    JoinAppend(Lines(a), Lines(b));
    LinesJoin(Lines(a) + Lines(b));
  }

  /** The line `KEY=value` the source writes. */
  function Entry(key: string, value: string): string {
    key + "=" + value
  }

  /** A line the pattern `^KEY=.*$` matches. */
  predicate IsEntryFor(line: string, key: string) {
    StartsWith(line, key + "=")
  }

  /** `pattern.search(content)` succeeds. */
  predicate HasEntry(ls: seq<string>, key: string) {
    exists i :: 0 <= i < |ls| && IsEntryFor(ls[i], key)
  }

  /** `pattern.sub(replacement, content)` on the lines of content. */
  function ReplaceEntries(ls: seq<string>, key: string, value: string): (r: seq<string>)
    ensures |r| == |ls|
    ensures forall i :: 0 <= i < |ls| ==>
      r[i] == if IsEntryFor(ls[i], key) then Entry(key, value) else ls[i]
  {
    seq(|ls|, i requires 0 <= i < |ls| => if IsEntryFor(ls[i], key) then Entry(key, value) else ls[i])
  }

  /** One iteration of the loop over the updates. */
  function ApplyUpdate(content: string, key: string, value: string): string {
    if value == "" then content
    else if HasEntry(Lines(content), key) then Join(ReplaceEntries(Lines(content), key, value))
    else content + "\n" + Entry(key, value)
  }

  /** The loop over the updates, in iteration order: each update sees the
      content the earlier ones produced. */
  function ApplyUpdates(content: string, updates: seq<(string, string)>): string
    decreases |updates|
  {
    if updates == [] then content
    else ApplyUpdates(ApplyUpdate(content, updates[0].0, updates[0].1), updates[1..])
  }

  /** `update_env_file(updates)` between its read and its write: `existing`
      is the file's text, None when the file does not exist; the result is
      the text written back. */
  method UpdateEnvFile(existing: Option<string>, updates: seq<(string, string)>)
    returns (written: string)
    ensures written == ApplyUpdates(if existing.Some? then existing.value else "", updates)
  {
    var content := if existing.Some? then existing.value else "";
    ghost var start := content;
    for i := 0 to |updates|
      invariant content == ApplyUpdates(start, updates[..i])
    {
      var (key, value) := updates[i];
      ApplyUpdatesStep(start, updates[..i], updates[i]);
      assert updates[..i + 1] == updates[..i] + [updates[i]];
      if value == "" {
        continue;
      }
      if HasEntry(Lines(content), key) {
        content := Join(ReplaceEntries(Lines(content), key, value));
      } else {
        content := content + "\n" + Entry(key, value);
      }
    }
    assert updates[..|updates|] == updates;
    written := content;
  }

  /** Applying one more update acts on the content the earlier ones left. */
  lemma {:induction false} ApplyUpdatesStep(content: string, updates: seq<(string, string)>, u: (string, string))
    ensures ApplyUpdates(content, updates + [u]) == ApplyUpdate(ApplyUpdates(content, updates), u.0, u.1)
    decreases |updates|
  {
    if updates == [] {
      assert [] + [u] == [u];
    } else {
      assert (updates + [u])[1..] == updates[1..] + [u];
      ApplyUpdatesStep(ApplyUpdate(content, updates[0].0, updates[0].1), updates[1..], u);
    }
  }

  /** An update with an empty value is skipped. */
  lemma SkipsEmptyValue(content: string, key: string)
    ensures ApplyUpdate(content, key, "") == content
  {
  }

  /** A key that occurs in some line has no line feed. */
  lemma EntryKeyHasNoLineFeed(line: string, key: string)
    requires '\n' !in line && IsEntryFor(line, key)
    ensures '\n' !in key
  {
    assert (key + "=")[..|key|] == key;
    assert line[..|key|] == key;
    forall j | 0 <= j < |key| ensures key[j] != '\n' {
      assert key[j] == line[j];
    }
  }

  /** When some line starts with `KEY=`, each such line becomes `KEY=value`
      and every other line stays as it was. */
  lemma UpdateReplacesEntries(content: string, key: string, value: string)
    requires value != "" && '\n' !in value
    requires HasEntry(Lines(content), key)
    ensures var ls := Lines(content);
      var r := Lines(ApplyUpdate(content, key, value));
      && |r| == |ls|
      && (forall i :: 0 <= i < |ls| && IsEntryFor(ls[i], key) ==> r[i] == Entry(key, value))
      && (forall i :: 0 <= i < |ls| && !IsEntryFor(ls[i], key) ==> r[i] == ls[i])
  {
    var ls := Lines(content);
    assert '\n' !in Entry(key, value) by {
      var i :| 0 <= i < |ls| && IsEntryFor(ls[i], key);
      EntryKeyHasNoLineFeed(ls[i], key);
    }
    ReplacedLines(ls, key, value);
  }

  /** Replacing entries by a line without a line feed keeps the lines apart:
      splitting their join gives them back. */
  lemma ReplacedLines(ls: seq<string>, key: string, value: string)
    requires |ls| >= 1 && forall j :: 0 <= j < |ls| ==> '\n' !in ls[j]
    requires '\n' !in Entry(key, value)
    ensures Lines(Join(ReplaceEntries(ls, key, value))) == ReplaceEntries(ls, key, value)
  {
    LinesJoin(ReplaceEntries(ls, key, value));
  }

  /** When no line starts with `KEY=`, the line `KEY=value` is added after the
      existing lines. */
  lemma UpdateAppendsEntry(content: string, key: string, value: string)
    requires value != "" && '\n' !in key && '\n' !in value
    requires !HasEntry(Lines(content), key)
    ensures ApplyUpdate(content, key, value) == content + "\n" + Entry(key, value)
    ensures Lines(ApplyUpdate(content, key, value)) == Lines(content) + [Entry(key, value)]
  {
    LinesAppend(content, Entry(key, value));
    assert '\n' !in Entry(key, value);
    LinesOfLine(Entry(key, value));
  }

  /** After an update with a non-empty value the content holds the line
      `KEY=value`. */
  lemma UpdateInstallsEntry(content: string, key: string, value: string)
    requires value != "" && '\n' !in key && '\n' !in value
    ensures Entry(key, value) in Lines(ApplyUpdate(content, key, value))
  {
    var ls := Lines(content);
    if HasEntry(ls, key) {
      UpdateReplacesEntries(content, key, value);
      var i :| 0 <= i < |ls| && IsEntryFor(ls[i], key);
      assert Lines(ApplyUpdate(content, key, value))[i] == Entry(key, value);
    } else {
      UpdateAppendsEntry(content, key, value);
      var r := Lines(ApplyUpdate(content, key, value));
      assert r[|r| - 1] == Entry(key, value);
    }
  }

  /** Keys of the shape the idempotence and fresh-file properties need:
      no '=' (so the line `KEY=...` names exactly one key) and no line feed;
      values have no line feed either. */
  predicate PlainUpdates(updates: seq<(string, string)>) {
    forall j :: 0 <= j < |updates| ==>
      '=' !in updates[j].0 && '\n' !in updates[j].0 && '\n' !in updates[j].1
  }

  /** Keys of a dictionary are distinct. */
  predicate DistinctKeys(updates: seq<(string, string)>) {
    forall i, j :: 0 <= i < j < |updates| ==> updates[i].0 != updates[j].0
  }

  /** The text of a line before its first '='. */
  function KeyOf(line: string): string
    decreases |line|
  {
    if |line| == 0 || line[0] == '=' then "" else [line[0]] + KeyOf(line[1..])
  }

  lemma {:induction false} KeyOfEntry(key: string, rest: string)
    requires '=' !in key
    ensures KeyOf(key + "=" + rest) == key
    decreases |key|
  {
    if |key| > 0 {
      assert (key + "=" + rest)[1..] == key[1..] + "=" + rest;
      KeyOfEntry(key[1..], rest);
      assert key == [key[0]] + key[1..];
    }
  }

  /** A line starts with `k=` for at most one key k without '='. */
  lemma EntryNamesOneKey(line: string, k1: string, k2: string)
    requires '=' !in k1 && '=' !in k2
    requires IsEntryFor(line, k1) && IsEntryFor(line, k2)
    ensures k1 == k2
  {
    assert line == k1 + "=" + line[|k1| + 1..];
    assert line == k2 + "=" + line[|k2| + 1..];
    KeyOfEntry(k1, line[|k1| + 1..]);
    KeyOfEntry(k2, line[|k2| + 1..]);
  }

  /** Every line starting with `KEY=` is exactly `KEY=value`, and one does. */
  predicate Satisfies(ls: seq<string>, key: string, value: string) {
    && HasEntry(ls, key)
    && forall i :: 0 <= i < |ls| && IsEntryFor(ls[i], key) ==> ls[i] == Entry(key, value)
  }

  lemma UpdateSatisfies(content: string, key: string, value: string)
    requires value != "" && '\n' !in key && '\n' !in value
    ensures Satisfies(Lines(ApplyUpdate(content, key, value)), key, value)
  {
    var ls := Lines(content);
    UpdateInstallsEntry(content, key, value);
    var r := Lines(ApplyUpdate(content, key, value));
    var i :| 0 <= i < |r| && r[i] == Entry(key, value);
    assert IsEntryFor(r[i], key) by {
      assert r[i][..|key + "="|] == key + "=";
    }
    if HasEntry(ls, key) {
      UpdateReplacesEntries(content, key, value);
    } else {
      UpdateAppendsEntry(content, key, value);
    }
  }

  lemma UpdateKeepsSatisfied(content: string, key: string, value: string, k: string, v: string)
    requires Satisfies(Lines(content), key, value)
    requires k != key && '=' !in k && '=' !in key
    requires '\n' !in k && '\n' !in v
    ensures Satisfies(Lines(ApplyUpdate(content, k, v)), key, value)
  {
    if v != "" {
      var ls := Lines(content);
      var e := Entry(k, v);
      assert IsEntryFor(e, k) by {
        assert e[..|k + "="|] == k + "=";
      }
      assert !IsEntryFor(e, key) by {
        if IsEntryFor(e, key) {
          EntryNamesOneKey(e, key, k);
        }
      }
      forall i | 0 <= i < |ls| && IsEntryFor(ls[i], key)
        ensures !IsEntryFor(ls[i], k)
      {
        if IsEntryFor(ls[i], k) {
          EntryNamesOneKey(ls[i], key, k);
        }
      }
      var w :| 0 <= w < |ls| && IsEntryFor(ls[w], key);
      var r := Lines(ApplyUpdate(content, k, v));
      if HasEntry(ls, k) {
        UpdateReplacesEntries(content, k, v);
        assert r[w] == ls[w];
      } else {
        UpdateAppendsEntry(content, k, v);
        assert r[w] == ls[w];
        assert r[|ls|] == e;
      }
    }
  }

  lemma {:induction false} UpdatesKeepSatisfied(
    content: string, updates: seq<(string, string)>, key: string, value: string)
    requires Satisfies(Lines(content), key, value)
    requires PlainUpdates(updates) && '=' !in key
    requires forall j :: 0 <= j < |updates| ==> updates[j].0 != key
    ensures Satisfies(Lines(ApplyUpdates(content, updates)), key, value)
    decreases |updates|
  {
    if updates != [] {
      UpdateKeepsSatisfied(content, key, value, updates[0].0, updates[0].1);
      UpdatesKeepSatisfied(ApplyUpdate(content, updates[0].0, updates[0].1), updates[1..], key, value);
    }
  }

  /** Every non-empty update of the list holds in the content. */
  predicate Settled(content: string, updates: seq<(string, string)>) {
    forall j :: 0 <= j < |updates| && updates[j].1 != "" ==>
      Satisfies(Lines(content), updates[j].0, updates[j].1)
  }

  lemma {:induction false} UpdatesSettle(content: string, updates: seq<(string, string)>)
    requires PlainUpdates(updates) && DistinctKeys(updates)
    ensures Settled(ApplyUpdates(content, updates), updates)
    decreases |updates|
  {
    if updates != [] {
      var (k, v) := updates[0];
      var next := ApplyUpdate(content, k, v);
      var rest := updates[1..];
      UpdatesSettle(next, rest);
      if v != "" {
        UpdateSatisfies(content, k, v);
        assert forall j :: 0 <= j < |rest| ==> rest[j].0 != k by {
          forall j | 0 <= j < |rest| ensures rest[j].0 != k {
            assert rest[j] == updates[j + 1];
          }
        }
        UpdatesKeepSatisfied(next, rest, k, v);
      }
      forall j | 0 <= j < |updates| && updates[j].1 != ""
        ensures Satisfies(Lines(ApplyUpdates(content, updates)), updates[j].0, updates[j].1)
      {
        if j > 0 {
          assert updates[j] == rest[j - 1];
        }
      }
    }
  }

  lemma FixedWhenSatisfied(content: string, key: string, value: string)
    requires value == "" || Satisfies(Lines(content), key, value)
    ensures ApplyUpdate(content, key, value) == content
  {
    if value != "" {
      var ls := Lines(content);
      assert ReplaceEntries(ls, key, value) == ls;
      JoinLines(content);
    }
  }

  lemma {:induction false} FixedWhenSettled(content: string, updates: seq<(string, string)>)
    requires Settled(content, updates)
    ensures ApplyUpdates(content, updates) == content
    decreases |updates|
  {
    if updates != [] {
      FixedWhenSatisfied(content, updates[0].0, updates[0].1);
      assert Settled(content, updates[1..]) by {
        forall j | 0 <= j < |updates[1..]| && updates[1..][j].1 != ""
          ensures Satisfies(Lines(content), updates[1..][j].0, updates[1..][j].1)
        {
          assert updates[1..][j] == updates[j + 1];
        }
      }
      FixedWhenSettled(content, updates[1..]);
    }
  }

  /** Applying the same updates twice writes what applying them once wrote. */
  lemma UpdatesIdempotent(content: string, updates: seq<(string, string)>)
    requires PlainUpdates(updates) && DistinctKeys(updates)
    ensures ApplyUpdates(ApplyUpdates(content, updates), updates) == ApplyUpdates(content, updates)
  {
    UpdatesSettle(content, updates);
    FixedWhenSettled(ApplyUpdates(content, updates), updates);
  }

  /** The updates' lines `\nKEY=value`, in order, the empty values skipped. */
  function Appended(updates: seq<(string, string)>): string
    decreases |updates|
  {
    if updates == [] then ""
    else
      (if updates[0].1 == "" then "" else "\n" + Entry(updates[0].0, updates[0].1))
      + Appended(updates[1..])
  }

  /** Appending the entry for one key adds no entry for another key. */
  lemma AppendKeepsAbsent(content: string, k: string, v: string, other: string)
    requires '=' !in k && '\n' !in k && '\n' !in v && '=' !in other && other != k
    requires !HasEntry(Lines(content), k) && !HasEntry(Lines(content), other)
    ensures !HasEntry(Lines(ApplyUpdate(content, k, v)), other)
  {
    if v != "" {
      UpdateAppendsEntry(content, k, v);
      var e := Entry(k, v);
      assert IsEntryFor(e, k) by {
        assert e[..|k + "="|] == k + "=";
      }
      if IsEntryFor(e, other) {
        EntryNamesOneKey(e, k, other);
      }
      assert Lines(ApplyUpdate(content, k, v)) == Lines(content) + [e];
    }
  }

  /** The updates after the first are plain and distinct too. */
  lemma PlainTail(updates: seq<(string, string)>)
    requires |updates| > 0 && PlainUpdates(updates) && DistinctKeys(updates)
    ensures PlainUpdates(updates[1..]) && DistinctKeys(updates[1..])
    ensures forall j :: 0 <= j < |updates| - 1 ==> updates[1..][j].0 != updates[0].0
  {
    var rest := updates[1..];
    forall j | 0 <= j < |rest| ensures '=' !in rest[j].0 && '\n' !in rest[j].0 && '\n' !in rest[j].1 {
      assert rest[j] == updates[j + 1];
    }
    forall i, j | 0 <= i < j < |rest| ensures rest[i].0 != rest[j].0 {
      assert rest[i] == updates[i + 1] && rest[j] == updates[j + 1];
    }
  }

  lemma {:induction false} AppendsWhenAbsent(content: string, updates: seq<(string, string)>)
    requires PlainUpdates(updates) && DistinctKeys(updates)
    requires forall j :: 0 <= j < |updates| ==> !HasEntry(Lines(content), updates[j].0)
    ensures ApplyUpdates(content, updates) == content + Appended(updates)
    decreases |updates|
  {
    if updates == [] {
      assert content + "" == content;
    } else {
      var (k, v) := updates[0];
      var rest := updates[1..];
      var next := ApplyUpdate(content, k, v);
      var piece := if v == "" then "" else "\n" + Entry(k, v);
      assert forall j :: 0 <= j < |rest| ==> !HasEntry(Lines(next), rest[j].0) by {
        StillAbsent(content, updates);
      }
      assert PlainUpdates(rest) && DistinctKeys(rest) by { PlainTail(updates); }
      AppendsWhenAbsent(next, rest);
      assert next == content + piece by { AppendStep(content, k, v); }
      assert Appended(updates) == piece + Appended(rest);
      AppendAssociates(content, piece, Appended(rest));
    }
  }

  lemma AppendAssociates(a: string, b: string, c: string)
    ensures a + b + c == a + (b + c)
  {
  }

  /** The first update leaves the later keys without an entry. */
  lemma StillAbsent(content: string, updates: seq<(string, string)>)
    requires |updates| > 0 && PlainUpdates(updates) && DistinctKeys(updates)
    requires forall j :: 0 <= j < |updates| ==> !HasEntry(Lines(content), updates[j].0)
    ensures var next := ApplyUpdate(content, updates[0].0, updates[0].1);
      forall j :: 0 <= j < |updates| - 1 ==> !HasEntry(Lines(next), updates[1..][j].0)
  {
    var rest := updates[1..];
    forall j | 0 <= j < |rest|
      ensures !HasEntry(Lines(ApplyUpdate(content, updates[0].0, updates[0].1)), rest[j].0)
    {
      assert rest[j] == updates[j + 1];
      AppendKeepsAbsent(content, updates[0].0, updates[0].1, rest[j].0);
    }
  }

  /** An update of a key without an entry appends its line, if any. */
  lemma AppendStep(content: string, k: string, v: string)
    requires '\n' !in k && '\n' !in v && !HasEntry(Lines(content), k)
    ensures ApplyUpdate(content, k, v) == content + (if v == "" then "" else "\n" + Entry(k, v))
  {
    if v != "" {
      UpdateAppendsEntry(content, k, v);
    } else {
      assert content + "" == content;
    }
  }

  /** Starting from a missing file the content begins empty, so every key is
      added on a line of its own after a leading line feed. */
  lemma FreshFile(updates: seq<(string, string)>)
    requires PlainUpdates(updates) && DistinctKeys(updates)
    ensures ApplyUpdates("", updates) == Appended(updates)
  {
    assert forall j :: 0 <= j < |updates| ==> !HasEntry(Lines(""), updates[j].0) by {
      assert Lines("") == [""];
      forall j | 0 <= j < |updates| ensures !HasEntry(Lines(""), updates[j].0) {
        assert !IsEntryFor("", updates[j].0);
      }
    }
    AppendsWhenAbsent("", updates);
    assert "" + Appended(updates) == Appended(updates);
  }
}
