/** What merging the diagnostics of a damaged session file back into its entries keeps, and what a replay
    makes of it. */
module PlanReplay {
  import opened Options
  import opened PlanMode
  import opened PlanProofs

  // ---- line order ----------------------------------------------------------------------------------

  predicate InOrder(issues: seq<Diagnostic>) {
    forall i, j :: 0 <= i < j < |issues| ==> issues[i].line <= issues[j].line
  }

  /** The diagnostics of one line. */
  function OfLine(issues: seq<Diagnostic>, line: nat): seq<Diagnostic> {
    if issues == [] then []
    else
      var last := issues[|issues| - 1];
      OfLine(issues[..|issues| - 1], line) + if last.line == line then [last] else []
  }

  lemma OfLineSnoc(issues: seq<Diagnostic>, d: Diagnostic, line: nat)
    ensures OfLine(issues + [d], line) == OfLine(issues, line) + if d.line == line then [d] else []
  {
    assert (issues + [d])[..|issues|] == issues;
  }

  lemma InOrderSnoc(sorted: seq<Diagnostic>, d: Diagnostic)
    requires InOrder(sorted) && forall x :: x in sorted ==> x.line <= d.line
    ensures InOrder(sorted + [d])
  {
    forall i | 0 <= i < |sorted| ensures sorted[i].line <= d.line { assert sorted[i] in sorted; }
  }

  lemma LastIsLatest(sorted: seq<Diagnostic>, d: Diagnostic)
    requires InOrder(sorted) && d in sorted
    ensures d.line <= sorted[|sorted| - 1].line
  {
  }

  lemma {:induction false} PlacedInOrder(sorted: seq<Diagnostic>, d: Diagnostic)
    requires InOrder(sorted)
    ensures InOrder(Placed(sorted, d)) && |Placed(sorted, d)| == |sorted| + 1
    ensures forall x :: x in Placed(sorted, d) ==> x == d || x in sorted
  {
    if sorted != [] && d.line < sorted[|sorted| - 1].line {
      var front, last := sorted[..|sorted| - 1], sorted[|sorted| - 1];
      PlacedInOrder(front, d);
      forall x | x in Placed(front, d) ensures x.line <= last.line {
        if x != d { assert x in sorted; LastIsLatest(sorted, x); }
      }
      InOrderSnoc(Placed(front, d), last);
    } else {
      forall x | x in sorted ensures x.line <= d.line { LastIsLatest(sorted, x); }
      InOrderSnoc(sorted, d);
    }
  }

  lemma {:induction false} PlacedOfLine(sorted: seq<Diagnostic>, d: Diagnostic, line: nat)
    ensures OfLine(Placed(sorted, d), line) == OfLine(sorted + [d], line)
  {
    if sorted != [] && d.line < sorted[|sorted| - 1].line {
      var front, last := sorted[..|sorted| - 1], sorted[|sorted| - 1];
      PlacedOfLine(front, d, line);
      PassedOfLine(front, Placed(front, d), last, d, line);
      assert front + [last] == sorted;
    }
  }

  lemma PassedOfLine(front: seq<Diagnostic>, placed: seq<Diagnostic>, last: Diagnostic, d: Diagnostic, line: nat)
    requires OfLine(placed, line) == OfLine(front + [d], line) && d.line != last.line
    ensures OfLine(placed + [last], line) == OfLine(front + [last] + [d], line)
  {
    OfLineSnoc(placed, last, line);
    OfLineSnoc(front, d, line);
    OfLineSnoc(front, last, line);
    OfLineSnoc(front + [last], d, line);
  }

  /** Sorting keeps every diagnostic and, within a line, their order. */
  lemma {:induction false} LineOrderKeeps(issues: seq<Diagnostic>, line: nat)
    ensures InOrder(InLineOrder(issues)) && |InLineOrder(issues)| == |issues|
    ensures OfLine(InLineOrder(issues), line) == OfLine(issues, line)
  {
    if issues != [] {
      var front, last := issues[..|issues| - 1], issues[|issues| - 1];
      LineOrderKeeps(front, line);
      PlacedInOrder(InLineOrder(front), last);
      PlacedOfLine(InLineOrder(front), last, line);
      OfLineSnoc(InLineOrder(front), last, line);
    }
  }

  lemma {:induction false} OfLineHas(issues: seq<Diagnostic>, d: Diagnostic)
    ensures d in OfLine(issues, d.line) <==> d in issues
  {
    if issues != [] { OfLineHas(issues[..|issues| - 1], d); }
  }

  // ---- the merge -----------------------------------------------------------------------------------

  /** The diagnostics of a merged log. */
  function Issues(items: seq<Item>): seq<Diagnostic> {
    if items == [] then []
    else
      Issues(items[..|items| - 1])
      + if items[|items| - 1].Issue? then [Diagnostic(items[|items| - 1].line, items[|items| - 1].code)] else []
  }

  function Plain(entries: seq<Sourced>): seq<Entry> {
    seq(|entries|, i requires 0 <= i < |entries| => entries[i].entry)
  }

  function GoodOf(item: Item): seq<Entry> { if item.Good? then [item.entry] else [] }

  function IssueOf(item: Item): seq<Diagnostic> { if item.Issue? then [Diagnostic(item.line, item.code)] else [] }

  lemma {:induction false} Cons(x: Item, items: seq<Item>)
    ensures Entries([x] + items) == GoodOf(x) + Entries(items) && Issues([x] + items) == IssueOf(x) + Issues(items)
  {
    if items == [] {
      assert [x] + items == [x] && [x][..0] == [];
    } else {
      var front := items[..|items| - 1];
      assert ([x] + items)[..|items|] == [x] + front;
      Cons(x, front);
    }
  }

  /** The entry stands behind the diagnostic in the file, or its place in the file is not known. */
  predicate Behind(e: Sourced, d: Diagnostic) { e.sourceLine.None? || d.line <= e.sourceLine.value }

  /** Some entry up to j stands behind diagnostic i, or its place is not known. */
  ghost predicate Due(entries: seq<Sourced>, issues: seq<Diagnostic>, i: nat, j: nat)
    requires i < |issues|
  {
    exists k :: 0 <= k <= j && k < |entries| && Behind(entries[k], issues[i])
  }

  /** Merging loses nothing, adds nothing and keeps both orders. */
  lemma {:induction false} MergeKeepsAll(entries: seq<Sourced>, issues: seq<Diagnostic>)
    ensures Entries(Merged(entries, issues)) == Plain(entries) && Issues(Merged(entries, issues)) == issues
    ensures |Merged(entries, issues)| == |entries| + |issues|
    decreases |entries| + |issues|
  {
    if entries == [] && issues == [] {
    } else if issues != [] && (entries == [] || Behind(entries[0], issues[0])) {
      MergeKeepsAll(entries, issues[1..]);
      Cons(Issue(issues[0].line, issues[0].code), Merged(entries, issues[1..]));
    } else {
      MergeKeepsAll(entries[1..], issues);
      Cons(Good(entries[0].entry), Merged(entries[1..], issues));
      assert Plain(entries) == [entries[0].entry] + Plain(entries[1..]);
    }
  }

  /** At place p of the merge stands an entry: diagnostic i comes before it exactly when it is due. */
  ghost predicate PlacedAt(entries: seq<Sourced>, issues: seq<Diagnostic>, merged: seq<Item>, p: nat, i: nat)
    requires p < |merged| && i < |issues|
  {
    i < |Issues(merged[..p])| <==> Due(entries, issues, i, |Entries(merged[..p])|)
  }

  /** A diagnostic precedes an entry if and only if it is damaged line in front of it or of some entry
      before it, or such an entry was not read from the file. */
  lemma {:induction false} MergePlaces(entries: seq<Sourced>, issues: seq<Diagnostic>, p: nat, i: nat)
    requires InOrder(issues) && p < |Merged(entries, issues)| && Merged(entries, issues)[p].Good? && i < |issues|
    ensures PlacedAt(entries, issues, Merged(entries, issues), p, i)
    decreases |entries| + |issues|
  {
    if entries == [] {
      OnlyIssues(issues, p);
      assert false;
    } else if Behind(entries[0], issues[0]) {
      if i > 0 { MergePlaces(entries, issues[1..], p - 1, i - 1); }
      IssueFirst(entries, issues, Merged(entries, issues[1..]), p, i);
    } else {
      if p > 0 { MergePlaces(entries[1..], issues, p - 1, i); }
      EntryFirst(entries, issues, Merged(entries[1..], issues), p, i);
    }
  }

  lemma {:induction false} OnlyIssues(issues: seq<Diagnostic>, p: nat)
    requires p < |Merged([], issues)|
    ensures Merged([], issues)[p].Issue?
  {
    if p > 0 { OnlyIssues(issues[1..], p - 1); }
  }

  lemma IssueFirst(entries: seq<Sourced>, issues: seq<Diagnostic>, rest: seq<Item>, p: nat, i: nat)
    requires 0 < p <= |rest| && i < |issues| && entries != [] && Behind(entries[0], issues[0])
    requires i > 0 ==> PlacedAt(entries, issues[1..], rest, p - 1, i - 1)
    ensures PlacedAt(entries, issues, [Issue(issues[0].line, issues[0].code)] + rest, p, i)
  {
    var first := Issue(issues[0].line, issues[0].code);
    assert ([first] + rest)[..p] == [first] + rest[..p - 1];
    Cons(first, rest[..p - 1]);
    var j := |Entries(rest[..p - 1])|;
    if i > 0 {
      DueLater(entries, issues, i, j);
    } else {
      assert Due(entries, issues, 0, j);
    }
  }

  lemma DueLater(entries: seq<Sourced>, issues: seq<Diagnostic>, i: nat, j: nat)
    requires 0 < i < |issues|
    ensures Due(entries, issues[1..], i - 1, j) <==> Due(entries, issues, i, j)
  {
    assert issues[1..][i - 1] == issues[i];
  }

  lemma EntryFirst(entries: seq<Sourced>, issues: seq<Diagnostic>, rest: seq<Item>, p: nat, i: nat)
    requires p <= |rest| && i < |issues| && entries != [] && !Behind(entries[0], issues[0]) && InOrder(issues)
    requires p > 0 ==> PlacedAt(entries[1..], issues, rest, p - 1, i)
    ensures PlacedAt(entries, issues, [Good(entries[0].entry)] + rest, p, i)
  {
    var first := Good(entries[0].entry);
    assert issues[0].line <= issues[i].line;
    if p == 0 {
      assert ([first] + rest)[..0] == [];
    } else {
      assert ([first] + rest)[..p] == [first] + rest[..p - 1];
      Cons(first, rest[..p - 1]);
      DueBehind(entries, issues, i, |Entries(rest[..p - 1])|);
    }
  }

  lemma DueBehind(entries: seq<Sourced>, issues: seq<Diagnostic>, i: nat, j: nat)
    requires i < |issues| && entries != [] && !Behind(entries[0], issues[i])
    ensures Due(entries[1..], issues, i, j) <==> Due(entries, issues, i, j + 1)
  {
    if Due(entries[1..], issues, i, j) {
      var k :| 0 <= k <= j && k < |entries[1..]| && Behind(entries[1..][k], issues[i]);
      assert Behind(entries[k + 1], issues[i]);
    }
    if Due(entries, issues, i, j + 1) {
      var k :| 0 <= k <= j + 1 && k < |entries| && Behind(entries[k], issues[i]);
      assert k > 0 && Behind(entries[1..][k - 1], issues[i]);
    }
  }

  // ---- and what a replay makes of it ---------------------------------------------------------------

  /** A log that ends in a diagnostic replays to an error. */
  lemma EndsDamaged(env: Env, items: seq<Item>)
    requires items != [] && items[|items| - 1].Issue?
    ensures Reduced(env, items).phase == RecoveryError && Reduced(env, items).recoveryError.Some?
    ensures Reduced(env, items).mode == Plan
  {
  }

  /** The last item is a diagnostic exactly when the last diagnostic is due before no entry. */
  ghost predicate EndsRight(entries: seq<Sourced>, issues: seq<Diagnostic>, merged: seq<Item>) {
    && |merged| > 0
    && (merged[|merged| - 1].Issue? <==>
          issues != [] && forall k :: 0 <= k < |entries| ==> !Behind(entries[k], issues[|issues| - 1]))
  }

  lemma {:induction false} MergeEnds(entries: seq<Sourced>, issues: seq<Diagnostic>)
    requires InOrder(issues) && |entries| + |issues| > 0
    ensures EndsRight(entries, issues, Merged(entries, issues))
    decreases |entries| + |issues|
  {
    if entries == [] || issues == [] {
      EndsAlone(entries, issues);
    } else if Behind(entries[0], issues[0]) {
      MergeEnds(entries, issues[1..]);
      EndsBehindIssue(entries, issues, Merged(entries, issues[1..]));
    } else {
      MergeEnds(entries[1..], issues);
      EndsBehindEntry(entries, issues, Merged(entries[1..], issues));
    }
  }

  lemma EndsBehindIssue(entries: seq<Sourced>, issues: seq<Diagnostic>, rest: seq<Item>)
    requires entries != [] && issues != [] && Behind(entries[0], issues[0]) && EndsRight(entries, issues[1..], rest)
    ensures EndsRight(entries, issues, [Issue(issues[0].line, issues[0].code)] + rest)
  {
    if |issues| > 1 { assert issues[1..][|issues| - 2] == issues[|issues| - 1]; }
  }

  lemma EndsBehindEntry(entries: seq<Sourced>, issues: seq<Diagnostic>, rest: seq<Item>)
    requires entries != [] && issues != [] && !Behind(entries[0], issues[0]) && InOrder(issues)
    requires EndsRight(entries[1..], issues, rest)
    ensures EndsRight(entries, issues, [Good(entries[0].entry)] + rest)
  {
    assert issues[0].line <= issues[|issues| - 1].line;
    assert forall k :: 0 < k < |entries| ==> entries[k] == entries[1..][k - 1];
  }

  lemma {:induction false} EndsAlone(entries: seq<Sourced>, issues: seq<Diagnostic>)
    requires (entries == [] || issues == []) && |entries| + |issues| > 0
    ensures |Merged(entries, issues)| > 0
    ensures Merged(entries, issues)[|Merged(entries, issues)| - 1].Issue? <==> issues != []
    decreases |entries| + |issues|
  {
    if |entries| + |issues| > 1 {
      if entries == [] { EndsAlone(entries, issues[1..]); } else { EndsAlone(entries[1..], issues); }
    }
  }

  /** So a session with a damaged line behind its last entry does not go on where it was: it replays to an
      error. */
  lemma TornLineIsNoticed(env: Env, entries: seq<Sourced>, loadIssues: seq<Diagnostic>, d: Diagnostic)
    requires d in loadIssues && forall k :: 0 <= k < |entries| ==> !Behind(entries[k], d)
    ensures Reduced(env, Merged(entries, InLineOrder(loadIssues))).phase == RecoveryError
  {
    var issues := InLineOrder(loadIssues);
    LineOrderKeeps(loadIssues, d.line);
    OfLineHas(loadIssues, d);
    OfLineHas(issues, d);
    LastIsLatest(issues, d);
    var last := issues[|issues| - 1];
    forall k | 0 <= k < |entries| ensures !Behind(entries[k], last) {
      assert !Behind(entries[k], d);
    }
    MergeEnds(entries, issues);
    EndsDamaged(env, Merged(entries, issues));
  }
}
