/** Splitting a SQL dump into statements while reading it in pieces. `complete` stands for SQLite's own test of a
    complete statement, `blank` for the characters that stripping removes. */
module SqlStatements {
  function Concat(parts: seq<string>): string {
    if parts == [] then "" else Concat(parts[..|parts| - 1]) + parts[|parts| - 1]
  }

  lemma ConcatAdd(parts: seq<string>, s: string)
    ensures Concat(parts + [s]) == Concat(parts) + s
  {
    assert (parts + [s])[..|parts|] == parts;
  }

  // ---------- Character by character ----------

  /** Statements found so far and the text after the last one. */
  datatype State = State(found: seq<string>, pending: string)

  function Feed(complete: string -> bool, s: State, c: char): State {
    var pending := s.pending + [c];
    if c == ';' && complete(pending) then State(s.found + [pending], "") else State(s.found, pending)
  }

  function Scan(complete: string -> bool, s: State, text: string): State {
    if text == "" then s else Feed(complete, Scan(complete, s, text[..|text| - 1]), text[|text| - 1])
  }

  lemma {:induction false} ScanAppend(complete: string -> bool, s: State, a: string, b: string)
    ensures Scan(complete, s, a + b) == Scan(complete, Scan(complete, s, a), b)
  {
    if b == "" {
      assert a + b == a;
    } else {
      var n := |b| - 1;
      assert (a + b)[..|a + b| - 1] == a + b[..n];
      ScanAppend(complete, s, a, b[..n]);
    }
  }

  /** Text without a semicolon only extends what is pending. */
  lemma {:induction false} ScanPlain(complete: string -> bool, s: State, text: string)
    requires ';' !in text
    ensures Scan(complete, s, text) == State(s.found, s.pending + text)
  {
    if text != "" {
      var n := |text| - 1;
      ScanPlain(complete, s, text[..n]);
      assert text == text[..n] + [text[n]];
      assert s.pending + text == s.pending + text[..n] + [text[n]];
    }
  }

  // ---------- Line by line ----------

  /** The pieces between semicolons. */
  function SplitAt(line: string): (parts: seq<string>)
    ensures |parts| >= 1
  {
    if line == "" then [""]
    else
      var before, c := SplitAt(line[..|line| - 1]), line[|line| - 1];
      if c == ';' then before + [""] else before[|before| - 1 := before[|before| - 1] + [c]]
  }

  /** Parts joined with semicolons. */
  function Join(parts: seq<string>): string {
    if parts == [] then ""
    else if |parts| == 1 then parts[0]
    else Join(parts[..|parts| - 1]) + ";" + parts[|parts| - 1]
  }

  lemma {:induction false} SplitJoins(line: string)
    ensures Join(SplitAt(line)) == line
    ensures forall k :: 0 <= k < |SplitAt(line)| ==> ';' !in SplitAt(line)[k]
  {
    if line != "" {
      var n := |line| - 1;
      SplitJoins(line[..n]);
      var before, c := SplitAt(line[..n]), line[n];
      assert line == line[..n] + [c];
      hide Join;
      if c == ';' {
        JoinStep(before + [""], |before|);
        assert (before + [""])[..|before|] == before && (before + [""])[..|before| + 1] == before + [""];
      } else {
        JoinExtend(before, c);
      }
    }
  }

  lemma JoinExtend(parts: seq<string>, c: char)
    requires parts != []
    ensures Join(parts[|parts| - 1 := parts[|parts| - 1] + [c]]) == Join(parts) + [c]
  {
    var k := |parts| - 1;
    var after := parts[k := parts[k] + [c]];
    assert after[..k] == parts[..k];
    if k > 0 {
      assert Join(after) == Join(parts[..k]) + ";" + (parts[k] + [c]);
    }
  }

  lemma JoinStep(parts: seq<string>, k: nat)
    requires 0 < k < |parts|
    ensures Join(parts[..k + 1]) == Join(parts[..k]) + ";" + parts[k]
  {
    assert parts[..k + 1][..k] == parts[..k];
  }

  /** What is scanned of a line before the part with the given index. */
  ghost function Before(parts: seq<string>, index: nat): string
    requires index <= |parts|
  {
    if index == 0 then "" else if index < |parts| then Join(parts[..index]) + ";" else Join(parts)
  }

  /** One line: each part, and after each but the last a semicolon and a test. */
  method ReadLine(line: string, complete: string -> bool, found0: seq<string>, pending0: seq<string>)
    returns (found: seq<string>, pending: seq<string>)
    ensures State(found, Concat(pending)) == Scan(complete, State(found0, Concat(pending0)), line)
  {
    var parts := SplitAt(line);
    SplitJoins(line);
    found, pending := found0, pending0;
    ghost var start := State(found0, Concat(pending0));
    hide Concat;
    hide Join;
    hide SplitAt;
    for index := 0 to |parts|
      invariant State(found, Concat(pending)) == Scan(complete, start, Before(parts, index))
    {
      PartStep(complete, start, parts, index);
      ConcatAdd(pending, parts[index]);
      pending := pending + [parts[index]];
      if index < |parts| - 1 {
        ConcatAdd(pending, ";");
        pending := pending + [";"];
        var candidate := Concat(pending);
        if complete(candidate) {
          found := found + [candidate];
          pending := [];
          ConcatNone();
        }
      } else {
        assert parts[..index + 1] == parts;
      }
    }
  }

  lemma ConcatNone()
    ensures Concat([]) == ""
  {
  }

  /** The reader of one dump: statements in order, and whether nothing but blanks is left. */
  method Statements(lines: seq<string>, complete: string -> bool, blank: char -> bool)
    returns (found: seq<string>, ok: bool)
    ensures var s := Scan(complete, State([], ""), Concat(lines));
            found == s.found && (ok <==> forall c :: c in s.pending ==> blank(c))
  {
    found := [];
    var pending: seq<string> := [];
    for i := 0 to |lines|
      invariant State(found, Concat(pending)) == Scan(complete, State([], ""), Concat(lines[..i]))
    {
      hide Concat;
      found, pending := ReadLine(lines[i], complete, found, pending);
      assert lines[..i + 1] == lines[..i] + [lines[i]];
      ConcatAdd(lines[..i], lines[i]);
      ScanAppend(complete, State([], ""), Concat(lines[..i]), lines[i]);
    }
    assert lines[..|lines|] == lines;
    ok := forall c :: c in Concat(pending) ==> blank(c);
  }

  /** Scanning one more part and, after it, its semicolon. */
  lemma PartStep(complete: string -> bool, s: State, parts: seq<string>, index: nat)
    requires index < |parts| && ';' !in parts[index]
    ensures var t := Scan(complete, s, Before(parts, index)); var fed := State(t.found, t.pending + parts[index]);
            && (index == |parts| - 1 ==> Scan(complete, s, Before(parts, index + 1)) == fed)
            && (index < |parts| - 1 ==> Scan(complete, s, Before(parts, index + 1)) == Feed(complete, fed, ';'))
  {
    var before, joined := Before(parts, index), Join(parts[..index + 1]);
    if index > 0 {
      JoinStep(parts, index);
    } else {
      assert parts[..1] == [parts[0]];
    }
    assert joined == before + parts[index];
    ScanAppend(complete, s, before, parts[index]);
    ScanPlain(complete, Scan(complete, s, before), parts[index]);
    if index == |parts| - 1 {
      assert parts[..index + 1] == parts;
    } else {
      assert (joined + ";")[..|joined|] == joined;
    }
  }

  // ---------- What the statements are ----------

  /** Some prefix of s ends with a semicolon and is complete. */
  ghost predicate CutInside(complete: string -> bool, s: string) {
    exists k :: 0 <= k < |s| && CutAt(complete, s, k)
  }

  predicate CutAt(complete: string -> bool, s: string, k: nat)
    requires k < |s|
  {
    s[k] == ';' && complete(s[..k + 1])
  }

  /** Complete, and the shortest such prefix of itself. */
  ghost predicate Shortest(complete: string -> bool, s: string) {
    && s != "" && CutAt(complete, s, |s| - 1)
    && forall k :: 0 <= k < |s| - 1 ==> !CutAt(complete, s, k)
  }

  /** A division of the text into shortest complete statements and a rest that holds none. */
  ghost predicate Divides(complete: string -> bool, text: string, s: State) {
    && Concat(s.found) + s.pending == text
    && (forall i :: 0 <= i < |s.found| ==> Shortest(complete, s.found[i]))
    && !CutInside(complete, s.pending)
  }

  lemma CutPrefix(complete: string -> bool, s: string, c: char)
    ensures forall k :: 0 <= k < |s| ==> (CutAt(complete, s + [c], k) <==> CutAt(complete, s, k))
    ensures CutAt(complete, s + [c], |s|) <==> c == ';' && complete(s + [c])
  {
    forall k | 0 <= k < |s| ensures CutAt(complete, s + [c], k) <==> CutAt(complete, s, k) {
      assert (s + [c])[..k + 1] == s[..k + 1];
    }
    assert (s + [c])[..|s| + 1] == s + [c];
  }

  lemma FeedDivides(complete: string -> bool, text: string, s: State, c: char)
    requires Divides(complete, text, s)
    ensures Divides(complete, text + [c], Feed(complete, s, c))
  {
    hide Concat;
    var pending := s.pending + [c];
    CutPrefix(complete, s.pending, c);
    ConcatAdd(s.found, pending);
    assert forall k :: 0 <= k < |s.pending| ==> !CutAt(complete, s.pending, k);
    hide CutAt;
    assert Concat(s.found) + pending == text + [c];
    EmptyHoldsNone(complete);
    if c == ';' && complete(pending) {
      assert Shortest(complete, pending);
    }
  }

  lemma EmptyHoldsNone(complete: string -> bool)
    ensures !CutInside(complete, "")
  {
  }

  lemma NothingDivides(complete: string -> bool)
    ensures Divides(complete, "", State([], ""))
  {
  }

  /** The scan is lossless, and each statement is the shortest complete prefix of what follows the one before. */
  lemma {:induction false} ScanDivides(complete: string -> bool, text: string)
    ensures Divides(complete, text, Scan(complete, State([], ""), text))
  {
    hide Divides;
    hide Feed;
    if text == "" {
      NothingDivides(complete);
    } else {
      var n := |text| - 1;
      ScanDivides(complete, text[..n]);
      FeedDivides(complete, text[..n], Scan(complete, State([], ""), text[..n]), text[n]);
      assert text == text[..n] + [text[n]];
    }
  }

  /** Scanning a shortest statement from a clean start finds just it. */
  lemma ScanShortest(complete: string -> bool, found: seq<string>, s: string)
    requires Shortest(complete, s)
    ensures Scan(complete, State(found, ""), s) == State(found + [s], "")
  {
    var n := |s| - 1;
    forall k | 0 <= k < n ensures !CutAt(complete, s[..n], k) {
      assert !CutAt(complete, s, k) && s[..n][k] == s[k];
      assert s[..n][..k + 1] == s[..k + 1];
    }
    ScanUncut(complete, found, s[..n]);
    assert s == s[..n] + [s[n]];
    assert s[..n + 1] == s;
  }

  lemma {:induction false} ScanUncut(complete: string -> bool, found: seq<string>, s: string)
    requires forall k :: 0 <= k < |s| ==> !CutAt(complete, s, k)
    ensures Scan(complete, State(found, ""), s) == State(found, s)
  {
    if s != "" {
      var n := |s| - 1;
      forall k | 0 <= k < n ensures !CutAt(complete, s[..n], k) {
        assert !CutAt(complete, s, k) && s[..n][k] == s[k];
        assert s[..n][..k + 1] == s[..k + 1];
      }
      ScanUncut(complete, found, s[..n]);
      assert s == s[..n] + [s[n]];
      assert s[..n + 1] == s && !CutAt(complete, s, n);
    }
  }

  lemma {:induction false} ScanStatements(complete: string -> bool, found: seq<string>)
    requires forall i :: 0 <= i < |found| ==> Shortest(complete, found[i])
    ensures Scan(complete, State([], ""), Concat(found)) == State(found, "")
  {
    if found != [] {
      var n := |found| - 1;
      ScanStatements(complete, found[..n]);
      ScanAppend(complete, State([], ""), Concat(found[..n]), found[n]);
      ScanShortest(complete, found[..n], found[n]);
      assert found == found[..n] + [found[n]];
    }
  }

  /** There is only one such division, so the reader's answer does not depend on how the text reached it. */
  lemma DivisionUnique(complete: string -> bool, text: string, s: State)
    requires Divides(complete, text, s)
    ensures s == Scan(complete, State([], ""), text)
  {
    ScanStatements(complete, s.found);
    ScanAppend(complete, State([], ""), Concat(s.found), s.pending);
    ScanUncut(complete, s.found, s.pending);
  }

  /** Two divisions of one text into lines give the same statements and the same verdict. */
  method ReadTwice(a: seq<string>, b: seq<string>, complete: string -> bool, blank: char -> bool)
    returns (first: seq<string>, second: seq<string>, ok: bool, ok': bool)
    requires Concat(a) == Concat(b)
    ensures first == second && ok == ok'
  {
    first, ok := Statements(a, complete, blank);
    second, ok' := Statements(b, complete, blank);
  }
}
