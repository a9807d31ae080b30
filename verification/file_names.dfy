/** The name `init` gives a new log file: the prefix, the ISO-8601 timestamp
    with every maximal run of '.' and ':' replaced by one '-', and ".log". */
module LogFileNames {

  predicate IsSeparator(c: char) {
    c == '.' || c == ':'
  }

  predicate SeparatorFree(s: string) {
    forall i :: 0 <= i < |s| ==> !IsSeparator(s[i])
  }

  /** `s` without its leading run of separators. */
  function SkipRun(s: string): (t: string)
    ensures |t| <= |s| && t == s[|s| - |t|..]
    ensures forall i :: 0 <= i < |s| - |t| ==> IsSeparator(s[i])
    ensures t == [] || !IsSeparator(t[0])
    ensures s != [] && IsSeparator(s[0]) ==> |t| < |s|
  {
    if s != [] && IsSeparator(s[0]) then SkipRun(s[1..]) else s
  }

  /** `s.replace(/[\.:]+/g, "-")`: the leftmost maximal run of separators is
      replaced by one '-', and the search resumes after it. */
  function ReplaceRuns(s: string): (r: string)
    ensures SeparatorFree(r)
    ensures |r| <= |s|
    ensures SeparatorFree(s) ==> r == s
    decreases |s|
  {
    if s == [] then []
    else if IsSeparator(s[0]) then "-" + ReplaceRuns(SkipRun(s))
    else [s[0]] + ReplaceRuns(s[1..])
  }

  /** A one-character-at-a-time scanner that emits '-' on the first separator
      of a run and drops the rest; `inRun` says the previous character was a
      separator. */
  function Scan(s: string, inRun: bool): string {
    if s == [] then []
    else if IsSeparator(s[0]) then (if inRun then [] else "-") + Scan(s[1..], true)
    else [s[0]] + Scan(s[1..], false)
  }

  /** Whether the scanner is inside a run after reading `a`. */
  function EndsInRun(a: string, inRun: bool): bool {
    if a == [] then inRun else IsSeparator(a[|a| - 1])
  }

  lemma {:induction false} ScanInsideRun(s: string)
    ensures Scan(s, true) == Scan(SkipRun(s), false)
    decreases |s|
  {
    if s != [] && IsSeparator(s[0]) {
      ScanInsideRun(s[1..]);
    }
  }

  /** The regular-expression replacement and the scanner agree on every input. */
  lemma {:induction false} ReplaceRunsIsScan(s: string)
    ensures ReplaceRuns(s) == Scan(s, false)
    decreases |s|
  {
    if s != [] {
      if IsSeparator(s[0]) {
        ScanInsideRun(s[1..]);
        assert SkipRun(s) == SkipRun(s[1..]);
        ReplaceRunsIsScan(SkipRun(s));
      } else {
        ReplaceRunsIsScan(s[1..]);
      }
    }
  }

  lemma {:induction false} ScanAppend(a: string, b: string, inRun: bool)
    ensures Scan(a + b, inRun) == Scan(a, inRun) + Scan(b, EndsInRun(a, inRun))
  {
    if a == [] {
      assert a + b == b;
    } else {
      assert (a + b)[1..] == a[1..] + b;
      ScanAppend(a[1..], b, IsSeparator(a[0]));
      if |a| > 1 {
        assert a[1..][|a[1..]| - 1] == a[|a| - 1];
      }
    }
  }

  /** Replacement distributes over a concatenation that does not split a run
      of separators. */
  lemma {:induction false} ReplaceRunsAppend(a: string, b: string)
    requires a == [] || b == [] || !IsSeparator(a[|a| - 1]) || !IsSeparator(b[0])
    ensures ReplaceRuns(a + b) == ReplaceRuns(a) + ReplaceRuns(b)
  {
    ReplaceRunsIsScan(a + b);
    ReplaceRunsIsScan(a);
    ReplaceRunsIsScan(b);
    ScanAppend(a, b, false);
    if EndsInRun(a, false) && b != [] {
      assert SkipRun(b) == b;
      ScanInsideRun(b);
    }
  }

  /** A whole run of separators, however long, becomes a single '-'. */
  lemma RunBecomesOneDash(u: string)
    requires u != [] && forall i :: 0 <= i < |u| ==> IsSeparator(u[i])
    ensures ReplaceRuns(u) == "-"
  {
  }

  /** Replacing twice is replacing once. */
  lemma Idempotent(s: string)
    ensures ReplaceRuns(ReplaceRuns(s)) == ReplaceRuns(s)
  {
  }

  /** The name of the file `init` opens. */
  function FileName(prefix: string, timestamp: string): (name: string)
    ensures |name| >= |prefix| + 4
    ensures name[..|prefix|] == prefix
    ensures name[|name| - 4..] == ".log"
    ensures SeparatorFree(name[|prefix|..|name| - 4])
    ensures name[|prefix|..|name| - 4] == ReplaceRuns(timestamp)
  {
    prefix + ReplaceRuns(timestamp) + ".log"
  }

  /** A separator-free `a` and `b` joined by a run `u` of separators become
      `a + "-" + b`. */
  lemma {:induction false} JoinedRun(a: string, u: string, b: string)
    requires SeparatorFree(a) && SeparatorFree(b)
    requires u != [] && forall i :: 0 <= i < |u| ==> IsSeparator(u[i])
    ensures ReplaceRuns(a + (u + b)) == a + ("-" + b)
  {
    var ub := u + b;
    assert b == [] || !IsSeparator(b[0]);
    ReplaceRunsAppend(u, b);
    RunBecomesOneDash(u);
    assert a == [] || !IsSeparator(a[|a| - 1]);
    ReplaceRunsAppend(a, ub);
  }

  /** A timestamp made of separator-free parts `a` and `b` joined by any run
      `u` of separators names the file `prefix + a + "-" + b + ".log"`; so two
      timestamps that differ only in the separators they use name the same file. */
  lemma {:induction false} RunInTimestamp(prefix: string, a: string, u: string, b: string)
    requires SeparatorFree(a) && SeparatorFree(b)
    requires u != [] && forall i :: 0 <= i < |u| ==> IsSeparator(u[i])
    ensures FileName(prefix, a + (u + b)) == prefix + a + "-" + b + ".log"
  {
    JoinedRun(a, u, b);
  }
}
