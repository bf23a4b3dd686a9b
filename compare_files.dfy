/** The readout validation comparator of pipeline/readout/compareFiles.py.
    Two printed readout descriptions are trimmed up to their header marker and
    then compared line by line on their digit characters only. File reading,
    printing and the process exit are modelled as values: the text of each file
    is a sequence of lines, and the outcome records the exit code and the
    XX/YY lines that would be printed. */
module CompareFiles {

  const Marker: string := "Number of readout planes"

  /** At most MaxN + 1 line pairs are compared before the early exit. */
  const MaxN: nat := 2700

  /** Whitespace removed by Python's str.rstrip() (ASCII subset). */
  predicate IsSpace(c: char) {
    c == ' ' || c == '\t' || c == '\n' || c == '\r' || c == '\U{000B}' || c == '\U{000C}'
  }

  /** Characters kept by str.isdigit (ASCII subset). */
  predicate IsDigit(c: char) {
    '0' <= c <= '9'
  }

  /** str.rstrip(): drops trailing whitespace. */
  function RStrip(s: string): (r: string)
    ensures |r| <= |s| && r == s[..|r|]
    ensures r == [] || !IsSpace(r[|r| - 1])
    ensures forall i :: |r| <= i < |s| ==> IsSpace(s[i])
  {
    if s == [] then []
    else if IsSpace(s[|s| - 1]) then RStrip(s[..|s| - 1])
    else s
  }

  predicate OccursAt(s: string, sub: string, k: int) {
    0 <= k && k + |sub| <= |s| && s[k..k + |sub|] == sub
  }

  /** str.find(): the lowest index where sub occurs in s, -1 when it does not. */
  function Find(s: string, sub: string): (r: int)
    ensures -1 <= r
    ensures r == -1 <==> forall k :: 0 <= k <= |s| ==> !OccursAt(s, sub, k)
    ensures r >= 0 ==> OccursAt(s, sub, r) && forall k :: 0 <= k < r ==> !OccursAt(s, sub, k)
    decreases |s|
  {
    if |sub| <= |s| && s[..|sub|] == sub then
      assert OccursAt(s, sub, 0);
      0
    else if s == [] then
      -1
    else
      var r := Find(s[1..], sub);
      assert forall k :: 1 <= k <= |s| ==> (OccursAt(s, sub, k) <==> OccursAt(s[1..], sub, k - 1)) by {
        forall k | 1 <= k <= |s| ensures OccursAt(s, sub, k) <==> OccursAt(s[1..], sub, k - 1) {
          if k + |sub| <= |s| {
            assert s[k..k + |sub|] == s[1..][k - 1..k - 1 + |sub|];
          }
        }
      }
      assert !OccursAt(s, sub, 0);
      if r == -1 then -1
      else
        assert OccursAt(s, sub, r + 1);
        r + 1
  }

  /** The test of line 13/21: the stripped line contains the marker. */
  predicate IsMarkerLine(line: string) {
    Find(RStrip(line), Marker) >= 0
  }

  /** What the trimming loop leaves: everything after the first marker line,
      or nothing at all when no line carries the marker. */
  function Trimmed(lines: seq<string>): seq<string> {
    if lines == [] then []
    else if IsMarkerLine(lines[0]) then lines[1..]
    else Trimmed(lines[1..])
  }

  /** The pop(0) loop of lines 9-15 (and, on the other file, 17-23). */
  method TrimHeader(text: seq<string>) returns (rest: seq<string>)
    ensures rest == Trimmed(text)
  {
    rest := text;
    var stopRemoving := false;
    while !stopRemoving
      invariant if stopRemoving then rest == Trimmed(text) else Trimmed(rest) == Trimmed(text)
      decreases |rest|, if stopRemoving then 0 else 1
    {
      if |rest| == 0 {
        break;
      }
      if IsMarkerLine(rest[0]) {
        stopRemoving := true;
      }
      rest := rest[1..];
    }
  }

  lemma {:induction false} TrimmedAfterFirstMarker(lines: seq<string>, k: nat)
    requires k < |lines| && IsMarkerLine(lines[k])
    requires forall j :: 0 <= j < k ==> !IsMarkerLine(lines[j])
    ensures Trimmed(lines) == lines[k + 1..]
  {
    if k > 0 {
      TrimmedAfterFirstMarker(lines[1..], k - 1);
      assert lines[1..][k..] == lines[k + 1..];
    }
  }

  lemma {:induction false} TrimmedWithoutMarker(lines: seq<string>)
    requires forall j :: 0 <= j < |lines| ==> !IsMarkerLine(lines[j])
    ensures Trimmed(lines) == []
  {
    if lines != [] {
      TrimmedWithoutMarker(lines[1..]);
    }
  }

  /** "".join(filter(str.isdigit, s)) */
  function Digits(s: string): (r: string)
    ensures |r| <= |s|
    ensures forall i :: 0 <= i < |r| ==> IsDigit(r[i])
  {
    if s == [] then []
    else if IsDigit(s[0]) then [s[0]] + Digits(s[1..])
    else Digits(s[1..])
  }

  lemma {:induction false} DigitsOfDigitString(s: string)
    requires forall i :: 0 <= i < |s| ==> IsDigit(s[i])
    ensures Digits(s) == s
  {
    if s != [] {
      DigitsOfDigitString(s[1..]);
    }
  }

  lemma {:induction false} DigitsAppend(a: string, b: string)
    ensures Digits(a + b) == Digits(a) + Digits(b)
  {
    if a != [] {
      assert (a + b)[0] == a[0] && (a + b)[1..] == a[1..] + b;
      DigitsAppend(a[1..], b);
    } else {
      assert a + b == b;
    }
  }

  lemma {:induction false} DigitsOfSpaces(s: string)
    requires forall i :: 0 <= i < |s| ==> IsSpace(s[i])
    ensures Digits(s) == []
  {
    if s != [] {
      DigitsOfSpaces(s[1..]);
    }
  }

  /** Stripping trailing whitespace never changes which digits a line holds. */
  lemma DigitsIgnoreRStrip(s: string)
    ensures Digits(RStrip(s)) == Digits(s)
  {
    var r := RStrip(s);
    assert s == r + s[|r|..];
    DigitsAppend(r, s[|r|..]);
    DigitsOfSpaces(s[|r|..]);
  }

  /** The test of line 36. */
  predicate LinesDiffer(l1: string, l2: string) {
    Digits(RStrip(l1)) != Digits(RStrip(l2))
  }

  /** The two lines printed after "XX:" and "YY:" for one mismatch. */
  datatype Mismatch = Mismatch(xx: string, yy: string)

  /** The end of the script: sys.exit(code) after printing the mismatches, or an
      uncaught IndexError when the second file runs out of lines. */
  datatype Outcome = Exit(code: int, report: seq<Mismatch>) | IndexError(report: seq<Mismatch>)

  /** Number of pairs the loop compares when the second file is long enough. */
  function ComparedCount(n1: nat): nat {
    if n1 <= MaxN + 1 then n1 else MaxN + 1
  }

  /** The XX/YY pairs printed for the first k line pairs. */
  function Report(f1: seq<string>, f2: seq<string>, k: nat): seq<Mismatch>
    requires k <= |f1| && k <= |f2|
  {
    if k == 0 then []
    else
      var before := Report(f1, f2, k - 1);
      if LinesDiffer(f1[k - 1], f2[k - 1]) then before + [Mismatch(RStrip(f1[k - 1]), RStrip(f2[k - 1]))]
      else before
  }

  /** Some of the first k line pairs differ in their digits. */
  predicate SomeDiffer(f1: seq<string>, f2: seq<string>, k: nat)
    requires k <= |f1| && k <= |f2|
  {
    exists i :: 0 <= i < k && LinesDiffer(f1[i], f2[i])
  }

  lemma SomeDifferStep(f1: seq<string>, f2: seq<string>, k: nat)
    requires k < |f1| && k < |f2|
    ensures SomeDiffer(f1, f2, k + 1) <==> SomeDiffer(f1, f2, k) || LinesDiffer(f1[k], f2[k])
  {
    if SomeDiffer(f1, f2, k + 1) && !LinesDiffer(f1[k], f2[k]) {
      var i :| 0 <= i < k + 1 && LinesDiffer(f1[i], f2[i]);
      assert i < k;
    }
  }

  /** Reference definition of the comparison of two trimmed texts. */
  function CompareSpec(f1: seq<string>, f2: seq<string>): Outcome {
    var c := ComparedCount(|f1|);
    if |f2| < c then IndexError(Report(f1, f2, |f2|))
    else Exit(if SomeDiffer(f1, f2, c) then 1 else 0, Report(f1, f2, c))
  }

  /** The for-loop of lines 25-47 over the already trimmed texts. */
  method CompareLines(f1: seq<string>, f2: seq<string>) returns (o: Outcome)
    ensures o == CompareSpec(f1, f2)
  {
    var result := 0;
    var report: seq<Mismatch> := [];
    var n := 0;
    while n < |f1|
      invariant 0 <= n <= |f1| && n <= MaxN && n <= |f2|
      invariant report == Report(f1, f2, n)
      invariant result == if SomeDiffer(f1, f2, n) then 1 else 0
    {
      if n >= |f2| {
        return IndexError(report);
      }
      SomeDifferStep(f1, f2, n);
      if LinesDiffer(f1[n], f2[n]) {
        report := report + [Mismatch(RStrip(f1[n]), RStrip(f2[n]))];
        result := 1;
      }
      n := n + 1;
      if n > MaxN {
        return Exit(result, report);
      }
    }
    return Exit(result, report);
  }

  /** The whole script: both texts trimmed independently, then compared. */
  method ValidateReadout(text1: seq<string>, text2: seq<string>) returns (o: Outcome)
    ensures o == CompareSpec(Trimmed(text1), Trimmed(text2))
  {
    var f1 := TrimHeader(text1);
    var f2 := TrimHeader(text2);
    o := CompareLines(f1, f2);
  }

  /** Every printed pair really is a digit mismatch, one per differing line pair. */
  lemma {:induction false} ReportIsMismatches(f1: seq<string>, f2: seq<string>, k: nat)
    requires k <= |f1| && k <= |f2|
    ensures |Report(f1, f2, k)| <= k
    ensures forall m :: m in Report(f1, f2, k) ==> Digits(m.xx) != Digits(m.yy)
    ensures SomeDiffer(f1, f2, k) <==> Report(f1, f2, k) != []
  {
    if k > 0 {
      ReportIsMismatches(f1, f2, k - 1);
      SomeDifferStep(f1, f2, k - 1);
      if LinesDiffer(f1[k - 1], f2[k - 1]) {
        assert Report(f1, f2, k)[|Report(f1, f2, k)| - 1] == Mismatch(RStrip(f1[k - 1]), RStrip(f2[k - 1]));
      }
    }
  }

  /** The exit code is 1 exactly when some mismatch was printed, and at most
      MaxN + 1 pairs are ever compared. */
  lemma ExitCodeMeansMismatch(f1: seq<string>, f2: seq<string>)
    ensures CompareSpec(f1, f2).Exit? ==> CompareSpec(f1, f2).code in {0, 1}
    ensures CompareSpec(f1, f2).Exit? ==>
              (CompareSpec(f1, f2).code == 1 <==> CompareSpec(f1, f2).report != [])
    ensures |CompareSpec(f1, f2).report| <= MaxN + 1
    ensures CompareSpec(f1, f2).IndexError? <==> |f2| < |f1| && |f2| <= MaxN
  {
    var c := ComparedCount(|f1|);
    if |f2| < c {
      ReportIsMismatches(f1, f2, |f2|);
    } else {
      ReportIsMismatches(f1, f2, c);
    }
  }

  /** Identical texts always validate. */
  lemma {:induction false} SameTextPasses(text: seq<string>)
    ensures CompareSpec(Trimmed(text), Trimmed(text)) == Exit(0, Report(Trimmed(text), Trimmed(text), ComparedCount(|Trimmed(text)|)))
    ensures CompareSpec(Trimmed(text), Trimmed(text)).report == []
  {
    var f := Trimmed(text);
    ReportIsMismatches(f, f, ComparedCount(|f|));
  }
}
