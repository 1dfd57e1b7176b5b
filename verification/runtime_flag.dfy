/**
 * The runtime-to-flag step of `tailorOneAgentModule`: the runtime string is
 * matched against the unanchored regular expression
 * `/nodejs([0-9]+).[0-9.]+/`, whose `.` is unescaped and so matches any
 * character but a line terminator, and group 1 becomes `--AwsLambdaV<group>`.
 * A character here is a Unicode code point; JavaScript, lacking the `u` flag,
 * would match UTF-16 code units instead.
 */
module RuntimeFlag {
  import opened Wrappers

  const Literal := "nodejs"
  const FlagPrefix := "--AwsLambdaV"

  predicate IsDigit(c: char) {
    '0' <= c <= '9'
  }

  predicate AllDigits(s: string) {
    forall j :: 0 <= j < |s| ==> IsDigit(s[j])
  }

  /** The characters an unescaped `.` does not match. */
  predicate IsLineTerminator(c: char) {
    c == '\n' || c == '\r' || c == '\U{2028}' || c == '\U{2029}'
  }

  /** At `dot`, the rest of the pattern (`.[0-9.]+`) can match: one non-terminator, then a digit or `.`. */
  predicate TailMatches(s: string, dot: nat) {
    dot + 1 < |s| && !IsLineTerminator(s[dot]) && (IsDigit(s[dot + 1]) || s[dot + 1] == '.')
  }

  /** `nodejs` occurs at `start`. */
  predicate LiteralAt(s: string, start: nat) {
    start + |Literal| <= |s| && s[start..start + |Literal|] == Literal
  }

  /** The whole pattern matches at `start` with group 1 `len` characters long. */
  predicate MatchesAt(s: string, start: nat, len: nat) {
    && 1 <= len
    && start + |Literal| + len <= |s|
    && LiteralAt(s, start)
    && AllDigits(s[start + |Literal|..start + |Literal| + len])
    && TailMatches(s, start + |Literal| + len)
  }

  /** The match `exec` reports: the leftmost start, and there the longest group (greedy `+`). */
  ghost predicate LeftmostGreedy(s: string, start: nat, len: nat) {
    && MatchesAt(s, start, len)
    && (forall i: nat, k: nat :: i < start ==> !MatchesAt(s, i, k))
    && (forall k: nat :: len < k ==> !MatchesAt(s, start, k))
  }

  /** The length of the run of digits starting at `from`. */
  function DigitRun(s: string, from: nat): (n: nat)
    requires from <= |s|
    ensures from + n <= |s|
    ensures AllDigits(s[from..from + n])
    ensures from + n == |s| || !IsDigit(s[from + n])
    decreases |s| - from
  {
    if from < |s| && IsDigit(s[from]) then
      var n := 1 + DigitRun(s, from + 1);
      assert s[from..from + n] == [s[from]] + s[from + 1..from + n];
      n
    else
      0
  }

  /** Group 1 longer than the digit run cannot match. */
  lemma BeyondRun(s: string, start: nat, k: nat)
    requires start + |Literal| <= |s|
    requires k > DigitRun(s, start + |Literal|)
    ensures !MatchesAt(s, start, k)
  {
  }

  /** Backtracking of the greedy group: tries lengths `len`, `len - 1`, …, 1. */
  function Backtrack(s: string, start: nat, len: nat): (r: Option<nat>)
    requires start + |Literal| + len <= |s|
    requires s[start..start + |Literal|] == Literal
    requires AllDigits(s[start + |Literal|..start + |Literal| + len])
    ensures r.Some? ==> r.value <= len && MatchesAt(s, start, r.value)
    ensures r.Some? ==> forall k: nat :: r.value < k <= len ==> !MatchesAt(s, start, k)
    ensures r.None? ==> forall k: nat :: k <= len ==> !MatchesAt(s, start, k)
    decreases len
  {
    if len == 0 then None
    else if TailMatches(s, start + |Literal| + len) then Some(len)
    else
      var from := start + |Literal|;
      assert s[from..from + len - 1] == s[from..from + len][..len - 1];
      Backtrack(s, start, len - 1)
  }

  /** The match attempt at one start position: longest matching group, if any. */
  function MatchAt(s: string, start: nat): (r: Option<nat>)
    ensures r.Some? ==> MatchesAt(s, start, r.value)
    ensures r.Some? ==> forall k: nat :: r.value < k ==> !MatchesAt(s, start, k)
    ensures r.None? ==> forall k: nat :: !MatchesAt(s, start, k)
  {
    if LiteralAt(s, start) then
      var run := DigitRun(s, start + |Literal|);
      var r := Backtrack(s, start, run);
      assert forall k: nat :: run < k ==> !MatchesAt(s, start, k) by {
        forall k | run < k ensures !MatchesAt(s, start, k) {
          BeyondRun(s, start, k);
        }
      }
      r
    else
      None
  }

  /** The scan over start positions from `from` on: the first that matches. */
  function Search(s: string, from: nat): (r: Option<(nat, nat)>)
    ensures r.Some? ==> from <= r.value.0 && LeftmostGreedyFrom(s, from, r.value.0, r.value.1)
    ensures r.None? ==> forall i: nat, k: nat :: from <= i ==> !MatchesAt(s, i, k)
    decreases |s| - from
  {
    if |s| < from then None
    else
      match MatchAt(s, from)
      case Some(len) => Some((from, len))
      case None => Search(s, from + 1)
  }

  /** A leftmost-greedy match among the starts at or after `from`. */
  ghost predicate LeftmostGreedyFrom(s: string, from: nat, start: nat, len: nat) {
    && MatchesAt(s, start, len)
    && (forall i: nat, k: nat :: from <= i < start ==> !MatchesAt(s, i, k))
    && (forall k: nat :: len < k ==> !MatchesAt(s, start, k))
  }

  /** `exec`: start and group length of the reported match, if the pattern matches at all. */
  function Exec(s: string): (r: Option<(nat, nat)>)
    ensures r.Some? ==> LeftmostGreedy(s, r.value.0, r.value.1)
    ensures r.None? <==> forall i: nat, k: nat :: !MatchesAt(s, i, k)
  {
    Search(s, 0)
  }

  /** The argument list the tailoring executable is started with, or None for an unsupported runtime. */
  function TailorArgs(runtime: string): (r: Option<seq<string>>)
    ensures r.None? <==> forall i: nat, k: nat :: !MatchesAt(runtime, i, k)
    ensures r.Some? ==> exists i: nat, k: nat :: LeftmostGreedy(runtime, i, k) && r.value == [FlagPrefix + runtime[i + |Literal|..i + |Literal| + k]]
  {
    match Exec(runtime)
    case None => None
    case Some((start, len)) => Some([FlagPrefix + runtime[start + |Literal|..start + |Literal| + len]])
  }

  /** A match whose group covers the digits up to a non-digit is the one `exec` reports. */
  lemma ReportedMatch(s: string, len: nat)
    requires MatchesAt(s, 0, len)
    requires |Literal| + len < |s| && !IsDigit(s[|Literal| + len])
    ensures TailorArgs(s) == Some([FlagPrefix + s[|Literal|..|Literal| + len]])
  {
  }

  /** `nodejs<N>.<M>` with digit strings N and M yields the single flag `--AwsLambdaV<N>`. */
  lemma {:induction false} FlagForNodeVersion(major: string, minor: string)
    requires |major| >= 1 && AllDigits(major)
    requires |minor| >= 1 && AllDigits(minor)
    ensures TailorArgs(Literal + major + "." + minor) == Some([FlagPrefix + major])
  {
    var s := Literal + major + "." + minor;
    assert s[..|Literal|] == Literal;
    assert s[|Literal|..|Literal| + |major|] == major;
    assert s[|Literal| + |major|] == '.';
    assert s[|Literal| + |major| + 1] == minor[0];
    assert MatchesAt(s, 0, |major|);
    ReportedMatch(s, |major|);
  }

  /**
   * `nodejs<N>.x` with a major of two or more digits: the `.x` suffix defeats
   * the full group, backtracking gives up its last digit, and the flag carries
   * the major version without its last digit (`nodejs12.x` gives `--AwsLambdaV1`).
   */
  lemma {:induction false} FlagDropsLastDigitBeforeX(major: string)
    requires |major| >= 2 && AllDigits(major)
    ensures TailorArgs(Literal + major + ".x") == Some([FlagPrefix + major[..|major| - 1]])
  {
    var s := Literal + major + ".x";
    var n := |major| - 1;
    assert s[|Literal|..|Literal| + n] == major[..n];
    assert s[|Literal| + n] == major[n];
    assert s[|Literal| + n + 1] == '.';
    assert MatchesAt(s, 0, n);
    assert !TailMatches(s, |Literal| + |major|);
    assert s[|Literal| + |major|] == '.';
    assert !MatchesAt(s, 0, |major|);
    var r := Exec(s);
    var (start, k) := r.value;
    assert start == 0;
    assert k >= n;
  }

  /** A runtime in which `nodejs` does not occur is unsupported. */
  lemma NonNodeRuntimeUnsupported(runtime: string)
    requires forall i: nat :: !LiteralAt(runtime, i)
    ensures TailorArgs(runtime).None?
  {
  }
}
