/**
 * Broker-minted unique session names: `_createUniqueSession` of
 * packages/driver/src/server-proxy.ts.
 */
module UniqueNames {
  import opened Prelude

  const DEFAULT_BASE := "tmuxcc"

  // ---------------------------------------------------------------------
  // Decimal numerals
  // ---------------------------------------------------------------------

  function Digit(d: nat): char
    requires d < 10
  {
    '0' + d as char
  }

  function Decimal(n: nat): string {
    if n < 10 then [Digit(n)] else Decimal(n / 10) + [Digit(n % 10)]
  }

  predicate AllDigits(s: string) {
    forall i | 0 <= i < |s| :: '0' <= s[i] <= '9'
  }

  function Value(s: string): nat
    requires AllDigits(s)
  {
    if s == "" then 0 else Value(s[..|s| - 1]) * 10 + (s[|s| - 1] - '0') as nat
  }

  lemma {:induction false} DecimalValue(n: nat)
    ensures AllDigits(Decimal(n)) && Decimal(n) != "" && Value(Decimal(n)) == n
  {
    if n < 10 {
      assert Decimal(n)[..0] == "";
    } else {
      DecimalValue(n / 10);
      assert Decimal(n)[..|Decimal(n)| - 1] == Decimal(n / 10);
    }
  }

  // ---------------------------------------------------------------------
  // Candidates
  // ---------------------------------------------------------------------

  /** White space and line terminators, as String.prototype.trim takes them. */
  predicate IsSpace(c: char) {
    || '\t' <= c <= '\r' || c == ' ' || c == '\U{A0}' || c == '\U{1680}' || '\U{2000}' <= c <= '\U{200A}'
    || c == '\U{2028}' || c == '\U{2029}' || c == '\U{202F}' || c == '\U{205F}' || c == '\U{3000}' || c == '\U{FEFF}'
  }

  function TrimLeft(s: string): string {
    if s != "" && IsSpace(s[0]) then TrimLeft(s[1..]) else s
  }

  function TrimRight(s: string): string {
    if s != "" && IsSpace(s[|s| - 1]) then TrimRight(s[..|s| - 1]) else s
  }

  /** `(baseName ?? "").trim() || "tmuxcc"`. */
  function Base(baseName: Option<string>): string {
    var trimmed := TrimRight(TrimLeft(if baseName.Some? then baseName.value else ""));
    if trimmed == "" then DEFAULT_BASE else trimmed
  }

  function Candidate(base: string, attempt: nat): string {
    if attempt == 0 then base else base + "-" + Decimal(attempt + 1)
  }

  lemma {:induction false} TrimLeftClean(s: string)
    ensures TrimLeft(s) != "" ==> !IsSpace(TrimLeft(s)[0])
  {
    if s != "" {
      TrimLeftClean(s[1..]);
    }
  }

  lemma {:induction false} TrimRightClean(s: string)
    ensures TrimRight(s) <= s
    ensures TrimRight(s) != "" ==> !IsSpace(TrimRight(s)[|TrimRight(s)| - 1])
  {
    if s != "" {
      TrimRightClean(s[..|s| - 1]);
    }
  }

  /** The base never is empty and neither begins nor ends with space. */
  lemma BaseIsProper(baseName: Option<string>)
    ensures var b := Base(baseName); b != "" && !IsSpace(b[0]) && !IsSpace(b[|b| - 1])
  {
    var s := if baseName.Some? then baseName.value else "";
    TrimLeftClean(s);
    TrimRightClean(TrimLeft(s));
  }

  predicate AllSpace(s: string) {
    forall i | 0 <= i < |s| :: IsSpace(s[i])
  }

  lemma {:induction false} TrimLeftCuts(s: string) returns (front: string)
    ensures s == front + TrimLeft(s) && AllSpace(front)
  {
    front := "";
    if s != "" && IsSpace(s[0]) {
      var more := TrimLeftCuts(s[1..]);
      front := [s[0]] + more;
      assert s == [s[0]] + s[1..];
    }
  }

  lemma {:induction false} TrimRightCuts(s: string) returns (back: string)
    ensures s == TrimRight(s) + back && AllSpace(back)
  {
    back := "";
    if s != "" && IsSpace(s[|s| - 1]) {
      var more := TrimRightCuts(s[..|s| - 1]);
      back := more + [s[|s| - 1]];
      assert s == s[..|s| - 1] + [s[|s| - 1]];
    }
  }

  /**
   * Nothing but the space around it is taken off the name asked for; of a name
   * that is missing or all space nothing is left, and the default stands in.
   */
  lemma BaseIsTrimmed(baseName: Option<string>) returns (front: string, back: string)
    ensures var s := if baseName.Some? then baseName.value else "";
      && AllSpace(front) && AllSpace(back)
      && (if AllSpace(s) then Base(baseName) == "tmuxcc" else s == front + Base(baseName) + back)
  {
    var s := if baseName.Some? then baseName.value else "";
    front := TrimLeftCuts(s);
    back := TrimRightCuts(TrimLeft(s));
    var trimmed := TrimRight(TrimLeft(s));
    assert s == front + trimmed + back;
    assert trimmed != "" ==> s[|front|] == trimmed[0];
    TrimLeftClean(s);
    TrimRightClean(TrimLeft(s));
  }

  /** The first candidate is the base itself, the k-th is the base, a dash and a numeral that reads k. */
  lemma CandidateReads(base: string, attempt: nat)
    ensures attempt == 0 ==> Candidate(base, attempt) == base
    ensures attempt > 0 ==>
      var c, n := Candidate(base, attempt), |base| + 1;
      |c| > n && c[..n] == base + "-" && AllDigits(c[n..]) && Value(c[n..]) == attempt + 1
  {
    DecimalValue(attempt + 1);
    if attempt > 0 {
      assert Candidate(base, attempt)[|base| + 1..] == Decimal(attempt + 1);
    }
  }

  /** base, base-2, base-3, ... are pairwise distinct. */
  lemma CandidatesDiffer(base: string, a: nat, b: nat)
    requires a != b
    ensures Candidate(base, a) != Candidate(base, b)
  {
    DecimalValue(a + 1);
    DecimalValue(b + 1);
    var n := |base| + 1;
    if a > 0 && b > 0 {
      assert Candidate(base, a)[n..] == Decimal(a + 1);
      assert Candidate(base, b)[n..] == Decimal(b + 1);
    }
  }

  function Tried(base: string, n: nat): set<string> {
    set k | 0 <= k < n :: Candidate(base, k)
  }

  lemma {:induction false} TriedCount(base: string, n: nat)
    ensures |Tried(base, n)| == n
  {
    if n > 0 {
      TriedCount(base, n - 1);
      TriedStep(base, n - 1);
    }
  }

  lemma TriedStep(base: string, n: nat)
    ensures Tried(base, n + 1) == Tried(base, n) + {Candidate(base, n)}
    ensures Candidate(base, n) !in Tried(base, n)
  {
    forall k | 0 <= k < n ensures Candidate(base, k) != Candidate(base, n) {
      CandidatesDiffer(base, k, n);
    }
  }

  lemma {:induction false} SubsetCount<T>(small: set<T>, large: set<T>)
    requires small <= large
    ensures |small| <= |large|
  {
    if x :| x in small {
      SubsetCount(small - {x}, large - {x});
    }
  }

  /** Pigeonhole: some candidate among the first |taken| + 1 is free. */
  lemma SomeCandidateIsFree(base: string, taken: set<string>, n: nat)
    requires Tried(base, n) <= taken
    ensures n <= |taken|
  {
    TriedCount(base, n);
    SubsetCount(Tried(base, n), taken);
  }

  // ---------------------------------------------------------------------
  // The loop
  // ---------------------------------------------------------------------

  /**
   * The candidate loop against fixed sets of names: `inUse` are in the table or
   * in flight and skipped unclaimed, `lost` are those another client mints
   * first, so that the claim reports created as false.
   */
  method CreateUnique(baseName: Option<string>, inUse: set<string>, lost: set<string>)
    returns (name: string, attempts: nat, claimed: seq<string>)
    ensures var base := Base(baseName);
      && attempts <= |inUse + lost|
      && name == Candidate(base, attempts) && name !in inUse + lost
      && (forall k | 0 <= k < attempts :: Candidate(base, k) in inUse + lost)
      && claimed != [] && claimed[|claimed| - 1] == name
      && (forall i | 0 <= i < |claimed| :: claimed[i] !in inUse)
      && (forall k | 0 <= k <= attempts && Candidate(base, k) !in inUse :: Candidate(base, k) in claimed)
  {
    hide Decimal, Candidate;
    var base := Base(baseName);
    attempts, claimed := 0, [];
    while true
      invariant Tried(base, attempts) <= inUse + lost
      invariant forall k | 0 <= k < attempts :: Candidate(base, k) in inUse + lost
      invariant forall i | 0 <= i < |claimed| :: claimed[i] !in inUse
      invariant forall k | 0 <= k < attempts && Candidate(base, k) !in inUse :: Candidate(base, k) in claimed
      decreases inUse + lost - Tried(base, attempts)
    {
      TriedStep(base, attempts);
      var candidate := Candidate(base, attempts);
      if candidate !in inUse {
        claimed := claimed + [candidate];
        if candidate !in lost {
          SomeCandidateIsFree(base, inUse + lost, attempts);
          return candidate, attempts, claimed;
        }
      }
      attempts := attempts + 1;
    }
  }
}
