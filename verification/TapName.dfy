/** runtime/firecracker/runtime_linux.go: choosing a name for a TAP device. Strings are byte
    sequences here; a character is one byte. */
module TapName {
  import opened Wrappers
  import Text

  /** Names longer than this are refused by the kernel (IFNAMSIZ less the final NUL). */
  const MAX_LENGTH := 15

  const ATTEMPTS := 99

  /** The characters of an execution id that tell it from others. */
  function Unique(executionID: string): string {
    if |executionID| > 4 && executionID[..4] == "job-" then executionID[4..] else executionID
  }

  function GenerateTapName(executionID: string): string {
    var unique := Unique(executionID);
    "tap-" + if |unique| > 11 then unique[|unique| - 11..] else unique
  }

  function ShortBase(base: string): string {
    if |base| > 12 then base[..12] else base
  }

  /** The i-th suffixed name, cut to length as the source cuts it. */
  function Candidate(base: string, i: nat): string {
    var name := ShortBase(base) + "-" + Text.DecNat(i);
    if |name| > MAX_LENGTH then name[..MAX_LENGTH] else name
  }

  predicate SearchFails(executionID: string, devices: set<string>) {
    var base := GenerateTapName(executionID);
    base in devices && forall i :: 1 <= i <= ATTEMPTS ==> Candidate(base, i) in devices
  }

  /** `devices` are the names net.InterfaceByName finds. */
  method FindUniqueTapName(executionID: string, devices: set<string>) returns (found: Option<string>)
    ensures var base := GenerateTapName(executionID);
            match found
            case Some(name) =>
              && name !in devices && |name| <= MAX_LENGTH
              && (name == base
                  || (base in devices
                      && exists i :: 1 <= i <= ATTEMPTS && name == Candidate(base, i)
                                     && forall j :: 1 <= j < i ==> Candidate(base, j) in devices))
            case None => SearchFails(executionID, devices)
  {
    var baseName := GenerateTapName(executionID);
    if baseName !in devices {
      return Some(baseName);
    }
    var shortBase := baseName;
    if |shortBase| > 12 {
      shortBase := shortBase[..12];
    }
    var i := 1;
    while i <= ATTEMPTS
      invariant 1 <= i <= ATTEMPTS + 1
      invariant forall j :: 1 <= j < i ==> Candidate(baseName, j) in devices
    {
      var candidate := shortBase + "-" + Text.DecNat(i);
      if |candidate| > MAX_LENGTH {
        candidate := candidate[..MAX_LENGTH];
      }
      assert candidate == Candidate(baseName, i);
      if candidate !in devices {
        return Some(candidate);
      }
      i := i + 1;
    }
    return None;
  }

  // ----- what the names look like -----

  /** The base is as much of the end of the unique characters as fits. */
  lemma BaseKeepsTheEnd(executionID: string)
    ensures var base, unique := GenerateTapName(executionID), Unique(executionID);
            && 4 <= |base| <= MAX_LENGTH && base[..4] == "tap-"
            && |base[4..]| <= |unique| && base[4..] == unique[|unique| - |base[4..]|..]
            && (|base| < MAX_LENGTH ==> base[4..] == unique)
  {
    var unique := Unique(executionID);
    assert GenerateTapName(executionID)[..4] == "tap-";
  }

  /** So two ids share a base exactly when these end alike in the length that fits. */
  lemma BasesCollideExactlyWhen(a: string, b: string)
    requires |Unique(a)| >= 11 && |Unique(b)| >= 11
    ensures GenerateTapName(a) == GenerateTapName(b) <==>
              Unique(a)[|Unique(a)| - 11..] == Unique(b)[|Unique(b)| - 11..]
  {
    BaseKeepsTheEnd(a);
    BaseKeepsTheEnd(b);
    assert GenerateTapName(a) == "tap-" + GenerateTapName(a)[4..];
    assert GenerateTapName(b) == "tap-" + GenerateTapName(b)[4..];
  }

  /** The `job-` in front of an id makes no difference. */
  lemma PrefixDoesNotCount(unique: string)
    requires unique != "" && !("job-" <= unique)
    ensures GenerateTapName("job-" + unique) == GenerateTapName(unique)
  {
    assert ("job-" + unique)[..4] == "job-" && ("job-" + unique)[4..] == unique;
    assert |unique| > 4 ==> (unique[..4] == "job-" <==> "job-" <= unique);
  }

  /** A suffixed name keeps all of a short base, and the most of a long one that leaves room for two
      digits. */
  lemma CandidateUsesTheRoom(base: string, i: nat)
    requires 10 <= i <= ATTEMPTS
    ensures if |base| <= 12 then Candidate(base, i) == base + "-" + Text.DecNat(i)
            else |Candidate(base, i)| == MAX_LENGTH && Candidate(base, i)[..12] == base[..12]
  {
    CandidateIsComplete(base, i);
    assert |Text.DecNat(i / 10)| == 1;
  }

  // ----- how many names there are -----

  /** The cut never happens: every suffixed name is complete. */
  lemma CandidateIsComplete(base: string, i: nat)
    requires i <= ATTEMPTS
    ensures Candidate(base, i) == ShortBase(base) + "-" + Text.DecNat(i)
  {
    var digits := Text.DecNat(i);
    if i >= 10 {
      assert |Text.DecNat(i / 10)| == 1;
    }
    assert |digits| <= 2;
  }

  lemma CandidatesDiffer(base: string, i: nat, j: nat)
    requires i <= ATTEMPTS && j <= ATTEMPTS && Candidate(base, i) == Candidate(base, j)
    ensures i == j
  {
    CandidateIsComplete(base, i);
    CandidateIsComplete(base, j);
    Text.PrefixedDecInjective(ShortBase(base) + "-", i, j);
  }

  function Candidates(base: string, n: nat): set<string> {
    set i | 1 <= i <= n :: Candidate(base, i)
  }

  lemma {:induction false} CandidatesCount(base: string, n: nat)
    requires n <= ATTEMPTS
    ensures |Candidates(base, n)| == n
  {
    hide Candidate;
    if n == 0 {
      assert Candidates(base, 0) == {};
    } else {
      CandidatesCount(base, n - 1);
      assert Candidates(base, n) == Candidates(base, n - 1) + {Candidate(base, n)};
      if Candidate(base, n) in Candidates(base, n - 1) {
        var i :| 1 <= i <= n - 1 && Candidate(base, i) == Candidate(base, n);
        CandidatesDiffer(base, i, n);
        assert false;
      }
    }
  }

  /** Every name the search may try. */
  function Names(executionID: string): set<string> {
    var base := GenerateTapName(executionID);
    {base} + Candidates(base, ATTEMPTS)
  }

  lemma SubsetIsNoLarger(a: set<string>, b: set<string>)
    requires a <= b
    ensures |a| <= |b|
  {
    assert b == a + (b - a);
  }

  /** The search fails exactly when all its names are taken: 99 distinct ones when the base
      already has the shape of a suffixed name, 100 otherwise. */
  lemma SearchFailsExactlyWhenCrowded(executionID: string, devices: set<string>)
    ensures SearchFails(executionID, devices) <==> Names(executionID) <= devices
    ensures |Names(executionID)| ==
            if GenerateTapName(executionID) in Candidates(GenerateTapName(executionID), ATTEMPTS) then 99 else 100
    ensures SearchFails(executionID, devices) ==> |devices| >= 99
  {
    hide Candidate, GenerateTapName;
    var base := GenerateTapName(executionID);
    CandidatesCount(base, ATTEMPTS);
    if SearchFails(executionID, devices) {
      SubsetIsNoLarger(Names(executionID), devices);
    }
    if Names(executionID) <= devices {
      forall i | 1 <= i <= ATTEMPTS ensures Candidate(base, i) in devices {
        assert Candidate(base, i) in Candidates(base, ATTEMPTS);
      }
    }
  }

  /** The coincidence does occur: 99 devices can be enough to make the search fail. */
  lemma BaseMayBeACandidate()
    ensures var base := GenerateTapName("job-73062443-12"); base in Candidates(base, ATTEMPTS)
  {
    var base := GenerateTapName("job-73062443-12");
    assert base == "tap-73062443-12";
    assert ShortBase(base) == "tap-73062443";
    assert Text.DecNat(12) == Text.DecNat(1) + [Text.Digit(2)] == "12";
    CandidateIsComplete(base, 12);
    assert Candidate(base, 12) == base;
  }
}
