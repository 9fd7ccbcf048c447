/**
 * The seed job store of src/lib/jobs.ts: a module-level array of four jobs,
 * `getJobs`, which sorts that array in place newest first and returns it, and
 * `getJobById`, a first-match search over the same array.
 */
module Jobs {
  import opened Wrappers
  import opened Types

  // ---------------------------------------------------------------------------
  // The seed set. Posting dates are the given UTC instants in milliseconds.
  // Long texts are written as concatenations of short literals, which the
  // verifier handles far more cheaply than one long literal; the strings are
  // the same.
  // ---------------------------------------------------------------------------

  /** 2024-07-15T09:00:00Z */
  const POSTED_1: Timestamp := 1721034000000
  /** 2024-07-20T14:30:00Z */
  const POSTED_2: Timestamp := 1721485800000
  /** 2024-07-10T11:00:00Z */
  const POSTED_3: Timestamp := 1720609200000
  /** 2024-07-22T08:00:00Z */
  const POSTED_4: Timestamp := 1721635200000

  function SeedJob1(): Job
  {
    Job("1", "Registered " + "Nurse (RN) - ICU", "City General " + "Hospital", "Mumbai, MH",
      "Seeking a " + "dedicated " + "Registered " + "Nurse for our " + "Intensive Care " + "Unit. The ideal " + "candidate will " + "provide " + "critical care " + "to patients " + "with " + "life-threatening " + "conditions.",
      ["Monitor patient " + "vital signs and " + "condition.",
       "Administer " + "medications and " + "treatments.",
       "Collaborate " + "with " + "multidisciplinary " + "teams.",
       "Provide " + "emotional " + "support to " + "patients and " + "families."],
      ["Valid RN " + "license in " + "India.",
       "Minimum 2 years " + "of ICU " + "experience.",
       "BLS and ACLS " + "certification.",
       "Strong critical " + "thinking and " + "communication " + "skills."],
      FullTime, POSTED_1, None,
      Some("₹8,00,000 - " + "₹12,00,000 per " + "year"), Some("Intensive Care " + "Unit"), None)
  }

  function SeedJob2(): Job
  {
    Job("2", "Medical " + "Laboratory " + "Technician", "Metro Health " + "Labs", "Bangalore, KA",
      "Join our team " + "as a Medical " + "Laboratory " + "Technician. You " + "will be " + "responsible for " + "performing " + "complex " + "laboratory " + "tests to aid in " + "diagnosis and " + "treatment.",
      ["Collect and " + "prepare " + "specimens.",
       "Perform " + "laboratory " + "tests and " + "analyze results.",
       "Maintain " + "laboratory " + "equipment and " + "quality control.",
       "Adhere to " + "safety " + "protocols and " + "procedures."],
      ["Associate's " + "degree or " + "Diploma in " + "Medical " + "Laboratory " + "Technology or " + "related field.",
       "Relevant " + "certification " + "or registration " + "as per Indian " + "standards.",
       "Proficiency " + "with laboratory " + "information " + "systems.",
       "Attention to " + "detail and " + "accuracy."],
      FullTime, POSTED_2, None,
      Some("₹4,50,000 - " + "₹6,50,000 per " + "year"), Some("Laboratory " + "Services"), None)
  }

  function SeedJob3(): Job
  {
    Job("3", "Physical " + "Therapist", "Restore Motion " + "Clinic", "Delhi, DL",
      "We are looking " + "for a skilled " + "Physical " + "Therapist to " + "help patients " + "recover from " + "injuries and " + "improve their " + "movement and " + "function.",
      ["Develop and " + "implement " + "individualized " + "treatment plans.",
       "Assess patient " + "progress and " + "modify " + "treatments " + "accordingly.",
       "Educate " + "patients on " + "injury " + "prevention and " + "home exercises.",
       "Maintain " + "accurate " + "patient records."],
      ["Bachelor or " + "Master of " + "Physical " + "Therapy " + "(BPT/MPT) " + "degree.",
       "Valid Physical " + "Therapist " + "license/registration " + "in India.",
       "Experience with " + "diverse patient " + "populations.",
       "Excellent " + "interpersonal " + "skills."],
      PartTime, POSTED_3, None,
      Some("₹400 - ₹600 per " + "hour"), Some("Rehabilitation " + "Services"), None)
  }

  function SeedJob4(): Job
  {
    Job("4", "Surgical " + "Technologist", "Unity Medical " + "Center", "Chennai, TN",
      "Exciting " + "opportunity for " + "a Surgical " + "Technologist to " + "assist in " + "surgical " + "procedures " + "under the " + "supervision of " + "surgeons and " + "registered " + "nurses.",
      ["Prepare " + "operating rooms " + "for surgery.",
       "Sterilize " + "equipment and " + "ensure aseptic " + "conditions.",
       "Pass " + "instruments and " + "supplies to " + "surgeons during " + "procedures.",
       "Maintain a " + "sterile field."],
      ["Completion of " + "an accredited " + "Surgical " + "Technologist " + "program or " + "Diploma in " + "Operation " + "Theatre " + "Technology.",
       "Relevant " + "certification " + "preferred.",
       "Knowledge of " + "surgical " + "procedures and " + "sterile " + "techniques.",
       "Ability to work " + "in a fast-paced " + "environment."],
      FullTime, POSTED_4, None,
      None, Some("Surgical " + "Services"), None)
  }

  /** The initial contents of the module-level `jobs` array, in declaration order. */
  function SeedJobs(): seq<Job>
  {
    [SeedJob1(), SeedJob2(), SeedJob3(), SeedJob4()]
  }

  // ---------------------------------------------------------------------------
  // Ordering: the comparator `b.postedDate - a.postedDate` under a stable sort.
  // ---------------------------------------------------------------------------

  /** Newest first: no job is posted later than a job before it. */
  ghost predicate SortedDesc(s: seq<Job>)
  {
    forall i, j :: 0 <= i < j < |s| ==> s[i].postedDate >= s[j].postedDate
  }

  /**
   * Inserts `x` into `s`: `x` moves left past every trailing job posted
   * strictly earlier than it and stops behind the first that is not, so jobs
   * with equal dates keep their input order.
   */
  function Insert(s: seq<Job>, x: Job): (r: seq<Job>)
    ensures |r| == |s| + 1
  {
    if s == [] then [x]
    else if s[|s| - 1].postedDate < x.postedDate then Insert(s[..|s| - 1], x) + [s[|s| - 1]]
    else s + [x]
  }

  /**
   * The order `getJobs` leaves the array in: a stable sort by posting date,
   * newest first, here as insertion sort over the prefix.
   */
  function SortByPostedDesc(s: seq<Job>): (r: seq<Job>)
    ensures |r| == |s|
  {
    if s == [] then [] else Insert(SortByPostedDesc(s[..|s| - 1]), s[|s| - 1])
  }

  /** Insertion adds exactly `x`. */
  lemma {:induction false} InsertPermutes(s: seq<Job>, x: Job)
    ensures multiset(Insert(s, x)) == multiset(s) + multiset{x}
  {
    if s != [] && s[|s| - 1].postedDate < x.postedDate {
      InsertPermutes(s[..|s| - 1], x);
      assert s == s[..|s| - 1] + [s[|s| - 1]];
    }
  }

  /** Insertion into a newest-first sequence keeps it newest first. */
  lemma {:induction false} InsertSorted(s: seq<Job>, x: Job)
    requires SortedDesc(s)
    ensures SortedDesc(Insert(s, x))
  {
    if s != [] && s[|s| - 1].postedDate < x.postedDate {
      var init, last := s[..|s| - 1], s[|s| - 1];
      var r' := Insert(init, x);
      InsertSorted(init, x);
      InsertPermutes(init, x);
      forall k | 0 <= k < |r'| ensures r'[k].postedDate >= last.postedDate {
        assert r'[k] in multiset(r');
        assert r'[k] in init || r'[k] == x;
        if r'[k] in init {
          var m :| 0 <= m < |init| && init[m] == r'[k];
        }
      }
    }
  }

  /** `getJobs` orders the jobs newest first. */
  lemma {:induction false} SortIsSorted(s: seq<Job>)
    ensures SortedDesc(SortByPostedDesc(s))
  {
    if s != [] {
      SortIsSorted(s[..|s| - 1]);
      InsertSorted(SortByPostedDesc(s[..|s| - 1]), s[|s| - 1]);
    }
  }

  /** `getJobs` returns the same jobs, each as often as before. */
  lemma {:induction false} SortPermutes(s: seq<Job>)
    ensures multiset(SortByPostedDesc(s)) == multiset(s)
  {
    if s != [] {
      SortPermutes(s[..|s| - 1]);
      InsertPermutes(SortByPostedDesc(s[..|s| - 1]), s[|s| - 1]);
      assert s == s[..|s| - 1] + [s[|s| - 1]];
    }
  }

  /** Sorting a sequence that is already newest first changes nothing. */
  lemma {:induction false} SortKeepsSorted(s: seq<Job>)
    requires SortedDesc(s)
    ensures SortByPostedDesc(s) == s
  {
    if s != [] {
      var init := s[..|s| - 1];
      assert SortedDesc(init);
      SortKeepsSorted(init);
      if |init| > 0 {
        assert init[|init| - 1] == s[|s| - 2];
      }
      assert s == init + [s[|s| - 1]];
    }
  }

  /** Calling `getJobs` twice gives what the first call gave. */
  lemma SortIdempotent(s: seq<Job>)
    ensures SortByPostedDesc(SortByPostedDesc(s)) == SortByPostedDesc(s)
  {
    SortIsSorted(s);
    SortKeepsSorted(SortByPostedDesc(s));
  }

  /** Sorting one more element of the input inserts it into the sorted prefix. */
  lemma SortPrefixStep(input: seq<Job>, i: nat)
    requires i < |input|
    ensures SortByPostedDesc(input[..i + 1]) == Insert(SortByPostedDesc(input[..i]), input[i])
  {
    assert input[..i + 1][..i] == input[..i];
  }

  /**
   * Where insertion puts `x`: behind the first `j` jobs when every later job
   * was posted strictly earlier than `x` and the job at `j - 1`, if any, was not.
   */
  lemma {:induction false} InsertSplit(p: seq<Job>, j: nat, x: Job)
    requires j <= |p|
    requires forall k :: j <= k < |p| ==> p[k].postedDate < x.postedDate
    requires j == 0 || p[j - 1].postedDate >= x.postedDate
    ensures Insert(p, x) == p[..j] + [x] + p[j..]
    decreases |p|
  {
    if |p| == j {
      assert p[..j] == p && p[j..] == [];
    } else {
      var init := p[..|p| - 1];
      InsertSplit(init, j, x);
      assert init[..j] == p[..j];
      assert init[j..] + [p[|p| - 1]] == p[j..];
    }
  }

  /**
   * The in-place sort `getJobs` runs on the module array: insertion sort that
   * shifts a job right while the job to insert was posted strictly later.
   */
  method SortInPlace(a: array<Job>)
    modifies a
    ensures a[..] == SortByPostedDesc(old(a[..]))
  {
    ghost var input := a[..];
    var i := 0;
    while i < a.Length
      invariant 0 <= i <= a.Length
      invariant a[..i] == SortByPostedDesc(input[..i])
      invariant forall k :: i <= k < a.Length ==> a[k] == input[k]
    {
      SortPrefixStep(input, i);
      assert a[i] == input[i];
      InsertInPlace(a, i);
      assert forall k :: i < k < a.Length ==> a[k] == input[k];
      i := i + 1;
    }
    assert input[..a.Length] == input;
  }

  /** One pass of the insertion sort: moves `a[i]` into the sorted prefix `a[..i]`. */
  method InsertInPlace(a: array<Job>, i: nat)
    requires i < a.Length
    modifies a
    ensures a[..i + 1] == Insert(old(a[..i]), old(a[i]))
    ensures forall k :: i < k < a.Length ==> a[k] == old(a[k])
  {
    var x := a[i];
    ghost var p := a[..i];
    var j := i;
    while j > 0 && a[j - 1].postedDate < x.postedDate
      invariant 0 <= j <= i
      invariant forall k {:trigger a[k]} :: 0 <= k < j ==> a[k] == p[k]
      invariant forall k {:trigger a[k]} :: j < k <= i ==> a[k] == p[k - 1]
      invariant forall k :: i < k < a.Length ==> a[k] == old(a[k])
      invariant forall k :: j <= k < i ==> p[k].postedDate < x.postedDate
    {
      assert a[j - 1] == p[j - 1];
      a[j] := a[j - 1];
      j := j - 1;
    }
    InsertSplit(p, j, x);
    a[j] := x;
    Assemble(a[..i + 1], p, j, x);
  }

  /** The array prefix after one pass: the jobs left of `j`, then `x`, then the shifted ones. */
  lemma Assemble(c: seq<Job>, p: seq<Job>, j: nat, x: Job)
    requires j <= |p| && |c| == |p| + 1
    requires forall k :: 0 <= k < j ==> c[k] == p[k]
    requires c[j] == x
    requires forall k {:trigger c[k]} :: j < k < |c| ==> c[k] == p[k - 1]
    ensures c == p[..j] + [x] + p[j..]
  {
    forall k | 0 <= k < |c| ensures c[k] == (p[..j] + [x] + p[j..])[k] {
      if k > j {
        assert c[k] == p[k - 1];
      }
    }
  }

  /** `Array.prototype.find` on the id: the first job whose id equals `id`. */
  function FindById(s: seq<Job>, id: string): (r: Option<Job>)
    ensures r.Some? ==> r.value.id == id
    ensures r.None? <==> forall k :: 0 <= k < |s| ==> s[k].id != id
    ensures r.Some? ==> exists k :: FirstMatchAt(s, id, k) && s[k] == r.value
  {
    if s == [] then None
    else if s[0].id == id then
      assert FirstMatchAt(s, id, 0);
      Some(s[0])
    else
      var r := FindById(s[1..], id);
      assert r.Some? ==> exists k :: FirstMatchAt(s, id, k) && s[k] == r.value by {
        if r.Some? {
          var k :| FirstMatchAt(s[1..], id, k) && s[1..][k] == r.value;
          assert FirstMatchAt(s, id, k + 1);
        }
      }
      r
  }

  /** Position `k` holds the first job of `s` whose id is `id`. */
  ghost predicate FirstMatchAt(s: seq<Job>, id: string, k: int)
  {
    0 <= k < |s| && s[k].id == id && forall m :: 0 <= m < k ==> s[m].id != id
  }

  /** No two different jobs of `s` share an id. */
  ghost predicate UniqueIds(s: seq<Job>)
  {
    forall a, b :: a in s && b in s && a.id == b.id ==> a == b
  }

  /** With unique ids, looking a job up by its own id finds that job. */
  lemma FindOwnId(s: seq<Job>, j: Job)
    requires UniqueIds(s) && j in s
    ensures FindById(s, j.id) == Some(j)
  {
  }

  /** What the lemmas below need of the seed: four jobs, their ids and their dates. */
  ghost predicate SeedShape(s: seq<Job>)
  {
    && |s| == 4
    && s[0].id == "1" && s[0].postedDate == POSTED_1
    && s[1].id == "2" && s[1].postedDate == POSTED_2
    && s[2].id == "3" && s[2].postedDate == POSTED_3
    && s[3].id == "4" && s[3].postedDate == POSTED_4
  }

  /** The seed has ids '1' to '4' in order, with the given posting dates. */
  lemma SeedShapeHolds()
    ensures SeedShape(SeedJobs())
  {
  }

  /** The seed ids are pairwise distinct. */
  lemma SeedIdsUnique(s: seq<Job>)
    requires SeedShape(s)
    ensures UniqueIds(s)
  {
    forall a, b | a in s && b in s && a.id == b.id ensures a == b {
      var i :| 0 <= i < 4 && s[i] == a;
      var k :| 0 <= k < 4 && s[k] == b;
    }
  }

  /** `getJobs` moves the seed jobs into the order 4, 2, 1, 3. */
  lemma SeedSortedOrder(s: seq<Job>)
    requires SeedShape(s)
    ensures SortByPostedDesc(s) == [s[3], s[1], s[0], s[2]]
  {
    assert s[..3][..2][..1] == s[..1] == [s[0]];
    assert s[..3][..2] == s[..2] == [s[0], s[1]];
    assert s[..3] == [s[0], s[1], s[2]];
    assert SortByPostedDesc(s[..1]) == [s[0]];
    assert Insert([s[0]], s[1]) == [s[1], s[0]] by {
      assert [s[0]][..0] == [];
    }
    assert SortByPostedDesc(s[..2]) == [s[1], s[0]];
    assert SortByPostedDesc(s[..3]) == [s[1], s[0], s[2]];
    assert Insert([s[1], s[0], s[2]], s[3]) == [s[3], s[1], s[0], s[2]] by {
      assert [s[1], s[0], s[2]][..2] == [s[1], s[0]];
      assert [s[1], s[0]][..1] == [s[1]];
      assert [s[1]][..0] == [];
      assert Insert([s[1]], s[3]) == [s[3], s[1]];
      assert Insert([s[1], s[0]], s[3]) == [s[3], s[1], s[0]];
    }
  }

  /**
   * Every seed job is found by its own id, both in the initial order and in
   * the order `getJobs` leaves behind.
   */
  lemma SeedLookup(s: seq<Job>, j: Job)
    requires SeedShape(s) && j in s
    ensures FindById(s, j.id) == Some(j)
    ensures FindById(SortByPostedDesc(s), j.id) == Some(j)
  {
    var t := SortByPostedDesc(s);
    SeedIdsUnique(s);
    SortPermutes(s);
    assert forall y :: y in t <==> y in s by {
      forall y ensures y in t <==> y in s {
        assert y in t <==> y in multiset(t);
      }
    }
    FindOwnId(s, j);
    FindOwnId(t, j);
  }

  /** The module-level job array and the two functions that use it. */
  class JobStore {
    const jobs: array<Job>

    /** The array as the module initialises it. */
    constructor ()
      ensures fresh(jobs)
      ensures jobs[..] == SeedJobs()
      ensures SeedShape(jobs[..])
    {
      jobs := new Job[4] [SeedJob1(), SeedJob2(), SeedJob3(), SeedJob4()];
      SeedShapeHolds();
    }

    /** Sorts `jobs` in place, newest first, and returns that same array. */
    method GetJobs() returns (r: array<Job>)
      modifies jobs
      ensures r == jobs
      ensures jobs[..] == SortByPostedDesc(old(jobs[..]))
    {
      SortInPlace(jobs);
      r := jobs;
    }

    /** The first job of the array with id `id`; it only reads the array. */
    function GetJobById(id: string): (r: Option<Job>)
      reads jobs
      ensures r.Some? ==> r.value.id == id && exists k :: 0 <= k < jobs.Length && jobs[k] == r.value
      ensures r.None? <==> forall k :: 0 <= k < jobs.Length ==> jobs[k].id != id
    {
      FindById(jobs[..], id)
    }
  }

  /**
   * A client of the store: a seed job is found by its id before `getJobs`,
   * after one call and after a second call, which leaves the order as the
   * first call did.
   */
  method LookupAroundGetJobs(store: JobStore, j: Job)
    requires SeedShape(store.jobs[..]) && j in store.jobs[..]
    modifies store.jobs
    ensures store.GetJobById(j.id) == Some(j)
  {
    ghost var seed := store.jobs[..];
    SeedLookup(seed, j);
    assert store.GetJobById(j.id) == Some(j);
    var first := store.GetJobs();
    assert store.GetJobById(j.id) == Some(j);
    ghost var once := first[..];
    var second := store.GetJobs();
    SortIdempotent(seed);
    assert second[..] == once;
  }
}
