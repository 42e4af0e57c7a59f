/**
 * The record logic of the backend's data layer (`crud.py`) over an
 * in-memory table: email normalisation, de-duplication of a job's assigned
 * emails, selecting the jobs an email is assigned to, and the field merge
 * of `update_job`.
 */
module Crud {
  import opened Wrappers
  import opened Json
  import opened Text

  /** An `Optional[List[str]]` as stored or received; a `None` entry stands for an element that is not a `str`. */
  type RawEmails = Option<seq<Option<string>>>

  /** What `_normalize_email` can return: non-empty, no surrounding whitespace, no capitals. */
  predicate IsNormalEmail(s: string)
  {
    s != [] && !IsSpace(s[0]) && !IsSpace(s[|s| - 1]) && NoUpper(s)
  }

  /** `_normalize_email`: strip, lower-case, and map the empty result (and any non-string) to `None`. */
  function NormalizeEmail(email: Option<string>): (r: Option<string>)
    ensures email.None? ==> r == None
    ensures r.Some? ==> IsNormalEmail(r.value)
    ensures email.Some? ==> (r.None? <==> forall i :: 0 <= i < |email.value| ==> IsSpace(email.value[i]))
    ensures email.Some? && r.Some? ==> r.value == Lower(Strip(email.value))
  {
    if email.None? then None
    else
      var stripped := Strip(email.value);
      StripEmptyIff(email.value);
      LowerAt(stripped);
      var normalized := Lower(stripped);
      if normalized == [] then None else Some(normalized)
  }

  /** A normalised email normalises to itself. */
  lemma NormalEmailFixpoint(s: string)
    requires IsNormalEmail(s)
    ensures NormalizeEmail(Some(s)) == Some(s)
  {
    TrimFixpoint(s, IsSpace);
    LowerFixpoint(s);
  }

  /** `_normalize_email` is idempotent on its non-`None` results. */
  lemma NormalizeEmailIdempotent(email: Option<string>)
    ensures NormalizeEmail(email).Some? ==> NormalizeEmail(NormalizeEmail(email)) == NormalizeEmail(email)
  {
    if NormalizeEmail(email).Some? {
      NormalEmailFixpoint(NormalizeEmail(email).value);
    }
  }

  /** `emails or []`. */
  function Entries(emails: RawEmails): seq<Option<string>>
  {
    if emails.None? then [] else emails.value
  }

  /** `_normalize_email` applied to every entry, in order. */
  function NormalizeAll(xs: seq<Option<string>>): (ns: seq<Option<string>>)
    ensures |ns| == |xs| && forall i :: 0 <= i < |xs| ==> ns[i] == NormalizeEmail(xs[i])
  {
    seq(|xs|, i requires 0 <= i < |xs| => NormalizeEmail(xs[i]))
  }

  /** The present values of `ns`, each at its first occurrence: what the `seen` loop keeps. */
  function Distinct(ns: seq<Option<string>>): seq<string>
  {
    if ns == [] then []
    else
      var prev := Distinct(ns[..|ns| - 1]);
      var n := ns[|ns| - 1];
      if n.Some? && n.value !in prev then prev + [n.value] else prev
  }

  /** The value of `_normalize_email_list(emails)`. */
  function NormalizedEmails(emails: RawEmails): seq<string>
  {
    Distinct(NormalizeAll(Entries(emails)))
  }

  predicate NoDuplicates(s: seq<string>)
  {
    forall i, j :: 0 <= i < j < |s| ==> s[i] != s[j]
  }

  /** A list of plain strings, as stored back into a record. */
  function AsEntries(emails: seq<string>): (r: seq<Option<string>>)
    ensures |r| == |emails| && forall i :: 0 <= i < |r| ==> r[i] == Some(emails[i])
  {
    seq(|emails|, i requires 0 <= i < |emails| => Some(emails[i]))
  }

  lemma {:induction false} DistinctNoDuplicates(ns: seq<Option<string>>)
    ensures NoDuplicates(Distinct(ns))
  {
    if ns != [] {
      DistinctNoDuplicates(ns[..|ns| - 1]);
    }
  }

  /** The result holds exactly the present values. */
  lemma {:induction false} DistinctMembers(ns: seq<Option<string>>)
    ensures forall x :: x in Distinct(ns) <==> Some(x) in ns
  {
    if ns != [] {
      var p := ns[..|ns| - 1];
      DistinctMembers(p);
      assert ns == p + [ns[|ns| - 1]];
    }
  }

  /** The index of the first occurrence of `Some(x)` in `ns`, or `|ns|` if there is none. */
  function FirstHit(ns: seq<Option<string>>, x: string): (k: nat)
    ensures k <= |ns|
    ensures k < |ns| ==> ns[k] == Some(x)
    ensures forall i :: 0 <= i < k ==> ns[i] != Some(x)
  {
    if ns == [] then 0
    else if ns[0] == Some(x) then 0
    else
      var k := 1 + FirstHit(ns[1..], x);
      assert forall i :: 0 < i < k ==> ns[i] == ns[1..][i - 1];
      k
  }

  lemma {:induction false} FirstHitAppend(ns: seq<Option<string>>, y: Option<string>, x: string)
    ensures FirstHit(ns + [y], x) ==
            if FirstHit(ns, x) < |ns| then FirstHit(ns, x)
            else if y == Some(x) then |ns| else |ns| + 1
  {
    if ns != [] {
      assert (ns + [y])[0] == ns[0];
      assert (ns + [y])[1..] == ns[1..] + [y];
      FirstHitAppend(ns[1..], y, x);
    }
  }

  /** The result lists the values in the order of their first occurrence. */
  lemma {:induction false} DistinctFirstOccurrenceOrder(ns: seq<Option<string>>)
    ensures forall i :: 0 <= i < |Distinct(ns)| ==> FirstHit(ns, Distinct(ns)[i]) < |ns|
    ensures forall i, j :: 0 <= i < j < |Distinct(ns)| ==>
              FirstHit(ns, Distinct(ns)[i]) < FirstHit(ns, Distinct(ns)[j])
  {
    if ns != [] {
      var p := ns[..|ns| - 1];
      var y := ns[|ns| - 1];
      assert ns == p + [y];
      DistinctFirstOccurrenceOrder(p);
      DistinctMembers(p);
      var prev := Distinct(p);
      forall i | 0 <= i < |prev| ensures FirstHit(ns, prev[i]) == FirstHit(p, prev[i]) {
        FirstHitAppend(p, y, prev[i]);
      }
      if y.Some? && y.value !in prev {
        FirstHitAppend(p, y, y.value);
        assert FirstHit(p, y.value) == |p|;
        assert Distinct(ns) == prev + [y.value];
      }
    }
  }

  /** A duplicate-free list of present values is its own de-duplication. */
  lemma {:induction false} DistinctOfDistinct(ys: seq<string>)
    requires NoDuplicates(ys)
    ensures Distinct(AsEntries(ys)) == ys
  {
    if ys != [] {
      var p := ys[..|ys| - 1];
      assert AsEntries(ys)[..|ys| - 1] == AsEntries(p);
      DistinctOfDistinct(p);
      assert ys[|ys| - 1] !in p;
      assert ys == p + [ys[|ys| - 1]];
    }
  }

  /** Every normalised entry normalises to itself. */
  lemma NormalizeAllOfNormal(ys: seq<string>)
    requires forall i :: 0 <= i < |ys| ==> IsNormalEmail(ys[i])
    ensures NormalizeAll(AsEntries(ys)) == AsEntries(ys)
  {
    forall i | 0 <= i < |ys| ensures NormalizeEmail(Some(ys[i])) == Some(ys[i]) {
      NormalEmailFixpoint(ys[i]);
    }
  }

  /** Membership in `_normalize_email_list(emails)`: some entry normalises to the value. */
  lemma NormalizedEmailsMembers(emails: RawEmails)
    ensures forall x :: x in NormalizedEmails(emails) <==>
              exists i :: 0 <= i < |Entries(emails)| && NormalizeEmail(Entries(emails)[i]) == Some(x)
  {
    var xs := Entries(emails);
    var ns := NormalizeAll(xs);
    DistinctMembers(ns);
    forall x | Some(x) in ns ensures exists i :: 0 <= i < |xs| && NormalizeEmail(xs[i]) == Some(x) {
      var i :| 0 <= i < |ns| && ns[i] == Some(x);
      assert NormalizeEmail(xs[i]) == Some(x);
    }
  }

  /** Every element of `_normalize_email_list(emails)` is a normalised address. */
  lemma NormalizedEmailsAreNormal(emails: RawEmails)
    ensures forall i :: 0 <= i < |NormalizedEmails(emails)| ==> IsNormalEmail(NormalizedEmails(emails)[i])
  {
    var ns := NormalizeAll(Entries(emails));
    DistinctMembers(ns);
    assert forall k :: 0 <= k < |ns| && ns[k].Some? ==> IsNormalEmail(ns[k].value);
    forall i | 0 <= i < |Distinct(ns)| ensures IsNormalEmail(Distinct(ns)[i]) {
      assert Some(Distinct(ns)[i]) in ns;
    }
  }

  /** `_normalize_email_list` gives `[]` for `None` or `[]`. */
  lemma NormalizedEmailsOfNothing()
    ensures NormalizedEmails(None) == [] && NormalizedEmails(Some([])) == []
  {
  }

  /** `_normalize_email_list` is idempotent. */
  lemma NormalizedEmailsIdempotent(emails: RawEmails)
    ensures NormalizedEmails(Some(AsEntries(NormalizedEmails(emails)))) == NormalizedEmails(emails)
  {
    var ys := NormalizedEmails(emails);
    DistinctNoDuplicates(NormalizeAll(Entries(emails)));
    NormalizedEmailsAreNormal(emails);
    NormalizeAllOfNormal(ys);
    DistinctOfDistinct(ys);
  }

  /** `_normalize_email_list` keeps the order of first occurrence among the normalised entries. */
  lemma NormalizedEmailsOrder(emails: RawEmails)
    ensures forall i, j :: 0 <= i < j < |NormalizedEmails(emails)| ==>
              FirstHit(NormalizeAll(Entries(emails)), NormalizedEmails(emails)[i]) <
              FirstHit(NormalizeAll(Entries(emails)), NormalizedEmails(emails)[j])
  {
    DistinctFirstOccurrenceOrder(NormalizeAll(Entries(emails)));
  }

  /**
   * `_normalize_email_list`: one pass over the entries with a `seen` set.
   * The result is duplicate-free and every element is a normalised address;
   * which addresses and in what order is stated about `NormalizedEmails`.
   */
  method NormalizeEmailList(emails: RawEmails) returns (normalizedList: seq<string>)
    ensures normalizedList == NormalizedEmails(emails)
    ensures NoDuplicates(normalizedList)
    ensures forall i :: 0 <= i < |normalizedList| ==> IsNormalEmail(normalizedList[i])
  {
    var xs := Entries(emails);
    DistinctNoDuplicates(NormalizeAll(xs));
    NormalizedEmailsAreNormal(emails);
    if xs == [] {
      return [];
    }
    normalizedList := NormalizeEntries(xs);
  }

  lemma DistinctSnoc(p: seq<Option<string>>, y: Option<string>)
    ensures Distinct(p + [y]) == if y.Some? && y.value !in Distinct(p) then Distinct(p) + [y.value] else Distinct(p)
  {
    assert (p + [y])[..|p|] == p;
  }

  lemma NormalizeAllSnoc(xs: seq<Option<string>>, k: nat)
    requires k < |xs|
    ensures NormalizeAll(xs[..k + 1]) == NormalizeAll(xs[..k]) + [NormalizeEmail(xs[k])]
  {
    assert xs[..k + 1] == xs[..k] + [xs[k]];
  }

  /** The loop of `_normalize_email_list` over a non-empty list. */
  method NormalizeEntries(xs: seq<Option<string>>) returns (normalizedList: seq<string>)
    ensures normalizedList == Distinct(NormalizeAll(xs))
  {
    var seen: set<string> := {};
    normalizedList := [];
    for k := 0 to |xs|
      invariant normalizedList == Distinct(NormalizeAll(xs[..k]))
      invariant forall x :: x in seen <==> x in normalizedList
    {
      var normalized := NormalizeEmail(xs[k]);
      NormalizeAllSnoc(xs, k);
      DistinctSnoc(NormalizeAll(xs[..k]), normalized);
      if normalized.Some? && normalized.value !in seen {
        normalizedList := normalizedList + [normalized.value];
        seen := seen + {normalized.value};
      }
    }
    assert xs[..|xs|] == xs;
  }

  datatype JobStatus = Draft | Active | Completed

  /** A `Job` row, without its timestamps. */
  datatype Job = Job(
    id: int,
    title: string,
    description: Option<string>,
    prompt: string,
    fields: Object,
    assignedEmails: RawEmails,
    status: Option<JobStatus>)        // a nullable column

  /** `_job_has_email`. */
  predicate JobHasEmail(job: Job, email: Option<string>)
    ensures JobHasEmail(job, email) ==> NormalizeEmail(email).Some? && job.assignedEmails.Some? && job.assignedEmails.value != []
  {
    NormalizedEmailsOfNothing();
    var normalized := NormalizeEmail(email);
    normalized.Some? && normalized.value in NormalizedEmails(job.assignedEmails)
  }

  /** A job has an email iff the email is not blank and some assigned entry normalises to the same address. */
  lemma JobHasEmailIff(job: Job, email: Option<string>)
    ensures JobHasEmail(job, email) <==>
              NormalizeEmail(email).Some? &&
              exists i :: 0 <= i < |Entries(job.assignedEmails)| &&
                NormalizeEmail(Entries(job.assignedEmails)[i]) == NormalizeEmail(email)
  {
    NormalizedEmailsMembers(job.assignedEmails);
  }

  /** Passing the normalised email instead of the raw one changes nothing. */
  lemma JobHasNormalizedEmail(job: Job, email: Option<string>)
    requires NormalizeEmail(email).Some?
    ensures JobHasEmail(job, NormalizeEmail(email)) == JobHasEmail(job, email)
  {
    NormalizeEmailIdempotent(email);
  }

  /** The query filter `assigned_emails IS NOT NULL` followed by the `_job_has_email` filter. */
  predicate Listed(job: Job, normalized: string)
  {
    job.assignedEmails.Some? && JobHasEmail(job, Some(normalized))
  }

  /** `[x for x in xs if keep(x)]`. */
  function Filter<T>(xs: seq<T>, keep: T -> bool): (r: seq<T>)
    ensures |r| <= |xs|
  {
    if xs == [] then []
    else (if keep(xs[0]) then [xs[0]] else []) + Filter(xs[1..], keep)
  }

  /** `get_jobs_assigned_to_email`, over the rows in table order. */
  function JobsAssignedToEmail(jobs: seq<Job>, email: Option<string>): (r: seq<Job>)
    ensures |r| <= |jobs|
    ensures NormalizeEmail(email).None? ==> r == []
  {
    var normalized := NormalizeEmail(email);
    if normalized.None? then [] else Filter(jobs, job => Listed(job, normalized.value))
  }

  /** `a` can be obtained from `b` by deleting elements. */
  predicate IsSubsequence<T(==)>(a: seq<T>, b: seq<T>)
    decreases |b|
  {
    if a == [] then true
    else if b == [] then false
    else (a[0] == b[0] && IsSubsequence(a[1..], b[1..])) || IsSubsequence(a, b[1..])
  }

  /** A filter keeps, in order, exactly the elements that pass. */
  lemma {:induction false} FilterSubsequence<T>(xs: seq<T>, keep: T -> bool)
    ensures IsSubsequence(Filter(xs, keep), xs)
    ensures forall x :: x in Filter(xs, keep) <==> x in xs && keep(x)
    ensures forall x :: multiset(Filter(xs, keep))[x] == if keep(x) then multiset(xs)[x] else 0
  {
    if xs != [] {
      FilterSubsequence(xs[1..], keep);
      var rest := Filter(xs[1..], keep);
      if keep(xs[0]) {
        assert ([xs[0]] + rest)[1..] == rest;
      } else {
        assert Filter(xs, keep) == rest;
        assert IsSubsequence(rest, xs[1..]);
      }
      assert xs == [xs[0]] + xs[1..];
      assert multiset(xs) == multiset([xs[0]]) + multiset(xs[1..]);
    }
  }

  /** A filter comes out empty exactly when no element passes. */
  lemma {:induction false} FilterEmptyIff<T>(xs: seq<T>, keep: T -> bool)
    ensures Filter(xs, keep) == [] <==> forall k :: 0 <= k < |xs| ==> !keep(xs[k])
  {
    if xs != [] {
      FilterEmptyIff(xs[1..], keep);
      assert forall k :: 1 <= k < |xs| ==> xs[k] == xs[1..][k - 1];
    }
  }

  /** The head of a filter is the first element that passes. */
  lemma {:induction false} FilterFirst<T>(xs: seq<T>, keep: T -> bool)
    requires Filter(xs, keep) != []
    ensures exists i :: 0 <= i < |xs| && xs[i] == Filter(xs, keep)[0] && keep(xs[i]) &&
              forall k :: 0 <= k < i ==> !keep(xs[k])
  {
    if keep(xs[0]) {
      assert xs[0] == Filter(xs, keep)[0];
    } else {
      assert Filter(xs, keep) == Filter(xs[1..], keep);
      FilterFirst(xs[1..], keep);
      var i :| 0 <= i < |xs[1..]| && xs[1..][i] == Filter(xs[1..], keep)[0] &&
               keep(xs[1..][i]) && forall k :: 0 <= k < i ==> !keep(xs[1..][k]);
      assert forall k :: 1 <= k < i + 1 ==> xs[k] == xs[1..][k - 1];
      assert xs[i + 1] == xs[1..][i];
    }
  }

  /** The jobs returned for an email are exactly the jobs holding it, in table order; a blank email gives `[]`. */
  lemma JobsAssignedToEmailExactly(jobs: seq<Job>, email: Option<string>)
    ensures NormalizeEmail(email).None? ==> JobsAssignedToEmail(jobs, email) == []
    ensures IsSubsequence(JobsAssignedToEmail(jobs, email), jobs)
    ensures forall j :: j in JobsAssignedToEmail(jobs, email) <==> j in jobs && JobHasEmail(j, email)
    ensures forall j :: multiset(JobsAssignedToEmail(jobs, email))[j] == if JobHasEmail(j, email) then multiset(jobs)[j] else 0
  {
    var normalized := NormalizeEmail(email);
    if normalized.Some? {
      var keep := job => Listed(job, normalized.value);
      FilterSubsequence(jobs, keep);
      forall j ensures keep(j) <==> JobHasEmail(j, email) {
        JobHasNormalizedEmail(j, email);
      }
    }
  }

  /** `get_first_job_for_email`. */
  function FirstJobForEmail(jobs: seq<Job>, email: Option<string>): (r: Option<Job>)
    ensures r.Some? ==> r.value in jobs && JobHasEmail(r.value, email)
  {
    JobsAssignedToEmailExactly(jobs, email);
    var listed := JobsAssignedToEmail(jobs, email);
    if listed == [] then None else Some(listed[0])
  }

  /**
   * The first job for an email is the earliest row holding it; there is
   * none exactly when no row holds it.
   */
  lemma FirstJobForEmailIsEarliest(jobs: seq<Job>, email: Option<string>)
    ensures FirstJobForEmail(jobs, email).None? <==> forall k :: 0 <= k < |jobs| ==> !JobHasEmail(jobs[k], email)
    ensures FirstJobForEmail(jobs, email).Some? ==>
              exists i :: 0 <= i < |jobs| && jobs[i] == FirstJobForEmail(jobs, email).value &&
                JobHasEmail(jobs[i], email) && forall k :: 0 <= k < i ==> !JobHasEmail(jobs[k], email)
  {
    var normalized := NormalizeEmail(email);
    if normalized.Some? {
      var keep := job => Listed(job, normalized.value);
      FilterEmptyIff(jobs, keep);
      if Filter(jobs, keep) != [] {
        FilterFirst(jobs, keep);
      }
      forall k | 0 <= k < |jobs| ensures keep(jobs[k]) <==> JobHasEmail(jobs[k], email) {
        JobHasNormalizedEmail(jobs[k], email);
      }
    }
  }

  /** One entry of `job_update.dict(exclude_unset=True)`: a field name with its new value. */
  datatype FieldUpdate =
    | SetTitle(title: string)
    | SetDescription(description: Option<string>)
    | SetPrompt(prompt: string)
    | SetFields(fields: Object)
    | SetAssignedEmails(assignedEmails: RawEmails)
    | SetStatus(status: Option<JobStatus>)

  datatype FieldName = TitleField | DescriptionField | PromptField | FieldsField | AssignedEmailsField | StatusField

  function NameOf(u: FieldUpdate): FieldName
  {
    match u
    case SetTitle(_) => TitleField
    case SetDescription(_) => DescriptionField
    case SetPrompt(_) => PromptField
    case SetFields(_) => FieldsField
    case SetAssignedEmails(_) => AssignedEmailsField
    case SetStatus(_) => StatusField
  }

  /** The two records hold the same value in field `f`. */
  predicate Agree(a: Job, b: Job, f: FieldName)
  {
    match f
    case TitleField => a.title == b.title
    case DescriptionField => a.description == b.description
    case PromptField => a.prompt == b.prompt
    case FieldsField => a.fields == b.fields
    case AssignedEmailsField => a.assignedEmails == b.assignedEmails
    case StatusField => a.status == b.status
  }

  /** `setattr(db_job, field, value)`. */
  function SetAttr(job: Job, u: FieldUpdate): (r: Job)
    ensures r.id == job.id
    ensures forall f :: f != NameOf(u) ==> Agree(r, job, f)
    ensures u.SetTitle? ==> r.title == u.title
    ensures u.SetDescription? ==> r.description == u.description
    ensures u.SetPrompt? ==> r.prompt == u.prompt
    ensures u.SetFields? ==> r.fields == u.fields
    ensures u.SetAssignedEmails? ==> r.assignedEmails == u.assignedEmails
    ensures u.SetStatus? ==> r.status == u.status
  {
    match u
    case SetTitle(v) => job.(title := v)
    case SetDescription(v) => job.(description := v)
    case SetPrompt(v) => job.(prompt := v)
    case SetFields(v) => job.(fields := v)
    case SetAssignedEmails(v) => job.(assignedEmails := v)
    case SetStatus(v) => job.(status := v)
  }

  /** The `setattr` loop of `update_job`, as a function of the record and the updates in order. */
  function ApplyUpdates(job: Job, updates: seq<FieldUpdate>): (r: Job)
    ensures r.id == job.id
  {
    if updates == [] then job
    else SetAttr(ApplyUpdates(job, updates[..|updates| - 1]), updates[|updates| - 1])
  }

  /** The normalisation `update_job` applies to an `assigned_emails` entry before storing it. */
  function NormalizeUpdate(u: FieldUpdate): FieldUpdate
  {
    if u.SetAssignedEmails? then SetAssignedEmails(Some(AsEntries(NormalizedEmails(u.assignedEmails)))) else u
  }

  function NormalizedUpdates(updates: seq<FieldUpdate>): (r: seq<FieldUpdate>)
    ensures |r| == |updates| && forall k :: 0 <= k < |r| ==> r[k] == NormalizeUpdate(updates[k])
  {
    seq(|updates|, k requires 0 <= k < |updates| => NormalizeUpdate(updates[k]))
  }

  /** A field the update does not name keeps its value, and the id never changes. */
  lemma {:induction false} ApplyUpdatesUntouched(job: Job, updates: seq<FieldUpdate>, f: FieldName)
    requires forall k :: 0 <= k < |updates| ==> NameOf(updates[k]) != f
    ensures Agree(ApplyUpdates(job, updates), job, f)
    ensures ApplyUpdates(job, updates).id == job.id
  {
    if updates != [] {
      ApplyUpdatesUntouched(job, updates[..|updates| - 1], f);
    }
  }

  /** The last update naming a field decides its value. */
  lemma {:induction false} ApplyUpdatesLastWins(job: Job, updates: seq<FieldUpdate>, k: nat)
    requires k < |updates|
    requires forall j :: k < j < |updates| ==> NameOf(updates[j]) != NameOf(updates[k])
    ensures Agree(ApplyUpdates(job, updates), SetAttr(job, updates[k]), NameOf(updates[k]))
  {
    var n := |updates| - 1;
    if k < n {
      ApplyUpdatesLastWins(job, updates[..n], k);
    }
  }

  /** After `update_job` stores an `assigned_emails` entry, the record's list is normalised and duplicate-free. */
  lemma StoredEmailsAreNormal(job: Job, updates: seq<FieldUpdate>, k: nat)
    requires k < |updates| && updates[k].SetAssignedEmails?
    requires forall j :: k < j < |updates| ==> !updates[j].SetAssignedEmails?
    ensures exists stored: seq<string> ::
              ApplyUpdates(job, NormalizedUpdates(updates)).assignedEmails == Some(AsEntries(stored)) &&
              stored == NormalizedEmails(updates[k].assignedEmails) &&
              NoDuplicates(stored) && forall i :: 0 <= i < |stored| ==> IsNormalEmail(stored[i])
  {
    var stored := NormalizedEmails(updates[k].assignedEmails);
    ApplyUpdatesLastWins(job, NormalizedUpdates(updates), k);
    DistinctNoDuplicates(NormalizeAll(Entries(updates[k].assignedEmails)));
    NormalizedEmailsAreNormal(updates[k].assignedEmails);
  }

  /** The index of the first row with id `id`: the row `get_job` returns. */
  function FindJob(rows: seq<Job>, id: int): (r: Option<nat>)
    ensures r.Some? ==> r.value < |rows| && rows[r.value].id == id && forall k :: 0 <= k < r.value ==> rows[k].id != id
    ensures r.None? ==> forall k :: 0 <= k < |rows| ==> rows[k].id != id
  {
    if rows == [] then None
    else if rows[0].id == id then Some(0)
    else
      var rest := FindJob(rows[1..], id);
      assert forall k :: 1 <= k < |rows| ==> rows[k] == rows[1..][k - 1];
      if rest.None? then None else Some(rest.value + 1)
  }

  /** The `assigned_emails` step of `update_job`: every such entry goes through `_normalize_email_list`. */
  method NormalizeUpdateData(update: seq<FieldUpdate>) returns (updateData: seq<FieldUpdate>)
    ensures updateData == NormalizedUpdates(update)
  {
    updateData := [];
    for k := 0 to |update|
      invariant |updateData| == k
      invariant forall j :: 0 <= j < k ==> updateData[j] == NormalizeUpdate(update[j])
    {
      var u := update[k];
      if u.SetAssignedEmails? {
        var normalized := NormalizeEmailList(u.assignedEmails);
        u := SetAssignedEmails(Some(AsEntries(normalized)));
      }
      updateData := updateData + [u];
    }
  }

  /** The `jobs` table held in memory. */
  class JobTable {
    var rows: seq<Job>

    constructor (rows: seq<Job>)
      ensures this.rows == rows
    {
      this.rows := rows;
    }

    /**
     * `update_job`: an unknown id gives `None` and leaves the table alone;
     * otherwise the entries are applied in order to the found row, each
     * `assigned_emails` value normalised first, and the updated row is
     * returned.
     */
    method UpdateJob(jobId: int, update: seq<FieldUpdate>) returns (updated: Option<Job>)
      modifies this
      ensures FindJob(old(rows), jobId).None? ==> updated == None && rows == old(rows)
      ensures FindJob(old(rows), jobId).Some? ==>
                var i := FindJob(old(rows), jobId).value;
                rows == old(rows)[i := ApplyUpdates(old(rows)[i], NormalizedUpdates(update))] &&
                updated == Some(rows[i])
    {
      var found := FindJob(rows, jobId);
      if found.None? {
        return None;
      }
      var i := found.value;
      var updateData := NormalizeUpdateData(update);
      var job := rows[i];
      for k := 0 to |updateData|
        invariant job == ApplyUpdates(rows[i], updateData[..k])
      {
        assert updateData[..k + 1][..k] == updateData[..k];
        job := SetAttr(job, updateData[k]);
      }
      assert updateData[..|updateData|] == updateData;
      rows := rows[i := job];
      updated := Some(job);
    }
  }
}
