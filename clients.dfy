/**
 * The client service: toggling a client's active flag, the statistics of one
 * client's jobs and work, and the client search.
 */
module ClientService {
  import opened Wrappers
  import opened Lists
  import opened Text
  import opened Sorting
  import opened Records
  import opened JobService

  const ClientNotFound := "Client not found"

  /** `toggleActiveStatus(id)`: a missing client fails the look-up; otherwise the row is written back with its flag negated. */
  function ToggleActiveStatus(rows: seq<Client>, id: string): (r: Result<Client, string>)
    ensures r.Err? <==> FindById(rows, id, ClientId).None?
    ensures r.Err? ==> r.error == ClientNotFound
    ensures r.Ok? ==> var cur := FindById(rows, id, ClientId).value;
      r.value.activeStatus == !cur.activeStatus && r.value.(activeStatus := cur.activeStatus) == cur
  {
    match FindById(rows, id, ClientId)
    case None => Err(ClientNotFound)
    case Some(current) => Ok(current.(activeStatus := !current.activeStatus))
  }

  /** Toggling twice gives back the row as it was. */
  lemma ToggleTwiceRestores(rows: seq<Client>, id: string)
    requires FindById(rows, id, ClientId).Some?
    ensures var once := ToggleActiveStatus(rows, id).value;
      ToggleActiveStatus([once], id) == Ok(FindById(rows, id, ClientId).value)
  {
    var once := ToggleActiveStatus(rows, id).value;
    assert FindById([once], id, ClientId) == Some(once);
  }

  predicate JobOf(j: Job, id: string) { j.clientId == id }

  predicate EntryOf(e: WorkEntry, id: string) { e.clientId == Some(id) }

  /** The `.eq('client_id', id)` selection of jobs. */
  function ClientJobs(jobs: seq<Job>, id: string): (r: seq<Job>)
    ensures forall j :: j in r <==> j in jobs && j.clientId == id
  {
    FilterSpec(jobs, j => JobOf(j, id));
    Filter(jobs, j => JobOf(j, id))
  }

  /** The `.eq('client_id', id)` selection of work entries. */
  function ClientEntries(entries: seq<WorkEntry>, id: string): (r: seq<WorkEntry>)
    ensures forall e :: e in r <==> e in entries && e.clientId == Some(id)
  {
    FilterSpec(entries, e => EntryOf(e, id));
    Filter(entries, e => EntryOf(e, id))
  }

  datatype ClientStats = ClientStats(totalJobs: nat, activeJobs: nat, completedJobs: nat, totalHours: real, totalCost: real)

  /**
   * `getClientStats(id)`: the client's jobs counted as the job statistics
   * count them, and the hours and labour cost (`override_cost ||
   * calculated_cost`) of every entry for the client, with or without a job.
   */
  function GetClientStats(jobs: seq<Job>, entries: seq<WorkEntry>, id: string): (r: ClientStats)
    ensures r.totalJobs == |ClientJobs(jobs, id)|
    ensures r.activeJobs + r.completedJobs <= r.totalJobs
    ensures r.totalHours == Sum(ClientEntries(entries, id), EntryHours)
    ensures r.totalCost == Sum(ClientEntries(entries, id), EntryLabour)
  {
    var mine := ClientJobs(jobs, id);
    var work := ClientEntries(entries, id);
    CountDisjoint(mine, IsOpenJob, IsCompletedJob);
    ClientStats(|mine|, Count(mine, IsOpenJob), Count(mine, IsCompletedJob), Sum(work, EntryHours), Sum(work, EntryLabour))
  }

  /** The client's job counts are the job statistics of the client's jobs. */
  lemma ClientStatsAgreeWithJobStats(jobs: seq<Job>, entries: seq<WorkEntry>, id: string, now: Instant)
    ensures var c, s := GetClientStats(jobs, entries, id), GetJobStats(ClientJobs(jobs, id), now);
      c.totalJobs == s.total && c.activeJobs == s.active && c.completedJobs == s.completed
  {
  }

  /** Entries that agree but for `client_cost` give the same statistics: the client price plays no part in them. */
  lemma ClientPriceIgnored(jobs: seq<Job>, a: seq<WorkEntry>, b: seq<WorkEntry>, id: string)
    requires |a| == |b|
    requires forall i :: 0 <= i < |a| ==> a[i].(clientCost := b[i].clientCost) == b[i]
    ensures GetClientStats(jobs, a, id) == GetClientStats(jobs, b, id)
  {
    forall i | 0 <= i < |a|
      ensures EntryOf(a[i], id) == EntryOf(b[i], id) && EntryHours(a[i]) == EntryHours(b[i]) && EntryLabour(a[i]) == EntryLabour(b[i])
    {
      assert a[i].(clientCost := b[i].clientCost) == b[i];
    }
    SameClientSums(a, b, id, EntryHours);
    SameClientSums(a, b, id, EntryLabour);
  }

  /** Two entry lists that agree, position by position, on the client and on `f` have the same client total of `f`. */
  lemma {:induction false} SameClientSums(a: seq<WorkEntry>, b: seq<WorkEntry>, id: string, f: WorkEntry -> real)
    requires |a| == |b|
    requires forall i :: 0 <= i < |a| ==> EntryOf(a[i], id) == EntryOf(b[i], id) && f(a[i]) == f(b[i])
    ensures Sum(ClientEntries(a, id), f) == Sum(ClientEntries(b, id), f)
    decreases |a|
  {
    if |a| > 0 {
      var a', b' := a[..|a| - 1], b[..|b| - 1];
      SameClientSums(a', b', id, f);
      var x, y := a[|a| - 1], b[|b| - 1];
      var tx: seq<WorkEntry> := if EntryOf(x, id) then [x] else [];
      var ty: seq<WorkEntry> := if EntryOf(y, id) then [y] else [];
      assert ClientEntries(a, id) == ClientEntries(a', id) + tx;
      assert ClientEntries(b, id) == ClientEntries(b', id) + ty;
      assert Sum(tx, f) == Sum(ty, f);
      SumAppend(ClientEntries(a', id), tx, f);
      SumAppend(ClientEntries(b', id), ty, f);
    }
  }

  /** `column.ilike.%query%`: the text contains the query, ignoring ASCII case. */
  predicate ILike(text: string, query: string) {
    Includes(ToLower(text), ToLower(query))
  }

  /** A null column matches no pattern. */
  predicate OptionalILike(text: Option<string>, query: string) {
    text.Some? && ILike(text.value, query)
  }

  /** Active, and the name, e-mail or company name contains the query. */
  predicate SearchMatch(c: Client, query: string) {
    c.activeStatus && (ILike(c.name, query) || OptionalILike(c.email, query) || OptionalILike(c.companyName, query))
  }

  function Matcher(query: string): Client -> bool {
    c => SearchMatch(c, query)
  }

  /** `.order('name')`. */
  predicate ClientNameLe(a: Client, b: Client) {
    LexLe(a.name, b.name)
  }

  lemma ClientNameLeOrders()
    ensures IsTotal(ClientNameLe) && IsTransitive(ClientNameLe)
  {
    forall a: Client, b: Client
      ensures ClientNameLe(a, b) || ClientNameLe(b, a)
    {
      LexLeTotal(a.name, b.name);
    }
    forall a: Client, b: Client, c: Client | ClientNameLe(a, b) && ClientNameLe(b, c)
      ensures ClientNameLe(a, c)
    {
      LexLeTransitive(a.name, b.name, c.name);
    }
  }

  const SearchLimit := 10

  /**
   * `searchClients(query)`: the matching active clients ordered by name, the
   * first ten of them.  When more than ten match, every one left out sorts at
   * or after the last one returned.
   */
  function SearchClients(clients: seq<Client>, query: string): (r: seq<Client>)
    ensures |r| <= SearchLimit
    ensures forall c :: c in r ==> c in clients && SearchMatch(c, query)
    ensures Sorted(r, ClientNameLe)
    ensures multiset(r) <= multiset(Filter(clients, Matcher(query)))
    ensures Count(clients, Matcher(query)) <= SearchLimit ==> multiset(r) == multiset(Filter(clients, Matcher(query)))
    ensures Count(clients, Matcher(query)) > SearchLimit ==>
      |r| == SearchLimit
      && forall c :: c in clients && SearchMatch(c, query) && c !in r ==> LexLe(r[SearchLimit - 1].name, c.name)
  {
    var matches := Filter(clients, Matcher(query));
    FilterSpec(clients, Matcher(query));
    var sorted := SortedByName(matches);
    if |sorted| <= SearchLimit then sorted
    else
      var r := sorted[..SearchLimit];
      PrefixSorted(sorted, SearchLimit);
      PrefixMultiset(sorted, SearchLimit);
      forall c | c in r
        ensures c in sorted
      {
        var k :| 0 <= k < |r| && r[k] == c;
        assert sorted[k] == c;
      }
      forall c | c in clients && SearchMatch(c, query) && c !in r
        ensures LexLe(r[SearchLimit - 1].name, c.name)
      {
        assert Matcher(query)(c);
        LeftOutSortsAfter(sorted, SearchLimit, c);
      }
      r
  }

  /** The `.order('name')` of the matches: the same clients, sorted by name. */
  function SortedByName(matches: seq<Client>): (r: seq<Client>)
    ensures multiset(r) == multiset(matches) && |r| == |matches|
    ensures forall c :: c in r <==> c in matches
    ensures SortedPairwise(r, ClientNameLe) && Sorted(r, ClientNameLe)
  {
    ClientNameLeOrders();
    var sorted := SortBy(matches, ClientNameLe);
    SortBySorted(matches, ClientNameLe);
    SortedIsPairwise(sorted, ClientNameLe);
    forall c
      ensures c in sorted <==> c in matches
    {
      assert c in sorted <==> c in multiset(sorted);
      assert c in matches <==> c in multiset(matches);
    }
    sorted
  }

  lemma PrefixSorted(s: seq<Client>, n: nat)
    requires n <= |s| && Sorted(s, ClientNameLe)
    ensures Sorted(s[..n], ClientNameLe)
  {
    forall i | 0 < i < n
      ensures ClientNameLe(s[..n][i - 1], s[..n][i])
    {
      assert s[..n][i - 1] == s[i - 1] && s[..n][i] == s[i];
    }
  }

  /** The first n rows of a result are drawn from it, duplicates included. */
  lemma PrefixMultiset(s: seq<Client>, n: nat)
    requires n <= |s|
    ensures multiset(s[..n]) <= multiset(s)
  {
    assert s == s[..n] + s[n..];
  }

  lemma LeftOutSortsAfter(s: seq<Client>, n: nat, c: Client)
    requires 0 < n <= |s| && SortedPairwise(s, ClientNameLe)
    requires c in s && c !in s[..n]
    ensures ClientNameLe(s[n - 1], c)
  {
    var j :| 0 <= j < |s| && s[j] == c;
  }

  /** An empty query matches every active client and no inactive one. */
  lemma EmptyQueryMatchesActive(c: Client)
    ensures SearchMatch(c, "") <==> c.activeStatus
  {
    IncludesEmpty(ToLower(c.name));
  }
}
