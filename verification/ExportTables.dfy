// The database's and the disk's own view of a site: what the transactions' queries
// and the directory scan return is what the step model's guards say.
module ExportTables {
  import opened Common
  import opened MapSums
  import opened ExportRows
  import opened ExportCell
  import opened ExportTheorems
  import opened ExportOwners
  import opened ExportDatabase
  import opened ExportStorage
  import opened ExportDisk
  import Quota = ExportQuota

  function TablesOf(s: Site): map<JobId, Job> { map id | id in s && s[id].job.Some? :: s[id].job.value }

  lemma RetainedMatches(s: Site, owner: UserId)
    ensures Sum(CountColumn(TablesOf(s), owner)) == RetainedJobs(s, owner)
    ensures Sum(BytesColumn(TablesOf(s), owner)) == RetainedBytes(s, owner)
  {
    SumSupport(CountColumn(TablesOf(s), owner), JobCounts(s, owner));
    SumSupport(BytesColumn(TablesOf(s), owner), ArchiveSizes(s, owner));
  }

  // The finalizer's SUM is the bound the step model allows the dispatch to check.
  lemma OthersMatch(s: Site, owner: UserId, id: JobId)
    ensures Sum(BytesColumn(TablesOf(s), owner) - {id}) == OthersBytes(s, owner, id)
  {
    SumSupport(BytesColumn(TablesOf(s), owner) - {id}, ArchiveSizes(s, owner) - {id});
  }

  lemma ActiveMatches(s: Site, owner: UserId)
    ensures (forall k :: k in s ==> !ActiveFor(s[k], owner)) <==> !AnyActive(TablesOf(s), owner)
  {
    var jobs := TablesOf(s);
    forall k | k in s && ActiveFor(s[k], owner) ensures AnyActive(jobs, owner) { assert ActiveOf(jobs[k], owner); }
    if AnyActive(jobs, owner) {
      var k :| k in jobs && ActiveOf(jobs[k], owner);
      assert ActiveFor(s[k], owner);
    }
  }

  lemma CooledMatches(s: Site, owner: UserId, now: Millis, cooldown: nat)
    ensures (forall k :: k in s && OwnedBy(s[k], owner) ==> cooldown <= now - s[k].job.value.createdAt)
            <==> Cooled(TablesOf(s), owner, now, cooldown)
  {
    assert forall k :: k in TablesOf(s) <==> k in s && s[k].job.Some?;
  }

  // createOrGetActiveJob inserts exactly when the step model lets a job appear.
  lemma CreationMatches(cfg: Config, s: Site, id: JobId, owner: UserId, now: Millis, services: set<Service>)
    requires id !in s && Schlussel in services
    ensures Creates(cfg, s, id, owner, now, services) <==>
              && !AnyActive(TablesOf(s), owner) && Cooled(TablesOf(s), owner, now, cfg.cooldownMs)
              && Sum(CountColumn(TablesOf(s), owner)) < cfg.maxRetainedJobs
              && Sum(BytesColumn(TablesOf(s), owner)) < cfg.maxRetainedBytes
    ensures var c := NewCell(owner, now, services);
            TablesOf(s[id := c]) == TablesOf(s)[id := NewJob(owner, now, services)]
  {
    RetainedMatches(s, owner);
    ActiveMatches(s, owner);
    CooledMatches(s, owner, now, cfg.cooldownMs);
  }

  // The retry route's check on the owner's other jobs is the step model's.
  lemma RetryMatches(s: Site, id: JobId)
    requires id in s && s[id].job.Some?
    ensures Allowed(s, id, Action.Retry) <==>
              forall k :: k in TablesOf(s) && k != id ==> !ActiveOf(TablesOf(s)[k], s[id].job.value.owner)
  {
    var jobs, owner := TablesOf(s), s[id].job.value.owner;
    assert forall k :: k in s ==> (ActiveFor(s[k], owner) <==> k in jobs && ActiveOf(jobs[k], owner));
  }

  // The disk holds the files of the site's jobs; a job without files may lack a folder.
  predicate SameFiles(s: Site, dirs: map<JobId, Directory>) {
    && dirs.Keys <= s.Keys
    && (forall id :: id in s ==> s[id].dir == if id in dirs then dirs[id] else map[])
  }

  // directoryBytes returns the total that the storage theorems bound.
  lemma ScanMatches(s: Site, dirs: map<JobId, Directory>)
    requires SameFiles(s, dirs)
    ensures DiskBytes(dirs) == Quota.TotalBytes(s)
  {
    assert FileSizes(map[]) == map[];
    SumSupport(DirSizes(dirs), Quota.JobBytes(s));
  }

  // So a batch that scans the disk right after its sweep starts with the usage the
  // storage theorems require of the claim.
  lemma StartMatches(s: Site, id: JobId, a: Action, dirs: map<JobId, Directory>)
    requires id in s && s[id].job.Some? && a.Claim?
    requires SameFiles(s[id := s[id].(dir := s[id].dir - Swept(s[id].job.value, s[id].dir))], dirs)
    requires a.usage == DiskBytes(dirs)
    ensures Quota.StartsAlone(s, id, a) <==> Quota.Quiet(s)
  {
    var c := s[id].(dir := s[id].dir - Swept(s[id].job.value, s[id].dir));
    ScanMatches(s[id := c], dirs);
    Quota.TotalReplace(s, id, c);
  }
}
