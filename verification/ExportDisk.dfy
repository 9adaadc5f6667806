// The export directory as a mutable object, and the cleanup that sweeps it.
module ExportDisk {
  import opened Common
  import opened MapSums
  import opened ExportRows
  import opened ExportDatabase
  import opened ExportStorage

  type Directory = map<FileName, Content>

  ghost function DirSizes(dirs: map<JobId, Directory>): map<JobId, int> { map id | id in dirs :: DirBytes(dirs[id]) }

  ghost function DiskBytes(dirs: map<JobId, Directory>): int { Sum(DirSizes(dirs)) }

  class Disk {
    var dirs: map<JobId, Directory>

    constructor ()
      ensures dirs == map[]
    {
      dirs := map[];
    }

    function Files(id: JobId): Directory
      reads this
    {
      if id in dirs then dirs[id] else map[]
    }

    // Other jobs' directories are untouched.
    twostate predicate Only(id: JobId)
      reads this
    {
      dirs - {id} == old(dirs) - {id}
    }

    method Write(id: JobId, name: FileName, data: Content)
      modifies this
      ensures Files(id) == old(Files(id))[name := data] && Only(id)
    {
      dirs := dirs[id := Files(id)[name := data]];
    }

    method Rename(id: JobId, from: FileName, to: FileName)
      requires from in Files(id)
      modifies this
      ensures Files(id) == (old(Files(id)) - {from})[to := old(Files(id))[from]] && Only(id)
    {
      dirs := dirs[id := (Files(id) - {from})[to := Files(id)[from]]];
    }

    method Remove(id: JobId, name: FileName)
      modifies this
      ensures Files(id) == old(Files(id)) - {name} && Only(id)
    {
      if id in dirs { dirs := dirs[id := dirs[id] - {name}]; }
    }

    method RemoveDirectory(id: JobId)
      modifies this
      ensures dirs == old(dirs) - {id}
    {
      dirs := dirs - {id};
    }

    method FolderBytes(id: JobId) returns (bytes: nat)
      requires id in dirs
      ensures bytes == DirBytes(dirs[id])
    {
      bytes := 0;
      var folder := dirs[id];
      var rest := folder.Keys;
      ghost var sizes := FileSizes(folder);
      assert sizes.Keys == rest;
      SumNone(sizes);
      while rest != {}
        invariant rest <= folder.Keys && bytes == Sum(sizes - rest)
        decreases |rest|
      {
        var n :| n in rest;
        SumPeel(sizes, rest, n);
        rest := rest - {n};
        bytes := bytes + |folder[n]|;
      }
    }

    // directoryBytes: the sum of all regular files below the export directory.
    method DirectoryBytes() returns (bytes: nat)
      ensures bytes == DiskBytes(dirs)
    {
      bytes := 0;
      var rest := dirs.Keys;
      ghost var sizes := DirSizes(dirs);
      assert sizes.Keys == rest;
      SumNone(sizes);
      while rest != {}
        invariant rest <= dirs.Keys && bytes == Sum(sizes - rest)
        decreases |rest|
      {
        var id :| id in rest;
        var folder := FolderBytes(id);
        SumPeel(sizes, rest, id);
        rest := rest - {id};
        bytes := bytes + folder;
      }
    }
  }

  method RemoveFolders(disk: Disk, ids: set<JobId>)
    modifies disk
    ensures disk.dirs == old(disk.dirs) - ids
  {
    var rest := ids;
    while rest != {}
      invariant rest <= ids && disk.dirs == old(disk.dirs) - (ids - rest)
      decreases |rest|
    {
      var id :| id in rest;
      rest := rest - {id};
      disk.RemoveDirectory(id);
    }
  }

  // Jobs whose files cleanup keeps.
  predicate Keeps(jobs: map<JobId, Job>, id: JobId) { id in jobs && !jobs[id].status.Expired? }

  // Expire what is due, then drop the directories of expired and of unknown jobs.
  method CleanupExpiredExports(db: Database, disk: Disk, now: Millis) returns (count: nat)
    modifies db, disk
    ensures db.jobs == map id | id in old(db.jobs) :: ExpireJob(old(db.jobs)[id], now)
    ensures count == |set id | id in old(db.jobs) && Expirable(old(db.jobs)[id], now)|
    ensures disk.dirs == map id | id in old(disk.dirs) && Keeps(db.jobs, id) :: old(disk.dirs)[id]
    // A job is expired afterwards if it was before or its time has come; any other
    // keeps its row and its folder.
    ensures db.jobs.Keys == old(db.jobs).Keys
    ensures forall id :: id in old(db.jobs) ==>
              (db.jobs[id].status.Expired? <==> old(db.jobs)[id].status.Expired? || Due(old(db.jobs)[id], now))
    ensures forall id :: id in old(db.jobs) && !old(db.jobs)[id].status.Expired? && !Due(old(db.jobs)[id], now) ==>
              && db.jobs[id] == old(db.jobs)[id]
              && (id in old(disk.dirs) ==> id in disk.dirs && disk.dirs[id] == old(disk.dirs)[id])
    ensures forall id :: id in disk.dirs ==>
              id in old(db.jobs) && !old(db.jobs)[id].status.Expired? && !Due(old(db.jobs)[id], now)
  {
    var expired := db.ExpireJobs(now);
    var jobs := db.jobs;
    RemoveFolders(disk, set id | id in jobs && jobs[id].status.Expired?);
    RemoveFolders(disk, set id | id in disk.dirs && id !in jobs);
    return |expired|;
  }
}
