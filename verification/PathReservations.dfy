/** The path reservations shared by every STOR and RETR: two maps under one mutex. */
module PathReservations {

  /** Paths are cleaned, as path.Clean leaves them, before they reach the maps. */
  type Path = string

  datatype Registry = Registry(uploads: set<Path>, downloads: map<Path, nat>)

  predicate Refused(p: Path) {
    p == "." || p == "/"
  }

  function Downloads(r: Registry, p: Path): nat {
    if p in r.downloads then r.downloads[p] else 0
  }

  predicate UploadAllowed(r: Registry, p: Path) {
    !Refused(p) && p !in r.uploads && Downloads(r, p) == 0
  }

  predicate DownloadAllowed(r: Registry, p: Path) {
    !Refused(p) && p !in r.uploads
  }

  function ReserveUpload(r: Registry, p: Path): Registry {
    if UploadAllowed(r, p) then r.(uploads := r.uploads + {p}) else r
  }

  function ReleaseUpload(r: Registry, p: Path): Registry {
    if Refused(p) then r else r.(uploads := r.uploads - {p})
  }

  function ReserveDownload(r: Registry, p: Path): Registry {
    if DownloadAllowed(r, p) then r.(downloads := r.downloads[p := Downloads(r, p) + 1]) else r
  }

  function ReleaseDownload(r: Registry, p: Path): Registry {
    if Refused(p) then r
    else if Downloads(r, p) <= 1 then r.(downloads := r.downloads - {p})
    else r.(downloads := r.downloads[p := r.downloads[p] - 1])
  }

  /** Maps as reservations leave them: nothing for "." and "/", and no count of zero. */
  predicate Tidy(r: Registry) {
    && "." !in r.uploads && "/" !in r.uploads && "." !in r.downloads && "/" !in r.downloads
    && forall p | p in r.downloads :: r.downloads[p] > 0
  }

  /** A release undoes the reservation before it, a reservation that is not allowed changes nothing,
      and neither does a release of "." or "/". */
  lemma ReleaseUndoes(r: Registry, p: Path)
    requires Tidy(r)
    ensures Tidy(ReserveUpload(r, p)) && Tidy(ReserveDownload(r, p)) && Tidy(ReleaseUpload(r, p)) && Tidy(ReleaseDownload(r, p))
    ensures if p != "." && p != "/" && p !in r.uploads && p !in r.downloads
            then ReserveUpload(r, p) != r && ReleaseUpload(ReserveUpload(r, p), p) == r else ReserveUpload(r, p) == r
    ensures if p != "." && p != "/" && p !in r.uploads
            then ReserveDownload(r, p) != r && ReleaseDownload(ReserveDownload(r, p), p) == r else ReserveDownload(r, p) == r
    ensures p == "." || p == "/" ==> ReleaseUpload(r, p) == r && ReleaseDownload(r, p) == r
  {
    if p !in r.downloads {
      assert r.downloads[p := 1] - {p} == r.downloads;
    } else {
      assert r.downloads[p := r.downloads[p] + 1][p := r.downloads[p]] == r.downloads;
    }
  }

  /** The package-level maps, changed in place. */
  class Reservations {
    var activeUploads: set<Path>
    var activeDownloads: map<Path, nat>

    function Now(): Registry
      reads this
    {
      Registry(activeUploads, activeDownloads)
    }

    constructor ()
      ensures Now() == Registry({}, map[])
    {
      activeUploads, activeDownloads := {}, map[];
    }

    method ReserveUploadPath(p: Path) returns (ok: bool)
      modifies this`activeUploads
      ensures ok == UploadAllowed(old(Now()), p) && Now() == ReserveUpload(old(Now()), p)
    {
      if p == "." || p == "/" {
        return false;
      }
      if p in activeUploads || (p in activeDownloads && activeDownloads[p] > 0) {
        return false;
      }
      activeUploads := activeUploads + {p};
      return true;
    }

    method ReleaseUploadPath(p: Path)
      modifies this`activeUploads
      ensures Now() == ReleaseUpload(old(Now()), p)
    {
      if p == "." || p == "/" {
        return;
      }
      activeUploads := activeUploads - {p};
    }

    method ReserveDownloadPath(p: Path) returns (ok: bool)
      modifies this`activeDownloads
      ensures ok == DownloadAllowed(old(Now()), p) && Now() == ReserveDownload(old(Now()), p)
    {
      if p == "." || p == "/" || p in activeUploads {
        return false;
      }
      var count := if p in activeDownloads then activeDownloads[p] else 0;
      activeDownloads := activeDownloads[p := count + 1];
      return true;
    }

    method ReleaseDownloadPath(p: Path)
      modifies this`activeDownloads
      ensures Now() == ReleaseDownload(old(Now()), p)
    {
      if p == "." || p == "/" {
        return;
      }
      var count := if p in activeDownloads then activeDownloads[p] else 0;
      if count <= 1 {
        activeDownloads := activeDownloads - {p};
      } else {
        activeDownloads := activeDownloads[p := count - 1];
      }
    }
  }
}
