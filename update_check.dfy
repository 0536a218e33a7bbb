/**
 * `check_for_update`: after the latest published release has been fetched,
 * decide whether to download its first asset and where to put it. The
 * fetch and the download are I/O; the fetched release (or its absence
 * when the request or the JSON decoding fails) and the location of the
 * running executable are inputs.
 */
module UpdateCheck {
  import opened Common
  import opened Release
  import opened WinPaths

  /** The repository whose latest release is asked for. */
  const UpdateRepository: string := "audioprog/winkioskshell"

  /** A call of `download_latest_release(url, target)`. */
  datatype Download = Download(url: string, target: WinPath)

  /**
   * The download `check_for_update` starts, if any: only for a fetched
   * release whose tag is strictly newer than the running version, only of
   * the release's first asset, and only when the executable's own path is
   * known; the target is that path with its last component popped.
   */
  function UpdatePlan(fetched: Option<Release>, appVersion: string, currentExe: Option<WinPath>): (r: Option<Download>)
    ensures r.Some? ==> fetched.Some? && |fetched.value.assets| > 0 && currentExe.Some?
    ensures r.Some? ==> IsUpdateAvailable(fetched.value, appVersion) == Ok(true)
    ensures fetched.Some? && IsUpdateAvailable(fetched.value, appVersion) == Ok(true)
            && |fetched.value.assets| > 0 && currentExe.Some? ==>
              r == Some(Download(fetched.value.assets[0].browserDownloadUrl, Pop(currentExe.value)))
  {
    match fetched
    case None => None
    case Some(release) =>
      match IsUpdateAvailable(release, appVersion)
      case Ok(true) =>
        if |release.assets| > 0 && currentExe.Some? then
          Some(Download(release.assets[0].browserDownloadUrl, Pop(currentExe.value)))
        else None
      case _ => None
  }

  /** A tag that does not parse, or is not newer, never leads to a download. */
  lemma {:induction false} NoDownloadUnlessNewer(release: Release, appVersion: string, exe: Option<WinPath>)
    requires IsUpdateAvailable(release, appVersion) != Ok(true)
    ensures UpdatePlan(Some(release), appVersion, exe).None?
  {
  }

  /** The running version published again is not downloaded. */
  lemma {:induction false} NoDownloadOfSameVersion(release: Release, v: Version, exe: Option<WinPath>)
    requires InRange(v) && release.tagName == "v" + Format(v)
    ensures UpdatePlan(Some(release), Format(v), exe).None?
  {
    IsVersionNewerFormatted(v, v);
  }

  /**
   * A strictly newer, well-formed tag with at least one asset is
   * downloaded from the first asset's URL into the executable's directory.
   */
  lemma {:induction false} DownloadOfNewerRelease(release: Release, a: Version, b: Version, exe: WinPath)
    requires InRange(a) && InRange(b) && Newer(a, b)
    requires release.tagName == "v" + Format(a) && |release.assets| > 0
    ensures UpdatePlan(Some(release), Format(b), Some(exe))
            == Some(Download(release.assets[0].browserDownloadUrl, Pop(exe)))
  {
    IsVersionNewerFormatted(a, b);
  }

  /** The target is the executable's parent: the executable's path minus its file name. */
  lemma {:induction false} DownloadTargetIsParent(fetched: Option<Release>, appVersion: string, exe: WinPath)
    requires UpdatePlan(fetched, appVersion, Some(exe)).Some?
    requires exe.parts != []
    ensures var t := UpdatePlan(fetched, appVersion, Some(exe)).value.target;
            t.drive == exe.drive && t.rooted == exe.rooted && t.parts + [exe.parts[|exe.parts| - 1]] == exe.parts
  {
  }

  /** Nothing is downloaded when the fetch failed or the executable's path is unknown. */
  lemma {:induction false} NoDownloadWithoutInputs(fetched: Option<Release>, appVersion: string, exe: Option<WinPath>)
    requires fetched.None? || exe.None? || (fetched.Some? && fetched.value.assets == [])
    ensures UpdatePlan(fetched, appVersion, exe).None?
  {
  }
}
