// Capture selection of `process_profile_traffic`: which capture of a profile,
// if any, is summarised and rendered, and what that does to the world.
// The imperative loop itself is ModReport.Worker.ProcessProfileTraffic; this
// module is its specification.

module Traffic {
  import opened Trace

  /** Captures smaller than this many bytes are treated as empty. */
  const MinCaptureSize: nat := 25

  /** A directory entry as `os.stat` sees it. */
  datatype Capture = Capture(file: string, size: nat)

  /**
   * The part of the machine the worker depends on: the configured storage
   * root, the entries of each existing directory (keyed by full path, in
   * directory-listing order), the full paths at which a file cannot be
   * created or truncated, and whether each external tool can be launched.
   */
  datatype Host = Host(
    root: string,
    dirs: map<string, seq<Capture>>,
    unwritable: set<string>,
    summarizerInstalled: bool,
    pandocInstalled: bool)

  datatype Outcome = Finished(validCapture: bool) | Aborted

  /** The effects of one call and how it ended. */
  datatype Processing = Processing(effects: seq<Effect>, outcome: Outcome)

  function ProfileDir(root: string, profile: string): string { root + "/" + profile }
  function ReportSource(profile: string): string { profile + ".md" }
  function ReportBuild(profile: string): string { profile + ".pdf" }

  /** Where `open(report_source, "wb")` creates the summary: relative to the profile directory. */
  function ReportPath(host: Host, profile: string): string
  {
    ProfileDir(host.root, profile) + "/" + ReportSource(profile)
  }

  /** `glob.glob("*.pcap")` matches: the `.pcap` suffix, and no leading dot. */
  predicate IsPcapName(name: string)
  {
    |name| >= 5 && name[0] != '.' && name[|name| - 5..] == ".pcap"
  }

  predicate IsValidCapture(c: Capture)
  {
    c.size >= MinCaptureSize
  }

  /** The entries `glob.glob("*.pcap")` returns, in listing order. */
  function Glob(entries: seq<Capture>): (captures: seq<Capture>)
    ensures |captures| <= |entries|
    ensures forall c :: c in captures <==> c in entries && IsPcapName(c.file)
  {
    if entries == [] then []
    else (if IsPcapName(entries[0].file) then [entries[0]] else []) + Glob(entries[1..])
  }

  /** `k` is the index of the first qualifying capture of `captures`. */
  predicate IsFirstValid(captures: seq<Capture>, k: nat)
  {
    k < |captures| && IsValidCapture(captures[k]) &&
    forall j :: 0 <= j < k ==> !IsValidCapture(captures[j])
  }

  /** Index of the first capture of at least MinCaptureSize bytes. */
  function FirstValid(captures: seq<Capture>): (k: Option<nat>)
    ensures k.Some? ==> IsFirstValid(captures, k.value)
    ensures k.None? ==> forall j :: 0 <= j < |captures| ==> !IsValidCapture(captures[j])
  {
    if captures == [] then None
    else if IsValidCapture(captures[0]) then Some(0)
    else match FirstValid(captures[1..])
      case None => None
      case Some(k) => Some(k + 1)
  }

  /**
   * What `process_profile_traffic(profile, root)` does: change into the
   * profile directory (a missing one raises, and the handler exits with -1),
   * then summarise and render only the first capture that is large enough.
   * A summary file that cannot be opened for writing, or a tool that cannot
   * be launched, raises and exits with -1 likewise.
   */
  function Process(host: Host, profile: string): Processing
  {
    var dir := ProfileDir(host.root, profile);
    if dir !in host.dirs then Processing([Exit(-1)], Aborted)
    else
      var captures := Glob(host.dirs[dir]);
      var source := ReportSource(profile);
      match FirstValid(captures)
      case None => Processing([ChangeDir(dir)], Finished(false))
      case Some(k) =>
        if ReportPath(host, profile) in host.unwritable || !host.summarizerInstalled then
          Processing([ChangeDir(dir), Exit(-1)], Aborted)
        else if !host.pandocInstalled then
          Processing([ChangeDir(dir), Summarize(captures[k].file, source), Exit(-1)], Aborted)
        else
          Processing([ChangeDir(dir), Summarize(captures[k].file, source), Render(source, ReportBuild(profile))],
                     Finished(true))
  }

  /** Some entry of the profile directory is a pcap capture of at least MinCaptureSize bytes. */
  predicate HasQualifyingCapture(host: Host, profile: string)
  {
    var dir := ProfileDir(host.root, profile);
    dir in host.dirs &&
    exists c :: c in host.dirs[dir] && IsPcapName(c.file) && IsValidCapture(c)
  }

  /**
   * A call that returns reports true exactly when the directory holds a
   * qualifying capture; the threshold is inclusive (25 bytes qualify).
   */
  lemma ResultIffQualifyingCapture(host: Host, profile: string)
    requires Process(host, profile).outcome.Finished?
    ensures Process(host, profile).outcome.validCapture <==> HasQualifyingCapture(host, profile)
  {
  }

  /**
   * The call exits the process exactly on a missing directory, or when there
   * is a qualifying capture and its summary file cannot be opened for
   * writing or a tool cannot be launched.
   */
  lemma AbortsOnlyOnFault(host: Host, profile: string)
    ensures Process(host, profile).outcome.Aborted? <==>
      ProfileDir(host.root, profile) !in host.dirs ||
      (HasQualifyingCapture(host, profile) &&
       (ReportPath(host, profile) in host.unwritable || !host.summarizerInstalled || !host.pandocInstalled))
  {
  }

  /**
   * At most one capture is summarised and rendered, and it is the first
   * qualifying capture in listing order; its summary goes to `<profile>.md`.
   */
  lemma SummarizesFirstQualifyingOnly(host: Host, profile: string)
    ensures var e := Process(host, profile).effects;
      forall i, j :: 0 <= i < j < |e| ==>
        !(e[i].Summarize? && e[j].Summarize?) && !(e[i].Render? && e[j].Render?)
    ensures var e := Process(host, profile).effects;
      forall i :: 0 <= i < |e| && e[i].Summarize? ==>
        ProfileDir(host.root, profile) in host.dirs &&
        e[i].output == ReportSource(profile) &&
        exists k: nat :: IsFirstValid(Glob(host.dirs[ProfileDir(host.root, profile)]), k) &&
          e[i].capture == Glob(host.dirs[ProfileDir(host.root, profile)])[k].file
  {
    var dir := ProfileDir(host.root, profile);
    if dir in host.dirs {
      var captures := Glob(host.dirs[dir]);
      if FirstValid(captures).Some? {
        var k := FirstValid(captures).value;
        var e := Process(host, profile).effects;
        if ReportPath(host, profile) !in host.unwritable && host.summarizerInstalled {
          assert e[1].capture == Glob(host.dirs[ProfileDir(host.root, profile)])[k].file;
          assert IsFirstValid(Glob(host.dirs[ProfileDir(host.root, profile)]), k);
        }
      }
    }
  }

  /**
   * `m` is the position, in the raw directory listing, of the first entry
   * that is both a `*.pcap` capture and at least MinCaptureSize bytes.
   */
  predicate IsFirstQualifyingEntry(entries: seq<Capture>, m: nat)
  {
    m < |entries| && IsPcapName(entries[m].file) && IsValidCapture(entries[m]) &&
    forall j :: 0 <= j < m ==> !(IsPcapName(entries[j].file) && IsValidCapture(entries[j]))
  }

  /** Position of the first qualifying entry of the raw listing. */
  function FirstListed(entries: seq<Capture>): (m: Option<nat>)
    ensures m.Some? ==> IsFirstQualifyingEntry(entries, m.value)
    ensures m.None? ==> forall j :: 0 <= j < |entries| ==> !(IsPcapName(entries[j].file) && IsValidCapture(entries[j]))
  {
    if entries == [] then None
    else if IsPcapName(entries[0].file) && IsValidCapture(entries[0]) then Some(0)
    else match FirstListed(entries[1..])
      case None => None
      case Some(m) => Some(m + 1)
  }

  /**
   * The glob keeps the listing's order, so the first valid capture it
   * returns is the first qualifying entry of the listing.
   */
  lemma {:induction false} GlobKeepsListingOrder(entries: seq<Capture>)
    ensures FirstValid(Glob(entries)).Some? <==> FirstListed(entries).Some?
    ensures FirstValid(Glob(entries)).Some? ==>
      Glob(entries)[FirstValid(Glob(entries)).value] == entries[FirstListed(entries).value]
  {
    if entries != [] {
      var rest := Glob(entries[1..]);
      GlobKeepsListingOrder(entries[1..]);
      if IsPcapName(entries[0].file) {
        assert Glob(entries) == [entries[0]] + rest;
        assert Glob(entries)[1..] == rest;
      } else {
        assert Glob(entries) == rest;
      }
    }
  }

  /**
   * Stated over the raw listing: the summarised capture is the first listed
   * entry that is a `*.pcap` of at least MinCaptureSize bytes.
   */
  lemma SummarizesFirstListedCapture(host: Host, profile: string)
    ensures var e := Process(host, profile).effects;
      forall i :: 0 <= i < |e| && e[i].Summarize? ==>
        ProfileDir(host.root, profile) in host.dirs &&
        FirstListed(host.dirs[ProfileDir(host.root, profile)]).Some? &&
        e[i].capture == host.dirs[ProfileDir(host.root, profile)][FirstListed(host.dirs[ProfileDir(host.root, profile)]).value].file
  {
    var dir := ProfileDir(host.root, profile);
    if dir in host.dirs {
      GlobKeepsListingOrder(host.dirs[dir]);
    }
  }

  /** With no qualifying capture, neither tool runs, so no `.md` or `.pdf` is written. */
  lemma NoReportWithoutQualifyingCapture(host: Host, profile: string)
    requires !HasQualifyingCapture(host, profile)
    ensures forall e :: e in Process(host, profile).effects ==> !e.Summarize? && !e.Render?
    ensures Process(host, profile).outcome in {Finished(false), Aborted}
  {
  }

  /**
   * The renderer runs only right after the summariser, on `<profile>.md`,
   * producing `<profile>.pdf`.
   */
  lemma RenderFollowsSummary(host: Host, profile: string)
    ensures var e := Process(host, profile).effects;
      forall i :: 0 <= i < |e| && e[i].Render? ==>
        e[i] == Render(ReportSource(profile), ReportBuild(profile)) &&
        0 < i && e[i - 1].Summarize? && e[i - 1].output == ReportSource(profile)
  {
  }

  /**
   * An aborted call ends with `Exit(-1)` and exits nowhere else; a call that
   * returns exits nowhere. Neither publishes anything.
   */
  lemma ExitOnlyOnAbort(host: Host, profile: string)
    ensures var p := Process(host, profile);
      |p.effects| > 0 &&
      (forall i :: 0 <= i < |p.effects| - 1 ==> !p.effects[i].Exit?) &&
      (p.outcome.Aborted? <==> p.effects[|p.effects| - 1] == Exit(-1)) &&
      (p.outcome.Finished? ==> !p.effects[|p.effects| - 1].Exit?) &&
      (forall e :: e in p.effects ==> !e.Publish? && !e.DelFromQueue? && !e.UpdReported?)
  {
  }
}
