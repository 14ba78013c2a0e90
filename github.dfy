/** The pure parts of the GitHub client (internal/github): following the
    `Link` header to the next page, guessing a job's runner OS, spotting
    self-hosted runners, and turning API payloads into runs and jobs.
    Timestamps arrive already parsed, as whole seconds since the epoch, with
    ZeroTime standing for a missing or unparsable one. */
module Github {
  import opened Common
  import opened Model

  // ---------------------------------------------------------------------------
  // Pagination (internal/github/pagination.go)
  // ---------------------------------------------------------------------------

  const RelNext := "rel=\"next\""

  /** A part of a `Link` header that names the next page and has a `<` before its first `>`. */
  predicate Usable(p: string) {
    Contains(p, RelNext) && 0 <= IndexOf(p, '<') < IndexOf(p, '>')
  }

  /** The text strictly between the first `<` and the first `>`. */
  function Target(p: string): (url: string)
    requires Usable(p)
    ensures '>' !in url
  {
    var left := IndexOf(p, '<');
    var right := IndexOf(p, '>');
    assert '>' !in p[left + 1..right] by {
      forall j | left + 1 <= j < right
        ensures p[j] != '>'
      {
        assert p[j] == p[..right][j];
      }
    }
    p[left + 1..right]
  }

  /** The search over the comma-separated parts, each trimmed. */
  function NextInParts(parts: seq<string>): (url: string)
    ensures '>' !in url
  {
    if parts == [] then ""
    else
      var p := TrimSpace(parts[0]);
      if Usable(p) then Target(p) else NextInParts(parts[1..])
  }

  /** NextPageURL, with the header given as its text. */
  function NextPageURL(link: string): (url: string)
    ensures '>' !in url
    ensures link == "" ==> url == ""
  {
    if link == "" then "" else NextInParts(Split(link, ','))
  }

  /** The first usable part decides; parts before it are skipped whatever
      they say, and with no usable part the result is empty. */
  lemma {:induction false} NextInFirstUsable(parts: seq<string>, k: int)
    requires 0 <= k < |parts| && Usable(TrimSpace(parts[k]))
    requires forall j :: 0 <= j < k ==> !Usable(TrimSpace(parts[j]))
    ensures NextInParts(parts) == Target(TrimSpace(parts[k]))
  {
    if k > 0 {
      assert !Usable(TrimSpace(parts[0]));
      assert forall j :: 0 <= j < k - 1 ==> parts[1..][j] == parts[j + 1];
      NextInFirstUsable(parts[1..], k - 1);
    }
  }

  lemma {:induction false} NextInNoneUsable(parts: seq<string>)
    requires forall j :: 0 <= j < |parts| ==> !Usable(TrimSpace(parts[j]))
    ensures NextInParts(parts) == ""
  {
    if parts != [] {
      assert !Usable(TrimSpace(parts[0]));
      assert forall j :: 0 <= j < |parts| - 1 ==> parts[1..][j] == parts[j + 1];
      NextInNoneUsable(parts[1..]);
    }
  }

  /** The URL of the first comma-separated part that names the next page with
      a well-placed bracket pair; parts naming the next page without one are
      skipped. */
  lemma NextPageFirstUsable(link: string, k: int)
    requires link != ""
    requires 0 <= k < |Split(link, ',')| && Usable(TrimSpace(Split(link, ',')[k]))
    requires forall j :: 0 <= j < k ==> !Usable(TrimSpace(Split(link, ',')[j]))
    ensures NextPageURL(link) == Target(TrimSpace(Split(link, ',')[k]))
  {
    NextInFirstUsable(Split(link, ','), k);
  }

  lemma NextPageNoneUsable(link: string)
    requires forall j :: 0 <= j < |Split(link, ',')| ==> !Usable(TrimSpace(Split(link, ',')[j]))
    ensures NextPageURL(link) == ""
  {
    if link != "" {
      NextInNoneUsable(Split(link, ','));
    }
  }

  /** Where a string occurs, if it does. */
  lemma {:induction false} ContainsWitness(s: string, sub: string) returns (i: nat)
    requires Contains(s, sub)
    ensures i + |sub| <= |s| && s[i..i + |sub|] == sub
    decreases |s|
  {
    if HasPrefix(s, sub) {
      i := 0;
    } else {
      var k := ContainsWitness(s[1..], sub);
      assert s[1..][k..k + |sub|] == s[k + 1..k + 1 + |sub|];
      i := k + 1;
    }
  }

  /** What a piece of a string contains, the string contains. */
  lemma ContainsInSlice(s: string, lo: int, hi: int, sub: string)
    requires 0 <= lo <= hi <= |s| && Contains(s[lo..hi], sub)
    ensures Contains(s, sub)
  {
    var i := ContainsWitness(s[lo..hi], sub);
    assert s[lo + i..lo + i + |sub|] == sub by {
      forall m | 0 <= m < |sub|
        ensures s[lo + i + m] == sub[m]
      {
        assert s[lo..hi][i..i + |sub|][m] == sub[m];
      }
    }
    ContainsAt(s, sub, lo + i);
  }

  /** Every piece of a join is a slice of it. */
  lemma {:induction false} ContainsInJoin(parts: seq<string>, sep: char, k: int, sub: string)
    requires 0 <= k < |parts| && Contains(parts[k], sub)
    ensures Contains(Join(parts, sep), sub)
  {
    var joined := Join(parts, sep);
    if |parts| == 1 {
      assert joined == parts[0];
    } else {
      var rest := Join(parts[1..], sep);
      assert joined == parts[0] + [sep] + rest;
      if k == 0 {
        assert joined[..|parts[0]|] == parts[0];
        ContainsInSlice(joined, 0, |parts[0]|, sub);
      } else {
        ContainsInJoin(parts[1..], sep, k - 1, sub);
        assert joined[|parts[0]| + 1..|joined|] == rest;
        ContainsInSlice(joined, |parts[0]| + 1, |joined|, sub);
      }
    }
  }

  /** A header that never mentions rel="next" has no next page. */
  lemma NoRelNextNoURL(link: string)
    requires !Contains(link, RelNext)
    ensures NextPageURL(link) == ""
  {
    var parts := Split(link, ',');
    forall j | 0 <= j < |parts|
      ensures !Usable(TrimSpace(parts[j]))
    {
      if Contains(TrimSpace(parts[j]), RelNext) {
        TrimmedContains(parts[j], RelNext);
        ContainsInJoin(parts, ',', j, RelNext);
        SplitJoin(link, ',');
      }
    }
    NextPageNoneUsable(link);
  }

  /** What the trimmed string contains, the string contains. */
  lemma TrimmedContains(p: string, sub: string)
    requires Contains(TrimSpace(p), sub)
    ensures Contains(p, sub)
  {
    TrimSpaceSpec(p);
    var lo := |p| - |TrimLeft(p)|;
    var t := TrimSpace(p);
    assert t == p[lo..lo + |t|];
    ContainsInSlice(p, lo, lo + |t|, sub);
  }

  /** A header whose first part links the next page yields that page,
      whatever the later parts say: the unit test's header, with a next link
      to page 2 followed by a last link, is one instance. */
  lemma LeadingNextPart(url: string, rest: string)
    requires ',' !in url && '<' !in url && '>' !in url
    ensures NextPageURL("<" + url + ">; " + RelNext + "," + rest) == url
  {
    var part := "<" + url + ">; " + RelNext;
    assert ',' !in part;
    SplitLeading(part, ',', rest);
    NextPart(url);
    assert NextInParts([part] + Split(rest, ',')) == url;
  }

  /** The canonical next-page part is usable and targets its URL. */
  lemma NextPart(url: string)
    requires '<' !in url && '>' !in url
    ensures var part := "<" + url + ">; " + RelNext;
      TrimSpace(part) == part && Usable(part) && Target(part) == url
  {
    var part := "<" + url + ">; " + RelNext;
    TrimSpaceKeeps(part);
    assert Contains(part, RelNext) by {
      assert part[|url| + 4..|url| + 4 + |RelNext|] == RelNext;
      ContainsAt(part, RelNext, |url| + 4);
    }
    assert IndexOf(part, '<') == 0;
    assert IndexOf(part, '>') == |url| + 1 by {
      assert part == ("<" + url) + ['>'] + ("; " + RelNext);
      IndexAfter("<" + url, '>', "; " + RelNext);
    }
    assert part[1..|url| + 1] == url;
  }

  // ---------------------------------------------------------------------------
  // Runner classification (internal/github/jobs.go)
  // ---------------------------------------------------------------------------

  /** hasSelfHosted: some label is "self-hosted", ignoring case. */
  function HasSelfHosted(labels: seq<string>): (r: bool)
    ensures r <==> exists l :: l in labels && EqualFold(l, "self-hosted")
  {
    if labels == [] then false
    else EqualFold(labels[0], "self-hosted") || HasSelfHosted(labels[1..])
  }

  /** The OS one label decides, if it decides one. */
  function LabelOS(tag: string): Option<string> {
    var l := ToLower(tag);
    if Contains(l, "macos") then Some("macOS")
    else if Contains(l, "windows") then Some("Windows")
    else if Contains(l, "ubuntu") || Contains(l, "linux") then Some("Linux")
    else None
  }

  /** The OS a runner name suggests when no label decides. */
  function NameOS(runnerName: string): string {
    var n := ToLower(runnerName);
    if Contains(n, "mac") then "macOS"
    else if Contains(n, "win") then "Windows"
    else "Linux"
  }

  predicate IsKnownOS(os: string) {
    os == "macOS" || os == "Windows" || os == "Linux"
  }

  /** guessRunnerOS. */
  function GuessRunnerOS(labels: seq<string>, runnerName: string): (os: string)
    ensures IsKnownOS(os)
  {
    if labels == [] then NameOS(runnerName)
    else match LabelOS(labels[0])
      case Some(os) => os
      case None => GuessRunnerOS(labels[1..], runnerName)
  }

  /** The first decisive label decides, whatever the labels after it and the
      runner name say. */
  lemma {:induction false} FirstDecisiveLabel(labels: seq<string>, runnerName: string, k: int)
    requires 0 <= k < |labels| && LabelOS(labels[k]).Some?
    requires forall j :: 0 <= j < k ==> LabelOS(labels[j]).None?
    ensures GuessRunnerOS(labels, runnerName) == LabelOS(labels[k]).value
  {
    if k > 0 {
      assert LabelOS(labels[0]).None?;
      assert forall j :: 0 <= j < k - 1 ==> labels[1..][j] == labels[j + 1];
      FirstDecisiveLabel(labels[1..], runnerName, k - 1);
    }
  }

  /** With no decisive label, the runner name decides. */
  lemma {:induction false} NoDecisiveLabel(labels: seq<string>, runnerName: string)
    requires forall j :: 0 <= j < |labels| ==> LabelOS(labels[j]).None?
    ensures GuessRunnerOS(labels, runnerName) == NameOS(runnerName)
  {
    if labels != [] {
      assert LabelOS(labels[0]).None?;
      assert forall j :: 0 <= j < |labels| - 1 ==> labels[1..][j] == labels[j + 1];
      NoDecisiveLabel(labels[1..], runnerName);
    }
  }

  /** Within one label macos beats windows, which beats ubuntu and linux; a
      label mentioning none of them decides nothing. */
  lemma LabelPriority(tag: string)
    ensures Contains(ToLower(tag), "macos") ==> LabelOS(tag) == Some("macOS")
    ensures !Contains(ToLower(tag), "macos") && Contains(ToLower(tag), "windows")
      ==> LabelOS(tag) == Some("Windows")
    ensures LabelOS(tag) == Some("Linux") <==>
      !Contains(ToLower(tag), "macos") && !Contains(ToLower(tag), "windows")
      && (Contains(ToLower(tag), "ubuntu") || Contains(ToLower(tag), "linux"))
    ensures LabelOS(tag).None? <==>
      !Contains(ToLower(tag), "macos") && !Contains(ToLower(tag), "windows")
      && !Contains(ToLower(tag), "ubuntu") && !Contains(ToLower(tag), "linux")
  {
  }

  /** The cases of the unit test: a case-insensitive self-hosted label, a
      macOS label, and runner-name fallbacks to Windows and to Linux. */
  lemma RunnerExamples(mixed: seq<string>, mac: seq<string>, winName: string, otherName: string)
    requires mixed == ["linux", "SELF-HOSTED"] && mac == ["macos-14"]
    requires winName == "win-runner-1" && otherName == "unknown"
    ensures HasSelfHosted(mixed)
    ensures GuessRunnerOS(mac, "runner-x") == "macOS"
    ensures GuessRunnerOS([], winName) == "Windows"
    ensures GuessRunnerOS([], otherName) == "Linux"
  {
    assert EqualFold(mixed[1], "self-hosted");
    assert ToLower(mac[0])[..5] == "macos";
    assert Contains(ToLower(mac[0]), "macos");
    var w := ToLower(winName);
    assert w[..3] == "win";
    assert !Contains(w, "mac") by { MissingLetter(w, "mac", 'm'); }
    var o := ToLower(otherName);
    assert o == otherName;
    assert !Contains(o, "mac") by { MissingLetter(o, "mac", 'm'); }
    assert !Contains(o, "win") by { MissingLetter(o, "win", 'i'); }
  }

  /** A word is absent from a string that lacks one of its letters. */
  lemma MissingLetter(s: string, w: string, c: char)
    requires c in w && c !in s
    ensures !Contains(s, w)
  {
    if Contains(s, w) {
      var i := ContainsWitness(s, w);
    }
  }

  // ---------------------------------------------------------------------------
  // Mapping payloads (internal/github/jobs.go, internal/github/runs.go)
  // ---------------------------------------------------------------------------

  /** A workflow run as the API returns it, timestamps already parsed. */
  datatype RunPayload = RunPayload(
    id: int,
    workflowID: int,
    name: string,
    headBranch: string,
    event: string,
    status: string,
    conclusion: string,
    runAttempt: int,
    runStarted: int,
    updatedAt: int,
    createdAt: int)

  /** A job as the API returns it, timestamps already parsed. */
  datatype JobPayload = JobPayload(
    id: int,
    name: string,
    status: string,
    conclusion: string,
    startedAt: int,
    completedAt: int,
    runnerName: string,
    runnerGroupName: string,
    labels: seq<string>)

  /** fallbackAttempt: a missing or non-positive attempt counts as the first. */
  function FallbackAttempt(v: int): (a: int)
    ensures a >= 1
    ensures v > 0 ==> a == v
    ensures v <= 0 ==> a == 1
  {
    if v <= 0 then 1 else v
  }

  /** The largest span a Go time.Duration holds, in whole seconds: 2^63 - 1
      nanoseconds truncated to seconds. */
  const MaxDurationSeconds := 9223372036

  /** The whole seconds a job ran: zero unless both instants are set and it
      completed after it started. The difference of two instants saturates at
      the largest duration, as time.Time.Sub does. */
  function JobDuration(start: int, end: int): (d: int)
    ensures 0 <= d <= MaxDurationSeconds
    ensures d > 0 <==> start != ZeroTime && end != ZeroTime && end > start
    ensures d > 0 && end - start <= MaxDurationSeconds ==> start + d == end
    ensures d > 0 && end - start > MaxDurationSeconds ==> d == MaxDurationSeconds
  {
    if start != ZeroTime && end != ZeroTime && end > start then
      if end - start > MaxDurationSeconds then MaxDurationSeconds else end - start
    else 0
  }

  /** mapRun. */
  function MapRun(repo: string, p: RunPayload): (r: WorkflowRun)
    ensures r.repo == repo && r.workflowName == p.name
    ensures r.id == p.id && r.workflowID == p.workflowID && r.headBranch == p.headBranch
    ensures r.event == p.event && r.status == p.status && r.conclusion == p.conclusion
    ensures r.runAttempt >= 1 && (p.runAttempt > 0 ==> r.runAttempt == p.runAttempt)
    ensures r.runStartedAt == p.runStarted && r.updatedAt == p.updatedAt && r.createdAt == p.createdAt
  {
    WorkflowRun(p.id, repo, p.workflowID, p.name, p.headBranch, p.event, p.status, p.conclusion,
                FallbackAttempt(p.runAttempt), p.runStarted, p.updatedAt, p.createdAt)
  }

  /** One job of ListJobsForRun, for the requested run and attempt. */
  function MapJob(repo: string, runID: int, attempt: int, p: JobPayload): (j: Job)
    ensures j.id == p.id && j.runID == runID && j.repo == repo && j.name == p.name
    ensures j.status == p.status && j.conclusion == p.conclusion
    ensures j.runAttempt >= 1 && (attempt > 0 ==> j.runAttempt == attempt)
    ensures j.startedAt == p.startedAt && j.completedAt == p.completedAt
    ensures IsKnownOS(j.runnerOS) && j.isSelfHosted == HasSelfHosted(p.labels)
    ensures j.runnerName == p.runnerName && j.runnerGroup == p.runnerGroupName
    ensures 0 <= j.durationSec <= MaxDurationSeconds
    ensures j.durationSec > 0 && j.completedAt - j.startedAt <= MaxDurationSeconds ==>
      j.startedAt + j.durationSec == j.completedAt
  {
    Job(p.id, runID, FallbackAttempt(attempt), repo, p.name, p.status, p.conclusion,
        p.startedAt, p.completedAt, GuessRunnerOS(p.labels, p.runnerName), p.runnerName,
        p.runnerGroupName, HasSelfHosted(p.labels), JobDuration(p.startedAt, p.completedAt))
  }

  /** The job of the attempt-fallback test: attempt 0 becomes 1, the labels
      self-hosted and linux give a self-hosted Linux job, and 10:00:00 to
      10:01:30 is 90 seconds. */
  lemma JobExample(p: JobPayload, start: int)
    requires start > ZeroTime
    requires p == JobPayload(7001, "unit-test", "completed", "success", start, start + 90,
                             "linux-host", "default", ["self-hosted", "linux"])
    ensures var j := MapJob("repo", 77, 0, p);
      j.runAttempt == 1 && j.isSelfHosted && j.runnerOS == "Linux" && j.durationSec == 90
  {
    ExampleSelfHosted(p.labels);
    ExampleLinux(p.labels, p.runnerName);
  }

  /** The labels self-hosted and linux: a self-hosted runner... */
  lemma ExampleSelfHosted(labels: seq<string>)
    requires labels == ["self-hosted", "linux"]
    ensures HasSelfHosted(labels)
  {
    var l := labels[0];
    assert ToLower(l) == l;
    assert EqualFold(l, "self-hosted");
  }

  /** ...running Linux, whatever its name. */
  lemma ExampleLinux(labels: seq<string>, runnerName: string)
    requires labels == ["self-hosted", "linux"]
    ensures GuessRunnerOS(labels, runnerName) == "Linux"
  {
    SelfHostedUndecided(labels[0]);
    LinuxDecides(labels[1]);
    assert forall j :: 0 <= j < 1 ==> LabelOS(labels[j]).None? by {
      forall j | 0 <= j < 1 ensures LabelOS(labels[j]).None? {
        assert j == 0;
      }
    }
    FirstDecisiveLabel(labels, runnerName, 1);
  }

  /** "self-hosted" names no OS. */
  lemma SelfHostedUndecided(t: string)
    requires t == "self-hosted"
    ensures LabelOS(t).None?
  {
    var l := ToLower(t);
    assert l == t;
    assert !Contains(l, "macos") by { MissingLetter(l, "macos", 'm'); }
    assert !Contains(l, "windows") by { MissingLetter(l, "windows", 'w'); }
    assert !Contains(l, "ubuntu") by { MissingLetter(l, "ubuntu", 'b'); }
    assert !Contains(l, "linux") by { MissingLetter(l, "linux", 'i'); }
  }

  /** "linux" names Linux. */
  lemma LinuxDecides(t: string)
    requires t == "linux"
    ensures LabelOS(t) == Some("Linux")
  {
    var l := ToLower(t);
    assert l == t;
    assert HasPrefix(l, "linux");
    assert !Contains(l, "macos") by { MissingLetter(l, "macos", 'm'); }
    assert !Contains(l, "windows") by { MissingLetter(l, "windows", 'w'); }
  }
}
