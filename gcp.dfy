/**
 * The GCP provider of pkg/provider/gcp.go: how it is built from a manifest,
 * the zone and region helpers, the architecture name of the gcloud download,
 * and the values CreateBackend writes into the caller's template context.
 * Bucket creation, template rendering, gcloud and the storage client are
 * answers supplied from outside.
 */
module Gcp {
  import opened Wrappers
  import opened Values
  import Manifest

  datatype GcpProvider = GcpProvider(cluster: string, project: string, bucket: string, region: string)

  /** The region used when none is configured or gcloud cannot tell. */
  const DefaultRegion: string := "us-east1-b"

  // ---------------------------------------------------------------------
  // strings.Split and strings.Join with a one-character separator

  /** `strings.Split(s, [sep])`: the pieces between separators, in order. */
  function Split(s: string, sep: char): (parts: seq<string>)
    ensures |parts| >= 1
    ensures forall i :: 0 <= i < |parts| ==> sep !in parts[i]
    decreases |s|
  {
    if s == [] then [""]
    else
      var rest := Split(s[1..], sep);
      if s[0] == sep then [""] + rest
      else [[s[0]] + rest[0]] + rest[1..]
  }

  /** `strings.Join(parts, [sep])`. */
  function JoinWith(parts: seq<string>, sep: char): string
    requires |parts| >= 1
  {
    if |parts| == 1 then parts[0] else parts[0] + [sep] + JoinWith(parts[1..], sep)
  }

  lemma {:induction false} SplitWithoutSeparator(p: string, sep: char)
    requires sep !in p
    ensures Split(p, sep) == [p]
    decreases |p|
  {
    if p != [] {
      SplitWithoutSeparator(p[1..], sep);
      assert [p[0]] + p[1..] == p;
    }
  }

  lemma {:induction false} SplitAfterPiece(p: string, t: string, sep: char)
    requires sep !in p
    ensures Split(p + [sep] + t, sep) == [p] + Split(t, sep)
    decreases |p|
  {
    var s := p + [sep] + t;
    if p == [] {
      assert s[1..] == t;
    } else {
      assert s[1..] == p[1..] + [sep] + t;
      SplitAfterPiece(p[1..], t, sep);
      assert [p[0]] + p[1..] == p;
    }
  }

  /** Splitting a joined list of separator-free pieces gives the pieces back. */
  lemma {:induction false} SplitJoin(parts: seq<string>, sep: char)
    requires |parts| >= 1
    requires forall i :: 0 <= i < |parts| ==> sep !in parts[i]
    ensures Split(JoinWith(parts, sep), sep) == parts
    decreases |parts|
  {
    if |parts| == 1 {
      SplitWithoutSeparator(parts[0], sep);
    } else {
      SplitAfterPiece(parts[0], JoinWith(parts[1..], sep), sep);
      SplitJoin(parts[1..], sep);
      assert [parts[0]] + parts[1..] == parts;
    }
  }

  /** Joining the pieces of a split gives the text back. */
  lemma {:induction false} JoinSplit(s: string, sep: char)
    ensures JoinWith(Split(s, sep), sep) == s
    decreases |s|
  {
    if s != [] {
      JoinSplit(s[1..], sep);
      var rest := Split(s[1..], sep);
      if s[0] == sep {
        assert ([""] + rest)[1..] == rest;
      } else {
        var parts := [[s[0]] + rest[0]] + rest[1..];
        if |rest| > 1 {
          assert parts[1..] == rest[1..];
        }
        assert [s[0]] + s[1..] == s;
      }
    }
  }

  // ---------------------------------------------------------------------
  // Zones and regions

  /**
   * getZone: the first two dash-separated components of `region`, joined
   * by a dash. The source slices `split[:2]`, which panics on a region with
   * fewer than two components.
   */
  function GetZone(region: string): (zone: string)
    requires |Split(region, '-')| >= 2
    ensures Split(zone, '-') == Split(region, '-')[..2]
  {
    var parts := Split(region, '-');
    SplitJoin(parts[..2], '-');
    JoinWith(parts[..2], '-')
  }

  /** getZone is idempotent: a zone is its own zone. */
  lemma GetZoneIdempotent(region: string)
    requires |Split(region, '-')| >= 2
    ensures |Split(GetZone(region), '-')| == 2
    ensures GetZone(GetZone(region)) == GetZone(region)
  {
    var zone := GetZone(region);
    JoinSplit(zone, '-');
    assert Split(zone, '-')[..2] == Split(zone, '-');
  }

  /** The zone is a prefix of the region: what the region adds comes after a further dash. */
  lemma GetZoneIsPrefix(region: string)
    requires |Split(region, '-')| >= 2
    ensures var zone := GetZone(region);
            |zone| <= |region| && region[..|zone|] == zone
            && (|zone| < |region| ==> region[|zone|] == '-')
  {
    var parts := Split(region, '-');
    JoinSplit(region, '-');
    if |parts| > 2 {
      JoinPrefix(parts, '-');
    } else {
      assert parts[..2] == parts;
    }
  }

  /** The first two pieces joined, then a separator, begin the joined whole. */
  lemma JoinPrefix(parts: seq<string>, sep: char)
    requires |parts| > 2
    ensures JoinWith(parts, sep) == JoinWith(parts[..2], sep) + [sep] + JoinWith(parts[2..], sep)
  {
    assert parts[1..][1..] == parts[2..];
    assert parts[..2][1..] == [parts[1]];
  }

  /** A region of three components has the first two as its zone. */
  lemma ZoneOfThree(a: string, b: string, c: string)
    requires '-' !in a && '-' !in b && '-' !in c
    ensures |Split(JoinWith([a, b, c], '-'), '-')| >= 2
    ensures GetZone(JoinWith([a, b, c], '-')) == JoinWith([a, b], '-')
  {
    var region := JoinWith([a, b, c], '-');
    SplitJoin([a, b, c], '-');
    var zone := GetZone(region);
    JoinSplit(zone, '-');
    assert Split(zone, '-') == [a, b];
  }

  /** The default region and its zone, as joined components. */
  lemma DefaultRegionJoined()
    ensures DefaultRegion == JoinWith(["us", "east1", "b"], '-')
    ensures "us-east1" == JoinWith(["us", "east1"], '-')
  {
    assert ["us", "east1", "b"][1..] == ["east1", "b"];
  }

  /** The default region has a zone, "us-east1". */
  lemma DefaultRegionZone()
    ensures |Split(DefaultRegion, '-')| >= 2
    ensures GetZone(DefaultRegion) == "us-east1"
  {
    DefaultRegionJoined();
    ZoneOfThree("us", "east1", "b");
  }

  /**
   * getRegion: the default when the gcloud command failed, otherwise the
   * second line of its combined output. The source indexes `[1]` without a
   * check, which panics on output without a newline.
   */
  function GetRegion(output: Result<string>): (region: string)
    requires output.Success? ==> |Split(output.value, '\n')| >= 2
    ensures output.Failure? ==> region == DefaultRegion
    ensures output.Success? ==>
      var v := output.value;
      var first := Split(v, '\n')[0];
      && '\n' !in region && '\n' !in first
      && |first| + 1 + |region| <= |v|
      && v[..|first| + 1 + |region|] == first + "\n" + region
      && (|first| + 1 + |region| == |v| || v[|first| + 1 + |region|] == '\n')
  {
    match output
    case Failure(_) => DefaultRegion
    case Success(v) =>
      SecondLine(v);
      Split(v, '\n')[1]
  }

  /** Where the second piece of a split sits in the text. */
  lemma SecondLine(v: string)
    requires |Split(v, '\n')| >= 2
    ensures var parts := Split(v, '\n');
            var n := |parts[0]| + 1 + |parts[1]|;
            n <= |v| && v[..n] == parts[0] + "\n" + parts[1] && (n == |v| || v[n] == '\n')
  {
    var parts := Split(v, '\n');
    JoinSplit(v, '\n');
    if |parts| > 2 {
      JoinPrefix(parts, '\n');
      assert parts[..2][1..] == [parts[1]];
    } else {
      assert parts[1..] == [parts[1]];
    }
  }

  /** gcpFromManifest: storage-client failure is returned; otherwise the manifest's fields, the region defaulted when empty. */
  function FromManifest(man: Manifest.Manifest, clientErr: Option<Error>): (r: Result<GcpProvider>)
    ensures clientErr.Some? ==> r == Failure(clientErr.value)
    ensures clientErr.None? ==>
              && r.Success?
              && r.value.cluster == man.cluster && r.value.project == man.project && r.value.bucket == man.bucket
              && r.value.region == (if man.region == "" then DefaultRegion else man.region)
    ensures r.Success? ==> r.value.region != ""
  {
    if clientErr.Some? then Failure(clientErr.value)
    else
      var region := if man.region == "" then DefaultRegion else man.region;
      Success(GcpProvider(man.cluster, man.project, man.bucket, region))
  }

  // ---------------------------------------------------------------------
  // Install

  /** The architecture name in the gcloud download: amd64 is x86_64, arm64 is arm, any other is kept. */
  function GcloudArch(goarch: string): (arch: string)
    ensures goarch == "amd64" ==> arch == "x86_64"
    ensures goarch == "arm64" ==> arch == "arm"
    ensures goarch != "amd64" && goarch != "arm64" ==> arch == goarch
  {
    match goarch
    case "amd64" => "x86_64"
    case "arm64" => "arm"
    case _ => goarch
  }

  const SdkDownloads: string := "https://dl.google.com/dl/cloudsdk/channels/rapid/downloads/google-cloud-sdk-335.0.0-"

  /** The download address Install builds from the operating system and the mapped architecture. */
  function InstallerUrl(goos: string, goarch: string): string
  {
    SdkDownloads + goos + "-" + GcloudArch(goarch) + ".tar.gz"
  }

  /** The install script run after unpacking: install.bat on windows, install.sh elsewhere. */
  function InstallScript(goos: string): string
  {
    if goos == "windows" then "install.bat" else "install.sh"
  }

  /**
   * Install: nothing to do when gcloud is already on the path; otherwise
   * the installer is asked to fetch the address for this platform and its
   * result is returned.
   */
  method Install(gcloudFound: bool, goos: string, goarch: string, installer: (string, string) -> Option<Error>)
    returns (err: Option<Error>, ghost fetched: Option<string>)
    ensures gcloudFound ==> err == None
    ensures !gcloudFound ==> err == installer(InstallerUrl(goos, goarch), InstallScript(goos))
    ensures gcloudFound <==> fetched == None
    ensures !gcloudFound ==> fetched == Some(InstallerUrl(goos, goarch))
  {
    if gcloudFound {
      return None, None;
    }
    var arch := goarch;
    if goarch == "amd64" {
      arch := "x86_64";
    } else if goarch == "arm64" {
      arch := "arm";
    }
    var url := SdkDownloads + goos + "-" + arch + ".tar.gz";
    err := installer(url, InstallScript(goos));
    fetched := Some(url);
  }

  // ---------------------------------------------------------------------
  // CreateBackend

  /** The keys CreateBackend writes. */
  const BackendKeys: set<string> := {"Project", "Location", "Bucket", "Prefix", "ClusterCreated", "__CLUSTER__", "Cluster"}

  /**
   * The context after CreateBackend: the provider's project, region, bucket
   * and cluster and the prefix under their keys; `Cluster` is the context's
   * own lowercase `cluster` value with `ClusterCreated` true when there is
   * one, and otherwise the quoted cluster name with `ClusterCreated` false;
   * every other key keeps its value.
   */
  function BackendValues(p: GcpProvider, prefix: string, m: map<string, Value>): (r: map<string, Value>)
    ensures r.Keys == m.Keys + BackendKeys
    ensures r["Project"] == Str(p.project) && r["Location"] == Str(p.region) && r["Bucket"] == Str(p.bucket)
    ensures r["Prefix"] == Str(prefix) && r["__CLUSTER__"] == Str(p.cluster)
    ensures "cluster" in m ==> r["Cluster"] == m["cluster"] && r["ClusterCreated"] == Bool(true)
    ensures "cluster" !in m ==> r["Cluster"] == Str(Quote(p.cluster)) && r["ClusterCreated"] == Bool(false)
    ensures forall k :: k in m && k !in BackendKeys ==> r[k] == m[k]
  {
    var set1 := m["Project" := Str(p.project)]["Location" := Str(p.region)]["Bucket" := Str(p.bucket)]
                 ["Prefix" := Str(prefix)]["ClusterCreated" := Bool(false)]["__CLUSTER__" := Str(p.cluster)];
    if "cluster" in m then set1["Cluster" := m["cluster"]]["ClusterCreated" := Bool(true)]
    else set1["Cluster" := Str(Quote(p.cluster))]
  }

  /** Running CreateBackend twice on one context leaves it as one run does. */
  lemma BackendValuesIdempotent(p: GcpProvider, prefix: string, m: map<string, Value>)
    ensures BackendValues(p, prefix, BackendValues(p, prefix, m)) == BackendValues(p, prefix, m)
  {
    var once := BackendValues(p, prefix, m);
    var twice := BackendValues(p, prefix, once);
    assert "cluster" in once <==> "cluster" in m;
    forall k | k in twice
      ensures k in once && twice[k] == once[k]
    {
    }
  }

  /**
   * CreateBackend: when the bucket cannot be made, ("", its error) and the
   * context untouched; otherwise the context updated in place as
   * BackendValues says and the rendering of the backend template over it.
   */
  method CreateBackend(p: GcpProvider, prefix: string, ctx: Dict, bucketErr: Option<Error>,
                       render: map<string, Value> -> (string, Option<Error>))
    returns (backend: string, err: Option<Error>)
    modifies ctx
    ensures bucketErr.Some? ==> backend == "" && err == bucketErr && ctx.entries == old(ctx.entries)
    ensures bucketErr.None? ==> ctx.entries == BackendValues(p, prefix, old(ctx.entries)) && (backend, err) == render(ctx.entries)
  {
    if bucketErr.Some? {
      return "", bucketErr;
    }
    ctx.entries := ctx.entries["Project" := Str(p.project)];
    ctx.entries := ctx.entries["Location" := Str(p.region)];
    ctx.entries := ctx.entries["Bucket" := Str(p.bucket)];
    ctx.entries := ctx.entries["Prefix" := Str(prefix)];
    ctx.entries := ctx.entries["ClusterCreated" := Bool(false)];
    ctx.entries := ctx.entries["__CLUSTER__" := Str(p.cluster)];
    if "cluster" in ctx.entries {
      ctx.entries := ctx.entries["Cluster" := ctx.entries["cluster"]];
      ctx.entries := ctx.entries["ClusterCreated" := Bool(true)];
    } else {
      ctx.entries := ctx.entries["Cluster" := Str(Quote(p.cluster))];
    }
    var rendered := render(ctx.entries);
    backend, err := rendered.0, rendered.1;
  }
}
