/** The per-day snapshot cache of website_json: the JSON of a source is kept
    in data/<name>/<YYYYMMDD>.json; a day's first read of a source fetches
    it from the website and writes that file, every later read that day
    uses the file. The file system and the website are objects whose state
    the reads change: a store of directories and files, and a website that
    records the URLs it is asked for. */
module Snapshot {
  import opened JsonValues
  import DecimalKeys

  /** A calendar day, as datetime.now() gives it. */
  datatype Date = Date(year: nat, month: nat, day: nat)

  /** The days strftime("%Y%m%d") writes as eight digits. */
  predicate ValidDate(d: Date)
  {
    1000 <= d.year <= 9999 && 1 <= d.month <= 12 && 1 <= d.day <= 31
  }

  function Pow10(w: nat): (p: nat)
    ensures p >= 1
  {
    if w == 0 then 1 else 10 * Pow10(w - 1)
  }

  predicate IsDigit(c: char)
  {
    '0' <= c <= '9'
  }

  function DigitValue(c: char): (v: nat)
    requires IsDigit(c)
    ensures v < 10
  {
    c as int - '0' as int
  }

  /** n in w decimal digits, padded with zeros on the left. */
  function Pad(n: nat, w: nat): (s: string)
    requires n < Pow10(w)
    ensures |s| == w
    ensures forall i :: 0 <= i < |s| ==> IsDigit(s[i])
  {
    if w == 0 then ""
    else
      assert n / 10 < Pow10(w - 1);
      Pad(n / 10, w - 1) + [DecimalKeys.DigitChar(n % 10)]
  }

  /** The number a string of decimal digits denotes. */
  function ReadDigits(s: string): nat
    requires forall i :: 0 <= i < |s| ==> IsDigit(s[i])
  {
    if s == [] then 0 else 10 * ReadDigits(s[..|s| - 1]) + DigitValue(s[|s| - 1])
  }

  /** Padding loses nothing: the digits read back as the number. */
  lemma {:induction false} ReadPad(n: nat, w: nat)
    requires n < Pow10(w)
    ensures ReadDigits(Pad(n, w)) == n
  {
    if w > 0 {
      var s := Pad(n, w);
      assert n / 10 < Pow10(w - 1);
      assert s[..|s| - 1] == Pad(n / 10, w - 1);
      assert DigitValue(s[|s| - 1]) == n % 10;
      ReadPad(n / 10, w - 1);
    }
  }

  /** strftime(now, "%Y%m%d"). */
  function Stamp(d: Date): (s: string)
    requires ValidDate(d)
    ensures |s| == 8
    ensures forall i :: 0 <= i < |s| ==> IsDigit(s[i])
  {
    Pad(d.year, 4) + Pad(d.month, 2) + Pad(d.day, 2)
  }

  /** The day an eight-digit stamp names. */
  function ParseStamp(s: string): Date
    requires |s| == 8 && forall i :: 0 <= i < |s| ==> IsDigit(s[i])
  {
    Date(ReadDigits(s[..4]), ReadDigits(s[4..6]), ReadDigits(s[6..]))
  }

  /** The stamp reads back as its day. */
  lemma StampRoundTrip(d: Date)
    requires ValidDate(d)
    ensures ParseStamp(Stamp(d)) == d
  {
    var s := Stamp(d);
    assert s[..4] == Pad(d.year, 4);
    assert s[4..6] == Pad(d.month, 2);
    assert s[6..] == Pad(d.day, 2);
    ReadPad(d.year, 4);
    ReadPad(d.month, 2);
    ReadPad(d.day, 2);
  }

  /** The directory of a source's snapshots, relative to the package. */
  function SnapshotDir(name: string): string
  {
    "data/" + name
  }

  /** The snapshot file of a source for a day. */
  function SnapshotPath(name: string, d: Date): (p: string)
    requires ValidDate(d)
    ensures |p| == |name| + 19
    ensures p[..|name| + 6] == SnapshotDir(name) + "/"
  {
    SnapshotDir(name) + "/" + Stamp(d) + ".json"
  }

  /** Every snapshot file names its source and its day: the name sits
      between "data/" and the stamp, and the stamp before ".json". */
  lemma PathRoundTrip(name: string, d: Date)
    requires ValidDate(d)
    ensures var p := SnapshotPath(name, d);
      && p[5..|p| - 14] == name
      && p[|p| - 13..|p| - 5] == Stamp(d)
      && p[|p| - 5..] == ".json"
  {
    var p := SnapshotPath(name, d);
    assert p == "data/" + name + "/" + Stamp(d) + ".json";
  }

  /** Two sources, or two days, never share a snapshot file. */
  lemma PathInjective(n1: string, d1: Date, n2: string, d2: Date)
    requires ValidDate(d1) && ValidDate(d2)
    ensures SnapshotPath(n1, d1) == SnapshotPath(n2, d2) <==> n1 == n2 && d1 == d2
  {
    if SnapshotPath(n1, d1) == SnapshotPath(n2, d2) {
      PathRoundTrip(n1, d1);
      PathRoundTrip(n2, d2);
      StampRoundTrip(d1);
      StampRoundTrip(d2);
    }
  }

  /** The file store: the directories that exist and the files. A file holds
      a JSON value, or None when its content is not JSON. */
  class FileStore {
    var dirs: set<string>
    var files: map<string, Option<Json>>

    constructor (dirs: set<string>, files: map<string, Option<Json>>)
      ensures this.dirs == dirs && this.files == files
    {
      this.dirs := dirs;
      this.files := files;
    }
  }

  /** The website: what each URL serves (a request or decode failure as an
      error), and the URLs requested so far. */
  class Website {
    const serve: string -> Result<Json>
    var fetches: seq<string>

    constructor (serve: string -> Result<Json>)
      ensures this.serve == serve && fetches == []
    {
      this.serve := serve;
      fetches := [];
    }

    /** requests.get(url).json(). */
    method Get(url: string) returns (r: Result<Json>)
      modifies this`fetches
      ensures fetches == old(fetches) + [url]
      ensures r == serve(url)
    {
      fetches := fetches + [url];
      r := serve(url);
    }
  }

  /** What a read of path gives: on a hit the file's value (a decode error
      when it is not JSON), on a miss what the website serves. */
  function Lookup(files: map<string, Option<Json>>, path: string, fetched: Result<Json>): Result<Json>
  {
    if path in files then
      (if files[path].Some? then Ok(files[path].value) else Err(JsonDecodeError))
    else fetched
  }

  /** The files after the read: a miss whose fetch succeeds writes the value
      at path; a hit or a failed fetch writes nothing. */
  function Written(files: map<string, Option<Json>>, path: string, fetched: Result<Json>): map<string, Option<Json>>
  {
    if path !in files && fetched.Ok? then files[path := Some(fetched.value)] else files
  }

  /** A read on a hit writes nothing, whatever the website serves, and
      returns the stored value. */
  lemma HitKeepsFiles(files: map<string, Option<Json>>, path: string, fetched: Result<Json>, v: Json)
    requires path in files && files[path] == Some(v)
    ensures Written(files, path, fetched) == files
    ensures Lookup(files, path, fetched) == Ok(v)
  {
  }

  /** What a successful miss returns is what it wrote: a later read of the
      same path, by another facade the same day, hits and gives that value
      again, whatever the website serves by then. */
  lemma MissThenHit(files: map<string, Option<Json>>, path: string, fetched: Result<Json>, later: Result<Json>)
    requires path !in files && fetched.Ok?
    ensures Lookup(files, path, fetched) == fetched
    ensures Lookup(Written(files, path, fetched), path, later) == fetched
    ensures Written(Written(files, path, fetched), path, later) == Written(files, path, fetched)
  {
  }

  /** A read of one source's snapshot leaves every other source's and every
      other day's snapshot as it was. */
  lemma SnapshotsIsolated(files: map<string, Option<Json>>, n1: string, d1: Date, fetched: Result<Json>, n2: string, d2: Date)
    requires ValidDate(d1) && ValidDate(d2)
    requires n1 != n2 || d1 != d2
    ensures var p2 := SnapshotPath(n2, d2);
      (p2 in Written(files, SnapshotPath(n1, d1), fetched) <==> p2 in files) &&
      (p2 in files ==> Written(files, SnapshotPath(n1, d1), fetched)[p2] == files[p2])
  {
    PathInjective(n1, d1, n2, d2);
  }

  /** The base class a facade builds its records with. */
  datatype Kind = RiderKind | ConstructorKind | TeamKind | WeekendKind

  /** A facade over one source (Base): its URL, its name and its record
      class, and the memo slot of website_json. */
  class Source {
    const url: string
    const name: string
    const kind: Kind
    var websiteJson: Option<Json>

    constructor (url: string, name: string, kind: Kind)
      ensures this.url == url && this.name == name && this.kind == kind
      ensures websiteJson == None
    {
      this.url := url;
      this.name := name;
      this.kind := kind;
      websiteJson := None;
    }

    /** website_json: on the first successful read the directory is made if
        absent, the day's file is read on a hit, and on a miss the website is
        asked once and its value written to the file; the value is then kept.
        A later read returns the kept value and touches neither the store nor
        the website. A read that raises keeps nothing, so the next read
        starts over. */
    method WebsiteJson(today: Date, store: FileStore, web: Website) returns (r: Result<Json>)
      requires ValidDate(today)
      modifies this`websiteJson, store, web`fetches
      ensures old(websiteJson).Some? ==>
        && r == Ok(old(websiteJson).value)
        && websiteJson == old(websiteJson)
        && store.dirs == old(store.dirs) && store.files == old(store.files)
        && web.fetches == old(web.fetches)
      ensures old(websiteJson).None? ==>
        var path := SnapshotPath(name, today);
        && store.dirs == old(store.dirs) + {SnapshotDir(name)}
        && r == Lookup(old(store.files), path, web.serve(url))
        && store.files == Written(old(store.files), path, web.serve(url))
        && web.fetches == old(web.fetches) + (if path in old(store.files) then [] else [url])
        && websiteJson == (if r.Ok? then Some(r.value) else None)
    {
      if websiteJson.Some? {
        return Ok(websiteJson.value);
      }
      var directory := SnapshotDir(name);
      if directory !in store.dirs {
        store.dirs := store.dirs + {directory};
      }
      var filename := SnapshotPath(name, today);
      if filename in store.files {
        var content := store.files[filename];
        if content.None? {
          return Err(JsonDecodeError);
        }
        r := Ok(content.value);
      } else {
        r := web.Get(url);
        if r.Err? {
          return r;
        }
        store.files := store.files[filename := Some(r.value)];
      }
      websiteJson := Some(r.value);
    }
  }

  /** The memo of the four facades (FantasyStats): each slot is filled by
      the first read and returned by every later one. The URLs are those of
      the urls module. */
  class FantasyStats {
    const ridersUrl: string
    const constructorsUrl: string
    const squadsUrl: string
    const eventsUrl: string
    var riders: Option<Source>
    var constructors: Option<Source>
    var teams: Option<Source>
    var weekends: Option<Source>

    constructor (ridersUrl: string, constructorsUrl: string, squadsUrl: string, eventsUrl: string)
      ensures this.ridersUrl == ridersUrl && this.constructorsUrl == constructorsUrl
      ensures this.squadsUrl == squadsUrl && this.eventsUrl == eventsUrl
      ensures riders == None && constructors == None && teams == None && weekends == None
    {
      this.ridersUrl := ridersUrl;
      this.constructorsUrl := constructorsUrl;
      this.squadsUrl := squadsUrl;
      this.eventsUrl := eventsUrl;
      riders := None;
      constructors := None;
      teams := None;
      weekends := None;
    }

    /** riders: RiderStats() the first time, the same facade afterwards. */
    method Riders() returns (s: Source)
      modifies this`riders
      ensures old(riders).Some? ==> s == old(riders).value
      ensures old(riders).None? ==>
        fresh(s) && s.url == ridersUrl && s.name == "rider" && s.kind == RiderKind && s.websiteJson == None
      ensures riders == Some(s)
    {
      if riders.Some? {
        return riders.value;
      }
      s := new Source(ridersUrl, "rider", RiderKind);
      riders := Some(s);
    }

    /** constructors: ConstructorStats() the first time, the same facade
        afterwards. */
    method Constructors() returns (s: Source)
      modifies this`constructors
      ensures old(constructors).Some? ==> s == old(constructors).value
      ensures old(constructors).None? ==>
        fresh(s) && s.url == constructorsUrl && s.name == "constructor" && s.kind == ConstructorKind && s.websiteJson == None
      ensures constructors == Some(s)
    {
      if constructors.Some? {
        return constructors.value;
      }
      s := new Source(constructorsUrl, "constructor", ConstructorKind);
      constructors := Some(s);
    }

    /** teams: TeamStats() the first time, the same facade afterwards. */
    method Teams() returns (s: Source)
      modifies this`teams
      ensures old(teams).Some? ==> s == old(teams).value
      ensures old(teams).None? ==>
        fresh(s) && s.url == squadsUrl && s.name == "team" && s.kind == TeamKind && s.websiteJson == None
      ensures teams == Some(s)
    {
      if teams.Some? {
        return teams.value;
      }
      s := new Source(squadsUrl, "team", TeamKind);
      teams := Some(s);
    }

    /** weekends: Weekends() the first time, the same facade afterwards. */
    method Weekends() returns (s: Source)
      modifies this`weekends
      ensures old(weekends).Some? ==> s == old(weekends).value
      ensures old(weekends).None? ==>
        fresh(s) && s.url == eventsUrl && s.name == "weekend" && s.kind == WeekendKind && s.websiteJson == None
      ensures weekends == Some(s)
    {
      if weekends.Some? {
        return weekends.value;
      }
      s := new Source(eventsUrl, "weekend", WeekendKind);
      weekends := Some(s);
    }
  }

  /** The four facades' snapshot files are distinct on any day. */
  lemma FacadeFilesDistinct(d: Date)
    requires ValidDate(d)
    ensures |{SnapshotPath("rider", d), SnapshotPath("constructor", d), SnapshotPath("team", d), SnapshotPath("weekend", d)}| == 4
  {
    PathInjective("rider", d, "constructor", d);
    PathInjective("rider", d, "team", d);
    PathInjective("rider", d, "weekend", d);
    PathInjective("constructor", d, "team", d);
    PathInjective("constructor", d, "weekend", d);
    PathInjective("team", d, "weekend", d);
  }
}
