/** The iOS config cache (internalsdk/ios/config.go): a config file and its etag file, kept against a
    server that answers conditional requests. */
module ConfigCache {
  import opened Common

  const GLOBAL: string := "global.yaml"
  const PROXIES: string := "proxies.yaml"

  type Files = map<string, string>

  function EtagFile(name: string): string {
    name + ".etag"
  }

  function StoredTag(files: Files, name: string): string {
    if EtagFile(name) in files then files[EtagFile(name)] else ""
  }

  // What a round trip yields: no response, a status other than 200, or content. `body` is None when
  // it does not gunzip; `digest` is the md5 of the raw body.
  datatype Response = NoResponse | Status(code: int) | Content(body: Option<string>, etag: string, digest: string)

  datatype Fetch = FetchFailed | Unchanged | Fetched(bytes: string, etag: string)

  /** doUpdateFromWeb */
  function DoUpdateFromWeb<P>(resp: Response, parse: string -> Option<P>): Fetch {
    match resp
    case NoResponse => FetchFailed
    case Status(code) => if code == 304 then Unchanged else FetchFailed
    case Content(body, etag, digest) =>
      if body.None? || parse(body.value).None? then FetchFailed
      else Fetched(body.value, if etag == "" then digest else etag)
  }

  function Saved(files: Files, name: string, bytes: string, etag: string): Files {
    files[name := bytes][EtagFile(name) := etag]
  }

  /** The disk after saveConfig, and after the saveEtag that follows. */
  function TwoWrites(files: Files, name: string, bytes: string, etag: string): seq<Files> {
    [files[name := bytes], Saved(files, name, bytes, etag)]
  }

  /** Wherever between the writes the process crashes: a tag on disk that was not there before comes with
      the bytes that were written with it, and no other file has changed. */
  ghost predicate SafeWrites(before: seq<Files>, after: seq<Files>, start: Files, end: Files, name: string) {
    && before <= after
    && forall k :: |before| <= k < |after| ==>
         var disk := after[k];
         && (StoredTag(disk, name) != StoredTag(start, name) ==>
               name in disk && name in end && disk[name] == end[name] && StoredTag(disk, name) == StoredTag(end, name))
         && (forall n :: n != name && n != EtagFile(name) ==>
               (n in disk <==> n in start) && (n in start ==> disk[n] == start[n]))
  }

  /** On every disk on the way, a tag of the global config that was not there before has its config. */
  ghost predicate NewTagsHaveTheirConfig(before: seq<Files>, after: seq<Files>, start: Files, end: Files) {
    && before <= after
    && forall k :: |before| <= k < |after| && StoredTag(after[k], GLOBAL) != StoredTag(start, GLOBAL) ==>
         GLOBAL in after[k] && GLOBAL in end && after[k][GLOBAL] == end[GLOBAL]
  }

  lemma EtagFileDiffers(name: string)
    ensures EtagFile(name) != name
  {
    assert |EtagFile(name)| == |name| + 5;
  }

  // The config in memory, the files, and whether the caller is told of an update
  datatype Outcome<P> = Outcome(cfg: P, files: Files, updated: bool)

  /** updateGlobal */
  function GlobalOutcome<P>(
    files: Files, cfg: P, etag: string, resp: Response, parse: string -> Option<P>): Outcome<P>
  {
    match DoUpdateFromWeb(resp, parse)
    case FetchFailed => Outcome(cfg, files, false)
    case Unchanged => Outcome(cfg, files, false)
    case Fetched(bytes, newEtag) =>
      var isNew := newEtag != etag;
      Outcome(if isNew then parse(bytes).value else cfg, Saved(files, GLOBAL, bytes, newEtag), isNew)
  }

  /** updateProxies: an empty update is ignored, but only after it was written; hardcoded proxies are
      written and never adopted. */
  function ProxiesOutcome<P>(
    files: Files, cfg: P, etag: string, hardcoded: string, resp: Response, parse: string -> Option<P>,
    isEmpty: P -> bool): Outcome<P>
  {
    if hardcoded != "" then Outcome(cfg, Saved(files, PROXIES, hardcoded, "hardcoded"), false)
    else
      match DoUpdateFromWeb(resp, parse)
      case FetchFailed => Outcome(cfg, files, false)
      case Unchanged => Outcome(cfg, files, false)
      case Fetched(bytes, newEtag) =>
        var adopted := newEtag != etag && !isEmpty(parse(bytes).value);
        Outcome(if adopted then parse(bytes).value else cfg, Saved(files, PROXIES, bytes, newEtag), adopted)
  }

  datatype Opened<P> = Opened(cfg: P, etag: string, initialized: bool)

  /** openConfig finds the file missing or empty. */
  predicate Missing(files: Files, name: string) {
    name !in files || files[name] == ""
  }

  /** The files after openConfig. */
  function Initialized(files: Files, name: string, embedded: string): Files {
    if Missing(files, name) then files[name := embedded] else files
  }

  datatype ConfigResult<G, P> = ConfigResult(vpnNeedsReconfiguring: bool, global: G, proxies: P)

  class Configurer<G(0), P(0)> {
    var files: Files
    var disks: seq<Files>     // history: the disk after every write
    const hardcodedProxies: string
    const parseGlobal: string -> Option<G>
    const parseProxies: string -> Option<P>
    const isEmpty: P -> bool

    constructor (files: Files, hardcodedProxies: string,
                 parseGlobal: string -> Option<G>, parseProxies: string -> Option<P>, isEmpty: P -> bool)
      ensures this.files == files && disks == [] && this.hardcodedProxies == hardcodedProxies
      ensures this.parseGlobal == parseGlobal && this.parseProxies == parseProxies && this.isEmpty == isEmpty
    {
      this.files := files;
      disks := [];
      this.hardcodedProxies := hardcodedProxies;
      this.parseGlobal, this.parseProxies, this.isEmpty := parseGlobal, parseProxies, isEmpty;
    }

    // os.WriteFile; a crash can come between any two of these
    method WriteFile(name: string, bytes: string)
      modifies this
      ensures files == old(files)[name := bytes] && disks == old(disks) + [files]
    {
      files := files[name := bytes];
      disks := disks + [files];
    }

    /** Afterwards the file exists, and is the embedded config if it was missing or empty; on success
        memory is the parse of the file. */
    method OpenConfig<C(0)>(name: string, embedded: string, parse: string -> Option<C>) returns (r: Option<Opened<C>>)
      modifies this
      ensures files == Initialized(old(files), name, embedded)
      ensures disks == old(disks) + if Missing(old(files), name) then [files] else []
      ensures r.Some? <==> parse(files[name]).Some?
      ensures r.Some? ==>
        && parse(files[name]) == Some(r.value.cfg) && r.value.initialized == Missing(old(files), name)
        && r.value.etag == StoredTag(files, name)
    {
      var initialized := false;
      var bytes := "";
      if name in files {
        bytes := files[name];
      }
      if |bytes| == 0 {
        bytes := embedded;
        initialized := true;
        WriteFile(name, bytes);
      }
      var cfg := parse(bytes);
      if cfg.None? {
        return None;
      }
      var etag := "";
      if EtagFile(name) in files {
        etag := files[EtagFile(name)];
      }
      r := Some(Opened(cfg.value, etag, initialized));
    }

    // None for an error; otherwise whether the tag is new, and what was unmarshalled, if anything
    method UpdateFromWeb<C(0)>(name: string, etag: string, resp: Response, parse: string -> Option<C>)
      returns (didFetch: Option<bool>, updated: Option<C>)
      modifies this
      ensures name == PROXIES && hardcodedProxies != "" ==>
        && files == Saved(old(files), name, hardcodedProxies, "hardcoded") && updated.None?
        && didFetch == Some("hardcoded" != etag)
        && disks == old(disks) + TwoWrites(old(files), name, hardcodedProxies, "hardcoded")
      ensures !(name == PROXIES && hardcodedProxies != "") ==>
        match DoUpdateFromWeb(resp, parse)
        case FetchFailed => files == old(files) && disks == old(disks) && didFetch.None?
        case Unchanged => files == old(files) && disks == old(disks) && didFetch == Some(false)
        case Fetched(bytes, newEtag) =>
          && files == Saved(old(files), name, bytes, newEtag) && didFetch == Some(newEtag != etag)
          && updated == parse(bytes) && disks == old(disks) + TwoWrites(old(files), name, bytes, newEtag)
      ensures SafeWrites(old(disks), disks, old(files), files, name)
    {
      EtagFileDiffers(name);
      var bytes, newEtag;
      updated := None;
      if name == PROXIES && hardcodedProxies != "" {
        bytes, newEtag := hardcodedProxies, "hardcoded";
      } else {
        match DoUpdateFromWeb(resp, parse) {
          case FetchFailed => return None, None;
          case Unchanged => return Some(false), None;
          case Fetched(b, t) => bytes, newEtag, updated := b, t, parse(b);
        }
      }
      WriteFile(name, bytes);
      WriteFile(EtagFile(name), newEtag);
      didFetch := Some(newEtag != etag);
    }

    method UpdateGlobal(cfg: G, etag: string, resp: Response) returns (newCfg: G, isNew: bool)
      modifies this
      ensures Outcome(newCfg, files, isNew) == GlobalOutcome(old(files), cfg, etag, resp, parseGlobal)
      ensures SafeWrites(old(disks), disks, old(files), files, GLOBAL)
      ensures match DoUpdateFromWeb(resp, parseGlobal)
        case Fetched(bytes, newEtag) => disks == old(disks) + TwoWrites(old(files), GLOBAL, bytes, newEtag)
        case _ => disks == old(disks)
    {
      var didFetch, updated := UpdateFromWeb(GLOBAL, etag, resp, parseGlobal);
      newCfg, isNew := cfg, false;
      if didFetch == Some(true) {
        newCfg, isNew := updated.value, true;
      }
    }

    method UpdateProxies(cfg: P, etag: string, resp: Response) returns (newCfg: P, isNew: bool)
      modifies this
      ensures Outcome(newCfg, files, isNew) ==
        ProxiesOutcome(old(files), cfg, etag, hardcodedProxies, resp, parseProxies, isEmpty)
      ensures SafeWrites(old(disks), disks, old(files), files, PROXIES)
    {
      var didFetch, updated := UpdateFromWeb(PROXIES, etag, resp, parseProxies);
      isNew := didFetch == Some(true);
      if updated.None? || isEmpty(updated.value) {
        isNew := false;
      }
      newCfg := if isNew then updated.value else cfg;
    }

    /** configure, apart from the user config and the exclude list: when it does not ask for the VPN to
        be reconfigured, both configs it returns are what the files said before; it fails only when a
        file that was there, or its embedded replacement, does not parse. Each config it returns is the
        parse of its file afterwards, but for the repeated tags and the proxies that were not adopted. */
    method Configure(refreshProxies: bool, embeddedGlobal: string, embeddedProxies: string,
                     globalResp: Response, proxiesResp: Response)
      returns (r: Option<ConfigResult<G, P>>)
      modifies this
      ensures var start := Initialized(Initialized(old(files), GLOBAL, embeddedGlobal), PROXIES, embeddedProxies);
        && GLOBAL in start && PROXIES in start
        && (r.Some? <==> parseGlobal(start[GLOBAL]).Some? && parseProxies(start[PROXIES]).Some?)
      ensures r.Some? && !r.value.vpnNeedsReconfiguring ==>
        && !Missing(old(files), GLOBAL) && parseGlobal(old(files)[GLOBAL]) == Some(r.value.global)
        && !Missing(old(files), PROXIES) && parseProxies(old(files)[PROXIES]) == Some(r.value.proxies)
      ensures r.Some? ==>
        (r.value.vpnNeedsReconfiguring <==>
         || Missing(old(files), GLOBAL) || Missing(old(files), PROXIES)
         || StoredTag(files, GLOBAL) != StoredTag(old(files), GLOBAL)
         || (refreshProxies && BringsProxies(proxiesResp, StoredTag(old(files), PROXIES))))
      ensures r.Some? ==>
        (Agree(files, GLOBAL, r.value.global, parseGlobal) <==>
         GlobalAdopted(globalResp, StoredTag(old(files), GLOBAL), r.value.global))
      ensures r.Some? && !refreshProxies ==> Agree(files, PROXIES, r.value.proxies, parseProxies)
      ensures r.Some? && refreshProxies ==>
        (Agree(files, PROXIES, r.value.proxies, parseProxies) <==>
         ProxiesAdopted(proxiesResp, StoredTag(old(files), PROXIES), r.value.proxies))
      ensures NewTagsHaveTheirConfig(old(disks), disks, old(files), files)
    {
      FileNamesDiffer();
      var openedGlobal := OpenConfig(GLOBAL, embeddedGlobal, parseGlobal);
      if openedGlobal.None? {
        return None;
      }
      var openedProxies := OpenConfig(PROXIES, embeddedProxies, parseProxies);
      if openedProxies.None? {
        return None;
      }
      var global, proxies, updated :=
        UpdateBoth(refreshProxies, openedGlobal.value, openedProxies.value, globalResp, proxiesResp);
      var needs := openedGlobal.value.initialized || openedProxies.value.initialized || updated;
      r := Some(ConfigResult(needs, global, proxies));
    }

    method UpdateBoth(refreshProxies: bool, global: Opened<G>, proxies: Opened<P>,
                      globalResp: Response, proxiesResp: Response)
      returns (newGlobal: G, newProxies: P, updated: bool)
      requires Agree(files, GLOBAL, global.cfg, parseGlobal) && global.etag == StoredTag(files, GLOBAL)
      requires Agree(files, PROXIES, proxies.cfg, parseProxies) && proxies.etag == StoredTag(files, PROXIES)
      modifies this
      ensures !updated ==> newGlobal == global.cfg && newProxies == proxies.cfg
      ensures updated <==>
        || StoredTag(files, GLOBAL) != StoredTag(old(files), GLOBAL)
        || (refreshProxies && BringsProxies(proxiesResp, proxies.etag))
      ensures NewTagsHaveTheirConfig(old(disks), disks, old(files), files)
      ensures Agree(files, GLOBAL, newGlobal, parseGlobal) <==> GlobalAdopted(globalResp, global.etag, newGlobal)
      ensures !refreshProxies ==> Agree(files, PROXIES, newProxies, parseProxies)
      ensures refreshProxies ==>
        (Agree(files, PROXIES, newProxies, parseProxies) <==> ProxiesAdopted(proxiesResp, proxies.etag, newProxies))
    {
      ghost var start := files;
      var globalUpdated, proxiesUpdated := false, false;
      newGlobal, globalUpdated := UpdateGlobal(global.cfg, global.etag, globalResp);
      ghost var between := files;
      GlobalOnlyTouchesItsFiles(start, global.cfg, global.etag, globalResp, parseGlobal);
      GlobalAgreesExactly(start, global.cfg, global.etag, globalResp, parseGlobal);
      newProxies := proxies.cfg;
      if refreshProxies {
        newProxies, proxiesUpdated := UpdateProxies(proxies.cfg, proxies.etag, proxiesResp);
        ProxiesOnlyTouchTheirFiles(
          between, proxies.cfg, proxies.etag, hardcodedProxies, proxiesResp, parseProxies, isEmpty);
        ProxiesAgreeExactly(between, proxies.cfg, proxies.etag, hardcodedProxies, proxiesResp, parseProxies, isEmpty);
      }
      updated := globalUpdated || proxiesUpdated;
    }

    /** Proxies that are adopted: fetched, under a new tag, and not empty. */
    ghost predicate BringsProxies(resp: Response, etag: string)
      reads this
    {
      var f := DoUpdateFromWeb(resp, parseProxies);
      hardcodedProxies == "" && f.Fetched? && f.etag != etag && !isEmpty(parseProxies(f.bytes).value)
    }

    /** A repeated tag, if the answer brings one, comes with what memory holds. */
    ghost predicate GlobalAdopted(resp: Response, etag: string, cfg: G)
      reads this
    {
      var f := DoUpdateFromWeb(resp, parseGlobal);
      f.Fetched? && f.etag == etag ==> parseGlobal(f.bytes) == Some(cfg)
    }

    /** What was written to the proxies file, if anything, was adopted or says what memory holds. */
    ghost predicate ProxiesAdopted(resp: Response, etag: string, cfg: P)
      reads this
    {
      if hardcodedProxies != "" then parseProxies(hardcodedProxies) == Some(cfg)
      else
        var f := DoUpdateFromWeb(resp, parseProxies);
        f.Fetched? && (f.etag == etag || isEmpty(parseProxies(f.bytes).value)) ==> parseProxies(f.bytes) == Some(cfg)
    }
  }

  lemma GlobalOnlyTouchesItsFiles<C>(files: Files, cfg: C, etag: string, resp: Response, parse: string -> Option<C>)
    ensures var o := GlobalOutcome(files, cfg, etag, resp, parse);
      && (PROXIES in files ==> PROXIES in o.files && o.files[PROXIES] == files[PROXIES])
      && StoredTag(o.files, PROXIES) == StoredTag(files, PROXIES)
      && (etag == StoredTag(files, GLOBAL) ==> (o.updated <==> StoredTag(o.files, GLOBAL) != StoredTag(files, GLOBAL)))
      && (!o.updated ==> o.cfg == cfg)
  {
    FileNamesDiffer();
  }

  lemma ProxiesOnlyTouchTheirFiles<C>(
    files: Files, cfg: C, etag: string, hardcoded: string, resp: Response, parse: string -> Option<C>,
    isEmpty: C -> bool)
    ensures var o := ProxiesOutcome(files, cfg, etag, hardcoded, resp, parse, isEmpty);
      && (GLOBAL in files <==> GLOBAL in o.files) && (GLOBAL in files ==> o.files[GLOBAL] == files[GLOBAL])
      && StoredTag(o.files, GLOBAL) == StoredTag(files, GLOBAL)
      && (!o.updated ==> o.cfg == cfg)
  {
    FileNamesDiffer();
  }

  lemma FileNamesDiffer()
    ensures GLOBAL != PROXIES && EtagFile(GLOBAL) != EtagFile(PROXIES)
    ensures GLOBAL != EtagFile(GLOBAL) && GLOBAL != EtagFile(PROXIES)
    ensures PROXIES != EtagFile(GLOBAL) && PROXIES != EtagFile(PROXIES)
  {
    assert GLOBAL[0] == 'g' && PROXIES[0] == 'p';
    assert EtagFile(GLOBAL)[0] == 'g' && EtagFile(PROXIES)[0] == 'p';
    assert |EtagFile(GLOBAL)| != |GLOBAL| && |EtagFile(PROXIES)| != |PROXIES|;
  }

  /** Something is fetched exactly from a 200 whose body unpacks and parses; its tag is the server's or, if it
      sent none, the digest; and "unchanged" is exactly a 304. */
  lemma FetchedExactly<P>(resp: Response, parse: string -> Option<P>, bytes: string, tag: string)
    ensures DoUpdateFromWeb(resp, parse) == Fetched(bytes, tag) <==>
      && resp.Content? && resp.body == Some(bytes) && parse(bytes).Some?
      && (resp.etag != "" ==> tag == resp.etag) && (resp.etag == "" ==> tag == resp.digest)
    ensures DoUpdateFromWeb(resp, parse) == Unchanged <==> resp == Status(304)
  {
  }

  // Memory and disk ///////////////////////////////////////////////////////////////////////////

  /** The config in memory is the parse of the file. */
  ghost predicate Agree<P>(files: Files, name: string, cfg: P, parse: string -> Option<P>) {
    name in files && parse(files[name]) == Some(cfg)
  }

  /** After updateGlobal memory and disk agree, unless a 200 repeated the tag with content that parses
      to something else; that is the only way they can come to differ. */
  lemma GlobalAgreesExactly<P>(files: Files, cfg: P, etag: string, resp: Response, parse: string -> Option<P>)
    requires Agree(files, GLOBAL, cfg, parse)
    ensures var o := GlobalOutcome(files, cfg, etag, resp, parse); var f := DoUpdateFromWeb(resp, parse);
      Agree(o.files, GLOBAL, o.cfg, parse) <==> (f.Fetched? && f.etag == etag ==> parse(f.bytes) == Some(cfg))
  {
    FileNamesDiffer();
  }

  /** The caller is told of an update exactly when the stored tag changed, and whatever reached the
      file parsed. A failed fetch and a 304 leave both files alone. */
  lemma UpdatedExactlyWhenTagChanged<P>(files: Files, cfg: P, resp: Response, parse: string -> Option<P>)
    ensures var o := GlobalOutcome(files, cfg, StoredTag(files, GLOBAL), resp, parse);
      && (o.updated <==> StoredTag(o.files, GLOBAL) != StoredTag(files, GLOBAL))
      && (o.files != files ==> GLOBAL in o.files && parse(o.files[GLOBAL]).Some?)
      && (forall name :: name != GLOBAL && name != EtagFile(GLOBAL) ==>
            (name in o.files <==> name in files) && (name in files ==> o.files[name] == files[name]))
  {
    FileNamesDiffer();
  }

  /** On the proxies path they agree exactly when what was written, if anything, was adopted or says the same. */
  lemma ProxiesAgreeExactly<P>(
    files: Files, cfg: P, etag: string, hardcoded: string, resp: Response, parse: string -> Option<P>,
    isEmpty: P -> bool)
    requires Agree(files, PROXIES, cfg, parse)
    ensures var o := ProxiesOutcome(files, cfg, etag, hardcoded, resp, parse, isEmpty);
      var f := DoUpdateFromWeb(resp, parse);
      Agree(o.files, PROXIES, o.cfg, parse) <==>
        if hardcoded != "" then parse(hardcoded) == Some(cfg)
        else f.Fetched? && (f.etag == etag || isEmpty(parse(f.bytes).value)) ==> parse(f.bytes) == Some(cfg)
  {
    FileNamesDiffer();
  }

  /** A response that makes them differ: the content is empty, it is written, and memory keeps the proxies it
      had, until openProxies reads the file the next time. */
  lemma ProxiesDifferExample()
    ensures var parse := (b: string) => Some(b); var isEmpty := (p: string) => p == "none";
      var files: Files := map[PROXIES := "p1", EtagFile(PROXIES) := "t1"];
      var o := ProxiesOutcome(files, "p1", "t1", "", Content(Some("none"), "t2", ""), parse, isEmpty);
      && Agree(files, PROXIES, "p1", parse) && !Agree(o.files, PROXIES, o.cfg, parse)
      && o.cfg == "p1" && PROXIES in o.files && o.files[PROXIES] == "none" && !o.updated
  {
    FileNamesDiffer();
  }

  // Crashes between the two writes /////////////////////////////////////////////////////////////////

  datatype Version = Version(tag: string, content: string)

  // A file, and history: which version it holds; 0 is the embedded config, k the k-th published one
  datatype Stored = Stored(bytes: string, version: nat)

  datatype Process =
    | Down
    | Ready(etag: string, loaded: Stored)   // after openConfig, before the response
    | SavingConfig(version: nat)
    | SavingEtag(version: nat)

  datatype Cache = Cache(config: Option<Stored>, etag: Option<Stored>, published: seq<Version>, proc: Process)

  function Empty(): Cache {
    Cache(None, None, [], Down)
  }

  datatype Step =
    | Publish(tag: string, content: string)
    | Open(embedded: string)
    | NotModified                 // the server's current tag equals the one sent
    | Respond                     // the server's current content, which parses
    | Fail                        // any error on the way
    | WriteConfig | WriteEtag
    | Crash

  predicate Possible(s: Cache, a: Step) {
    match a
    case Publish(tag, _) => tag != "" && forall k :: 0 <= k < |s.published| ==> s.published[k].tag != tag
    case Open(_) => s.proc.Down?
    case NotModified => s.proc.Ready? && s.published != [] && s.published[|s.published| - 1].tag == s.proc.etag
    case Respond => s.proc.Ready? && s.published != []
    case Fail => s.proc.Ready?
    case WriteConfig => s.proc.SavingConfig? && 1 <= s.proc.version <= |s.published|
    case WriteEtag => s.proc.SavingEtag? && 1 <= s.proc.version <= |s.published|
    case Crash => true
  }

  function After(s: Cache, a: Step): Cache
    requires Possible(s, a)
  {
    match a
    case Publish(tag, content) => s.(published := s.published + [Version(tag, content)])
    case Open(embedded) =>
      var file := if s.config.None? || s.config.value.bytes == "" then Stored(embedded, 0) else s.config.value;
      s.(config := Some(file), proc := Ready(if s.etag.None? then "" else s.etag.value.bytes, file))
    case NotModified => s.(proc := Down)
    case Respond => s.(proc := SavingConfig(|s.published|))
    case Fail => s.(proc := Down)
    case WriteConfig =>
      var v := s.proc.version;
      s.(config := Some(Stored(s.published[v - 1].content, v)), proc := SavingEtag(v))
    case WriteEtag =>
      var v := s.proc.version;
      s.(etag := Some(Stored(s.published[v - 1].tag, v)), proc := Down)
    case Crash => s.(proc := Down)
  }

  ghost predicate Next(s: Cache, a: Step, t: Cache) {
    Possible(s, a) && t == After(s, a)
  }

  ghost predicate Reachable(s: Cache) {
    exists steps :: Run(Next, Empty(), steps, s)
  }

  ghost predicate EmptyFrom(published: seq<Version>, k: nat) {
    exists i :: 0 <= i < |published| && 1 <= k <= i + 1 && published[i].content == ""
  }

  ghost predicate Inv(s: Cache) {
    && (forall i, j :: 0 <= i < j < |s.published| ==> s.published[i].tag != s.published[j].tag)
    && (forall i :: 0 <= i < |s.published| ==> s.published[i].tag != "")
    && (s.config.Some? ==>
          var c := s.config.value;
          c.version <= |s.published| && (c.version > 0 ==> c.bytes == s.published[c.version - 1].content))
    && (s.etag.Some? ==>
          var e := s.etag.value;
          && s.config.Some? && 1 <= e.version <= |s.published| && e.bytes == s.published[e.version - 1].tag
          && (e.version <= s.config.value.version ||
              (s.config.value.version == 0 && EmptyFrom(s.published, e.version))))
    && (s.proc.Ready? ==>
          && s.config == Some(s.proc.loaded) && (s.proc.loaded.version > 0 ==> s.proc.loaded.bytes != "")
          && s.proc.etag == (if s.etag.None? then "" else s.etag.value.bytes))
    && (s.proc.SavingConfig? || s.proc.SavingEtag? ==>
          s.config.Some? && 1 <= s.proc.version <= |s.published|)
    && (s.proc.SavingConfig? ==> s.config.value.version <= s.proc.version)
    && (s.proc.SavingEtag? ==> s.config.value.version == s.proc.version)
    && (s.proc.SavingConfig? && s.etag.Some? ==> s.etag.value.version <= s.proc.version)
  }

  lemma EmptyFromStays(p: seq<Version>, q: seq<Version>, k: nat)
    requires EmptyFrom(p, k) && p <= q
    ensures EmptyFrom(q, k)
  {
    var i :| 0 <= i < |p| && 1 <= k <= i + 1 && p[i].content == "";
    assert q[i] == p[i];
  }

  lemma StepKeepsInv(s: Cache, a: Step)
    requires Inv(s) && Possible(s, a)
    ensures Inv(After(s, a))
  {
    var t := After(s, a);
    if s.etag.Some? && s.config.value.version == 0 && !(s.etag.value.version <= 0) && !a.WriteConfig? {
      EmptyFromStays(s.published, t.published, s.etag.value.version);
    }
    if a.Open? && s.etag.Some? && s.config.value.version > 0 && s.config.value.bytes == "" {
      assert s.published[s.config.value.version - 1].content == "";
    }
  }

  lemma ReachableInv(s: Cache)
    requires Reachable(s)
    ensures Inv(s)
  {
    var steps :| Run(Next, Empty(), steps, s);
    forall x, a, y | Inv(x) && Next(x, a, y) ensures Inv(y) {
      StepKeepsInv(x, a);
    }
    RunKeeps(Next, Inv, Empty(), steps, s);
  }

  /** A stored tag of version k comes with a config of version at least k, wherever the process
      crashed; the one exception is that a version from k on was empty and gave way to the embedded config. */
  lemma TagNeverAheadOfConfig(s: Cache)
    requires Reachable(s) && s.etag.Some?
    ensures s.config.Some? && 1 <= s.etag.value.version <= |s.published|
    ensures var c := s.config.value;
      || (s.etag.value.version <= c.version <= |s.published| && c.bytes == s.published[c.version - 1].content)
      || (c.version == 0 && EmptyFrom(s.published, s.etag.value.version))
  {
    ReachableInv(s);
  }

  /** The exception does occur: the embedded config is on disk, and the server will answer 304 to its tag. */
  lemma EmptyVersionExample(embedded: string)
    requires embedded != ""
    ensures var s := Cache(Some(Stored(embedded, 0)), Some(Stored("t", 1)), [Version("t", "")],
                           Ready("t", Stored(embedded, 0)));
      && Run(Next, Empty(), [Publish("t", ""), Open(embedded), Respond, WriteConfig, WriteEtag, Open(embedded)], s)
      && Possible(s, NotModified)
  {
    var s1 := After(Empty(), Publish("t", ""));
    var s2 := After(s1, Open(embedded));
    var s3 := After(s2, Respond);
    var s4 := After(s3, WriteConfig);
    var s5 := After(s4, WriteEtag);
    var s := After(s5, Open(embedded));
    assert s1.published == [Version("t", "")];
    RunFirst(Next, s5, Open(embedded), s, [], s, [Open(embedded)]);
    RunFirst(Next, s4, WriteEtag, s5, [Open(embedded)], s, [WriteEtag, Open(embedded)]);
    RunFirst(Next, s3, WriteConfig, s4, [WriteEtag, Open(embedded)], s, [WriteConfig, WriteEtag, Open(embedded)]);
    RunFirst(Next, s2, Respond, s3, [WriteConfig, WriteEtag, Open(embedded)], s,
             [Respond, WriteConfig, WriteEtag, Open(embedded)]);
    RunFirst(Next, s1, Open(embedded), s2, [Respond, WriteConfig, WriteEtag, Open(embedded)], s,
             [Open(embedded), Respond, WriteConfig, WriteEtag, Open(embedded)]);
    RunFirst(Next, Empty(), Publish("t", ""), s1, [Open(embedded), Respond, WriteConfig, WriteEtag, Open(embedded)], s,
             [Publish("t", ""), Open(embedded), Respond, WriteConfig, WriteEtag, Open(embedded)]);
  }

  /** A 304 means that the file is the server's current version, exactly when that version is not
      empty. An empty one is replaced by the embedded config when it is next opened, while its tag stays. */
  lemma NotModifiedMeansCurrent(s: Cache)
    requires Reachable(s) && Possible(s, NotModified)
    ensures var n := |s.published|;
      && s.config.Some?
      && (s.published[n - 1].content != "" <==> s.config.value.version == n)
      && (s.published[n - 1].content != "" ==> s.config.value.bytes == s.published[n - 1].content)
      && (s.published[n - 1].content == "" ==> s.config.value.version == 0)
  {
    ReachableInv(s);
  }

  /** A 200 that repeats the tag repeats what is in memory and on disk, exactly when the server's current
      version is not empty. If it is empty, the embedded config is there instead. */
  lemma SameTagSameContent(s: Cache)
    requires Reachable(s) && Possible(s, Respond) && s.published[|s.published| - 1].tag == s.proc.etag
    ensures var n := |s.published|;
      && (s.published[n - 1].content != "" <==> s.proc.loaded.version == n)
      && (s.published[n - 1].content != "" ==> s.proc.loaded.bytes == s.published[n - 1].content)
      && (s.published[n - 1].content == "" ==> s.proc.loaded.version == 0)
  {
    ReachableInv(s);
  }

  // The steps are those of the code ////////////////////////////////////////////////////////////////

  ghost predicate OnDisk(s: Cache, files: Files) {
    && (GLOBAL in files <==> s.config.Some?) && (s.config.Some? ==> files[GLOBAL] == s.config.value.bytes)
    && (EtagFile(GLOBAL) in files <==> s.etag.Some?) && (s.etag.Some? ==> files[EtagFile(GLOBAL)] == s.etag.value.bytes)
  }

  /** Opening, and an exchange that changes nothing, are those steps of the crash model. */
  lemma OtherStepsAreTheCode<P>(s: Cache, files: Files, embedded: string, cfg: P, etag: string,
    parse: string -> Option<P>)
    requires OnDisk(s, files)
    ensures Possible(s, Open(embedded)) ==>
      var start, t := Initialized(files, GLOBAL, embedded), After(s, Open(embedded));
      OnDisk(t, start) && t.proc == Ready(StoredTag(start, GLOBAL), t.config.value) &&
        t.config.value.bytes == start[GLOBAL]
    ensures Possible(s, NotModified) ==>
      OnDisk(After(s, NotModified), GlobalOutcome(files, cfg, etag, Status(304), parse).files)
    ensures Possible(s, Fail) ==>
      OnDisk(After(s, Fail), GlobalOutcome(files, cfg, etag, NoResponse, parse).files)
  {
    FileNamesDiffer();
  }

  /** updateGlobal with the server's current content is the two write steps, disk by disk, and in the end
      does to the files what they do. */
  lemma UpdateIsTwoWrites<P>(s: Cache, files: Files, cfg: P, etag: string, digest: string, parse: string -> Option<P>)
    requires Possible(s, Respond) && OnDisk(s, files)
    requires s.published[|s.published| - 1].tag != "" && parse(s.published[|s.published| - 1].content).Some?
    ensures var current := s.published[|s.published| - 1];
      var disks := TwoWrites(files, GLOBAL, current.content, current.tag);
      var resp := Content(Some(current.content), current.tag, digest);
      && DoUpdateFromWeb(resp, parse) == Fetched(current.content, current.tag)
      && OnDisk(After(s, Respond), files)
      && OnDisk(After(After(s, Respond), WriteConfig), disks[0])
      && OnDisk(After(After(After(s, Respond), WriteConfig), WriteEtag), disks[1])
      && disks[1] == GlobalOutcome(files, cfg, etag, resp, parse).files
  {
    FileNamesDiffer();
  }

  // Memory and disk over every run ///////////////////////////////////////////////////////////////////

  /** What the server of the crash model may answer: nothing, an error, a 304 to its current tag, or its
      current version, which may get lost on the way. */
  predicate Answers(s: Cache, resp: Response) {
    match resp
    case NoResponse => true
    case Status(code) => code == 304 ==> Possible(s, NotModified)
    case Content(body, etag, _) =>
      && s.published != [] && etag == s.published[|s.published| - 1].tag
      && (body.Some? ==> body.value == s.published[|s.published| - 1].content)
  }

  /** The answer is an empty version whose tag is stored already. */
  predicate RepeatsEmpty(s: Cache, resp: Response) {
    resp.Content? && resp.body == Some("") && s.proc.Ready? && resp.etag == s.proc.etag
  }

  /** In every run with crashes, whatever the server answers: after updateGlobal memory and global.yaml
      agree, unless the answer is an empty version whose tag is stored already, and an empty file parses
      to something else than the embedded config that memory then holds. */
  lemma GlobalAgreesInEveryRun<P>(s: Cache, files: Files, cfg: P, resp: Response, parse: string -> Option<P>)
    requires Reachable(s) && s.proc.Ready? && OnDisk(s, files) && parse(s.proc.loaded.bytes) == Some(cfg)
    requires Answers(s, resp)
    ensures var o := GlobalOutcome(files, cfg, s.proc.etag, resp, parse);
      Agree(o.files, GLOBAL, o.cfg, parse) <==>
        !(RepeatsEmpty(s, resp) && parse("").Some? && parse("") != Some(cfg))
    ensures RepeatsEmpty(s, resp) ==> s.proc.loaded.version == 0
  {
    ReachableInv(s);
    FileNamesDiffer();
    GlobalAgreesExactly(files, cfg, s.proc.etag, resp, parse);
    if resp.Content? && resp.etag == s.proc.etag {
      SameTagSameContent(s);
    }
  }

  /** The exception does occur: in the state of EmptyVersionExample the server answers 200 once more, an
      empty file is written, memory keeps the embedded config, and no update is reported. */
  lemma RepeatedEmptyExample(embedded: string)
    requires embedded != ""
    ensures var s := Cache(Some(Stored(embedded, 0)), Some(Stored("t", 1)), [Version("t", "")],
                           Ready("t", Stored(embedded, 0)));
      var files: Files := map[GLOBAL := embedded, EtagFile(GLOBAL) := "t"];
      var parse := (b: string) => Some(b);
      var resp := Content(Some(""), "t", "");
      var o := GlobalOutcome(files, embedded, "t", resp, parse);
      && Reachable(s) && OnDisk(s, files) && Answers(s, resp) && parse(s.proc.loaded.bytes) == Some(embedded)
      && GLOBAL in o.files && o.files[GLOBAL] == "" && o.cfg == embedded && !o.updated
      && !Agree(o.files, GLOBAL, o.cfg, parse)
  {
    EmptyVersionExample(embedded);
    FileNamesDiffer();
  }
}
