/** The per-tab store of detected resources: keyed by canonical URL, merged on
    repeat, bounded by evicting the least confident and then oldest entry. */
module ResourceStore {
  import opened Wrappers
  import Sorting

  datatype Kind =
    Video | Audio | Document | Archive | Image | Executable | Torrent | Stream | Subtitle | Magnet | Other

  datatype Confidence = Low | Medium | High

  datatype Detection =
    WebRequest | DomScan | MutationObserver | FetchIntercept | XhrIntercept | BlobIntercept | MseIntercept

  /** What a page reports. An empty string or map means the field is absent. */
  datatype Payload = Payload(url: string, kind: Kind, filename: string, size: Option<int>, mimeType: string,
                             quality: string, detectedBy: Detection, pageUrl: string, isAttachment: bool)

  datatype Resource = Resource(id: string, url: string, filename: string, kind: Kind, size: int, mimeType: string,
                               quality: string, detectedBy: Detection, detectedAt: int, pageUrl: string,
                               confidence: Confidence, isAttachment: bool, cookies: string,
                               headers: map<string, string>)

  /** The URL rules of the extension: canonical id, noise lists, guesses from
      extension and MIME type. */
  datatype Rules = Rules(id: string -> string, noise: string -> bool, classify: (string, string) -> Kind,
                         filename: string -> string)

  /** A reported payload, the page, the request headers and the clock. */
  datatype Sighting = Sighting(payload: Payload, page: string, cookies: string, headers: map<string, string>, now: int)

  const MAX_RESOURCES_PER_TAB := 500

  function Score(c: Confidence): int {
    match c case Low => 1 case Medium => 2 case High => 3
  }

  function Threshold(k: Kind): int {
    match k
    case Video => 500 * 1024
    case Audio => 100 * 1024
    case Image => 100 * 1024
    case Other => 50 * 1024
    case _ => -1
  }

  function ComputeConfidence(k: Kind, size: int, isAttachment: bool): Confidence {
    if isAttachment then High
    else if k in {Stream, Torrent, Executable, Subtitle, Magnet} then High
    else if k != Other && k != Image then
      if size > 0 && Threshold(k) > 0 && size >= Threshold(k) then High else if size <= 0 then Medium else Low
    else if k == Image then
      if size > 0 && size >= Threshold(k) then Medium else Low
    else if size >= 1024 * 1024 then Medium
    else Low
  }

  predicate IsWorthShowing(rules: Rules, r: Resource) {
    || r.kind == Magnet
    || (&& !("blob:" <= r.url) && !("data:" <= r.url)
        && !rules.noise(r.url)
        && !(r.size > 0 && Threshold(r.kind) > 0 && r.size < Threshold(r.kind) && !r.isAttachment)
        && !(r.kind == Image && 0 < r.size < 10 * 1024))
  }

  function FromPayload(rules: Rules, s: Sighting): Resource {
    var p := s.payload;
    var kind := if p.kind != Other then p.kind else rules.classify(p.url, p.mimeType);
    var size := if p.size.Some? then p.size.value else -1;
    Resource(rules.id(p.url), p.url, if p.filename != "" then p.filename else rules.filename(p.url), kind, size,
             p.mimeType, p.quality, p.detectedBy, s.now, if p.pageUrl != "" then p.pageUrl else s.page,
             ComputeConfidence(kind, size, p.isAttachment), p.isAttachment, s.cookies, s.headers)
  }

  /** Fills in what an entry did not know yet; what it knew stays. */
  function Merge(r: Resource, s: Sighting): Resource {
    var p := s.payload;
    var kind := if r.kind == Other then p.kind else r.kind;
    var size := if r.size <= 0 && p.size.Some? && p.size.value > 0 then p.size.value else r.size;
    var attached := r.isAttachment || p.isAttachment;
    var computed := ComputeConfidence(kind, size, attached);
    r.(kind := kind, size := size, isAttachment := attached,
       filename := if r.filename == "" then p.filename else r.filename,
       mimeType := if r.mimeType == "" then p.mimeType else r.mimeType,
       quality := if r.quality == "" then p.quality else r.quality,
       cookies := if r.cookies == "" then s.cookies else r.cookies,
       headers := if r.headers == map[] then s.headers else r.headers,
       confidence := if Score(computed) > Score(r.confidence) then computed else r.confidence)
  }

  // ---- eviction ------------------------------------------------------------------

  predicate Below(a: Resource, b: Resource) {
    Score(a.confidence) < Score(b.confidence) || (a.confidence == b.confidence && a.detectedAt < b.detectedAt)
  }

  /** The entry to evict: the first of the lowest. */
  function Lowest(tab: seq<Resource>): (k: nat)
    requires tab != []
    ensures k < |tab|
  {
    var n := |tab| - 1;
    if n == 0 then 0
    else
      var k := Lowest(tab[..n]);
      if Below(tab[n], tab[k]) then n else k
  }

  /** Nothing is below the victim, and what ties with it came later. */
  lemma {:induction false} LowestIsFirstMinimum(tab: seq<Resource>)
    requires tab != []
    ensures forall j :: 0 <= j < |tab| ==> !Below(tab[j], tab[Lowest(tab)])
    ensures forall j :: 0 <= j < Lowest(tab) ==> Below(tab[Lowest(tab)], tab[j])
  {
    var n := |tab| - 1;
    if n > 0 {
      LowestIsFirstMinimum(tab[..n]);
      assert forall j :: 0 <= j < n ==> tab[..n][j] == tab[j];
    }
  }

  function Evicted(tab: seq<Resource>): seq<Resource> {
    if tab == [] then [] else tab[..Lowest(tab)] + tab[Lowest(tab) + 1..]
  }

  // ---- adding -----------------------------------------------------------------------

  /** Where an id is stored; the length of the tab if it is not. */
  function Find(tab: seq<Resource>, id: string): (k: nat)
    ensures k <= |tab| && (k < |tab| ==> tab[k].id == id)
    ensures forall j :: 0 <= j < k ==> tab[j].id != id
  {
    if tab == [] || tab[0].id == id then 0 else 1 + Find(tab[1..], id)
  }

  function MakeRoom(tab: seq<Resource>): seq<Resource> {
    if |tab| >= MAX_RESOURCES_PER_TAB then Evicted(tab) else tab
  }

  predicate Inserts(rules: Rules, tab: seq<Resource>, s: Sighting) {
    && !rules.noise(s.payload.url)
    && Find(tab, rules.id(s.payload.url)) == |tab|
    && IsWorthShowing(rules, FromPayload(rules, s))
  }

  function AddOne(rules: Rules, tab: seq<Resource>, s: Sighting): seq<Resource> {
    var k := Find(tab, rules.id(s.payload.url));
    if rules.noise(s.payload.url) then tab
    else if k < |tab| then tab[k := Merge(tab[k], s)]
    else if IsWorthShowing(rules, FromPayload(rules, s)) then MakeRoom(tab) + [FromPayload(rules, s)]
    else tab
  }

  /** A run of sightings, in order. */
  function AddAll(rules: Rules, tab: seq<Resource>, run: seq<Sighting>): seq<Resource> {
    if run == [] then tab else AddOne(rules, AddAll(rules, tab, run[..|run| - 1]), run[|run| - 1])
  }

  function NewCount(rules: Rules, tab: seq<Resource>, run: seq<Sighting>): nat {
    if run == [] then 0
    else
      var n := |run| - 1;
      NewCount(rules, tab, run[..n]) + if Inserts(rules, AddAll(rules, tab, run[..n]), run[n]) then 1 else 0
  }

  // ---- what every run keeps -------------------------------------------------------------

  ghost predicate Sound(rules: Rules, tab: seq<Resource>) {
    && |tab| <= MAX_RESOURCES_PER_TAB
    && (forall i, j :: 0 <= i < j < |tab| ==> tab[i].id != tab[j].id)
    && (forall i :: 0 <= i < |tab| ==> EntrySound(rules, tab[i]))
  }

  /** An entry is filed under the id of its URL and never trusted less than
      what it now knows about itself warrants. */
  predicate EntrySound(rules: Rules, r: Resource) {
    && r.id == rules.id(r.url)
    && Score(r.confidence) >= Score(ComputeConfidence(r.kind, r.size, r.isAttachment))
  }

  lemma MakeRoomSound(rules: Rules, tab: seq<Resource>)
    requires Sound(rules, tab)
    ensures Sound(rules, MakeRoom(tab)) && |MakeRoom(tab)| < MAX_RESOURCES_PER_TAB
    ensures forall r :: r in MakeRoom(tab) ==> r in tab
  {
  }

  lemma AddOneSound(rules: Rules, tab: seq<Resource>, s: Sighting)
    requires Sound(rules, tab)
    ensures Sound(rules, AddOne(rules, tab, s))
  {
    if Inserts(rules, tab, s) {
      MakeRoomSound(rules, tab);
      var room := MakeRoom(tab);
      forall i | 0 <= i < |room| ensures room[i].id != rules.id(s.payload.url) {
        assert room[i] in tab;
      }
    }
  }

  lemma {:induction false} EveryRunSound(rules: Rules, run: seq<Sighting>)
    ensures Sound(rules, AddAll(rules, [], run)) && |AddAll(rules, [], run)| <= 500
  {
    RunKeepsSound(rules, [], run);
  }

  lemma {:induction false} RunKeepsSound(rules: Rules, tab: seq<Resource>, run: seq<Sighting>)
    requires Sound(rules, tab)
    ensures Sound(rules, AddAll(rules, tab, run))
  {
    if run != [] {
      RunKeepsSound(rules, tab, run[..|run| - 1]);
      AddOneSound(rules, AddAll(rules, tab, run[..|run| - 1]), run[|run| - 1]);
    }
  }

  /** Every counted insertion takes a place until the tab is full. */
  lemma {:induction false} SizeExactly(rules: Rules, tab: seq<Resource>, run: seq<Sighting>)
    requires Sound(rules, tab)
    ensures |AddAll(rules, tab, run)| ==
            var n := |tab| + NewCount(rules, tab, run);
            if n <= 500 then n else 500
  {
    if run != [] {
      SizeExactly(rules, tab, run[..|run| - 1]);
      RunKeepsSound(rules, tab, run[..|run| - 1]);
    }
  }

  /** What was just added or merged is in the store, under its id. */
  lemma AddedIsThere(rules: Rules, tab: seq<Resource>, s: Sighting)
    requires Sound(rules, tab)
    ensures var id := rules.id(s.payload.url);
            (exists r :: r in AddOne(rules, tab, s) && r.id == id)
            <==> (exists r :: r in tab && r.id == id) || Inserts(rules, tab, s)
  {
    var id := rules.id(s.payload.url);
    var k := Find(tab, id);
    var after := AddOne(rules, tab, s);
    if Inserts(rules, tab, s) {
      assert after[|after| - 1].id == id && after[|after| - 1] in after;
    } else if k < |tab| {
      assert tab[k] in tab && after[k] in after && after[k].id == id;
    }
  }

  // ---- merging ----------------------------------------------------------------------------

  /** A merge keeps everything known, never lowers the confidence, and doing it
      twice does nothing more. */
  lemma MergeIsMonotone(r: Resource, s: Sighting)
    ensures var m := Merge(r, s);
            && m.id == r.id && m.url == r.url && m.detectedAt == r.detectedAt
            && Score(m.confidence) >= Score(r.confidence)
            && (r.kind != Other ==> m.kind == r.kind) && (r.size > 0 ==> m.size == r.size)
            && (r.isAttachment ==> m.isAttachment) && (r.filename != "" ==> m.filename == r.filename)
            && (r.mimeType != "" ==> m.mimeType == r.mimeType) && (r.quality != "" ==> m.quality == r.quality)
            && (r.cookies != "" ==> m.cookies == r.cookies) && (r.headers != map[] ==> m.headers == r.headers)
            && Merge(m, s) == m
  {
  }

  /** How sure the store is of a resource: attachments and kinds that are
      downloads by nature count high, and so do video and audio of at least 500
      and 100 KiB; unsized media, documents and archives, images of at least 100
      KiB and unknown files of at least 1 MiB count medium; the rest counts low. */
  lemma ConfidenceExactly(k: Kind, size: int, isAttachment: bool)
    ensures var c := ComputeConfidence(k, size, isAttachment);
            && (c == High <==>
                 || isAttachment || k in {Stream, Torrent, Executable, Subtitle, Magnet}
                 || (k == Video && size >= 512000) || (k == Audio && size >= 102400))
            && (c == Medium <==>
                 && !isAttachment
                 && ((k in {Video, Audio, Document, Archive} && size <= 0)
                     || (k == Image && size >= 102400) || (k == Other && size >= 1048576)))
  {
  }

  /** What is filed when a resource is first seen: what the page reported, with
      the kind and the name guessed from the address where it reported none. */
  lemma FiledAsReported(rules: Rules, s: Sighting)
    ensures var p, r := s.payload, FromPayload(rules, s);
            && r.id == rules.id(p.url) && r.url == p.url && r.detectedAt == s.now && r.detectedBy == p.detectedBy
            && r.kind == (if p.kind == Other then rules.classify(p.url, p.mimeType) else p.kind)
            && r.filename == (if p.filename == "" then rules.filename(p.url) else p.filename)
            && r.size == (match p.size case Some(n) => n case None => -1)
            && r.pageUrl == (if p.pageUrl == "" then s.page else p.pageUrl)
            && r.mimeType == p.mimeType && r.quality == p.quality && r.isAttachment == p.isAttachment
            && r.cookies == s.cookies && r.headers == s.headers
            && r.confidence == ComputeConfidence(r.kind, r.size, r.isAttachment)
  {
  }

  /** What is worth showing: a magnet link always; otherwise no blob or data
      address, no noise, no image under 10 KiB, and nothing that is known to be
      smaller than its kind's limit unless it was sent as an attachment. */
  lemma WorthExactly(rules: Rules, r: Resource)
    ensures IsWorthShowing(rules, r) <==>
              || r.kind == Magnet
              || (&& !("blob:" <= r.url) && !("data:" <= r.url) && !rules.noise(r.url)
                  && (r.kind == Image ==> r.size <= 0 || r.size >= 10240)
                  && (!r.isAttachment && r.size > 0 ==>
                        && (r.kind == Video ==> r.size >= 512000)
                        && (r.kind == Audio ==> r.size >= 102400)
                        && (r.kind == Image ==> r.size >= 102400)
                        && (r.kind == Other ==> r.size >= 51200)))
  {
  }

  /** What is known already, or else the first report that is not blank. */
  function First<T>(known: T, reports: seq<T>, blank: T -> bool): T {
    if reports == [] then known
    else
      var before, last := First(known, reports[..|reports| - 1], blank), reports[|reports| - 1];
      if blank(before) && !blank(last) then last else before
  }

  lemma FirstMore<T>(known: T, reports: seq<T>, blank: T -> bool, x: T)
    ensures First(known, reports + [x], blank)
         == var before := First(known, reports, blank); if blank(before) && !blank(x) then x else before
  {
    assert (reports + [x])[..|reports|] == reports;
  }

  /** The same by the place of that report. */
  lemma {:induction false} FirstAt<T>(known: T, reports: seq<T>, blank: T -> bool, k: nat)
    requires k <= |reports| && forall j :: 0 <= j < k ==> blank(reports[j])
    requires k < |reports| ==> !blank(reports[k])
    ensures First(known, reports, blank) == if blank(known) && k < |reports| then reports[k] else known
    decreases |reports|
  {
    if reports != [] {
      var n := |reports| - 1;
      assert forall j :: 0 <= j < n ==> reports[..n][j] == reports[j];
      FirstAt(known, reports[..n], blank, if k < n then k else n);
    }
  }

  /** The sightings of a run that concern an id. */
  function About(rules: Rules, run: seq<Sighting>, id: string): seq<Sighting> {
    if run == [] then []
    else
      var n := |run| - 1;
      About(rules, run[..n], id)
      + if rules.id(run[n].payload.url) == id && !rules.noise(run[n].payload.url) then [run[n]] else []
  }

  /** An entry after it was merged with these sightings, in order. */
  function Absorb(r: Resource, seen: seq<Sighting>): Resource {
    if seen == [] then r else Merge(Absorb(r, seen[..|seen| - 1]), seen[|seen| - 1])
  }

  lemma AbsorbMore(r: Resource, seen: seq<Sighting>, s: Sighting)
    ensures Absorb(r, seen + [s]) == Merge(Absorb(r, seen), s)
  {
    assert (seen + [s])[..|seen|] == seen;
  }

  function Reports<T>(seen: seq<Sighting>, of: Sighting -> T): seq<T> {
    seq(|seen|, i requires 0 <= i < |seen| => of(seen[i]))
  }

  function KindOf(s: Sighting): Kind { s.payload.kind }
  function SizeOf(s: Sighting): int { if s.payload.size.Some? then s.payload.size.value else -1 }
  function NameOf(s: Sighting): string { s.payload.filename }
  function MimeOf(s: Sighting): string { s.payload.mimeType }
  function QualityOf(s: Sighting): string { s.payload.quality }
  function CookiesOf(s: Sighting): string { s.cookies }
  function HeadersOf(s: Sighting): map<string, string> { s.headers }

  predicate NoKind(k: Kind) { k == Other }
  predicate NoSize(n: int) { n <= 0 }
  predicate NoText(t: string) { t == "" }
  predicate NoHeaders(h: map<string, string>) { h == map[] }

  /** Entry `m` is `r` with each unknown field filled by the first of these
      sightings that knows it, and as trusted as that warrants. */
  ghost predicate Filled(r: Resource, seen: seq<Sighting>, m: Resource) {
    && m.kind == First(r.kind, Reports(seen, KindOf), NoKind)
    && m.size == First(r.size, Reports(seen, SizeOf), NoSize)
    && m.filename == First(r.filename, Reports(seen, NameOf), NoText)
    && m.mimeType == First(r.mimeType, Reports(seen, MimeOf), NoText)
    && m.quality == First(r.quality, Reports(seen, QualityOf), NoText)
    && m.cookies == First(r.cookies, Reports(seen, CookiesOf), NoText)
    && m.headers == First(r.headers, Reports(seen, HeadersOf), NoHeaders)
    && m.isAttachment == (r.isAttachment || exists s :: s in seen && s.payload.isAttachment)
    && m == r.(kind := m.kind, size := m.size, filename := m.filename, mimeType := m.mimeType, quality := m.quality,
               cookies := m.cookies, headers := m.headers, isAttachment := m.isAttachment, confidence := m.confidence)
  }

  lemma ReportsMore<T>(seen: seq<Sighting>, s: Sighting, of: Sighting -> T, known: T, blank: T -> bool)
    ensures First(known, Reports(seen + [s], of), blank)
         == var before := First(known, Reports(seen, of), blank);
            if blank(before) && !blank(of(s)) then of(s) else before
  {
    assert Reports(seen + [s], of) == Reports(seen, of) + [of(s)];
    FirstMore(known, Reports(seen, of), blank, of(s));
  }

  lemma FilledMore(r: Resource, seen: seq<Sighting>, s: Sighting, m: Resource)
    requires Filled(r, seen, m)
    ensures Filled(r, seen + [s], Merge(m, s))
  {
    ReportsMore(seen, s, KindOf, r.kind, NoKind);
    ReportsMore(seen, s, SizeOf, r.size, NoSize);
    ReportsMore(seen, s, NameOf, r.filename, NoText);
    ReportsMore(seen, s, MimeOf, r.mimeType, NoText);
    ReportsMore(seen, s, QualityOf, r.quality, NoText);
    ReportsMore(seen, s, CookiesOf, r.cookies, NoText);
    ReportsMore(seen, s, HeadersOf, r.headers, NoHeaders);
    assert forall x :: x in seen + [s] <==> x in seen || x == s;
  }

  /** Merging fills every unknown field from the first sighting that knows it. */
  lemma {:induction false} AbsorbFills(r: Resource, seen: seq<Sighting>)
    ensures Filled(r, seen, Absorb(r, seen))
    decreases |seen|
  {
    if seen != [] {
      var n := |seen| - 1;
      AbsorbFills(r, seen[..n]);
      FilledMore(r, seen[..n], seen[n], Absorb(r, seen[..n]));
      assert seen[..n] + [seen[n]] == seen;
    }
  }

  /** What one merge learns: every field that was unknown and is now reported,
      and the trust that the entry then deserves if that is more than it had. */
  lemma MergeFills(r: Resource, s: Sighting)
    ensures var m, p := Merge(r, s), s.payload;
            && m.kind == (if r.kind == Other then p.kind else r.kind)
            && m.size == (if r.size <= 0 && p.size.Some? && p.size.value > 0 then p.size.value else r.size)
            && (r.filename == "" ==> m.filename == p.filename) && (r.mimeType == "" ==> m.mimeType == p.mimeType)
            && (r.quality == "" ==> m.quality == p.quality) && (r.cookies == "" ==> m.cookies == s.cookies)
            && (r.headers == map[] ==> m.headers == s.headers) && (p.isAttachment ==> m.isAttachment)
            && var due := ComputeConfidence(m.kind, m.size, m.isAttachment);
               m.confidence in {r.confidence, due} && Score(m.confidence) >= Score(due)
               && Score(m.confidence) >= Score(r.confidence)
  {
  }

  /** Where an entry of the store comes from: the sighting that put it there. */
  ghost predicate CameFrom(rules: Rules, run: seq<Sighting>, r: Resource, k: nat) {
    && k < |run| && Inserts(rules, AddAll(rules, [], run[..k]), run[k])
    && r == Absorb(FromPayload(rules, run[k]), About(rules, run[k + 1..], r.id))
  }

  lemma AboutMore(rules: Rules, run: seq<Sighting>, k: nat, id: string)
    requires k < |run|
    ensures About(rules, run[k..], id) == About(rules, run[..|run| - 1][k..], id)
      + if rules.id(run[|run| - 1].payload.url) == id && !rules.noise(run[|run| - 1].payload.url) then [run[|run| - 1]]
        else []
  {
    assert run[k..][..|run| - k - 1] == run[..|run| - 1][k..];
  }

  lemma {:induction false} AbsorbKeepsId(r: Resource, seen: seq<Sighting>)
    ensures Absorb(r, seen).id == r.id
  {
    if seen != [] {
      AbsorbKeepsId(r, seen[..|seen| - 1]);
    }
  }

  predicate Concerns(rules: Rules, s: Sighting, id: string) {
    rules.id(s.payload.url) == id && !rules.noise(s.payload.url)
  }

  /** After a sighting an entry is new, or an old one that took the sighting in,
      or an old one that it does not concern. */
  lemma StepSource(rules: Rules, tab: seq<Resource>, s: Sighting, r: Resource) returns (was: Resource)
    requires Sound(rules, tab) && r in AddOne(rules, tab, s)
    ensures || (Inserts(rules, tab, s) && r == FromPayload(rules, s))
            || (was in tab && was.id == r.id && Concerns(rules, s, r.id) && r == Merge(was, s))
            || (was in tab && !Concerns(rules, s, r.id) && r == was)
  {
    var at := Find(tab, rules.id(s.payload.url));
    was := r;
    if Inserts(rules, tab, s) {
      MakeRoomSound(rules, tab);
    } else if !rules.noise(s.payload.url) && at < |tab| {
      var j :| 0 <= j < |tab| && AddOne(rules, tab, s)[j] == r;
      was := tab[j];
    }
  }

  lemma HistoryGoesOn(rules: Rules, run: seq<Sighting>, before: Resource, r: Resource, k: nat)
    requires run != [] && CameFrom(rules, run[..|run| - 1], before, k) && before.id == r.id
    requires var s := run[|run| - 1]; r == if Concerns(rules, s, r.id) then Merge(before, s) else before
    ensures CameFrom(rules, run, r, k)
  {
    var front, s := run[..|run| - 1], run[|run| - 1];
    assert front[..k] == run[..k] && front[k] == run[k];
    var first, seen := FromPayload(rules, run[k]), About(rules, front[k + 1..], r.id);
    AboutMore(rules, run, k + 1, r.id);
    if Concerns(rules, s, r.id) {
      assert About(rules, run[k + 1..], r.id) == seen + [s];
      AbsorbMore(first, seen, s);
    } else {
      assert About(rules, run[k + 1..], r.id) == seen;
    }
  }

  /** Every entry of a tab, after any run, is what the sighting that put it there
      reported, with the unknown fields filled by the first later sighting of the
      same id that knew them (`AbsorbFills`), whatever was evicted meanwhile. */
  lemma {:induction false} EntryHistory(rules: Rules, run: seq<Sighting>, r: Resource) returns (k: nat)
    requires r in AddAll(rules, [], run)
    ensures CameFrom(rules, run, r, k)
    ensures Filled(FromPayload(rules, run[k]), About(rules, run[k + 1..], r.id), r)
    decreases |run|
  {
    var n := |run| - 1;
    var tab := AddAll(rules, [], run[..n]);
    EveryRunSound(rules, run[..n]);
    var before := StepSource(rules, tab, run[n], r);
    if Inserts(rules, tab, run[n]) && r == FromPayload(rules, run[n]) {
      k := n;
      assert run[k + 1..] == [];
    } else {
      k := EntryHistory(rules, run[..n], before);
      HistoryGoesOn(rules, run, before, r, k);
    }
    AbsorbFills(FromPayload(rules, run[k]), About(rules, run[k + 1..], r.id));
  }

  /** An entry that a sighting leaves in the store, or merges into, keeps its
      time and keeps or raises its confidence. */
  lemma ConfidenceNeverFalls(rules: Rules, tab: seq<Resource>, s: Sighting, before: Resource, after: Resource)
    requires Sound(rules, tab) && before in tab && after in AddOne(rules, tab, s) && before.id == after.id
    requires !Inserts(rules, tab, s) || rules.id(s.payload.url) != before.id
    ensures Score(after.confidence) >= Score(before.confidence) && after.detectedAt == before.detectedAt
  {
    var next := AddOne(rules, tab, s);
    var i :| 0 <= i < |tab| && tab[i] == before;
    if Inserts(rules, tab, s) {
      MakeRoomSound(rules, tab);
      assert after in tab;
    } else {
      var j :| 0 <= j < |next| && next[j] == after;
      assert tab[j].id == after.id;
    }
  }

  // ---- confidence levels under eviction -------------------------------------------------------

  function Flag(r: Resource, level: int): nat {
    if Score(r.confidence) >= level then 1 else 0
  }

  /** How many entries are at a confidence level or above it. */
  function AtLeast(tab: seq<Resource>, level: int): (n: nat)
    ensures n <= |tab|
  {
    if tab == [] then 0 else Flag(tab[0], level) + AtLeast(tab[1..], level)
  }

  lemma {:induction false} AtLeastConcat(a: seq<Resource>, b: seq<Resource>, level: int)
    ensures AtLeast(a + b, level) == AtLeast(a, level) + AtLeast(b, level)
  {
    if a == [] {
      assert a + b == b;
    } else {
      assert (a + b)[1..] == a[1..] + b;
      AtLeastConcat(a[1..], b, level);
    }
  }

  lemma AtLeastSplit(tab: seq<Resource>, k: nat, level: int)
    requires k < |tab|
    ensures AtLeast(tab, level) == AtLeast(tab[..k], level) + Flag(tab[k], level) + AtLeast(tab[k + 1..], level)
  {
    assert tab == tab[..k] + tab[k..];
    AtLeastConcat(tab[..k], tab[k..], level);
  }

  lemma {:induction false} AllAtLeast(tab: seq<Resource>, level: int)
    ensures AtLeast(tab, level) == |tab| <==> forall r :: r in tab ==> Score(r.confidence) >= level
  {
    if tab != [] {
      AllAtLeast(tab[1..], level);
      assert forall r :: r in tab <==> r == tab[0] || r in tab[1..];
    }
  }

  /** Making room costs a level an entry only when the tab holds nothing else. */
  lemma EvictionCost(tab: seq<Resource>, level: int)
    requires tab != []
    ensures AtLeast(Evicted(tab), level) == AtLeast(tab, level) - if AtLeast(tab, level) == |tab| then 1 else 0
  {
    var k := Lowest(tab);
    AtLeastSplit(tab, k, level);
    AtLeastConcat(tab[..k], tab[k + 1..], level);
    LowestIsFirstMinimum(tab);
    AllAtLeast(tab, level);
    if Flag(tab[k], level) == 1 {
      forall r | r in tab ensures Score(r.confidence) >= level {
        var j :| 0 <= j < |tab| && tab[j] == r;
        assert !Below(tab[j], tab[k]);
      }
    } else {
      assert tab[k] in tab;
    }
  }

  /** The exact effect of an insertion on a level. */
  lemma InsertionCounts(rules: Rules, tab: seq<Resource>, s: Sighting, level: int)
    requires Sound(rules, tab) && Inserts(rules, tab, s)
    ensures AtLeast(AddOne(rules, tab, s), level)
            == AtLeast(tab, level) + Flag(FromPayload(rules, s), level)
               - if AtLeast(tab, level) == MAX_RESOURCES_PER_TAB then 1 else 0
  {
    var r := FromPayload(rules, s);
    AtLeastConcat(MakeRoom(tab), [r], level);
    if |tab| >= MAX_RESOURCES_PER_TAB {
      EvictionCost(tab, level);
    }
  }

  function Min(a: int, b: int): int {
    if a <= b then a else b
  }

  lemma StepKeepsLevel(rules: Rules, tab: seq<Resource>, s: Sighting, level: int)
    requires Sound(rules, tab)
    ensures AtLeast(AddOne(rules, tab, s), level) >= Min(AtLeast(tab, level), MAX_RESOURCES_PER_TAB - 1)
  {
    var k := Find(tab, rules.id(s.payload.url));
    if Inserts(rules, tab, s) {
      InsertionCounts(rules, tab, s, level);
    } else if k < |tab| && !rules.noise(s.payload.url) {
      var next := AddOne(rules, tab, s);
      AtLeastSplit(tab, k, level);
      AtLeastSplit(next, k, level);
      assert next[..k] == tab[..k] && next[k + 1..] == tab[k + 1..];
    }
  }

  /** However many resources arrive, what a tab holds at a level or above never
      drops below what it held, save the one place a newcomer may take from a
      tab that is full of nothing else. */
  lemma {:induction false} LevelsSurvive(rules: Rules, tab: seq<Resource>, run: seq<Sighting>, level: int)
    requires Sound(rules, tab)
    ensures AtLeast(AddAll(rules, tab, run), level) >= Min(AtLeast(tab, level), 499)
  {
    if run != [] {
      var front := run[..|run| - 1];
      LevelsSurvive(rules, tab, front, level);
      RunKeepsSound(rules, tab, front);
      StepKeepsLevel(rules, AddAll(rules, tab, front), run[|run| - 1], level);
    }
  }

  /** The bound is tight: in a tab full of trusted entries the weakest newcomer
      still pushes one of them out. */
  lemma NewcomerEvictsTheTrusted(rules: Rules, tab: seq<Resource>, s: Sighting)
    requires Sound(rules, tab) && Inserts(rules, tab, s) && FromPayload(rules, s).confidence == Low
    requires |tab| == MAX_RESOURCES_PER_TAB && forall r :: r in tab ==> r.confidence == High
    ensures AtLeast(AddOne(rules, tab, s), Score(High)) == 499
  {
    AllAtLeast(tab, Score(High));
    InsertionCounts(rules, tab, s, Score(High));
  }

  // ---- listing -----------------------------------------------------------------------------

  /** Which resource may be listed before which. */
  predicate Precedes(a: Resource, b: Resource) {
    !Below(a, b)
  }

  function Listed(tab: seq<Resource>): seq<Resource> {
    Sorting.StableSort(tab, Precedes)
  }

  /** The list shown is the tab's entries, most trusted first and then newest
      first. */
  lemma ListedSorts(tab: seq<Resource>)
    ensures forall i, j :: 0 <= i < j < |Listed(tab)| ==> !Below(Listed(tab)[i], Listed(tab)[j])
    ensures multiset(Listed(tab)) == multiset(tab)
  {
    Sorting.StableSortSorts(tab, Precedes);
    forall i, j | 0 <= i < j < |Listed(tab)| ensures !Below(Listed(tab)[i], Listed(tab)[j]) {
      assert Precedes(Listed(tab)[i], Listed(tab)[j]);
    }
  }

  /** Eviction takes from the bottom of the list: the victim ties with the
      resource shown last. */
  lemma VictimIsShownLast(tab: seq<Resource>)
    requires tab != []
    ensures Listed(tab) != []
    ensures var victim := tab[Lowest(tab)];
            var last := Listed(tab)[|Listed(tab)| - 1];
            last.confidence == victim.confidence && last.detectedAt == victim.detectedAt
  {
    var victim := tab[Lowest(tab)];
    ListedSorts(tab);
    LowestIsFirstMinimum(tab);
    assert victim in multiset(tab);
    var list := Listed(tab);
    assert victim in list;
    var last := list[|list| - 1];
    assert last in multiset(list);
    assert last in tab;
    var j :| 0 <= j < |tab| && tab[j] == last;
    assert !Below(tab[j], victim);
    var i :| 0 <= i < |list| && list[i] == victim;
    assert i < |list| - 1 ==> !Below(list[i], list[|list| - 1]);
  }

  // ---- the store ------------------------------------------------------------------------------

  /** One round of the loop over the payloads. */
  method AddResource(rules: Rules, resources: seq<Resource>, s: Sighting) returns (next: seq<Resource>, added: bool)
    ensures next == AddOne(rules, resources, s) && added == Inserts(rules, resources, s)
  {
    if rules.noise(s.payload.url) {
      return resources, false;
    }
    var k := Find(resources, rules.id(s.payload.url));
    if k < |resources| {
      return resources[k := Merge(resources[k], s)], false;
    }
    var resource := FromPayload(rules, s);
    if !IsWorthShowing(rules, resource) {
      return resources, false;
    }
    next := resources;
    if |resources| >= MAX_RESOURCES_PER_TAB {
      next := EvictLowest(next);
    }
    next, added := next + [resource], true;
  }

  /** The loop over the payloads. */
  method AddEach(rules: Rules, tab: seq<Resource>, run: seq<Sighting>) returns (resources: seq<Resource>, newCount: nat)
    ensures resources == AddAll(rules, tab, run) && newCount == NewCount(rules, tab, run)
  {
    resources, newCount := tab, 0;
    for i := 0 to |run|
      invariant resources == AddAll(rules, tab, run[..i])
      invariant newCount == NewCount(rules, tab, run[..i])
    {
      assert run[..i + 1][..i] == run[..i];
      var added;
      resources, added := AddResource(rules, resources, run[i]);
      if added {
        newCount := newCount + 1;
      }
    }
    assert run[..|run|] == run;
  }

  class Store {
    const rules: Rules
    var tabResources: map<int, seq<Resource>>

    constructor (rules: Rules)
      ensures this.rules == rules && tabResources == map[]
    {
      this.rules := rules;
      tabResources := map[];
    }

    ghost predicate Valid()
      reads this
    {
      forall tab :: tab in tabResources ==> Sound(rules, tabResources[tab])
    }

    function Tab(tabId: int): seq<Resource>
      reads this
    {
      if tabId in tabResources then tabResources[tabId] else []
    }

    method AddResources(tabId: int, run: seq<Sighting>) returns (newCount: nat)
      requires Valid()
      modifies this
      ensures Valid()
      ensures tabResources == old(tabResources)[tabId := AddAll(rules, old(Tab(tabId)), run)]
      ensures newCount == NewCount(rules, old(Tab(tabId)), run)
    {
      var resources;
      resources, newCount := AddEach(rules, Tab(tabId), run);
      RunKeepsSound(rules, Tab(tabId), run);
      tabResources := tabResources[tabId := resources];
    }

    method ClearResourcesForTab(tabId: int)
      requires Valid()
      modifies this
      ensures Valid() && tabResources == old(tabResources) - {tabId}
    {
      tabResources := tabResources - {tabId};
    }
  }

  method EvictLowest(tab: seq<Resource>) returns (rest: seq<Resource>)
    ensures rest == Evicted(tab)
  {
    if tab == [] {
      return [];
    }
    var victim, victimScore, victimAt := 0, Score(tab[0].confidence), tab[0].detectedAt;
    for i := 1 to |tab|
      invariant victim == Lowest(tab[..i])
      invariant victimScore == Score(tab[victim].confidence) && victimAt == tab[victim].detectedAt
    {
      assert tab[..i + 1][..i] == tab[..i];
      var score := Score(tab[i].confidence);
      if score < victimScore || (score == victimScore && tab[i].detectedAt < victimAt) {
        victim, victimScore, victimAt := i, score, tab[i].detectedAt;
      }
    }
    assert tab[..|tab|] == tab;
    rest := tab[..victim] + tab[victim + 1..];
  }
}
