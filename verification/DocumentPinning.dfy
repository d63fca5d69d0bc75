/** Document versions, their pinned storage versions, and the pointers handed out for download.

    SHA-256 is taken as injective: a checksum is the bytes themselves and a content digest the facts it
    digests. The object key of a version is its id. Storage keeps every version of an object for ever. */
module DocumentPinning {
  import opened Prelude

  type Bytes = seq<nat>

  datatype Status = PendingUpload | Uploaded | Scanning | Available | Rejected

  datatype Document = Document(title: Id, latest: nat, version: int)

  /** A document_versions row. `declared` is what the client said it would upload. */
  datatype Version = Version(
    document: Id, number: nat, declaredSize: nat, declared: Bytes, mime: Id, status: Status, pinned: Option<Id>,
    actualSize: Option<nat>, actual: Option<Bytes>, releasedDigest: Option<Digest>, version: int)

  /** content_digest. */
  datatype Digest = Digest(
    document: Id, id: Id, title: Id, mime: Id, declaredSize: nat, declared: Bytes, actualSize: Option<nat>,
    actual: Option<Bytes>, pinned: Option<Id>)

  datatype Stored = Stored(key: Id, bytes: Bytes, mime: Option<Id>)

  /** A complete() call between its transactions: what it read, then what it inspected. */
  datatype Completion = Completion(
    id: Id, declaredSize: nat, declared: Bytes, mime: Id, snapshot: Option<Id>, inspected: Option<Id>)

  datatype Pointer = Pointer(id: Id, pinned: Id, digest: Digest)

  /** A download() call between its two pointer reads. */
  datatype Download = Download(id: Id, profit: bool, pointer: Pointer)

  /** `releases` is the history of digests that reviews released. */
  datatype System = System(
    documents: map<Id, Document>, versions: map<Id, Version>, objects: map<Id, Stored>, latestObject: map<Id, Id>,
    completions: map<Id, Completion>, downloads: map<Id, Download>, issued: seq<Download>, releases: set<Digest>)

  datatype Step =
    | NewDocument(document: Id, id: Id, title: Id, size: nat, declared: Bytes, mime: Id)
    | Replace(document: Id, id: Id, expected: int, size: nat, declared: Bytes, mime: Id)
    | Retitle(document: Id, title: Id)
    | Put(key: Id, blob: Id, bytes: Bytes, contentType: Option<Id>)
    | ReadForCompletion(call: Id, id: Id)
    | Inspect(call: Id)
    | CommitCompletion(call: Id)
    | MarkAvailable(id: Id)
    | Review(id: Id, digest: Digest, expected: int, release: bool)
    | ReadPointer(call: Id, id: Id, profit: bool)
    | IssueUrl(call: Id)
    | Drop(call: Id)

  // ---- Single-row functions ---------------------------------------------------------------------

  function ContentDigest(id: Id, document: Document, v: Version): Digest {
    Digest(v.document, id, document.title, v.mime, v.declaredSize, v.declared, v.actualSize, v.actual, v.pinned)
  }

  predicate Released(id: Id, document: Document, v: Version) {
    v.status == Available && v.pinned.Some? && v.releasedDigest == Some(ContentDigest(id, document, v))
  }

  /** _download_pointer, for a named version. */
  function PointerTo(s: System, id: Id, profit: bool): Option<Pointer> {
    if id !in s.versions || s.versions[id].document !in s.documents then None
    else
      var v := s.versions[id];
      var document := s.documents[v.document];
      if v.status != Available || (!profit && !Released(id, document, v)) || v.pinned.None? then None
      else Some(Pointer(id, v.pinned.value, ContentDigest(id, document, v)))
  }

  function NewVersion(document: Id, number: nat, size: nat, declared: Bytes, mime: Id): Version {
    Version(document, number, size, declared, mime, PendingUpload, None, None, None, None, 1)
  }

  /** The object a completion looks at: the pinned one, or the newest upload under the key. */
  function Inspected(s: System, c: Completion): Option<Id> {
    if c.snapshot.Some? then c.snapshot else if c.id in s.latestObject then Some(s.latestObject[c.id]) else None
  }

  /** The checks of complete() on what it inspected. */
  predicate Matches(stored: Stored, c: Completion) {
    && |stored.bytes| == c.declaredSize && stored.bytes == c.declared
    && (stored.mime.Some? ==> stored.mime.value == c.mime)
  }

  /** The locked second half of complete(). */
  function Completed(v: Version, blob: Id, stored: Stored): Version {
    match v.status
    case PendingUpload =>
      v.(status := Uploaded, actualSize := Some(|stored.bytes|), actual := Some(stored.bytes),
        pinned := Some(blob), version := v.version + 1)
    case Rejected => v
    case _ => if v.pinned.None? then v.(pinned := Some(blob), version := v.version + 1) else v
  }

  /** The conditions of a release decision. */
  predicate Releasable(v: Version) {
    v.status == Available && v.pinned.Some? && v.actual == Some(v.declared) && v.actualSize == Some(v.declaredSize)
  }

  function Reviewed(v: Version, digest: Digest, release: bool): Version {
    v.(releasedDigest := if release then Some(digest) else None, version := v.version + 1)
  }

  predicate MayReview(s: System, id: Id, digest: Digest, expected: int, release: bool) {
    && id in s.versions && s.versions[id].document in s.documents
    && s.versions[id].version == expected
    && ContentDigest(id, s.documents[s.versions[id].document], s.versions[id]) == digest
    && (release ==> Releasable(s.versions[id]))
  }

  // ---- Steps ------------------------------------------------------------------------------------

  predicate Enabled(s: System, step: Step) {
    match step
    case NewDocument(d, id, _, _, _, _) => d !in s.documents && id !in s.versions
    case Replace(d, id, expected, _, _, _) => d in s.documents && id !in s.versions
      && s.documents[d].version == expected
    case Retitle(d, _) => d in s.documents
    case Put(_, blob, _, _) => blob !in s.objects
    case ReadForCompletion(call, id) => call !in s.completions && id in s.versions
    case Inspect(call) => call in s.completions && s.completions[call].inspected.None?
      && Inspected(s, s.completions[call]).Some?
    case CommitCompletion(call) =>
      && call in s.completions && s.completions[call].inspected.Some? && s.completions[call].id in s.versions
      && s.completions[call].inspected.value in s.objects
      && Matches(s.objects[s.completions[call].inspected.value], s.completions[call])
    case MarkAvailable(id) => id in s.versions && s.versions[id].status == Uploaded
    case Review(id, digest, expected, release) => MayReview(s, id, digest, expected, release)
    case ReadPointer(call, id, profit) => call !in s.downloads && PointerTo(s, id, profit).Some?
    case IssueUrl(call) => call in s.downloads
        && PointerTo(s, s.downloads[call].id, s.downloads[call].profit) == Some(s.downloads[call].pointer)
    case Drop(call) => true
  }

  function Next(s: System, step: Step): System {
    if !Enabled(s, step) then s
    else
      match step
      case NewDocument(d, id, title, size, declared, mime) =>
        s.(documents := s.documents[d := Document(title, 1, 1)],
          versions := s.versions[id := NewVersion(d, 1, size, declared, mime)])
      case Replace(d, id, _, size, declared, mime) =>
        var document := s.documents[d];
        var next := document.(latest := document.latest + 1, version := document.version + 1);
        s.(documents := s.documents[d := next],
          versions := s.versions[id := NewVersion(d, next.latest, size, declared, mime)])
      case Retitle(d, title) => s.(documents :=
        s.documents[d := s.documents[d].(title := title, version := s.documents[d].version + 1)])
      case Put(key, blob, bytes, mime) =>
        s.(objects := s.objects[blob := Stored(key, bytes, mime)], latestObject := s.latestObject[key := blob])
      case ReadForCompletion(call, id) =>
        var v := s.versions[id];
        s.(completions := s.completions[call := Completion(id, v.declaredSize, v.declared, v.mime, v.pinned, None)])
      case Inspect(call) =>
        var c := s.completions[call];
        s.(completions := s.completions[call := c.(inspected := Inspected(s, c))])
      case CommitCompletion(call) =>
        var c := s.completions[call];
        var blob := c.inspected.value;
        s.(versions := s.versions[c.id := Completed(s.versions[c.id], blob, s.objects[blob])],
          completions := s.completions - {call})
      case MarkAvailable(id) =>
        s.(versions := s.versions[id := s.versions[id].(status := Available, version := s.versions[id].version + 1)])
      case Review(id, digest, _, release) =>
        s.(versions := s.versions[id := Reviewed(s.versions[id], digest, release)],
           releases := if release then s.releases + {digest} else s.releases)
      case ReadPointer(call, id, profit) =>
        s.(downloads := s.downloads[call := Download(id, profit, PointerTo(s, id, profit).value)])
      case IssueUrl(call) => s.(issued := s.issued + [s.downloads[call]], downloads := s.downloads - {call})
      case Drop(call) => s.(completions := s.completions - {call}, downloads := s.downloads - {call})
  }

  function Run(s: System, steps: seq<Step>): System {
    if steps == [] then s else Next(Run(s, steps[..|steps| - 1]), steps[|steps| - 1])
  }

  // ---- The invariant ----------------------------------------------------------------------------

  /** A set storage version id names stored bytes of the declared size and checksum. */
  ghost predicate PinnedRight(s: System, id: Id)
    requires id in s.versions
  {
    var v := s.versions[id];
    && (v.status == PendingUpload ==> v.pinned.None?)
    && (v.pinned.Some? ==>
          && v.pinned.value in s.objects
          && s.objects[v.pinned.value].key == id
          && |s.objects[v.pinned.value].bytes| == v.declaredSize
          && s.objects[v.pinned.value].bytes == v.declared)
    && (v.releasedDigest.Some? ==> v.releasedDigest.value in s.releases && v.releasedDigest.value.id == id)
  }

  ghost predicate LatestRight(s: System) {
    forall k :: k in s.latestObject ==> s.latestObject[k] in s.objects && s.objects[s.latestObject[k]].key == k
  }

  /** A completion in flight remembers the immutable part of its row. */
  ghost predicate CompletionSound(s: System, call: Id)
    requires call in s.completions
  {
    var c := s.completions[call];
    && c.id in s.versions && s.versions[c.id].declaredSize == c.declaredSize && s.versions[c.id].declared == c.declared
    && (c.inspected.Some? ==> c.inspected.value in s.objects && s.objects[c.inspected.value].key == c.id)
    && (c.snapshot.Some? ==> s.versions[c.id].pinned == c.snapshot)
  }

  /** Version numbers of a document are exactly 1 to latest, each once. */
  ghost predicate Numbered(s: System) {
    && (forall id :: id in s.versions ==> InRange(s, s.versions[id]))
    && NumbersUnique(s)
    && (forall d, n :: d in s.documents && 1 <= n <= s.documents[d].latest ==> HasNumber(s, d, n))
  }

  ghost predicate NumbersUnique(s: System) {
    forall a, b :: a in s.versions && b in s.versions && SameNumber(s.versions[a], s.versions[b]) ==> a == b
  }

  predicate InRange(s: System, v: Version) {
    v.document in s.documents && 1 <= v.number <= s.documents[v.document].latest
  }

  predicate SameNumber(v: Version, w: Version) { v.document == w.document && v.number == w.number }

  ghost predicate HasNumber(s: System, d: Id, n: int) {
    exists id :: id in s.versions && s.versions[id].document == d && s.versions[id].number == n
  }

  /** A pointer that was issued without profit permission carries a digest that a review released,
      of an available version pinned to the stored bytes it names. */
  ghost predicate IssuedRight(s: System, download: Download) {
    var p := download.pointer;
    && p.digest.id == p.id && p.digest.pinned == Some(p.pinned)
    && p.pinned in s.objects && s.objects[p.pinned].key == p.id
    && s.objects[p.pinned].bytes == p.digest.declared && |s.objects[p.pinned].bytes| == p.digest.declaredSize
    && (!download.profit ==> p.digest in s.releases)
  }

  ghost predicate Invariant(s: System) {
    && (forall id {:trigger PinnedRight(s, id)} :: id in s.versions ==> PinnedRight(s, id))
    && (forall call {:trigger CompletionSound(s, call)} :: call in s.completions ==> CompletionSound(s, call))
    && Numbered(s)
    && LatestRight(s)
    && (forall i :: 0 <= i < |s.issued| ==> IssuedRight(s, s.issued[i]))
  }

  // ---- Every step keeps it ----------------------------------------------------------------------

  /** What no step changes: declared facts, pinned ids, stored bytes, releases. */
  ghost predicate SameEvidence(v: Version, w: Version) {
    && w.document == v.document && w.number == v.number && w.declared == v.declared && w.declaredSize == v.declaredSize
    && (v.pinned.Some? ==> w.pinned == v.pinned)
  }

  ghost predicate Grows(s: System, s': System) {
    && (forall id :: id in s.versions ==> id in s'.versions && SameEvidence(s.versions[id], s'.versions[id]))
    && (forall o :: o in s.objects ==> o in s'.objects && s'.objects[o] == s.objects[o])
    && s.releases <= s'.releases
  }

  /** What an enabled step makes of one version row. */
  function VersionAfter(s: System, step: Step, id: Id): Version
    requires id in s.versions && Enabled(s, step)
  {
    var v := s.versions[id];
    match step
    case CommitCompletion(call) =>
      var c := s.completions[call];
      if c.id == id then Completed(v, c.inspected.value, s.objects[c.inspected.value]) else v
    case MarkAvailable(x) => if x == id then v.(status := Available, version := v.version + 1) else v
    case Review(x, digest, _, release) => if x == id then Reviewed(v, digest, release) else v
    case _ => v
  }

  lemma {:induction false} VersionIs(s: System, step: Step, id: Id)
    requires id in s.versions && Enabled(s, step)
    ensures id in Next(s, step).versions && Next(s, step).versions[id] == VersionAfter(s, step, id)
  {
  }

  lemma {:induction false} NewVersionIs(s: System, step: Step, id: Id)
    requires id !in s.versions && id in Next(s, step).versions
    ensures Next(s, step).versions[id].status == PendingUpload && Next(s, step).versions[id].pinned.None?
    ensures Next(s, step).versions[id].releasedDigest.None?
  {
  }

  lemma {:induction false} VersionGrows(s: System, step: Step, id: Id)
    requires Invariant(s) && id in s.versions
    ensures id in Next(s, step).versions && SameEvidence(s.versions[id], Next(s, step).versions[id])
  {
    assert PinnedRight(s, id);
    if Enabled(s, step) {
      VersionIs(s, step, id);
    }
  }

  lemma {:induction false} StorageGrows(s: System, step: Step)
    ensures forall o :: o in s.objects ==> o in Next(s, step).objects && Next(s, step).objects[o] == s.objects[o]
    ensures s.releases <= Next(s, step).releases
  {
  }

  lemma {:induction false} StepGrows(s: System, step: Step)
    requires Invariant(s)
    ensures Grows(s, Next(s, step))
  {
    var s' := Next(s, step);
    forall id | id in s.versions ensures id in s'.versions && SameEvidence(s.versions[id], s'.versions[id]) {
      VersionGrows(s, step, id);
    }
    StorageGrows(s, step);
  }

  lemma {:induction false} ReviewRecorded(s: System, step: Step, id: Id)
    requires id in s.versions && Enabled(s, step)
    ensures VersionAfter(s, step, id).releasedDigest.Some? ==>
      || VersionAfter(s, step, id).releasedDigest == s.versions[id].releasedDigest
      || (VersionAfter(s, step, id).releasedDigest.value in Next(s, step).releases
          && VersionAfter(s, step, id).releasedDigest.value.id == id)
  {
  }

  lemma {:induction false} PinnedOrSame(s: System, step: Step, id: Id)
    requires Invariant(s) && id in s.versions && Enabled(s, step)
    ensures var v, w := s.versions[id], VersionAfter(s, step, id);
      && (w.pinned == v.pinned || (w.pinned.Some? && w.pinned.value in s.objects && s.objects[w.pinned.value].key == id
            && s.objects[w.pinned.value].bytes == v.declared && |s.objects[w.pinned.value].bytes| == v.declaredSize))
      && (w.status == PendingUpload ==> v.status == PendingUpload && w.pinned == v.pinned)
  {
    if step.CommitCompletion? {
      assert CompletionSound(s, step.call);
    }
  }

  lemma {:induction false} PinsKept(s: System, step: Step, id: Id)
    requires Invariant(s) && id in Next(s, step).versions
    ensures PinnedRight(Next(s, step), id)
  {
    StorageGrows(s, step);
    if id !in s.versions {
      NewVersionIs(s, step, id);
    } else {
      assert PinnedRight(s, id);
      VersionGrows(s, step, id);
      if Enabled(s, step) {
        VersionIs(s, step, id);
        PinnedOrSame(s, step, id);
        ReviewRecorded(s, step, id);
      }
    }
  }

  lemma {:induction false} CompletionKept(s: System, step: Step, call: Id)
    requires Invariant(s) && call in Next(s, step).completions
    ensures CompletionSound(Next(s, step), call)
  {
    StepGrows(s, step);
    if call in s.completions {
      assert CompletionSound(s, call);
      assert PinnedRight(s, s.completions[call].id);
    }
  }

  lemma {:induction false} IssuedKept(s: System, step: Step, i: nat)
    requires Invariant(s) && i < |Next(s, step).issued|
    ensures IssuedRight(Next(s, step), Next(s, step).issued[i])
  {
    StepGrows(s, step);
    if i < |s.issued| {
      assert IssuedRight(s, s.issued[i]);
    } else {
      assert PinnedRight(s, s.downloads[step.call].id);
    }
  }

  lemma {:induction false} NumbersSame(s: System, s': System)
    requires Numbered(s) && s'.versions.Keys == s.versions.Keys && s'.documents.Keys == s.documents.Keys
    requires forall id :: id in s.versions ==>
      s'.versions[id].document == s.versions[id].document && s'.versions[id].number == s.versions[id].number
    requires forall d :: d in s.documents ==> s'.documents[d].latest == s.documents[d].latest
    ensures Numbered(s')
  {
    forall d, n | d in s'.documents && 1 <= n <= s'.documents[d].latest ensures HasNumber(s', d, n) {
      assert HasNumber(s, d, n);
      var id :| id in s.versions && s.versions[id].document == d && s.versions[id].number == n;
      assert s'.versions[id].number == n;
    }
  }

  /** A replacement takes the next number of its document. */
  lemma {:induction false} NumberAdded(s: System, s': System, d: Id, id: Id, v: Version)
    requires Numbered(s) && id !in s.versions && s'.versions == s.versions[id := v] && v.document == d
    requires d in s'.documents && v.number == s'.documents[d].latest
    requires if d in s.documents then v.number == s.documents[d].latest + 1 else v.number == 1
    requires s'.documents.Keys == s.documents.Keys + {d}
      && forall x :: x in s.documents && x != d ==> s'.documents[x].latest == s.documents[x].latest
    ensures Numbered(s')
  {
    forall x, n | x in s'.documents && 1 <= n <= s'.documents[x].latest ensures HasNumber(s', x, n) {
      if x == d && n == v.number {
        assert s'.versions[id].number == n;
      } else {
        assert HasNumber(s, x, n);
        var y :| y in s.versions && s.versions[y].document == x && s.versions[y].number == n;
        assert s'.versions[y].number == n;
      }
    }
  }

  lemma {:induction false} NumbersKept(s: System, step: Step)
    requires Invariant(s)
    ensures Numbered(Next(s, step))
  {
    var s' := Next(s, step);
    if Enabled(s, step) && step.NewDocument? {
      NumberAdded(s, s', step.document, step.id, s'.versions[step.id]);
    } else if Enabled(s, step) && step.Replace? {
      NumberAdded(s, s', step.document, step.id, s'.versions[step.id]);
    } else {
      StepGrows(s, step);
      NumbersSame(s, s');
    }
  }

  lemma {:induction false} StepKeeps(s: System, step: Step)
    requires Invariant(s)
    ensures Invariant(Next(s, step))
  {
    var s' := Next(s, step);
    forall id | id in s'.versions ensures PinnedRight(s', id) { PinsKept(s, step, id); }
    forall call | call in s'.completions ensures CompletionSound(s', call) { CompletionKept(s, step, call); }
    forall i | 0 <= i < |s'.issued| ensures IssuedRight(s', s'.issued[i]) { IssuedKept(s, step, i); }
    NumbersKept(s, step);
    LatestKept(s, step);
  }

  lemma {:induction false} LatestKept(s: System, step: Step)
    requires LatestRight(s)
    ensures LatestRight(Next(s, step))
  {
  }

  lemma {:induction false} RunKeeps(s: System, steps: seq<Step>)
    requires Invariant(s)
    ensures Invariant(Run(s, steps))
  {
    if steps != [] {
      RunKeeps(s, steps[..|steps| - 1]);
      StepKeeps(Run(s, steps[..|steps| - 1]), steps[|steps| - 1]);
    }
  }

  /** Over all races of complete, resume, overwrite and scan: a set storage version id never changes, and
      always names stored bytes whose size and checksum are the declared ones. */
  lemma {:induction false} PinnedForGood(s: System, steps: seq<Step>, id: Id)
    requires Invariant(s) && id in s.versions && s.versions[id].pinned.Some?
    ensures var s' := Run(s, steps);
      && id in s'.versions && s'.versions[id].pinned == s.versions[id].pinned
      && s'.versions[id].pinned.value in s'.objects
      && s'.objects[s'.versions[id].pinned.value].bytes == s.versions[id].declared
      && |s'.objects[s'.versions[id].pinned.value].bytes| == s.versions[id].declaredSize
  {
    RunKeeps(s, steps);
    if steps != [] {
      var before := Run(s, steps[..|steps| - 1]);
      PinnedForGood(s, steps[..|steps| - 1], id);
      RunKeeps(s, steps[..|steps| - 1]);
      StepGrows(before, steps[|steps| - 1]);
      DeclaredForGood(s, steps, id);
    }
    assert PinnedRight(Run(s, steps), id);
  }

  lemma {:induction false} DeclaredForGood(s: System, steps: seq<Step>, id: Id)
    requires Invariant(s) && id in s.versions
    ensures id in Run(s, steps).versions
    ensures Run(s, steps).versions[id].declared == s.versions[id].declared
    ensures Run(s, steps).versions[id].declaredSize == s.versions[id].declaredSize
  {
    if steps != [] {
      DeclaredForGood(s, steps[..|steps| - 1], id);
      RunKeeps(s, steps[..|steps| - 1]);
      StepGrows(Run(s, steps[..|steps| - 1]), steps[|steps| - 1]);
    }
  }

  /** The numbers of a document's versions are exactly 1 to its latest, each once. */
  lemma {:induction false} NumbersExact(s: System, steps: seq<Step>, d: Id, n: int)
    requires Invariant(s) && d in Run(s, steps).documents
    ensures HasNumber(Run(s, steps), d, n) <==> 1 <= n <= Run(s, steps).documents[d].latest
    ensures NumbersUnique(Run(s, steps))
  {
    RunKeeps(s, steps);
    var s' := Run(s, steps);
    if HasNumber(s', d, n) {
      var id :| id in s'.versions && s'.versions[id].document == d && s'.versions[id].number == n;
      assert InRange(s', s'.versions[id]);
    }
  }

  /** At the moment a URL is issued without profit permission, the released digest of its version row is
      the pointer's: a withdrawn release, a new pin or a new title in between stops it. */
  lemma {:induction false} IssuedWhileReleased(s: System, step: Step)
    requires Invariant(s) && Next(s, step).issued != s.issued
    ensures |Next(s, step).issued| == |s.issued| + 1
    ensures var download := Next(s, step).issued[|s.issued|];
      && download.id in s.versions && s.versions[download.id].status == Available
      && s.versions[download.id].pinned == Some(download.pointer.pinned)
      && (!download.profit ==> s.versions[download.id].releasedDigest == Some(download.pointer.digest))
  {
  }

  /** Every URL issued without profit permission is for the exact file a review released: its digest
      was released, and it names stored bytes of the declared size and checksum. */
  lemma {:induction false} OnlyReleasedFiles(s: System, steps: seq<Step>, i: nat)
    requires Invariant(s) && i < |Run(s, steps).issued|
    ensures var s', p := Run(s, steps), Run(s, steps).issued[i].pointer;
      && (!s'.issued[i].profit ==> p.digest in s'.releases)
      && p.digest.pinned == Some(p.pinned) && p.pinned in s'.objects
      && s'.objects[p.pinned].bytes == p.digest.declared
  {
    RunKeeps(s, steps);
  }
}
