/** The document service's upload, completion and download, as runs of the pinning protocol. */
module DocumentService {
  import opened Prelude
  import opened DocumentPinning

  datatype Refusal =
    | DocumentNotFound | VersionMismatch | ObjectMissing | SizeMismatch | ChecksumMismatch | MimeMismatch
    | InvalidState | NotAvailable | ReviewRequired | Unpinned | ChangedEvidence

  /** inspect() folds the chunks of one immutable object version into its digest. */
  method InspectBytes(blob: Stored, chunk: nat) returns (size: nat, digest: Bytes)
    requires chunk >= 1
    ensures size == |blob.bytes| && digest == blob.bytes
  {
    size := |blob.bytes|;
    digest := [];
    var offset := 0;
    while offset < |blob.bytes|
      invariant 0 <= offset <= |blob.bytes| && digest == blob.bytes[..offset]
    {
      var end := if offset + chunk < |blob.bytes| then offset + chunk else |blob.bytes|;
      digest := digest + blob.bytes[offset..end];
      offset := end;
    }
  }

  class DocumentService {
    var documents: map<Id, Document>
    var versions: map<Id, Version>
    var objects: map<Id, Stored>
    var latestObject: map<Id, Id>
    var completions: map<Id, Completion>
    var downloads: map<Id, Download>
    var issued: seq<Download>
    ghost var releases: set<Digest>

    ghost function State(): System
      reads this
    {
      System(documents, versions, objects, latestObject, completions, downloads, issued, releases)
    }

    constructor ()
      ensures Invariant(State()) && versions == map[] && documents == map[]
    {
      documents, versions, objects, latestObject := map[], map[], map[], map[];
      completions, downloads, issued, releases := map[], map[], [], {};
    }

    /** _create_upload for a new version of an existing document. */
    method ReplaceUpload(document: Id, id: Id, expected: int, size: nat, declared: Bytes, mime: Id)
          returns (result: Result<Id, Refusal>)
      requires id !in versions
      modifies this`documents, this`versions
      ensures result.Ok? <==> document in old(documents) && old(documents)[document].version == expected
      ensures result == Err(DocumentNotFound) <==> document !in old(documents)
      ensures result == Err(VersionMismatch) <==>
        document in old(documents) && old(documents)[document].version != expected
      ensures State() == Next(old(State()), Step.Replace(document, id, expected, size, declared, mime))
    {
      if document !in documents {
        return Err(DocumentNotFound);
      }
      var row := documents[document];
      if row.version != expected {
        return Err(VersionMismatch);
      }
      row := row.(latest := row.latest + 1);
      row := row.(version := row.version + 1);
      documents := documents[document := row];
      versions := versions[id := NewVersion(document, row.latest, size, declared, mime)];
      return Ok(id);
    }

    /** The read transaction of complete(). */
    method ReadVersion(call: Id, id: Id) returns (result: Result<Id, Refusal>)
      requires call !in completions
      modifies this`completions
      ensures result == if id in versions then Ok(id) else Err(DocumentNotFound)
      ensures State() == Next(old(State()), Step.ReadForCompletion(call, id))
    {
      if id !in versions {
        return Err(DocumentNotFound);
      }
      var v := versions[id];
      completions := completions[call := Completion(id, v.declaredSize, v.declared, v.mime, v.pinned, None)];
      return Ok(id);
    }

    /** The storage inspection of complete(), outside any transaction, with its checks. */
    method InspectUpload(call: Id, chunk: nat) returns (refusal: Option<Refusal>)
      requires chunk >= 1 && call in completions && completions[call].inspected.None?
      requires forall o :: o in latestObject.Values ==> o in objects
      requires completions[call].snapshot.Some? ==> completions[call].snapshot.value in objects
      modifies this`completions
      ensures refusal == Some(ObjectMissing) <==> Inspected(old(State()), old(completions)[call]).None?
      ensures refusal == Some(ObjectMissing) ==> State() == old(State())
      ensures refusal != Some(ObjectMissing) ==>
        State() == Next(old(State()), Step.Inspect(call)) && call in completions
      ensures refusal.None? ==> completions[call].inspected.Some? && completions[call].inspected.value in objects
      ensures refusal.None? ==> Matches(objects[completions[call].inspected.value], completions[call])
      ensures refusal != Some(ObjectMissing) ==>
        var c := completions[call];
        && c.inspected.Some? && c.inspected.value in objects
        && var stored := objects[c.inspected.value];
           && (refusal == Some(SizeMismatch) <==> |stored.bytes| != c.declaredSize)
           && (refusal == Some(ChecksumMismatch) <==> |stored.bytes| == c.declaredSize && stored.bytes != c.declared)
           && (refusal == Some(MimeMismatch) <==>
                 |stored.bytes| == c.declaredSize && stored.bytes == c.declared
                 && stored.mime.Some? && stored.mime.value != c.mime)
           && (refusal == None <==>
                 |stored.bytes| == c.declaredSize && stored.bytes == c.declared
                 && (stored.mime.Some? ==> stored.mime.value == c.mime))
    {
      var c := completions[call];
      if c.snapshot.None? && c.id !in latestObject {
        return Some(ObjectMissing);
      }
      var o := if c.snapshot.Some? then c.snapshot.value else latestObject[c.id];
      assert c.snapshot.None? ==> latestObject[c.id] in latestObject.Values;
      completions := completions[call := c.(inspected := Some(o))];
      var stored := objects[o];
      var size, digest := InspectBytes(stored, chunk);
      if size != c.declaredSize {
        return Some(SizeMismatch);
      }
      if digest != c.declared {
        return Some(ChecksumMismatch);
      }
      if stored.mime.Some? && stored.mime.value != c.mime {
        return Some(MimeMismatch);
      }
      return None;
    }

    /** The locked transaction of complete(): whoever gets here first pins, later calls leave the pin. */
    method CommitUpload(call: Id) returns (result: Result<Id, Refusal>)
      requires Enabled(State(), Step.CommitCompletion(call))
      modifies this`versions, this`completions
      ensures State() == Next(old(State()), Step.CommitCompletion(call))
      ensures result ==
        if old(versions)[old(completions)[call].id].status == Rejected then Err(InvalidState)
        else Ok(old(completions)[call].id)
      ensures result.Ok? ==> versions[old(completions)[call].id].pinned.Some?
    {
      var c := completions[call];
      var o := c.inspected.value;
      var v := versions[c.id];
      completions := completions - {call};
      if v.status == Uploaded || v.status == Scanning || v.status == Available {
        if v.pinned.None? {
          v := v.(pinned := Some(o), version := v.version + 1);
        }
        versions := versions[c.id := v];
        return Ok(c.id);
      }
      if v.status != PendingUpload {
        versions := versions[c.id := v];
        return Err(InvalidState);
      }
      v := v.(status := Uploaded, actualSize := Some(|objects[o].bytes|), actual := Some(objects[o].bytes));
      v := v.(pinned := Some(o), version := v.version + 1);
      versions := versions[c.id := v];
      return Ok(c.id);
    }

    /** _download_pointer when no version is named: the one numbered latest. */
    method LatestPointer(document: Id, profit: bool) returns (result: Result<Pointer, Refusal>)
      requires Invariant(State())
      ensures result == Err(DocumentNotFound) <==> document !in documents
      ensures document in documents ==>
        forall id ::
          id in versions && versions[id].document == document && versions[id].number == documents[document].latest ==>
          PointerTo(State(), id, profit) == if result.Ok? then Some(result.value) else None
      ensures result.Ok? ==> result.value.id in versions && versions[result.value.id].document == document
    {
      if document !in documents {
        return Err(DocumentNotFound);
      }
      var ids := set id | id in versions && versions[id].document == document
        && versions[id].number == documents[document].latest;
      if ids == {} {
        assert forall id :: id in versions && versions[id].document == document ==>
          id in ids || versions[id].number != documents[document].latest;
        return Err(NotAvailable);
      }
      var latest :| latest in ids;
      result := DownloadPointer(latest, profit);
    }

    /** _download_pointer for a named version. */
    method DownloadPointer(id: Id, profit: bool) returns (result: Result<Pointer, Refusal>)
      ensures result.Ok? ==> PointerTo(State(), id, profit) == Some(result.value)
      ensures result.Err? ==> PointerTo(State(), id, profit) == None
      ensures result == Err(DocumentNotFound) <==> id !in versions || versions[id].document !in documents
      ensures result == Err(ReviewRequired) <==>
        && id in versions && versions[id].document in documents && versions[id].status == Available
        && !profit && !Released(id, documents[versions[id].document], versions[id])
      ensures result == Err(NotAvailable) <==>
        id in versions && versions[id].document in documents && versions[id].status != Available
      ensures result == Err(Unpinned) <==>
        && id in versions && versions[id].document in documents && versions[id].status == Available
        && profit && versions[id].pinned.None?
    {
      if id !in versions || versions[id].document !in documents {
        return Err(DocumentNotFound);
      }
      var v := versions[id];
      var document := documents[v.document];
      if v.status != Available {
        return Err(NotAvailable);
      }
      if !profit && !Released(id, document, v) {
        return Err(ReviewRequired);
      }
      if v.pinned.None? {
        return Err(Unpinned);
      }
      return Ok(Pointer(id, v.pinned.value, ContentDigest(id, document, v)));
    }

    /** The second half of download(): issue the signed URL only for an unchanged pointer. */
    method Issue(call: Id) returns (result: Result<Pointer, Refusal>)
      requires call in downloads
      modifies this`issued, this`downloads
      ensures result.Ok? <==>
          PointerTo(old(State()), old(downloads)[call].id, old(downloads)[call].profit)
            == Some(old(downloads)[call].pointer)
      ensures result.Ok? ==>
        State() == Next(old(State()), Step.IssueUrl(call)) && result.value == old(downloads)[call].pointer
      ensures result.Err? ==> issued == old(issued)
      ensures result == Err(ChangedEvidence) <==>
        var now := PointerTo(old(State()), old(downloads)[call].id, old(downloads)[call].profit);
        now.Some? && now.value != old(downloads)[call].pointer
      ensures call !in downloads
    {
      var download := downloads[call];
      var current := DownloadPointer(download.id, download.profit);
      downloads := downloads - {call};
      if current.Err? {
        return current;
      }
      if current.value != download.pointer {
        return Err(ChangedEvidence);
      }
      issued := issued + [download];
      return current;
    }
  }
}
